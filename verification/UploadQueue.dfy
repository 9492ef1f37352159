/** Recording the results of an upload run: every result is audited before any
    certificate counts as completed, and a run is recorded once. */
module UploadQueue {
  import opened Common
  import opened UploadList

  datatype Result = Result(selector: string, certificate: CertificateId, ok: bool, status: string)

  datatype Entry = Uploaded(run: RunId, result: Result) | HistoryDeleted

  /** What `finish` writes. */
  datatype Books = Books(audit: seq<Entry>, completed: set<CertificateId>, recorded: seq<RunId>)

  datatype Finish = Finish(run: RunId, results: seq<Result>, remove: bool)

  function Entries(f: Finish): (entries: seq<Entry>)
    ensures |entries| == |f.results| && forall i | 0 <= i < |entries| :: entries[i] == Uploaded(f.run, f.results[i])
  {
    seq(|f.results|, i requires 0 <= i < |f.results| => Uploaded(f.run, f.results[i]))
  }

  function Successes(results: seq<Result>): set<CertificateId> {
    set i | 0 <= i < |results| && results[i].ok :: results[i].certificate
  }

  function WritesNeeded(f: Finish): nat {
    |f.results| + (if f.remove then 1 else 0) + 1
  }

  /** The books after a call that stopped, by an error or with the process, once it
      had made `writes` durable writes, if it needed more than that. */
  function After(b: Books, f: Finish, writes: nat): Books {
    if f.run in b.recorded then b
    else
      var n := |f.results|;
      Books(
        b.audit + Entries(f)[..Min(writes, n)],
        if f.remove && writes > n then b.completed + Successes(f.results) else b.completed,
        if writes >= WritesNeeded(f) then b.recorded + [f.run] else b.recorded)
  }

  predicate Succeeded(results: seq<Result>, id: CertificateId) {
    exists i :: 0 <= i < |results| && results[i].ok && results[i].certificate == id
  }

  /** What a call writes, written out: the results in order, then the certificates that
      succeeded if the list is to be cleared, then the run. */
  lemma FinishWrites(b: Books, f: Finish, writes: nat, id: CertificateId)
    ensures var after, n := After(b, f, writes), |f.results|;
            if f.run in b.recorded then after == b
            else
              && |after.audit| == |b.audit| + Min(writes, n) && after.audit[..|b.audit|] == b.audit
              && (forall i | 0 <= i < Min(writes, n) :: after.audit[|b.audit| + i] == Uploaded(f.run, f.results[i]))
              && (id in after.completed <==> id in b.completed || (f.remove && writes > n && Succeeded(f.results, id)))
              && after.recorded == if writes > (if f.remove then n + 1 else n) then b.recorded + [f.run] else b.recorded
  {
  }

  predicate HasSuccess(ever: seq<Entry>, id: CertificateId) {
    exists entry :: entry in ever && entry.Uploaded? && entry.result.ok && entry.result.certificate == id
  }

  /** Every completed certificate has an audited success, if perhaps one since deleted. */
  ghost predicate Honest(completed: set<CertificateId>, ever: seq<Entry>) {
    forall id | id in completed :: HasSuccess(ever, id)
  }

  lemma HonestExtends(completed: set<CertificateId>, ever: seq<Entry>, more: seq<Entry>)
    requires Honest(completed, ever)
    ensures Honest(completed, ever + more)
  {
    forall id | id in completed ensures HasSuccess(ever + more, id) {
      var entry :| entry in ever && entry.Uploaded? && entry.result.ok && entry.result.certificate == id;
      assert entry in ever + more;
    }
  }

  /** At whatever write a call stops, the books stay honest. */
  lemma FinishStaysHonest(b: Books, ever: seq<Entry>, f: Finish, writes: nat)
    requires Honest(b.completed, ever)
    ensures f.run !in b.recorded ==> Honest(After(b, f, writes).completed, ever + Entries(f)[..Min(writes, |f.results|)])
  {
    var more := Entries(f)[..Min(writes, |f.results|)];
    HonestExtends(b.completed, ever, more);
    if writes > |f.results| {
      forall id | id in Successes(f.results) ensures HasSuccess(ever + more, id) {
        var i :| 0 <= i < |f.results| && f.results[i].ok && f.results[i].certificate == id;
        assert more[i] in ever + more;
      }
    }
  }

  /** A recorded run is never recorded again. */
  lemma RecordedRunChangesNothing(b: Books, f: Finish, writes: nat, again: nat, g: Finish)
    requires writes >= WritesNeeded(f) && g.run == f.run
    ensures After(After(b, f, writes), g, again) == After(b, f, writes)
  {
  }

  /** A call repeated after it stopped anywhere leaves the list and the recorded
      runs as one undisturbed call does, and every result audited. */
  lemma RetryCompletes(b: Books, f: Finish, writes: nat)
    ensures var whole, retried := After(b, f, WritesNeeded(f)), After(After(b, f, writes), f, WritesNeeded(f));
            && retried.completed == whole.completed && retried.recorded == whole.recorded
            && f.run in whole.recorded
            && (f.run !in b.recorded ==> forall i | 0 <= i < |f.results| :: Uploaded(f.run, f.results[i]) in retried.audit)
  {
    var stopped := After(b, f, writes);
    var retried := After(stopped, f, WritesNeeded(f));
    if f.run !in b.recorded {
      forall i | 0 <= i < |f.results| ensures Uploaded(f.run, f.results[i]) in retried.audit {
        assert Entries(f)[..|f.results|][i] in retried.audit;
      }
    }
  }

  /** Once a run that clears the list is finished, none of the certificates it
      delivered is listed, and no older one takes their place. */
  lemma FinishedLeavesList(b: Books, f: Finish, rows: seq<Row>, certificates: seq<Certificate>, naming: Naming, row: Row)
    requires f.run !in b.recorded && f.remove && row in rows
    requires IsListing(rows, certificates, After(b, f, WritesNeeded(f)).completed, naming)
    ensures forall i | 0 <= i < |f.results| && f.results[i].ok :: f.results[i].certificate != row.certificate
    ensures exists i :: 0 <= i < |certificates| && Owns(certificates, i, naming) && certificates[i].id == row.certificate
  {
    assert ListedFrom(certificates, 0, After(b, f, WritesNeeded(f)).completed, naming, row);
    FinishWrites(b, f, WritesNeeded(f), row.certificate);
  }

  // ---- The service ----

  class Queue {
    var audit: seq<Entry>
    var completed: set<CertificateId>
    var recorded: seq<RunId>
    ghost var ever: seq<Entry>

    constructor ()
      ensures Now() == Books([], {}, []) && ever == []
    {
      audit, completed, recorded, ever := [], {}, [], [];
    }

    function Now(): Books
      reads this
    {
      Books(audit, completed, recorded)
    }

    /** `finish`, until `writes` durable writes were made. */
    method Record(f: Finish, writes: nat) returns (done: bool)
      requires Honest(completed, ever)
      modifies this
      ensures Now() == After(old(Now()), f, writes) && Honest(completed, ever)
      ensures done <==> f.run in recorded
      ensures ever == old(ever) + audit[|old(audit)|..] && old(audit) <= audit
    {
      if f.run in recorded {
        return true;
      }
      FinishStaysHonest(Now(), ever, f, writes);
      ghost var before, everBefore := audit, ever;
      var n, i := |f.results|, 0;
      while i < n
        invariant 0 <= i <= n && i <= writes
        invariant audit == before + Entries(f)[..i] && ever == everBefore + Entries(f)[..i]
        invariant completed == old(completed) && recorded == old(recorded)
      {
        if i == writes {
          return false;
        }
        audit := audit + [Uploaded(f.run, f.results[i])];
        ever := ever + [Uploaded(f.run, f.results[i])];
        i := i + 1;
      }
      if writes == n {
        return false;
      }
      if f.remove {
        completed := completed + Successes(f.results);
        if writes == n + 1 {
          return false;
        }
      }
      recorded := recorded + [f.run];
      done := true;
    }

    /** `delete_audit_before`: the entries before some time go, and the deletion is audited. */
    method DeleteHistory(keptFrom: nat)
      requires keptFrom <= |audit| && Honest(completed, ever)
      modifies this`audit, this`ever
      ensures audit == old(audit)[keptFrom..] + [HistoryDeleted]
      ensures ever == old(ever) + [HistoryDeleted] && Honest(completed, ever)
    {
      HonestExtends(completed, ever, [HistoryDeleted]);
      audit, ever := audit[keptFrom..] + [HistoryDeleted], ever + [HistoryDeleted];
    }
  }

  datatype Event = Call(finish: Finish, writes: nat) | Delete(keptFrom: nat)

  function AfterEvent(b: Books, event: Event): Books {
    match event
    case Call(f, writes) => After(b, f, writes)
    case Delete(keptFrom) => b.(audit := b.audit[Min(keptFrom, |b.audit|)..] + [HistoryDeleted])
  }

  function AfterEvents(events: seq<Event>): Books {
    if events == [] then Books([], {}, []) else AfterEvent(AfterEvents(events[..|events| - 1]), events[|events| - 1])
  }

  lemma AfterOneMore(events: seq<Event>, i: nat)
    requires i < |events|
    ensures AfterEvents(events[..i + 1]) == AfterEvent(AfterEvents(events[..i]), events[i])
  {
    assert events[..i + 1][..i] == events[..i];
  }

  /** Runs stay recorded, each once, and a whole call records its run. */
  lemma {:induction false} RecordedOnce(events: seq<Event>)
    ensures NoDuplicates(AfterEvents(events).recorded)
    ensures forall i | 0 <= i < |events| && events[i].Call? && events[i].writes >= WritesNeeded(events[i].finish) ::
              events[i].finish.run in AfterEvents(events).recorded
  {
    if events != [] {
      RecordedOnce(events[..|events| - 1]);
    }
  }

  method Meet(q: Queue, event: Event)
    requires Honest(q.completed, q.ever)
    modifies q
    ensures q.Now() == AfterEvent(old(q.Now()), event) && Honest(q.completed, q.ever)
  {
    if event.Call? {
      var done := q.Record(event.finish, event.writes);
    } else {
      q.DeleteHistory(Min(event.keptFrom, |q.audit|));
    }
  }

  /** Any calls and repetitions, stopped anywhere, with history deleted in between:
      the books that the events determine, honest and with each run recorded once. */
  method RunHistory(events: seq<Event>) returns (q: Queue)
    ensures fresh(q) && q.Now() == AfterEvents(events)
    ensures Honest(q.completed, q.ever) && NoDuplicates(q.recorded)
    ensures forall i | 0 <= i < |events| && events[i].Call? && events[i].writes >= WritesNeeded(events[i].finish) ::
              events[i].finish.run in q.recorded
  {
    q := new Queue();
    for i := 0 to |events|
      invariant fresh(q) && q.Now() == AfterEvents(events[..i]) && Honest(q.completed, q.ever)
    {
      AfterOneMore(events, i);
      Meet(q, events[i]);
    }
    assert events[..|events|] == events;
    RecordedOnce(events);
  }
}
