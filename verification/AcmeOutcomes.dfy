/** What each call of the ACME orchestrator comes to, stated from what it meets, and when
    a production order may be placed. */
module AcmeOutcomes {
  import opened AcmeLog
  import opened AcmeSteps
  import opened Common
  import opened Identifiers
  import opened Jobs

  /** Where a job stands: its state and certificate, and what is stored for it. */
  datatype Place = Place(
    state: State,
    certificate: Option<CertificateId>,
    records: Option<seq<TxtRecord>>,
    target: Option<State>)

  function PlaceOf(d: Desk, id: JobId): Place
    requires id in d.jobs
  {
    Place(d.jobs[id].state, d.jobs[id].certificate,
          if id in d.presented then Some(d.presented[id]) else None,
          if id in d.targets then Some(d.targets[id]) else None)
  }

  /** Nothing changed but the state, version and certificate of one job and what is stored for it. */
  predicate OnlyPlace(before: Desk, after: Desk, id: JobId) {
    && id in before.jobs && id in after.jobs
    && after.jobs == before.jobs[id := before.jobs[id].(
                       state := after.jobs[id].state, version := after.jobs[id].version,
                       certificate := after.jobs[id].certificate)]
    && after.presented - {id} == before.presented - {id}
    && after.targets - {id} == before.targets - {id}
  }

  predicate NothingChanged(before: Desk, after: Desk) {
    && after.jobs == before.jobs && after.presented == before.presented
    && after.targets == before.targets && after.proofs == before.proofs
  }

  /** How deleting the records shows: the manual provider reports no errors, and nor does
      Cloudflare without a record. */
  predicate Shows(dns: DnsProvider, records: seq<TxtRecord>, answer: Cleanup, report: Cleanup) {
    if answer == Errors && (dns == Manual || records == []) then report == Clean else report == answer
  }

  /** Where validation, issuing and cleanup leave a job with these records. */
  predicate Completed(before: Desk, id: JobId, records: seq<TxtRecord>, authority: Authority, report: Cleanup,
                      after: Desk, outcome: Outcome)
  {
    && OnlyPlace(before, after, id)
    && var was, place := PlaceOf(before, id), PlaceOf(after, id);
       match report
       case Raises =>
         && outcome == Raised && after.proofs == before.proofs
         && place == was.(state := if authority == FailsValidating then Validating else Issuing, records := Some(records))
       case Errors =>
         && outcome == Done && after.proofs == before.proofs
         && (match authority
             case Delivers(certificate) => place == Place(CleanupRequired, Some(certificate), Some(records), Some(Issued))
             case _ => place == was.(state := CleanupRequired, records := Some(records)))
       case Clean =>
         && outcome == Done
         && (match authority
             case Delivers(certificate) =>
               && place == Place(Issued, Some(certificate), None, was.target)
               && after.proofs == before.proofs
                                  + if before.jobs[id].environment == Staging then {ProofKey(before.jobs[id].identifiers)} else {}
             case _ => place == was.(state := Failed, records := Some(records)) && after.proofs == before.proofs)
  }

  /** With its records stored, the job waits for validation; the rest is as in `before`. */
  predicate Waits(before: Desk, begun: Desk, id: JobId, records: seq<TxtRecord>) {
    && id in before.jobs && begun.calls != []
    && OnlyPlace(before, begun, id) && begun.proofs == before.proofs
    && PlaceOf(begun, id) == PlaceOf(before, id).(state := AwaitingDns, records := Some(records))
  }

  predicate Advanced(before: Desk, advanced: Desk, id: JobId, records: seq<TxtRecord>, authority: Authority) {
    && id in before.jobs && advanced.calls != []
    && OnlyPlace(before, advanced, id) && advanced.proofs == before.proofs
    && PlaceOf(advanced, id) == PlaceOf(before, id).(
         state := if authority == FailsValidating then Validating else Issuing, records := Some(records))
  }

  lemma AdvancesComes(before: Desk, begun: Desk, id: JobId, records: seq<TxtRecord>, authority: Authority)
    requires Waits(before, begun, id, records)
    ensures Advanced(before, Advances(begun, id, authority), id, records, authority)
  {
  }

  lemma EntersComes(before: Desk, d: Desk, id: JobId, records: seq<TxtRecord>, authority: Authority, to: State,
                    certificate: Option<CertificateId>, saved: Option<State>)
    requires Advanced(before, d, id, records, authority)
    ensures var after := Enters(d, id, to, certificate, saved);
            && OnlyPlace(before, after, id) && after.proofs == before.proofs
            && PlaceOf(after, id) == Place(to, if certificate.Some? then certificate else before.jobs[id].certificate,
                                           Some(records), if saved.Some? then saved else PlaceOf(before, id).target)
  {
  }

  lemma FinishesComes(before: Desk, d: Desk, id: JobId, records: seq<TxtRecord>, c: Completion, report: Cleanup)
    requires Advanced(before, d, id, records, c.authority) && Shows(before.jobs[id].dns, records, c.cleanup, report)
    ensures Completed(before, id, records, c.authority, report, Finishes(d, id, records, c), Answered(c))
  {
    var cleaned := CleansUp(d, id, records, c.cleanup);
    assert Met(d, id, records, c.cleanup) == report;
    assert Advanced(before, cleaned, id, records, c.authority);
    match report {
      case Raises =>
      case Errors =>
        if c.authority.Delivers? {
          EntersComes(before, cleaned, id, records, c.authority, CleanupRequired, Some(c.authority.certificate), Some(Issued));
        } else {
          EntersComes(before, cleaned, id, records, c.authority, CleanupRequired, None, None);
        }
      case Clean =>
        if c.authority.Delivers? {
          EntersComes(before, cleaned, id, records, c.authority, Issued, Some(c.authority.certificate), None);
        }
    }
  }

  lemma CompletesComes(d: Desk, begun: Desk, id: JobId, records: seq<TxtRecord>, c: Completion, report: Cleanup)
    requires Waits(d, begun, id, records) && Shows(d.jobs[id].dns, records, c.cleanup, report)
    ensures Completed(d, id, records, c.authority, report, Completes(begun, id, records, c), Answered(c))
  {
    AdvancesComes(d, begun, id, records, c.authority);
    FinishesComes(d, Advances(begun, id, c.authority), id, records, c, report);
  }

  /** Starting a draft. */
  lemma StartComes(d: Desk, id: JobId, setup: Setup, c: Completion, report: Cleanup)
    requires IsAcme(d, id, Draft)
    requires setup.presented.Some? ==> Shows(d.jobs[id].dns, setup.presented.value, c.cleanup, report)
    ensures var (after, outcome) := AfterCall(d, Start(id, setup, c));
            var job := d.jobs[id];
            if job.environment == Production && ProofKey(job.identifiers) !in d.proofs then
              outcome == StagingRequired && NothingChanged(d, after)
            else if !setup.prepared || !setup.ordered || setup.presented.None? then
              outcome == Raised && NothingChanged(d, after)
            else if job.dns == Manual then
              && outcome == Done && OnlyPlace(d, after, id) && after.proofs == d.proofs
              && PlaceOf(after, id) == PlaceOf(d, id).(state := AwaitingDns, records := setup.presented)
            else Completed(d, id, setup.presented.value, c.authority, report, after, outcome)
  {
    if IsComplete(setup) && !(d.jobs[id].environment == Production && ProofKey(d.jobs[id].identifiers) !in d.proofs) {
      var waiting := Moves(Prepares(Called(d, Start(id, setup, c)), id, setup), id, AwaitingDns);
      CompletesComes(d, waiting, id, setup.presented.value, c, report);
    }
  }

  predicate OrderNoted(after: Desk, call: nat, id: JobId, job: Job) {
    OrderCreated(call, id, job.environment, job.identifiers) in after.log
  }

  lemma CompletesLog(d: Desk, id: JobId, records: seq<TxtRecord>, c: Completion, e: Entry)
    requires id in d.jobs && d.calls != [] && e in d.log
    ensures e in Completes(d, id, records, c).log
  {
    var advanced := Advances(d, id, c.authority);
    assert advanced.log == d.log;
    FinishesLog(advanced, id, records, c, e);
  }

  lemma FinishesLog(d: Desk, id: JobId, records: seq<TxtRecord>, c: Completion, e: Entry)
    requires id in d.jobs && d.calls != [] && e in d.log
    ensures e in Finishes(d, id, records, c).log
  {
    assert e in CleansUp(d, id, records, c.cleanup).log;
  }

  /** Every order that the authority is asked for is noted. */
  lemma OrdersAreNoted(d: Desk, id: JobId, setup: Setup, c: Completion)
    requires IsAcme(d, id, Draft) && setup.prepared
    requires d.jobs[id].environment == Production ==> ProofKey(d.jobs[id].identifiers) in d.proofs
    ensures OrderNoted(AfterCall(d, Start(id, setup, c)).0, |d.calls|, id, d.jobs[id])
  {
    var begun := Called(d, Start(id, setup, c));
    var prepared := Prepares(begun, id, setup);
    var e := OrderCreated(|d.calls|, id, d.jobs[id].environment, d.jobs[id].identifiers);
    assert e in prepared.log;
    if IsComplete(setup) && d.jobs[id].dns == Cloudflare {
      CompletesLog(Moves(prepared, id, AwaitingDns), id, setup.presented.value, c, e);
    }
  }

  lemma RenewedOrdersAreNoted(d: Desk, id: JobId, renewed: Setup)
    requires IsAcme(d, id, AwaitingDns) && d.jobs[id].dns == Manual && id in d.presented && renewed.prepared
    ensures OrderNoted(AfterCall(d, Continue(id, Expired(renewed))).0, |d.calls|, id, d.jobs[id])
  {
  }

  /** Continuing a manual challenge. */
  lemma ContinueComes(d: Desk, id: JobId, seen: Visibility, report: Cleanup)
    requires IsAcme(d, id, AwaitingDns) && d.jobs[id].dns == Manual && id in d.presented
    requires seen.Visible? ==> Shows(Manual, d.presented[id], seen.completion.cleanup, report)
    ensures var (after, outcome) := AfterCall(d, Continue(id, seen));
            match seen
            case Unreadable => outcome == Raised && NothingChanged(d, after)
            case Invisible => outcome == Done && NothingChanged(d, after)
            case Expired(renewed) =>
              if !renewed.prepared || !renewed.ordered || renewed.presented.None? then
                outcome == Raised && NothingChanged(d, after)
              else
                && outcome == Done && OnlyPlace(d, after, id) && after.proofs == d.proofs
                && PlaceOf(after, id) == PlaceOf(d, id).(records := renewed.presented)
            case Visible(completion) => Completed(d, id, d.presented[id], completion.authority, report, after, outcome)
  {
    if seen.Visible? {
      CompletesComes(d, Called(d, Continue(id, seen)), id, d.presented[id], seen.completion, report);
    }
  }

  /** The states that a job can be cancelled from, and those it can be parked from. */
  const CANCELLABLE: set<State> := {Draft, AwaitingDns, AwaitingExternalCa, CleanupRequired}
  const PARKABLE: set<State> := {AwaitingDns, Validating, Issuing}

  predicate CancelledAs(before: Desk, id: JobId, report: Cleanup, after: Desk, outcome: Outcome) {
    && OnlyPlace(before, after, id) && after.proofs == before.proofs
    && var was, place := PlaceOf(before, id), PlaceOf(after, id);
       match report
       case Raises => outcome == Raised && place == was
       case Errors =>
         if was.state in PARKABLE then outcome == Done && place == was.(state := CleanupRequired, target := Some(Cancelled))
         else outcome == Raised && place == was.(target := Some(Cancelled))
       case Clean =>
         if was.state in CANCELLABLE then outcome == Done && place == was.(state := Cancelled)
         else place == was && outcome == if was.state == Cancelled then Done else Raised
  }

  lemma CancelsCleanComes(before: Desk, d: Desk, id: JobId)
    requires id in d.jobs && d.calls != [] && NothingChanged(before, d)
    ensures CancelledAs(before, id, Clean, CancelsClean(d, id).0, CancelsClean(d, id).1)
  {
  }

  lemma ParksCancelledComes(before: Desk, d: Desk, id: JobId)
    requires id in d.jobs && d.calls != [] && NothingChanged(before, d)
    ensures CancelledAs(before, id, Errors, ParksCancelled(d, id).0, ParksCancelled(d, id).1)
  {
  }

  /** Cancelling. */
  lemma CancelComes(d: Desk, id: JobId, cleanup: Cleanup, report: Cleanup)
    requires id in d.jobs
    requires var records := if id in d.presented then d.presented[id] else [];
             if records == [] then report == Clean else Shows(d.jobs[id].dns, records, cleanup, report)
    ensures var (after, outcome) := AfterCall(d, CancelJob(id, cleanup)); CancelledAs(d, id, report, after, outcome)
  {
    var begun := Called(d, CancelJob(id, cleanup));
    if Stored(d, id) == [] {
      CancelsCleanComes(d, begun, id);
    } else {
      var cleaned := CleansUp(begun, id, Stored(d, id), cleanup);
      CancelsCleanComes(d, cleaned, id);
      ParksCancelledComes(d, cleaned, id);
    }
  }

  /** Retrying a cleanup. */
  lemma RetryComes(d: Desk, id: JobId, cleanup: Cleanup, report: Cleanup)
    requires InOrder(d) && IsAcme(d, id, CleanupRequired)
    requires Shows(d.jobs[id].dns, if id in d.presented then d.presented[id] else [], cleanup, report)
    ensures var (after, outcome) := AfterCall(d, Retry(id, cleanup));
            var was := PlaceOf(d, id);
            && OnlyPlace(d, after, id) && after.proofs == d.proofs
            && var place := PlaceOf(after, id);
               match report
               case Raises => outcome == Raised && place == was
               case Errors => outcome == Done && place == was
               case Clean => outcome == Done && place == was.(state := if was.target == Some(Cancelled) then Cancelled else Issued)
  {
  }

  /** The other calls, and those refused. */
  lemma OthersCome(d: Desk, call: Call)
    ensures var (after, outcome) := AfterCall(d, call);
            match call
            case NewJob(id, issuer, environment, dns, identifiers) =>
              if id in d.jobs then outcome == Raised && NothingChanged(d, after)
              else
                && outcome == Done && after.presented == d.presented && after.targets == d.targets && after.proofs == d.proofs
                && after.jobs == d.jobs[id := Job(issuer, environment, dns, identifiers, Draft, 0, None)]
            case Delete(id) =>
              if id in d.jobs && d.jobs[id].state in {Cancelled, Failed, Issued, Deployed, DeploymentPending} then
                && outcome == Done && after.jobs == d.jobs - {id}
                && after.presented == d.presented && after.targets == d.targets && after.proofs == d.proofs
              else outcome == Raised && NothingChanged(d, after)
            case Start(id, _, _) => !IsAcme(d, id, Draft) ==> outcome == Raised && NothingChanged(d, after)
            case Continue(id, _) =>
              !(IsAcme(d, id, AwaitingDns) && d.jobs[id].dns == Manual && id in d.presented) ==>
                outcome == Raised && NothingChanged(d, after)
            case CancelJob(id, _) => id !in d.jobs ==> outcome == Raised && NothingChanged(d, after)
            case Retry(id, _) => !IsAcme(d, id, CleanupRequired) ==> outcome == Raised && NothingChanged(d, after)
            case Recover(id, answer) =>
              && after.presented == d.presented && after.targets == d.targets && after.proofs == d.proofs
              && (if id in d.jobs && !NeedsRecovery(d.jobs[id]) then outcome == Done && after.jobs == d.jobs
                  else if id in d.jobs && d.jobs[id].state == Validating && answer.Some? && answer != Some(Pending) then
                    && outcome == Done && OnlyPlace(d, after, id)
                    && after.jobs[id].state == (if answer == Some(Invalid) then Failed else Issuing)
                    && after.jobs[id].certificate == d.jobs[id].certificate
                  else if id in d.jobs && d.jobs[id].state == Issuing && answer == Some(Invalid) then
                    && outcome == Done && OnlyPlace(d, after, id)
                    && after.jobs[id].state == Failed && after.jobs[id].certificate == d.jobs[id].certificate
                  else outcome == Raised && after.jobs == d.jobs)
  {
  }

  // ---- What each call notes ----

  /** The note of a state entered, in the current call, with what is stored for the job. */
  predicate EntryNoted(e: Entry, d: Desk, id: JobId, records: seq<TxtRecord>, to: State, certificate: Option<CertificateId>)
    requires id in d.jobs
  {
    var job := d.jobs[id];
    e == Entered(|d.calls|, id, job.environment, job.identifiers, to, records, certificate,
                 if id in d.targets then Some(d.targets[id]) else None)
  }

  predicate CleanupNoted(e: Entry, d: Desk, id: JobId, records: seq<TxtRecord>, report: Cleanup)
    requires id in d.jobs
  {
    e == CleanedUp(|d.calls|, id, d.jobs[id].dns, records, report)
  }

  /** A completion notes its cleanup, and then the state entered unless the job failed or
      the cleanup raised. `from` is the log before the cleanup. */
  predicate CompletionNoted(d: Desk, from: seq<Entry>, id: JobId, records: seq<TxtRecord>, authority: Authority,
                            report: Cleanup, log: seq<Entry>)
    requires id in d.jobs
  {
    && |log| > |from| && log[..|from|] == from && CleanupNoted(log[|from|], d, id, records, report)
    && if report == Raises || (report == Clean && !authority.Delivers?) then |log| == |from| + 1
       else
         && |log| == |from| + 2
         && EntryNoted(log[|from| + 1], d, id, records, if report == Clean then Issued else CleanupRequired,
                       if authority.Delivers? then Some(authority.certificate) else d.jobs[id].certificate)
  }

  lemma FinishesNotes(d: Desk, now: Desk, id: JobId, records: seq<TxtRecord>, c: Completion, report: Cleanup)
    requires id in d.jobs && |now.calls| == |d.calls| + 1 && Advanced(d, now, id, records, c.authority)
    requires Shows(d.jobs[id].dns, records, c.cleanup, report)
    ensures CompletionNoted(d, now.log, id, records, c.authority, report, Finishes(now, id, records, c).log)
  {
    assert Met(now, id, records, c.cleanup) == report;
    assert PlaceOf(now, id).target == PlaceOf(d, id).target && PlaceOf(now, id).records == Some(records);
  }

  lemma StartNotes(d: Desk, id: JobId, setup: Setup, c: Completion, report: Cleanup)
    requires IsAcme(d, id, Draft) && d.jobs[id].dns == Cloudflare && IsComplete(setup)
    requires d.jobs[id].environment == Production ==> ProofKey(d.jobs[id].identifiers) in d.proofs
    requires Shows(Cloudflare, setup.presented.value, c.cleanup, report)
    ensures var order := OrderCreated(|d.calls|, id, d.jobs[id].environment, d.jobs[id].identifiers);
            CompletionNoted(d, d.log + [order], id, setup.presented.value, c.authority, report,
                            AfterCall(d, Start(id, setup, c)).0.log)
  {
    var waiting := Moves(Prepares(Called(d, Start(id, setup, c)), id, setup), id, AwaitingDns);
    var now := Advances(waiting, id, c.authority);
    AdvancesComes(d, waiting, id, setup.presented.value, c.authority);
    FinishesNotes(d, now, id, setup.presented.value, c, report);
    assert now.log == d.log + [OrderCreated(|d.calls|, id, d.jobs[id].environment, d.jobs[id].identifiers)];
  }

  lemma ContinueNotes(d: Desk, id: JobId, c: Completion, report: Cleanup)
    requires IsAcme(d, id, AwaitingDns) && d.jobs[id].dns == Manual && id in d.presented
    requires Shows(Manual, d.presented[id], c.cleanup, report)
    ensures CompletionNoted(d, d.log, id, d.presented[id], c.authority, report,
                            AfterCall(d, Continue(id, Visible(c))).0.log)
  {
    var begun := Called(d, Continue(id, Visible(c)));
    AdvancesComes(d, begun, id, d.presented[id], c.authority);
    FinishesNotes(d, Advances(begun, id, c.authority), id, d.presented[id], c, report);
  }

  lemma EntersNotes(d: Desk, now: Desk, id: JobId, records: seq<TxtRecord>, to: State)
    requires id in d.jobs && |now.calls| == |d.calls| + 1 && NothingChanged(d, now)
    requires records == if id in d.presented then d.presented[id] else []
    ensures EntryNoted(EntryFor(now, id, to, None), d, id, records, to, d.jobs[id].certificate)
  {
  }

  /** A retry notes its cleanup, and if it was clean the state entered. */
  lemma RetryNotes(d: Desk, id: JobId, cleanup: Cleanup, records: seq<TxtRecord>, report: Cleanup)
    requires InOrder(d) && IsAcme(d, id, CleanupRequired) && records == if id in d.presented then d.presented[id] else []
    requires Shows(d.jobs[id].dns, records, cleanup, report)
    ensures var log, n := AfterCall(d, Retry(id, cleanup)).0.log, |d.log|;
            && |log| == (if report == Clean then n + 2 else n + 1) && log[..n] == d.log
            && CleanupNoted(log[n], d, id, records, report)
            && (report == Clean ==>
                  EntryNoted(log[n + 1], d, id, records,
                             if id in d.targets && d.targets[id] == Cancelled then Cancelled else Issued, d.jobs[id].certificate))
  {
    var begun := Called(d, Retry(id, cleanup));
    var cleaned := CleansUp(begun, id, records, cleanup);
    assert Met(begun, id, records, cleanup) == report;
    EntersNotes(d, cleaned, id, records, RetryTarget(d, id));
    assert cleaned.log == d.log + [CleanupEntry(begun, id, records, cleanup)];
  }

  /** A cancellation cleans up what is stored, if anything, and notes it and the state entered. */
  lemma CancelNotes(d: Desk, id: JobId, cleanup: Cleanup, records: seq<TxtRecord>, report: Cleanup)
    requires id in d.jobs && records == if id in d.presented then d.presented[id] else []
    requires if records == [] then report == Clean else Shows(d.jobs[id].dns, records, cleanup, report)
    ensures var log, from := AfterCall(d, CancelJob(id, cleanup)).0.log, |d.log| + if records == [] then 0 else 1;
            && |log| >= from && log[..|d.log|] == d.log && (records != [] ==> CleanupNoted(log[|d.log|], d, id, records, report))
            && (if (report == Clean && d.jobs[id].state in CANCELLABLE) || (report == Errors && d.jobs[id].state in PARKABLE)
                then |log| == from + 1 && EntryNoted(log[from], d, id, records,
                                                     if report == Clean then Cancelled else CleanupRequired, d.jobs[id].certificate)
                else |log| == from)
  {
  }

  // ---- When a production order may be placed ----

  /** A staging job was issued, other than by a retried cleanup. */
  predicate LeavesProof(e: Entry, calls: seq<Call>) {
    e.Entered? && e.environment == Staging && e.to == Issued && e.call < |calls| && !calls[e.call].Retry?
  }

  predicate ProofLeft(log: seq<Entry>, calls: seq<Call>, key: seq<string>) {
    exists j :: 0 <= j < |log| && LeavesProof(log[j], calls) && ProofKey(log[j].identifiers) == key
  }

  ghost predicate ProofsExact(log: seq<Entry>, calls: seq<Call>, proofs: set<seq<string>>) {
    forall key :: key in proofs <==> ProofLeft(log, calls, key)
  }

  ghost predicate Exact(d: Desk) {
    ProofsExact(d.log, d.calls, d.proofs)
  }

  lemma ExactOneMore(log: seq<Entry>, calls: seq<Call>, proofs: set<seq<string>>, e: Entry)
    requires ProofsExact(log, calls, proofs)
    ensures ProofsExact(log + [e], calls, if LeavesProof(e, calls) then proofs + {ProofKey(e.identifiers)} else proofs)
  {
    var longer := log + [e];
    assert longer[|log|] == e;
    forall key ensures ProofLeft(longer, calls, key) <==>
                       ProofLeft(log, calls, key) || (LeavesProof(e, calls) && ProofKey(e.identifiers) == key)
    {
      if ProofLeft(log, calls, key) {
        var j :| 0 <= j < |log| && LeavesProof(log[j], calls) && ProofKey(log[j].identifiers) == key;
        assert longer[j] == log[j];
      }
      if ProofLeft(longer, calls, key) {
        var j :| 0 <= j < |longer| && LeavesProof(longer[j], calls) && ProofKey(longer[j].identifiers) == key;
        assert j < |log| ==> longer[j] == log[j];
      }
    }
  }

  lemma ExactNextCall(d: Desk, call: Call)
    requires Exact(d) && forall j | 0 <= j < |d.log| :: d.log[j].call < |d.calls|
    ensures Exact(Called(d, call))
  {
    forall key ensures ProofLeft(d.log, d.calls, key) <==> ProofLeft(d.log, d.calls + [call], key) {
      assert forall j | 0 <= j < |d.log| :: LeavesProof(d.log[j], d.calls) <==> LeavesProof(d.log[j], d.calls + [call]);
    }
  }

  lemma FinishesExact(d: Desk, id: JobId, records: seq<TxtRecord>, c: Completion)
    requires Exact(d) && id in d.jobs && d.calls != [] && !d.calls[|d.calls| - 1].Retry?
    ensures Exact(Finishes(d, id, records, c))
  {
    ExactOneMore(d.log, d.calls, d.proofs, CleanupEntry(d, id, records, c.cleanup));
    var cleaned := CleansUp(d, id, records, c.cleanup);
    match Met(d, id, records, c.cleanup) {
      case Raises =>
      case Errors =>
        var certificate := if c.authority.Delivers? then Some(c.authority.certificate) else None;
        ExactOneMore(cleaned.log, d.calls, d.proofs, EntryFor(cleaned, id, CleanupRequired, certificate));
      case Clean =>
        if c.authority.Delivers? {
          ExactOneMore(cleaned.log, d.calls, d.proofs, EntryFor(cleaned, id, Issued, Some(c.authority.certificate)));
        }
    }
  }

  lemma PreparesExact(d: Desk, id: JobId, setup: Setup)
    requires Exact(d) && id in d.jobs && d.calls != []
    ensures Exact(Prepares(d, id, setup))
  {
    ExactOneMore(d.log, d.calls, d.proofs, OrderCreated(|d.calls| - 1, id, d.jobs[id].environment, d.jobs[id].identifiers));
  }

  lemma CancelsExact(d: Desk, id: JobId, cleanup: Cleanup)
    requires Exact(d) && d.calls != []
    ensures Exact(Cancels(d, id, cleanup).0)
  {
    if id in d.jobs {
      var cleaned := CleansUp(d, id, Stored(d, id), cleanup);
      ExactOneMore(d.log, d.calls, d.proofs, CleanupEntry(d, id, Stored(d, id), cleanup));
      ExactOneMore(cleaned.log, d.calls, d.proofs, EntryFor(cleaned, id, CleanupRequired, None));
      ExactOneMore(cleaned.log, d.calls, d.proofs, EntryFor(cleaned, id, Cancelled, None));
      ExactOneMore(d.log, d.calls, d.proofs, EntryFor(d, id, Cancelled, None));
    }
  }

  lemma RetriesExact(d: Desk, id: JobId, cleanup: Cleanup)
    requires Exact(d) && d.calls != [] && d.calls[|d.calls| - 1].Retry?
    ensures Exact(Retries(d, id, cleanup).0)
  {
    if IsAcme(d, id, CleanupRequired) {
      var cleaned := CleansUp(d, id, Stored(d, id), cleanup);
      ExactOneMore(d.log, d.calls, d.proofs, CleanupEntry(d, id, Stored(d, id), cleanup));
      ExactOneMore(cleaned.log, d.calls, d.proofs, EntryFor(cleaned, id, RetryTarget(d, id), None));
    }
  }

  lemma AfterCallExact(d: Desk, call: Call)
    requires Exact(d) && forall j | 0 <= j < |d.log| :: d.log[j].call < |d.calls|
    ensures Exact(AfterCall(d, call).0)
  {
    var begun := Called(d, call);
    ExactNextCall(d, call);
    match call {
      case Start(id, setup, completion) =>
        if IsAcme(begun, id, Draft) {
          PreparesExact(begun, id, setup);
          if IsComplete(setup) {
            var waiting := Moves(Prepares(begun, id, setup), id, AwaitingDns);
            FinishesExact(Advances(waiting, id, completion.authority), id, setup.presented.value, completion);
          }
        }
      case Continue(id, seen) =>
        if IsAcme(begun, id, AwaitingDns) && id in begun.presented {
          if seen.Expired? {
            PreparesExact(begun, id, seen.renewed);
          }
          if seen.Visible? {
            FinishesExact(Advances(begun, id, seen.completion.authority), id, begun.presented[id], seen.completion);
          }
        }
      case CancelJob(id, cleanup) =>
        CancelsExact(begun, id, cleanup);
      case Retry(id, cleanup) =>
        RetriesExact(begun, id, cleanup);
      case _ =>
    }
  }

  lemma {:induction false} AllCallsExact(calls: seq<Call>)
    requires FreshJobs(calls)
    ensures Exact(AllCalls(calls))
  {
    if calls != [] {
      var before, call := calls[..|calls| - 1], calls[|calls| - 1];
      assert calls == before + [call];
      FreshBefore(before, call);
      AllCallsExact(before);
      AllCallsInOrder(before);
      var d := AllCalls(before);
      forall j | 0 <= j < |d.log| ensures d.log[j].call < |d.calls| {
        assert SoundEntry(d.log, d.calls, j);
      }
      AfterCallExact(d, call);
      OneCallMore(before, call);
    }
  }

  lemma RefusedIff(d: Desk, id: JobId, setup: Setup, c: Completion)
    requires IsAcme(d, id, Draft)
    ensures AfterCall(d, Start(id, setup, c)).1 == StagingRequired <==>
            d.jobs[id].environment == Production && ProofKey(d.jobs[id].identifiers) !in d.proofs
  {
  }

  /** After any calls, starting a production draft is refused for want of staging exactly
      when no staging job for the same names was issued, other than by a retried cleanup. */
  lemma {:induction false} StagingRequiredIff(calls: seq<Call>, d: Desk, id: JobId, setup: Setup, c: Completion)
    requires FreshJobs(calls) && d == AllCalls(calls) && IsAcme(d, id, Draft)
    ensures AfterCall(d, Start(id, setup, c)).1 == StagingRequired <==>
            && d.jobs[id].environment == Production
            && !ProofLeft(d.log, calls, ProofKey(d.jobs[id].identifiers))
  {
    AllCallsExact(calls);
    AllCallsInOrder(calls);
    assert ProofsExact(d.log, calls, d.proofs);
    RefusedIff(d, id, setup, c);
  }

  /** A staging job that ends clean opens production for a draft with the same names. */
  lemma StagingOpensProduction(d: Desk, staging: JobId, setup: Setup, certificate: CertificateId, production: JobId,
                               next: Setup, c: Completion)
    requires IsAcme(d, staging, Draft) && d.jobs[staging].environment == Staging && d.jobs[staging].dns == Cloudflare
    requires IsComplete(setup)
    requires IsAcme(d, production, Draft) && d.jobs[production].environment == Production
    requires NoDuplicates(d.jobs[staging].identifiers) && NoDuplicates(d.jobs[production].identifiers)
    requires SameNames(d.jobs[staging].identifiers, d.jobs[production].identifiers)
    ensures var issued := AfterCall(d, Start(staging, setup, Completion(Delivers(certificate), Clean))).0;
            AfterCall(issued, Start(production, next, c)).1 != StagingRequired
  {
    var issued := AfterCall(d, Start(staging, setup, Completion(Delivers(certificate), Clean))).0;
    StartComes(d, staging, setup, Completion(Delivers(certificate), Clean), Clean);
    KeyIffSameNames(d.jobs[staging].identifiers, d.jobs[production].identifiers);
    RefusedIff(issued, production, next, c);
  }

  lemma OnlyPlaceTwice(before: Desk, between: Desk, after: Desk, id: JobId)
    requires OnlyPlace(before, between, id) && OnlyPlace(between, after, id)
    ensures OnlyPlace(before, after, id)
  {
  }

  lemma ParkedAgain(d: Desk, parked: Desk, id: JobId)
    requires IsAcme(d, id, Draft) && OnlyPlace(d, parked, id)
    ensures parked.jobs[id].issuer == Acme && parked.jobs[id].dns == d.jobs[id].dns
  {
  }

  /** A staging job that is issued by a retried cleanup leaves no proof. */
  lemma RetriedLeavesNoProof(d: Desk, staging: JobId, setup: Setup, certificate: CertificateId)
    requires IsAcme(d, staging, Draft) && d.jobs[staging].environment == Staging && d.jobs[staging].dns == Cloudflare
    requires IsComplete(setup) && setup.presented.value != []
    requires InOrder(AfterCall(d, Start(staging, setup, Completion(Delivers(certificate), Errors))).0)
    ensures var parked := AfterCall(d, Start(staging, setup, Completion(Delivers(certificate), Errors))).0;
            var retried := AfterCall(parked, Retry(staging, Clean)).0;
            && OnlyPlace(d, retried, staging) && retried.proofs == d.proofs
            && retried.jobs[staging].state == Issued && retried.jobs[staging].certificate == Some(certificate)
  {
    var parked := AfterCall(d, Start(staging, setup, Completion(Delivers(certificate), Errors))).0;
    StartComes(d, staging, setup, Completion(Delivers(certificate), Errors), Errors);
    ParkedAgain(d, parked, staging);
    RetryComes(parked, staging, Clean, Clean);
    OnlyPlaceTwice(d, parked, AfterCall(parked, Retry(staging, Clean)).0, staging);
  }

  lemma {:induction false} TwoDrafts(staging: JobId, production: JobId) returns (calls: seq<Call>)
    requires staging != production
    ensures FreshJobs(calls) && forall k | 0 <= k < |calls| :: calls[k].NewJob?
    ensures AllCalls(calls).jobs == map[staging := Job(Acme, Staging, Cloudflare, ["a.example"], Draft, 0, None),
                                        production := Job(Acme, Production, Cloudflare, ["a.example"], Draft, 0, None)]
    ensures AllCalls(calls).proofs == {}
  {
    var create := NewJob(staging, Acme, Staging, Cloudflare, ["a.example"]);
    var other := NewJob(production, Acme, Production, Cloudflare, ["a.example"]);
    assert [] + [create] == [create] && AllCalls([]) == EMPTY;
    OneCallMore([], create);
    OneCallMore([create], other);
    calls := [create] + [other];
  }

  lemma ProductionRefused(d: Desk, id: JobId)
    requires IsAcme(d, id, Draft) && d.jobs[id].environment == Production && ProofKey(d.jobs[id].identifiers) !in d.proofs
    ensures forall setup, c :: AfterCall(d, Start(id, setup, c)).1 == StagingRequired
  {
    forall setup, c ensures AfterCall(d, Start(id, setup, c)).1 == StagingRequired {
      RefusedIff(d, id, setup, c);
    }
  }

  lemma OthersStay(before: Desk, after: Desk, id: JobId, other: JobId)
    requires OnlyPlace(before, after, id) && other != id && other in before.jobs
    ensures other in after.jobs && after.jobs[other] == before.jobs[other]
  {
  }

  /** So it happens that staging succeeded, with a certificate, and production stays refused. */
  lemma {:induction false} StagedYetRefused(staging: JobId, production: JobId) returns (calls: seq<Call>, d: Desk)
    requires staging != production
    ensures FreshJobs(calls) && d == AllCalls(calls)
    ensures staging in d.jobs && d.jobs[staging].state == Issued && d.jobs[staging].certificate == Some("c")
    ensures d.jobs[staging].environment == Staging && d.jobs[staging].identifiers == ["a.example"]
    ensures IsAcme(d, production, Draft) && d.jobs[production].identifiers == ["a.example"]
    ensures forall setup, c :: AfterCall(d, Start(production, setup, c)).1 == StagingRequired
  {
    var setup := Setup(true, true, Some([TxtRecord("_acme-challenge.a.example", "v")]));
    var drafts := TwoDrafts(staging, production);
    calls, d := StagedByRetry(drafts, staging, setup);
    OthersStay(AllCalls(drafts), d, staging, production);
    ProductionRefused(d, production);
  }

  lemma {:induction false} StagedByRetry(drafts: seq<Call>, staging: JobId, setup: Setup) returns (calls: seq<Call>, d: Desk)
    requires FreshJobs(drafts) && IsAcme(AllCalls(drafts), staging, Draft)
    requires AllCalls(drafts).jobs[staging].environment == Staging && AllCalls(drafts).jobs[staging].dns == Cloudflare
    requires IsComplete(setup) && setup.presented.value != []
    ensures FreshJobs(calls) && d == AllCalls(calls) && OnlyPlace(AllCalls(drafts), d, staging)
    ensures d.proofs == AllCalls(drafts).proofs
    ensures d.jobs[staging].state == Issued && d.jobs[staging].certificate == Some("c")
  {
    var start, retry := Start(staging, setup, Completion(Delivers("c"), Errors)), Retry(staging, Clean);
    OneCallMore(drafts, start);
    AllCallsInOrder(drafts + [start]);
    OneCallMore(drafts + [start], retry);
    RetriedLeavesNoProof(AllCalls(drafts), staging, setup, "c");
    calls := drafts + [start] + [retry];
    d := AllCalls(calls);
  }
}
