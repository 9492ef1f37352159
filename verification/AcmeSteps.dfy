/** What each call of the ACME orchestrator makes of its state, as functions of the
    state before, and what every sequence of calls keeps. */
module AcmeSteps {
  import opened AcmeLog
  import opened Common
  import opened Identifiers
  import opened Jobs

  datatype Outcome = Done | Raised | StagingRequired

  /** The jobs, the settings of the orchestrator, the calls made and the log of them.
      `used` holds every identifier a job ever had. */
  datatype Desk = Desk(
    jobs: map<JobId, Job>,
    presented: map<JobId, seq<TxtRecord>>,
    targets: map<JobId, State>,
    proofs: set<seq<string>>,
    calls: seq<Call>,
    log: seq<Entry>,
    used: set<JobId>)

  const EMPTY := Desk(map[], map[], map[], {}, [], [], {})

  predicate IsAcme(d: Desk, id: JobId, state: State) {
    id in d.jobs && d.jobs[id].issuer == Acme && d.jobs[id].state == state
  }

  /** The records stored for a job. */
  function Stored(d: Desk, id: JobId): seq<TxtRecord> {
    if id in d.presented then d.presented[id] else []
  }

  function Target(d: Desk, id: JobId): Option<State> {
    if id in d.targets then Some(d.targets[id]) else None
  }

  // ---- Single steps ----

  /** A transition that the log does not note. */
  function Moves(d: Desk, id: JobId, to: State): Desk
    requires id in d.jobs
  {
    d.(jobs := d.jobs[id := Moved(d.jobs[id], to, None)])
  }

  /** How the job's provider answers for these records. */
  function Met(d: Desk, id: JobId, records: seq<TxtRecord>, answer: Cleanup): Cleanup
    requires id in d.jobs
  {
    Reported(d.jobs[id].dns, records, answer)
  }

  function CleanupEntry(d: Desk, id: JobId, records: seq<TxtRecord>, answer: Cleanup): Entry
    requires id in d.jobs && d.calls != []
  {
    CleanedUp(|d.calls| - 1, id, d.jobs[id].dns, records, Met(d, id, records, answer))
  }

  function CleansUp(d: Desk, id: JobId, records: seq<TxtRecord>, answer: Cleanup): Desk
    requires id in d.jobs && d.calls != []
  {
    d.(log := d.log + [CleanupEntry(d, id, records, answer)])
  }

  function EntryFor(d: Desk, id: JobId, to: State, certificate: Option<CertificateId>): Entry
    requires id in d.jobs && d.calls != []
  {
    var job := Moved(d.jobs[id], to, certificate);
    Entered(|d.calls| - 1, id, job.environment, job.identifiers, to, Stored(d, id), job.certificate, Target(d, id))
  }

  /** A transition that the log notes, with the cleanup target saved for it, if any. */
  function Enters(d: Desk, id: JobId, to: State, certificate: Option<CertificateId>, saved: Option<State>): Desk
    requires id in d.jobs && d.calls != []
  {
    d.(jobs := d.jobs[id := Moved(d.jobs[id], to, certificate)],
       targets := Saved(d.targets, id, saved),
       log := d.log + [EntryFor(d, id, to, certificate)])
  }

  function Orders(d: Desk, id: JobId): Desk
    requires id in d.jobs && d.calls != []
  {
    d.(log := d.log + [OrderCreated(|d.calls| - 1, id, d.jobs[id].environment, d.jobs[id].identifiers)])
  }

  // ---- `_complete_dns` ----

  function Advances(d: Desk, id: JobId, authority: Authority): Desk
    requires id in d.jobs
  {
    var validating := Moves(d, id, Validating);
    if authority.FailsValidating? then validating else Moves(validating, id, Issuing)
  }

  function Issues(d: Desk, id: JobId, certificate: CertificateId): Desk
    requires id in d.jobs && d.calls != []
  {
    var issued := Enters(d, id, Issued, Some(certificate), None);
    issued.(presented := issued.presented - {id}, proofs := Proved(issued.proofs, d.jobs[id]))
  }

  /** After cleanup errors: the target of a later retry is saved only when the authority delivered. */
  function Parks(d: Desk, id: JobId, authority: Authority): Desk
    requires id in d.jobs && d.calls != []
  {
    if authority.Delivers? then Enters(d, id, CleanupRequired, Some(authority.certificate), Some(Issued))
    else Enters(d, id, CleanupRequired, None, None)
  }

  function Finishes(d: Desk, id: JobId, records: seq<TxtRecord>, c: Completion): Desk
    requires id in d.jobs && d.calls != []
  {
    var cleaned := CleansUp(d, id, records, c.cleanup);
    match Met(d, id, records, c.cleanup)
    case Raises => cleaned
    case Errors => Parks(cleaned, id, c.authority)
    case Clean => if c.authority.Delivers? then Issues(cleaned, id, c.authority.certificate) else Moves(cleaned, id, Failed)
  }

  function Completes(d: Desk, id: JobId, records: seq<TxtRecord>, c: Completion): Desk
    requires id in d.jobs && d.calls != []
  {
    Finishes(Advances(d, id, c.authority), id, records, c)
  }

  function Answered(c: Completion): Outcome {
    if c.cleanup.Raises? then Raised else Done
  }

  // ---- Calls ----

  predicate IsComplete(setup: Setup) {
    setup.prepared && setup.ordered && setup.presented.Some?
  }

  /** An order asked for, and its records presented and stored. */
  function Prepares(d: Desk, id: JobId, setup: Setup): Desk
    requires id in d.jobs && d.calls != []
  {
    if !setup.prepared then d
    else
      var ordered := Orders(d, id);
      if IsComplete(setup) then ordered.(presented := ordered.presented[id := setup.presented.value]) else ordered
  }

  function Starts(d: Desk, id: JobId, setup: Setup, c: Completion): (Desk, Outcome)
    requires d.calls != []
  {
    if !IsAcme(d, id, Draft) then (d, Raised)
    else if d.jobs[id].environment == Production && ProofKey(d.jobs[id].identifiers) !in d.proofs then (d, StagingRequired)
    else if !IsComplete(setup) then (Prepares(d, id, setup), Raised)
    else
      var waiting := Moves(Prepares(d, id, setup), id, AwaitingDns);
      if d.jobs[id].dns == Manual then (waiting, Done)
      else (Completes(waiting, id, setup.presented.value, c), Answered(c))
  }

  function Continues(d: Desk, id: JobId, seen: Visibility): (Desk, Outcome)
    requires d.calls != []
  {
    if !IsAcme(d, id, AwaitingDns) || d.jobs[id].dns != Manual || id !in d.presented then (d, Raised)
    else
      match seen
      case Unreadable => (d, Raised)
      case Invisible => (d, Done)
      case Expired(renewed) => (Prepares(d, id, renewed), if IsComplete(renewed) then Done else Raised)
      case Visible(completion) => (Completes(d, id, d.presented[id], completion), Answered(completion))
  }

  /** `RenewalService.cancel`. */
  function CancelsClean(d: Desk, id: JobId): (Desk, Outcome)
    requires id in d.jobs && d.calls != []
  {
    if d.jobs[id].state == Cancelled then (d, Done)
    else if Cancelled !in Allowed(d.jobs[id].state) then (d, Raised)
    else (Enters(d, id, Cancelled, None, None), Done)
  }

  /** After cleanup errors: the target is saved even if the job cannot be parked. */
  function ParksCancelled(d: Desk, id: JobId): (Desk, Outcome)
    requires id in d.jobs && d.calls != []
  {
    if CleanupRequired !in Allowed(d.jobs[id].state) then (d.(targets := d.targets[id := Cancelled]), Raised)
    else (Enters(d, id, CleanupRequired, None, Some(Cancelled)), Done)
  }

  function Cancels(d: Desk, id: JobId, cleanup: Cleanup): (Desk, Outcome)
    requires d.calls != []
  {
    if id !in d.jobs then (d, Raised)
    else if Stored(d, id) == [] then CancelsClean(d, id)
    else
      var cleaned := CleansUp(d, id, Stored(d, id), cleanup);
      match Met(d, id, Stored(d, id), cleanup)
      case Raises => (cleaned, Raised)
      case Errors => ParksCancelled(cleaned, id)
      case Clean => CancelsClean(cleaned, id)
  }

  /** Where a retried cleanup sends a job: the saved target, or issued when none was saved. */
  function RetryTarget(d: Desk, id: JobId): State {
    if id in d.targets then d.targets[id] else Issued
  }

  function Retries(d: Desk, id: JobId, cleanup: Cleanup): (Desk, Outcome)
    requires d.calls != []
  {
    if !IsAcme(d, id, CleanupRequired) then (d, Raised)
    else
      var cleaned := CleansUp(d, id, Stored(d, id), cleanup);
      match Met(d, id, Stored(d, id), cleanup)
      case Raises => (cleaned, Raised)
      case Errors => (cleaned, Done)
      case Clean =>
        if RetryTarget(d, id) !in Allowed(CleanupRequired) then (cleaned, Raised)
        else (Enters(cleaned, id, RetryTarget(d, id), None, None), Done)
  }

  function Adds(d: Desk, id: JobId, issuer: Issuer, environment: Environment, dns: DnsProvider, identifiers: seq<string>)
    : (Desk, Outcome)
  {
    if id in d.jobs then (d, Raised)
    else (d.(jobs := d.jobs[id := Job(issuer, environment, dns, identifiers, Draft, 0, None)], used := d.used + {id}), Done)
  }

  function Recovered(d: Desk, id: JobId, answer: Option<OrderStatus>): (Desk, Outcome) {
    if id in d.jobs && Recovers(d.jobs[id], answer) then (d.(jobs := d.jobs[id := RecoveredJob(d.jobs[id], answer)]), Done)
    else (d, Raised)
  }

  predicate Deletable(s: State) {
    s == Cancelled || s == Deployed || s == DeploymentPending || s == Failed || s == Issued
  }

  function Removes(d: Desk, id: JobId): (Desk, Outcome) {
    if id in d.jobs && Deletable(d.jobs[id].state) then (d.(jobs := d.jobs - {id}), Done) else (d, Raised)
  }

  function Called(d: Desk, call: Call): Desk {
    d.(calls := d.calls + [call])
  }

  function AfterCall(d: Desk, call: Call): (Desk, Outcome) {
    var begun := Called(d, call);
    match call
    case NewJob(id, issuer, environment, dns, identifiers) => Adds(begun, id, issuer, environment, dns, identifiers)
    case Start(id, setup, completion) => Starts(begun, id, setup, completion)
    case Continue(id, seen) => Continues(begun, id, seen)
    case CancelJob(id, cleanup) => Cancels(begun, id, cleanup)
    case Retry(id, cleanup) => Retries(begun, id, cleanup)
    case Recover(id, answer) => Recovered(begun, id, answer)
    case Delete(id) => Removes(begun, id)
  }

  function AllCalls(calls: seq<Call>): Desk {
    if calls == [] then EMPTY else AfterCall(AllCalls(calls[..|calls| - 1]), calls[|calls| - 1]).0
  }

  // ---- What every call keeps ----

  ghost predicate InOrder(d: Desk) {
    LogInOrder(d.log, d.calls, d.proofs) && JobsInOrder(d.log, d.jobs, d.proofs, d.targets, d.used)
  }

  /** In the last call, deleting records comes to this. */
  predicate Asked(d: Desk, answer: Cleanup) {
    d.calls != [] && ProviderAnswer(d.calls[|d.calls| - 1]) == Some(answer)
  }

  /** The last thing done, in the last call, is a cleanup of all that is stored for the job, answered so. */
  predicate LastCleaned(d: Desk, id: JobId, answer: Cleanup) {
    && d.calls != [] && d.log != []
    && var e := d.log[|d.log| - 1];
       e.CleanedUp? && e.call == |d.calls| - 1 && e.id == id && e.records == Stored(d, id) && e.answer == answer
  }

  lemma CleansUpKeeps(d: Desk, id: JobId, answer: Cleanup)
    requires InOrder(d) && id in d.jobs && Asked(d, answer)
    ensures var after := CleansUp(d, id, Stored(d, id), answer);
            InOrder(after) && LastCleaned(after, id, Met(d, id, Stored(d, id), answer))
  {
    var e := CleanupEntry(d, id, Stored(d, id), answer);
    LogOneMore(d.log, d.calls, d.proofs, e);
    JobsStayInOrder(d.log, d.jobs, d.proofs, d.targets, d.used, e);
  }

  lemma MovesKeeps(d: Desk, id: JobId, to: State)
    requires InOrder(d) && id in d.jobs && !IsFinal(to) && d.jobs[id].state != Issued
    requires to == AwaitingDns && d.jobs[id].environment == Production ==> ProofKey(d.jobs[id].identifiers) in d.proofs
    ensures InOrder(Moves(d, id, to))
  {
    StepKeepsJobs(d.log, d.jobs, d.proofs, d.targets, d.used, id, Moved(d.jobs[id], to, None));
  }

  lemma EntersKeeps(d: Desk, id: JobId, to: State, certificate: Option<CertificateId>, saved: Option<State>)
    requires InOrder(d) && id in d.jobs && d.calls != [] && IsFinal(to) && d.jobs[id].state != Issued
    requires MayFollow(d.log, d.calls, EntryFor(d, id, to, certificate))
    requires saved == None || saved == Some(Cancelled) || saved == Some(Issued)
    ensures InOrder(Enters(d, id, to, certificate, saved))
  {
    var e, job := EntryFor(d, id, to, certificate), Moved(d.jobs[id], to, certificate);
    LogOneMore(d.log, d.calls, d.proofs, e);
    EntryKeepsJobs(d.log, d.jobs, d.proofs, d.targets, d.used, e, job, saved);
  }

  lemma OrdersKeeps(d: Desk, id: JobId)
    requires InOrder(d) && id in d.jobs && d.calls != []
    requires d.jobs[id].environment == Production ==> ProofKey(d.jobs[id].identifiers) in d.proofs
    ensures InOrder(Orders(d, id))
  {
    var e := OrderCreated(|d.calls| - 1, id, d.jobs[id].environment, d.jobs[id].identifiers);
    LogOneMore(d.log, d.calls, d.proofs, e);
    JobsStayInOrder(d.log, d.jobs, d.proofs, d.targets, d.used, e);
  }

  lemma IssuesKeeps(d: Desk, id: JobId, certificate: CertificateId)
    requires InOrder(d) && id in d.jobs && d.jobs[id].state != Issued && LastCleaned(d, id, Clean)
    ensures InOrder(Issues(d, id, certificate))
  {
    EntersKeeps(d, id, Issued, Some(certificate), None);
    var issued := Enters(d, id, Issued, Some(certificate), None);
    ProofKeeps(issued.log, issued.calls, issued.jobs, issued.proofs, issued.targets, issued.used, d.jobs[id]);
  }

  lemma ParksKeeps(d: Desk, id: JobId, authority: Authority)
    requires InOrder(d) && id in d.jobs && d.jobs[id].state != Issued && LastCleaned(d, id, Errors)
    ensures InOrder(Parks(d, id, authority))
  {
    if authority.Delivers? {
      EntersKeeps(d, id, CleanupRequired, Some(authority.certificate), Some(Issued));
    } else {
      EntersKeeps(d, id, CleanupRequired, None, None);
    }
  }

  lemma FinishesKeeps(d: Desk, id: JobId, c: Completion)
    requires InOrder(d) && id in d.jobs && d.jobs[id].state != Issued && Asked(d, c.cleanup)
    ensures InOrder(Finishes(d, id, Stored(d, id), c))
  {
    var cleaned := CleansUp(d, id, Stored(d, id), c.cleanup);
    CleansUpKeeps(d, id, c.cleanup);
    match Met(d, id, Stored(d, id), c.cleanup) {
      case Raises =>
      case Errors =>
        ParksKeeps(cleaned, id, c.authority);
      case Clean =>
        if c.authority.Delivers? {
          IssuesKeeps(cleaned, id, c.authority.certificate);
        } else {
          MovesKeeps(cleaned, id, Failed);
        }
    }
  }

  lemma {:induction false} CompletesKeeps(d: Desk, id: JobId, c: Completion)
    requires InOrder(d) && IsAcme(d, id, AwaitingDns) && Asked(d, c.cleanup)
    ensures InOrder(Completes(d, id, Stored(d, id), c))
  {
    MovesKeeps(d, id, Validating);
    if !c.authority.FailsValidating? {
      MovesKeeps(Moves(d, id, Validating), id, Issuing);
    }
    FinishesKeeps(Advances(d, id, c.authority), id, c);
  }

  lemma PreparesKeeps(d: Desk, id: JobId, setup: Setup)
    requires InOrder(d) && id in d.jobs && d.calls != []
    requires d.jobs[id].environment == Production ==> ProofKey(d.jobs[id].identifiers) in d.proofs
    ensures InOrder(Prepares(d, id, setup))
  {
    OrdersKeeps(d, id);
  }

  lemma StartsKeeps(d: Desk, id: JobId, setup: Setup, c: Completion)
    requires InOrder(d) && Asked(d, c.cleanup)
    ensures InOrder(Starts(d, id, setup, c).0)
  {
    if IsAcme(d, id, Draft)
       && (d.jobs[id].environment == Production ==> ProofKey(d.jobs[id].identifiers) in d.proofs)
    {
      PreparesKeeps(d, id, setup);
      if IsComplete(setup) {
        MovesKeeps(Prepares(d, id, setup), id, AwaitingDns);
        CompletesKeeps(Moves(Prepares(d, id, setup), id, AwaitingDns), id, c);
      }
    }
  }

  lemma ContinuesKeeps(d: Desk, id: JobId, seen: Visibility)
    requires InOrder(d) && d.calls != [] && (seen.Visible? ==> Asked(d, seen.completion.cleanup))
    ensures InOrder(Continues(d, id, seen).0)
  {
    if IsAcme(d, id, AwaitingDns) && id in d.presented {
      if seen.Expired? {
        PreparesKeeps(d, id, seen.renewed);
      }
      if seen.Visible? {
        CompletesKeeps(d, id, seen.completion);
      }
    }
  }

  lemma CancelsCleanKeeps(d: Desk, id: JobId)
    requires InOrder(d) && id in d.jobs && d.calls != [] && (Stored(d, id) == [] || LastCleaned(d, id, Clean))
    ensures InOrder(CancelsClean(d, id).0)
  {
    if Cancelled in Allowed(d.jobs[id].state) {
      EntersKeeps(d, id, Cancelled, None, None);
    }
  }

  lemma ParksCancelledKeeps(d: Desk, id: JobId)
    requires InOrder(d) && id in d.jobs && LastCleaned(d, id, Errors)
    ensures InOrder(ParksCancelled(d, id).0)
  {
    if CleanupRequired in Allowed(d.jobs[id].state) {
      EntersKeeps(d, id, CleanupRequired, None, Some(Cancelled));
    } else {
      TargetKeepsJobs(d.log, d.jobs, d.proofs, d.targets, d.used, id, Cancelled);
    }
  }

  lemma CancelsKeeps(d: Desk, id: JobId, cleanup: Cleanup)
    requires InOrder(d) && Asked(d, cleanup)
    ensures InOrder(Cancels(d, id, cleanup).0)
  {
    if id in d.jobs {
      if Stored(d, id) == [] {
        CancelsCleanKeeps(d, id);
      } else {
        var cleaned := CleansUp(d, id, Stored(d, id), cleanup);
        CleansUpKeeps(d, id, cleanup);
        var met := Met(d, id, Stored(d, id), cleanup);
        if met.Errors? {
          ParksCancelledKeeps(cleaned, id);
        }
        if met.Clean? {
          CancelsCleanKeeps(cleaned, id);
        }
      }
    }
  }

  lemma RetriesKeeps(d: Desk, id: JobId, cleanup: Cleanup)
    requires InOrder(d) && d.calls != [] && d.calls[|d.calls| - 1] == Retry(id, cleanup)
    ensures InOrder(Retries(d, id, cleanup).0)
  {
    if IsAcme(d, id, CleanupRequired) {
      var cleaned := CleansUp(d, id, Stored(d, id), cleanup);
      CleansUpKeeps(d, id, cleanup);
      if Met(d, id, Stored(d, id), cleanup).Clean? {
        EntersKeeps(cleaned, id, RetryTarget(d, id), None, None);
      }
    }
  }

  lemma CalledKeeps(d: Desk, call: Call)
    requires InOrder(d)
    ensures InOrder(Called(d, call))
  {
    OneMoreCall(d.log, d.calls, call);
  }

  /** A call that adds a job brings an identifier never used before. */
  predicate Fresh(d: Desk, call: Call) {
    call.NewJob? ==> call.id !in d.used
  }

  lemma AfterCallKeeps(d: Desk, call: Call)
    requires InOrder(d) && Fresh(d, call)
    ensures InOrder(AfterCall(d, call).0)
  {
    var begun := Called(d, call);
    CalledKeeps(d, call);
    match call {
      case NewJob(id, issuer, environment, dns, identifiers) =>
        var job := Job(issuer, environment, dns, identifiers, Draft, 0, None);
        StepKeepsJobs(begun.log, begun.jobs, begun.proofs, begun.targets, begun.used + {id}, id, job);
      case Start(id, setup, completion) =>
        StartsKeeps(begun, id, setup, completion);
      case Continue(id, seen) =>
        ContinuesKeeps(begun, id, seen);
      case CancelJob(id, cleanup) =>
        CancelsKeeps(begun, id, cleanup);
      case Retry(id, cleanup) =>
        RetriesKeeps(begun, id, cleanup);
      case Recover(id, answer) =>
        if id in begun.jobs && Recovers(begun.jobs[id], answer) {
          RecoveryKeepsJobs(begun.log, begun.jobs, begun.proofs, begun.targets, begun.used, id, answer);
        }
      case Delete(id) =>
        RemovalKeepsJobs(begun.log, begun.jobs, begun.proofs, begun.targets, begun.used, id);
    }
  }

  // ---- Every sequence of calls ----

  /** Job identifiers are random. */
  predicate FreshJobs(calls: seq<Call>) {
    forall i, j | 0 <= i < j < |calls| && calls[i].NewJob? && calls[j].NewJob? :: calls[i].id != calls[j].id
  }

  lemma OneCallMore(calls: seq<Call>, call: Call)
    ensures AllCalls(calls + [call]) == AfterCall(AllCalls(calls), call).0
  {
    assert (calls + [call])[..|calls|] == calls;
  }

  predicate SameNotes(d: Desk, after: Desk) {
    after.calls == d.calls && after.used == d.used
  }

  lemma CompletesNotes(d: Desk, id: JobId, records: seq<TxtRecord>, c: Completion)
    requires id in d.jobs && d.calls != []
    ensures SameNotes(d, Completes(d, id, records, c))
  {
  }

  lemma StartsNotes(d: Desk, id: JobId, setup: Setup, c: Completion)
    requires d.calls != []
    ensures SameNotes(d, Starts(d, id, setup, c).0)
  {
    if IsAcme(d, id, Draft) && IsComplete(setup) {
      CompletesNotes(Moves(Prepares(d, id, setup), id, AwaitingDns), id, setup.presented.value, c);
    }
  }

  lemma ContinuesNotes(d: Desk, id: JobId, seen: Visibility)
    requires d.calls != []
    ensures SameNotes(d, Continues(d, id, seen).0)
  {
    if id in d.jobs && id in d.presented && seen.Visible? {
      CompletesNotes(d, id, d.presented[id], seen.completion);
    }
  }

  lemma CancelsNotes(d: Desk, id: JobId, cleanup: Cleanup)
    requires d.calls != []
    ensures SameNotes(d, Cancels(d, id, cleanup).0)
  {
  }

  lemma AfterCallNotes(d: Desk, call: Call)
    ensures AfterCall(d, call).0.calls == d.calls + [call]
    ensures AfterCall(d, call).0.used == if call.NewJob? && call.id !in d.jobs then d.used + {call.id} else d.used
  {
    var begun := Called(d, call);
    match call {
      case Start(id, setup, completion) =>
        StartsNotes(begun, id, setup, completion);
      case Continue(id, seen) =>
        ContinuesNotes(begun, id, seen);
      case CancelJob(id, cleanup) =>
        CancelsNotes(begun, id, cleanup);
      case _ =>
    }
  }

  /** Every identifier used was brought by a call. */
  ghost predicate Brought(used: set<JobId>, calls: seq<Call>) {
    forall id | id in used :: exists k :: 0 <= k < |calls| && calls[k].NewJob? && calls[k].id == id
  }

  lemma BroughtOneMore(used: set<JobId>, calls: seq<Call>, call: Call)
    requires Brought(used, calls)
    ensures Brought(used, calls + [call])
    ensures call.NewJob? ==> Brought(used + {call.id}, calls + [call])
    ensures FreshJobs(calls + [call]) && call.NewJob? ==> call.id !in used
  {
    var longer := calls + [call];
    assert longer[|calls|] == call;
    forall id | id in used ensures exists k :: 0 <= k < |calls| && longer[k].NewJob? && longer[k].id == id {
      var k :| 0 <= k < |calls| && calls[k].NewJob? && calls[k].id == id;
      assert longer[k] == calls[k];
    }
  }

  lemma FreshBefore(calls: seq<Call>, call: Call)
    requires FreshJobs(calls + [call])
    ensures FreshJobs(calls)
  {
    var longer := calls + [call];
    forall i, j | 0 <= i < j < |calls| && calls[i].NewJob? && calls[j].NewJob? ensures calls[i].id != calls[j].id {
      assert longer[i] == calls[i] && longer[j] == calls[j];
    }
  }

  lemma {:induction false} AllCallsInOrder(calls: seq<Call>)
    requires FreshJobs(calls)
    ensures InOrder(AllCalls(calls)) && AllCalls(calls).calls == calls && Brought(AllCalls(calls).used, calls)
  {
    if calls != [] {
      var before, call := calls[..|calls| - 1], calls[|calls| - 1];
      assert calls == before + [call];
      FreshBefore(before, call);
      AllCallsInOrder(before);
      BroughtOneMore(AllCalls(before).used, before, call);
      AfterCallKeeps(AllCalls(before), call);
      AfterCallNotes(AllCalls(before), call);
      OneCallMore(before, call);
    }
  }

  /** Over every sequence of calls and whatever the authority and the provider answer.
      A job enters issued or cancelled only with nothing stored, or right after the
      provider, in the same call, has cleaned all that is stored without errors; it
      enters cleanup required only right after the provider, in the same call, has
      reported errors. A production order only follows an issued staging job for the
      same names. And the log accounts for every job where it stands. */
  lemma {:induction false} CallsSound(calls: seq<Call>)
    requires FreshJobs(calls)
    ensures var d := AllCalls(calls);
            && (forall j | 0 <= j < |d.log| :: SoundEntry(d.log, calls, j))
            && OrdersBacked(d.log) && Recorded(d.log, d.jobs)
  {
    AllCallsInOrder(calls);
  }

  /** After any calls, an issued job has no certificate exactly when a clean retry issued
      it that found none and no saved target of cancelled. */
  lemma {:induction false} IssuedEmptyIff(calls: seq<Call>, id: JobId)
    requires FreshJobs(calls) && id in AllCalls(calls).jobs && AllCalls(calls).jobs[id].issuer == Acme
    ensures var d := AllCalls(calls);
            d.jobs[id].state == Issued && d.jobs[id].certificate.None? <==>
            exists j :: 0 <= j < |d.log| && d.log[j].call < |calls| && RetriedEmpty(d.log, calls, j, id)
  {
    AllCallsInOrder(calls);
    EmptyIffRetried(AllCalls(calls).log, calls, AllCalls(calls).jobs, id);
  }

  /** What a retry is about to do can be read off the job and the saved target: it issues
      without a certificate exactly when the job has none, no target of cancelled was
      saved, and the provider reports nothing. */
  lemma RetryIssuesEmptyIff(d: Desk, id: JobId, cleanup: Cleanup)
    requires InOrder(d) && d.calls != [] && IsAcme(d, id, CleanupRequired)
    ensures var job := Retries(d, id, cleanup).0.jobs[id];
            job.state == Issued && job.certificate.None? <==>
            && Met(d, id, Stored(d, id), cleanup).Clean?
            && d.jobs[id].certificate.None? && Target(d, id) != Some(Cancelled)
  {
    assert id in d.targets ==> d.targets[id] == Issued || d.targets[id] == Cancelled;
  }

  /** A new job whose provider can report errors, ready to be started. */
  predicate ReadyToStart(d: Desk, id: JobId, setup: Setup) {
    && IsAcme(d, id, Draft) && d.jobs[id].dns == Cloudflare && IsComplete(setup) && setup.presented.value != []
    && (d.jobs[id].environment == Production ==> ProofKey(d.jobs[id].identifiers) in d.proofs)
    && d.jobs[id].certificate.None? && id !in d.targets
  }

  /** How it comes about: when cleanup errors park a job, a target is saved, and a
      certificate kept, exactly when the authority delivered one. */
  lemma ParkedWithoutTarget(d: Desk, id: JobId, setup: Setup, authority: Authority)
    requires ReadyToStart(d, id, setup)
    ensures var parked := AfterCall(d, Start(id, setup, Completion(authority, Errors))).0;
            && IsAcme(parked, id, CleanupRequired)
            && (parked.jobs[id].certificate.Some? <==> authority.Delivers?)
            && (if authority.Delivers? then id in parked.targets && parked.targets[id] == Issued else id !in parked.targets)
  {
  }

  /** The next clean retry issues the job, with a certificate exactly when the authority
      delivered one. */
  lemma ParkedThenRetried(d: Desk, id: JobId, setup: Setup, authority: Authority)
    requires ReadyToStart(d, id, setup)
    ensures var parked := AfterCall(d, Start(id, setup, Completion(authority, Errors))).0;
            var retried := AfterCall(parked, Retry(id, Clean)).0;
            id in retried.jobs && retried.jobs[id].state == Issued
            && (retried.jobs[id].certificate.Some? <==> authority.Delivers?)
  {
    ParkedWithoutTarget(d, id, setup, authority);
  }

  /** It happens: a Cloudflare job whose authority failed while the deletion of its record
      was refused, and whose cleanup was then retried. */
  lemma {:induction false} IssuedWithoutCertificate(id: JobId) returns (calls: seq<Call>)
    ensures FreshJobs(calls) && id in AllCalls(calls).jobs
    ensures AllCalls(calls).jobs[id].state == Issued && AllCalls(calls).jobs[id].certificate.None?
  {
    var create := NewJob(id, Acme, Staging, Cloudflare, ["a.example"]);
    var setup := Setup(true, true, Some([TxtRecord("_acme-challenge.a.example", "v")]));
    var start, retry := Start(id, setup, Completion(FailsValidating, Errors)), Retry(id, Clean);
    OneCallMore([], create);
    assert [] + [create] == [create] && AllCalls([]) == EMPTY;
    assert ReadyToStart(AllCalls([create]), id, setup);
    ParkedThenRetried(AllCalls([create]), id, setup, FailsValidating);
    OneCallMore([create], start);
    OneCallMore([create] + [start], retry);
    calls := [create] + [start] + [retry];
  }
}
