/** The ACME orchestrator, working on the job table and its settings. Each call on a job
    runs to its end, and does what `AcmeSteps` says. */
module AcmeOrders {
  import opened AcmeLog
  import opened AcmeSteps
  import opened Common
  import opened Identifiers
  import opened Jobs

  class Orchestrator {
    const table: JobTable
    var presented: map<JobId, seq<TxtRecord>>   // acme-dns:<job>
    var cleanupTarget: map<JobId, State>        // acme-cleanup-target:<job>
    var proofs: set<seq<string>>                // acme-staging-proof:<key>
    ghost var calls: seq<Call>
    ghost var log: seq<Entry>
    ghost var used: set<JobId>

    constructor (table: JobTable)
      requires table.Valid() && table.jobs == map[]
      ensures this.table == table && Valid() && Now() == EMPTY
    {
      this.table := table;
      presented, cleanupTarget, proofs := map[], map[], {};
      calls, log, used := [], [], {};
    }

    ghost predicate Valid()
      reads this, table
    {
      table.Valid()
    }

    ghost function Now(): Desk
      reads this, table
    {
      Desk(table.jobs, presented, cleanupTarget, proofs, calls, log, used)
    }

    /** A new call arrives. */
    ghost method Begin(call: Call)
      modifies this`calls
      ensures Now() == Called(old(Now()), call)
    {
      calls := calls + [call];
    }

    /** The one place where a provider is asked to clean up. */
    method CleanUp(id: JobId, records: seq<TxtRecord>, answer: Cleanup) returns (met: Cleanup)
      requires id in table.jobs && calls != []
      modifies this`log
      ensures Now() == CleansUp(old(Now()), id, records, answer) && met == Met(old(Now()), id, records, answer)
    {
      met := Reported(table.jobs[id].dns, records, answer);
      log := log + [CleanedUp(|calls| - 1, id, table.jobs[id].dns, records, met)];
    }

    /** `RenewalService.transition`, outside the notable states. */
    method Move(id: JobId, to: State)
      requires Valid() && id in table.jobs && to in Allowed(table.jobs[id].state)
      modifies table
      ensures Valid() && Now() == Moves(old(Now()), id, to)
    {
      var job := table.jobs[id];
      var ok := table.TransitionJob(id, job.state, job.version, to, None);
    }

    /** A transition into a notable state, after the cleanup target for it was saved, if any. */
    method Enter(id: JobId, to: State, certificate: Option<CertificateId>, saved: Option<State>)
      requires Valid() && id in table.jobs && to in Allowed(table.jobs[id].state) && calls != []
      modifies table, this`log, this`cleanupTarget
      ensures Valid() && Now() == Enters(old(Now()), id, to, certificate, saved)
    {
      ghost var e := EntryFor(Now(), id, to, certificate);
      var job := table.jobs[id];
      if saved.Some? {
        cleanupTarget := cleanupTarget[id := saved.value];
      }
      var ok := table.TransitionJob(id, job.state, job.version, to, certificate);
      log := log + [e];
    }

    /** The clean end of `_complete_dns`: issued, records forgotten, staging proof stored. */
    method IssueJob(id: JobId, certificate: CertificateId)
      requires Valid() && id in table.jobs && Issued in Allowed(table.jobs[id].state) && calls != []
      modifies this`presented, this`proofs, this`log, this`cleanupTarget, table
      ensures Valid() && Now() == Issues(old(Now()), id, certificate)
    {
      var job := table.jobs[id];
      Enter(id, Issued, Some(certificate), None);
      presented := presented - {id};
      if job.environment == Staging {
        proofs := proofs + {ProofKey(job.identifiers)};
      }
    }

    /** The end of `_complete_dns` after reported cleanup errors. */
    method Park(id: JobId, authority: Authority)
      requires Valid() && id in table.jobs && CleanupRequired in Allowed(table.jobs[id].state) && calls != []
      modifies this`cleanupTarget, this`log, table
      ensures Valid() && Now() == Parks(old(Now()), id, authority)
    {
      if authority.Delivers? {
        Enter(id, CleanupRequired, Some(authority.certificate), Some(Issued));
      } else {
        Enter(id, CleanupRequired, None, None);
      }
    }

    /** The part of `_complete_dns` up to the cleanup. */
    method Advance(id: JobId, authority: Authority)
      requires Valid() && id in table.jobs && table.jobs[id].state == AwaitingDns
      modifies table
      ensures Valid() && Now() == Advances(old(Now()), id, authority)
    {
      Move(id, Validating);
      if !authority.FailsValidating? {
        Move(id, Issuing);
      }
    }

    /** The part of `_complete_dns` from the cleanup of the presented records on, in its
        success and error branches. */
    method Finish(id: JobId, records: seq<TxtRecord>, c: Completion)
      requires Valid() && id in table.jobs && calls != []
      requires table.jobs[id].state == if c.authority.FailsValidating? then Validating else Issuing
      modifies this`presented, this`proofs, this`log, this`cleanupTarget, table
      ensures Valid() && Now() == Finishes(old(Now()), id, records, c)
    {
      var met := CleanUp(id, records, c.cleanup);
      match met {
        case Raises =>
        case Errors =>
          Park(id, c.authority);
        case Clean =>
          if c.authority.Delivers? {
            IssueJob(id, c.authority.certificate);
          } else {
            Move(id, Failed);
          }
      }
    }

    /** `_complete_dns`, with the records that were presented. */
    method CompleteDns(id: JobId, records: seq<TxtRecord>, c: Completion) returns (outcome: Outcome)
      requires Valid() && id in table.jobs && table.jobs[id].state == AwaitingDns && calls != []
      modifies this`presented, this`proofs, this`log, this`cleanupTarget, table
      ensures Valid() && Now() == Completes(old(Now()), id, records, c) && outcome == Answered(c)
    {
      Advance(id, c.authority);
      Finish(id, records, c);
      outcome := if c.cleanup.Raises? then Raised else Done;
    }

    /** Creates an order, presents its records and stores them, as starting and renewing do. */
    method Prepare(id: JobId, setup: Setup) returns (ok: bool)
      requires id in table.jobs && calls != []
      modifies this`presented, this`log
      ensures Now() == Prepares(old(Now()), id, setup) && (ok <==> IsComplete(setup))
    {
      if !setup.prepared {
        return false;
      }
      log := log + [OrderCreated(|calls| - 1, id, table.jobs[id].environment, table.jobs[id].identifiers)];
      if !setup.ordered || setup.presented.None? {
        return false;
      }
      presented := presented[id := setup.presented.value];
      ok := true;
    }

    /** `start_acme`. */
    method StartAcme(id: JobId, setup: Setup, c: Completion) returns (outcome: Outcome)
      requires Valid() && calls != []
      modifies this`presented, this`proofs, this`log, this`cleanupTarget, table
      ensures Valid() && (Now(), outcome) == Starts(old(Now()), id, setup, c)
    {
      if id !in table.jobs || table.jobs[id].issuer != Acme || table.jobs[id].state != Draft {
        return Raised;
      }
      var job := table.jobs[id];
      if job.environment == Production && ProofKey(job.identifiers) !in proofs {
        return StagingRequired;
      }
      var ok := Prepare(id, setup);
      if !ok {
        return Raised;
      }
      Move(id, AwaitingDns);
      outcome := Done;
      if job.dns == Cloudflare {
        outcome := CompleteDns(id, setup.presented.value, c);
      }
    }

    /** `continue_manual_dns`. */
    method ContinueManualDns(id: JobId, seen: Visibility) returns (outcome: Outcome)
      requires Valid() && calls != []
      modifies this`presented, this`proofs, this`log, this`cleanupTarget, table
      ensures Valid() && (Now(), outcome) == Continues(old(Now()), id, seen)
    {
      if id !in table.jobs || table.jobs[id].issuer != Acme || table.jobs[id].state != AwaitingDns {
        return Raised;
      }
      if table.jobs[id].dns != Manual || id !in presented {
        return Raised;
      }
      var records := presented[id];
      match seen {
        case Unreadable =>
          outcome := Raised;
        case Invisible =>
          outcome := Done;
        case Expired(renewed) =>
          var ok := Prepare(id, renewed);
          outcome := if ok then Done else Raised;
        case Visible(completion) =>
          outcome := CompleteDns(id, records, completion);
      }
    }

    /** `RenewalService.cancel`. */
    method CancelClean(id: JobId) returns (outcome: Outcome)
      requires Valid() && id in table.jobs && calls != []
      modifies this`log, this`cleanupTarget, table
      ensures Valid() && (Now(), outcome) == CancelsClean(old(Now()), id)
    {
      if table.jobs[id].state == Cancelled {
        return Done;
      }
      if Cancelled !in Allowed(table.jobs[id].state) {
        return Raised;
      }
      Enter(id, Cancelled, None, None);
      outcome := Done;
    }

    /** The branch of `cancel` after cleanup errors. */
    method ParkCancelled(id: JobId) returns (outcome: Outcome)
      requires Valid() && id in table.jobs && calls != []
      modifies this`log, this`cleanupTarget, table
      ensures Valid() && (Now(), outcome) == ParksCancelled(old(Now()), id)
    {
      if CleanupRequired !in Allowed(table.jobs[id].state) {
        cleanupTarget := cleanupTarget[id := Cancelled];
        return Raised;
      }
      Enter(id, CleanupRequired, None, Some(Cancelled));
      outcome := Done;
    }

    /** `cancel`, of a job of any issuer. A refused transition raises after the cleanup. */
    method Cancel(id: JobId, cleanup: Cleanup) returns (outcome: Outcome)
      requires Valid() && calls != []
      modifies this`log, this`cleanupTarget, table
      ensures Valid() && (Now(), outcome) == Cancels(old(Now()), id, cleanup)
    {
      if id !in table.jobs {
        return Raised;
      }
      var records := if id in presented then presented[id] else [];
      if records != [] {
        var met := CleanUp(id, records, cleanup);
        if met.Raises? {
          return Raised;
        }
        if met.Errors? {
          outcome := ParkCancelled(id);
          return;
        }
      }
      outcome := CancelClean(id);
    }

    /** `retry_cleanup`. */
    method RetryCleanup(id: JobId, cleanup: Cleanup) returns (outcome: Outcome)
      requires Valid() && calls != []
      modifies table, this`log, this`cleanupTarget
      ensures Valid() && (Now(), outcome) == Retries(old(Now()), id, cleanup)
    {
      if id !in table.jobs || table.jobs[id].issuer != Acme || table.jobs[id].state != CleanupRequired {
        return Raised;
      }
      var met := CleanUp(id, if id in presented then presented[id] else [], cleanup);
      if met.Raises? {
        return Raised;
      }
      if met.Clean? {
        var target := if id in cleanupTarget then cleanupTarget[id] else Issued;
        if target !in Allowed(CleanupRequired) {
          return Raised;
        }
        Enter(id, target, None, None);
      }
      outcome := Done;
    }

    /** `create_job`. */
    method AddJob(id: JobId, issuer: Issuer, environment: Environment, dns: DnsProvider, identifiers: seq<string>)
      returns (outcome: Outcome)
      requires Valid()
      modifies table, this`used
      ensures Valid() && (Now(), outcome) == Adds(old(Now()), id, issuer, environment, dns, identifiers)
    {
      var ok := table.CreateJob(id, issuer, environment, dns, identifiers);
      if !ok {
        return Raised;
      }
      used := used + {id};
      outcome := Done;
    }

    /** Recovery of one listed job. */
    method RecoverOne(id: JobId, answer: Option<OrderStatus>) returns (outcome: Outcome)
      requires Valid()
      modifies table
      ensures Valid() && (Now(), outcome) == Recovered(old(Now()), id, answer)
    {
      if id !in table.jobs {
        return Raised;
      }
      var ok := RecoverJob(table, id, answer);
      outcome := if ok then Done else Raised;
    }

    /** `delete_terminal_job`. */
    method RemoveJob(id: JobId) returns (outcome: Outcome)
      requires Valid()
      modifies table
      ensures Valid() && (Now(), outcome) == Removes(old(Now()), id)
    {
      if id !in table.jobs || !Deletable(table.jobs[id].state) {
        return Raised;
      }
      table.DeleteJob(id);
      outcome := Done;
    }
  }

  // ---- Whole histories ----

  method Serve(o: Orchestrator, call: Call) returns (outcome: Outcome)
    requires o.Valid()
    modifies o, o.table
    ensures o.Valid() && (o.Now(), outcome) == AfterCall(old(o.Now()), call)
  {
    o.Begin(call);
    match call {
      case NewJob(id, issuer, environment, dns, identifiers) =>
        outcome := o.AddJob(id, issuer, environment, dns, identifiers);
      case Start(id, setup, completion) =>
        outcome := o.StartAcme(id, setup, completion);
      case Continue(id, seen) =>
        outcome := o.ContinueManualDns(id, seen);
      case CancelJob(id, cleanup) =>
        outcome := o.Cancel(id, cleanup);
      case Retry(id, cleanup) =>
        outcome := o.RetryCleanup(id, cleanup);
      case Recover(id, answer) =>
        outcome := o.RecoverOne(id, answer);
      case Delete(id) =>
        outcome := o.RemoveJob(id);
    }
  }

  /** The next of a sequence of calls. */
  method ServeNext(o: Orchestrator, calls: seq<Call>, i: nat) returns (outcome: Outcome)
    requires i < |calls| && o.Valid() && o.Now() == AllCalls(calls[..i])
    modifies o, o.table
    ensures o.Valid() && o.Now() == AllCalls(calls[..i + 1])
    ensures outcome == AfterCall(AllCalls(calls[..i]), calls[i]).1
  {
    OneCallMore(calls[..i], calls[i]);
    assert calls[..i + 1] == calls[..i] + [calls[i]];
    outcome := Serve(o, calls[i]);
  }

  /** Any sequence of calls, whatever the authority and the provider answer, comes to what
      the steps say, so that all that holds of them holds of the orchestrator. */
  method ServeAll(calls: seq<Call>) returns (o: Orchestrator)
    ensures o.Now() == AllCalls(calls)
  {
    var table := new JobTable();
    o := new Orchestrator(table);
    for i := 0 to |calls|
      invariant o.Valid() && fresh(o) && fresh(o.table)
      invariant o.Now() == AllCalls(calls[..i])
    {
      var outcome := ServeNext(o, calls, i);
    }
    assert calls[..|calls|] == calls;
  }
}
