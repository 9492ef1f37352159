/** The ACME orchestrator with a process that may die in the middle of any call: what
    holds after whole calls holds after any of their writes. */
module AcmeStops {
  import opened AcmeLog
  import opened AcmeSteps
  import opened Common
  import opened Identifiers
  import opened Jobs

  // ---- The states in which a call can stop ----

  /** `_complete_dns` from the cleanup on. */
  predicate StopsFinishing(d: Desk, id: JobId, records: seq<TxtRecord>, c: Completion, after: Desk)
    requires id in d.jobs && d.calls != []
  {
    var cleaned := CleansUp(d, id, records, c.cleanup);
    || after == d || after == cleaned
    || match Met(d, id, records, c.cleanup)
       case Raises => false
       case Errors => c.authority.Delivers? && after == cleaned.(targets := cleaned.targets[id := Issued])
       case Clean =>
         && c.authority.Delivers?
         && var issued := Enters(cleaned, id, Issued, Some(c.authority.certificate), None);
            after == issued || after == issued.(presented := issued.presented - {id})
  }

  predicate StopsCompleting(d: Desk, id: JobId, records: seq<TxtRecord>, c: Completion, after: Desk)
    requires id in d.jobs && d.calls != []
  {
    || after == d || after == Moves(d, id, Validating)
    || StopsFinishing(Advances(d, id, c.authority), id, records, c, after)
  }

  predicate StopsPreparing(d: Desk, id: JobId, setup: Setup, after: Desk)
    requires id in d.jobs && d.calls != []
  {
    after == d || (setup.prepared && after == Orders(d, id)) || after == Prepares(d, id, setup)
  }

  predicate HasProof(d: Desk, id: JobId)
    requires id in d.jobs
  {
    d.jobs[id].environment == Production ==> ProofKey(d.jobs[id].identifiers) in d.proofs
  }

  predicate StopsStarting(d: Desk, id: JobId, setup: Setup, c: Completion, after: Desk)
    requires d.calls != []
  {
    || after == d
    || (IsAcme(d, id, Draft) && HasProof(d, id)
        && (StopsPreparing(d, id, setup, after)
            || (IsComplete(setup) && d.jobs[id].dns == Cloudflare
                && StopsCompleting(Moves(Prepares(d, id, setup), id, AwaitingDns), id, setup.presented.value, c, after))))
  }

  predicate StopsContinuing(d: Desk, id: JobId, seen: Visibility, after: Desk)
    requires d.calls != []
  {
    || after == d
    || (IsAcme(d, id, AwaitingDns) && d.jobs[id].dns == Manual && id in d.presented
        && match seen
           case Expired(renewed) => StopsPreparing(d, id, renewed, after)
           case Visible(completion) => StopsCompleting(d, id, d.presented[id], completion, after)
           case _ => false)
  }

  predicate StopsCancelling(d: Desk, id: JobId, cleanup: Cleanup, after: Desk)
    requires d.calls != []
  {
    || after == d
    || (id in d.jobs && Stored(d, id) != []
        && var cleaned := CleansUp(d, id, Stored(d, id), cleanup);
           || after == cleaned
           || (Met(d, id, Stored(d, id), cleanup).Errors? && after == cleaned.(targets := cleaned.targets[id := Cancelled])))
  }

  predicate StopsRetrying(d: Desk, id: JobId, cleanup: Cleanup, after: Desk)
    requires d.calls != []
  {
    after == d || (IsAcme(d, id, CleanupRequired) && after == CleansUp(d, id, Stored(d, id), cleanup))
  }

  /** The process died in the call, before any write of it or after any but the last. */
  predicate Stops(d: Desk, call: Call, after: Desk) {
    var begun := Called(d, call);
    match call
    case Start(id, setup, completion) => StopsStarting(begun, id, setup, completion, after)
    case Continue(id, seen) => StopsContinuing(begun, id, seen, after)
    case CancelJob(id, cleanup) => StopsCancelling(begun, id, cleanup, after)
    case Retry(id, cleanup) => StopsRetrying(begun, id, cleanup, after)
    case _ => after == begun
  }

  // ---- Each of them is in order ----

  lemma FinishingKeeps(d: Desk, id: JobId, c: Completion, after: Desk)
    requires InOrder(d) && id in d.jobs && d.jobs[id].state != Issued && Asked(d, c.cleanup)
    requires StopsFinishing(d, id, Stored(d, id), c, after)
    ensures InOrder(after)
  {
    var cleaned := CleansUp(d, id, Stored(d, id), c.cleanup);
    CleansUpKeeps(d, id, c.cleanup);
    if after != d && after != cleaned {
      if Met(d, id, Stored(d, id), c.cleanup).Errors? {
        TargetKeepsJobs(cleaned.log, cleaned.jobs, cleaned.proofs, cleaned.targets, cleaned.used, id, Issued);
      } else {
        EntersKeeps(cleaned, id, Issued, Some(c.authority.certificate), None);
      }
    }
  }

  lemma CompletingKeeps(d: Desk, id: JobId, c: Completion, after: Desk)
    requires InOrder(d) && IsAcme(d, id, AwaitingDns) && Asked(d, c.cleanup)
    requires StopsCompleting(d, id, Stored(d, id), c, after)
    ensures InOrder(after)
  {
    MovesKeeps(d, id, Validating);
    if !c.authority.FailsValidating? {
      MovesKeeps(Moves(d, id, Validating), id, Issuing);
    }
    if after != d && after != Moves(d, id, Validating) {
      FinishingKeeps(Advances(d, id, c.authority), id, c, after);
    }
  }

  lemma PreparingKeeps(d: Desk, id: JobId, setup: Setup, after: Desk)
    requires InOrder(d) && id in d.jobs && d.calls != [] && HasProof(d, id) && StopsPreparing(d, id, setup, after)
    ensures InOrder(after)
  {
    OrdersKeeps(d, id);
    PreparesKeeps(d, id, setup);
  }

  lemma StartingKeeps(d: Desk, id: JobId, setup: Setup, c: Completion, after: Desk)
    requires InOrder(d) && Asked(d, c.cleanup) && StopsStarting(d, id, setup, c, after)
    ensures InOrder(after)
  {
    if after != d {
      if StopsPreparing(d, id, setup, after) {
        PreparingKeeps(d, id, setup, after);
      } else {
        var waiting := Moves(Prepares(d, id, setup), id, AwaitingDns);
        PreparesKeeps(d, id, setup);
        MovesKeeps(Prepares(d, id, setup), id, AwaitingDns);
        CompletingKeeps(waiting, id, c, after);
      }
    }
  }

  lemma ContinuingKeeps(d: Desk, id: JobId, seen: Visibility, after: Desk)
    requires InOrder(d) && d.calls != [] && (seen.Visible? ==> Asked(d, seen.completion.cleanup))
    requires StopsContinuing(d, id, seen, after)
    ensures InOrder(after)
  {
    if after != d {
      if seen.Expired? {
        PreparingKeeps(d, id, seen.renewed, after);
      } else {
        CompletingKeeps(d, id, seen.completion, after);
      }
    }
  }

  lemma CancellingKeeps(d: Desk, id: JobId, cleanup: Cleanup, after: Desk)
    requires InOrder(d) && Asked(d, cleanup) && StopsCancelling(d, id, cleanup, after)
    ensures InOrder(after)
  {
    if after != d {
      var cleaned := CleansUp(d, id, Stored(d, id), cleanup);
      CleansUpKeeps(d, id, cleanup);
      TargetKeepsJobs(cleaned.log, cleaned.jobs, cleaned.proofs, cleaned.targets, cleaned.used, id, Cancelled);
    }
  }

  lemma StopsKeeps(d: Desk, call: Call, after: Desk)
    requires InOrder(d) && Stops(d, call, after)
    ensures InOrder(after)
  {
    var begun := Called(d, call);
    CalledKeeps(d, call);
    match call {
      case Start(id, setup, completion) =>
        StartingKeeps(begun, id, setup, completion, after);
      case Continue(id, seen) =>
        ContinuingKeeps(begun, id, seen, after);
      case CancelJob(id, cleanup) =>
        CancellingKeeps(begun, id, cleanup, after);
      case Retry(id, cleanup) =>
        if after != begun {
          CleansUpKeeps(begun, id, cleanup);
        }
      case _ =>
    }
  }

  lemma CompletingNotes(d: Desk, id: JobId, records: seq<TxtRecord>, c: Completion, after: Desk)
    requires id in d.jobs && d.calls != [] && StopsCompleting(d, id, records, c, after)
    ensures SameNotes(d, after)
  {
  }

  lemma StopsNotes(d: Desk, call: Call, after: Desk)
    requires Stops(d, call, after)
    ensures SameNotes(Called(d, call), after)
  {
    var begun := Called(d, call);
    if call.Start? && after != begun && !StopsPreparing(begun, call.id, call.setup, after) {
      var waiting := Moves(Prepares(begun, call.id, call.setup), call.id, AwaitingDns);
      CompletingNotes(waiting, call.id, call.setup.presented.value, call.completion, after);
    } else if call.Continue? && after != begun && call.seen.Visible? {
      CompletingNotes(begun, call.id, begun.presented[call.id], call.seen.completion, after);
    }
  }

  // ---- Every run ----

  /** Calls served one after the other, each whole or cut short by the death of the process. */
  predicate IsRun(calls: seq<Call>, states: seq<Desk>) {
    && |states| == |calls| + 1 && states[0] == EMPTY
    && forall i | 0 <= i < |calls| ::
         states[i + 1] == AfterCall(states[i], calls[i]).0 || Stops(states[i], calls[i], states[i + 1])
  }

  lemma {:induction false} RunInOrder(calls: seq<Call>, states: seq<Desk>, i: nat)
    requires FreshJobs(calls) && IsRun(calls, states) && i <= |calls|
    ensures InOrder(states[i]) && states[i].calls == calls[..i] && Brought(states[i].used, calls[..i])
  {
    if i > 0 {
      var before, call := calls[..i - 1], calls[i - 1];
      RunInOrder(calls, states, i - 1);
      assert calls[..i] == before + [call];
      FreshUpTo(calls, i);
      BroughtOneMore(states[i - 1].used, before, call);
      AfterCallNotes(states[i - 1], call);
      if states[i] == AfterCall(states[i - 1], call).0 {
        AfterCallKeeps(states[i - 1], call);
      } else {
        StopsKeeps(states[i - 1], call, states[i]);
        StopsNotes(states[i - 1], call, states[i]);
      }
    }
  }

  lemma FreshUpTo(calls: seq<Call>, i: nat)
    requires FreshJobs(calls) && i <= |calls|
    ensures FreshJobs(calls[..i])
  {
  }

  /** Whole calls are a run. */
  lemma {:induction false} WholeCalls(calls: seq<Call>) returns (states: seq<Desk>)
    ensures IsRun(calls, states) && states[|calls|] == AllCalls(calls)
  {
    if calls == [] {
      states := [EMPTY];
    } else {
      var before, call := calls[..|calls| - 1], calls[|calls| - 1];
      var earlier := WholeCalls(before);
      assert calls == before + [call];
      OneCallMore(before, call);
      states := earlier + [AllCalls(calls)];
    }
  }

  /** Over every run, wherever processes died: a job enters issued or cancelled only with
      nothing stored, or right after the provider, in the same call, has cleaned all that
      is stored without errors; it enters cleanup required only right after the provider,
      in the same call, has reported errors; a production order only follows an issued
      staging job for the same names; and the log accounts for every job where it stands. */
  lemma {:induction false} RunSound(calls: seq<Call>, states: seq<Desk>, i: nat)
    requires FreshJobs(calls) && IsRun(calls, states) && i <= |calls|
    ensures var d := states[i];
            && (forall j | 0 <= j < |d.log| :: SoundEntry(d.log, calls[..i], j))
            && OrdersBacked(d.log) && Recorded(d.log, d.jobs)
  {
    RunInOrder(calls, states, i);
  }

  /** And at any point of it a job stands issued without a certificate exactly when such a
      retry issued it. */
  lemma {:induction false} RunIssuedEmptyIff(calls: seq<Call>, states: seq<Desk>, i: nat, id: JobId)
    requires FreshJobs(calls) && IsRun(calls, states) && i <= |calls|
    requires id in states[i].jobs && states[i].jobs[id].issuer == Acme
    ensures var d := states[i];
            d.jobs[id].state == Issued && d.jobs[id].certificate.None? <==>
            exists j :: 0 <= j < |d.log| && d.log[j].call < i && RetriedEmpty(d.log, calls[..i], j, id)
  {
    RunInOrder(calls, states, i);
    EmptyIffRetried(states[i].log, calls[..i], states[i].jobs, id);
  }
}
