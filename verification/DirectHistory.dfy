/** The life of the direct delivery service: batches, single activations and
    cleanups in any order, with processes that die anywhere and are restarted. */
module DirectHistory {
  import opened Common
  import opened SisReply
  import opened Activation
  import opened DirectBatch

  // ---- Restart ----

  function RecoveredStatus(status: Status): Status {
    match status
    case Uploading => UploadUnconfirmed
    case Testing => Interrupted
    case Pending => Skipped
    case Ready => Skipped
    case _ => status
  }

  /** What a restart makes of a saved run. */
  predicate IsRecovered(saved: Run, run: Run) {
    if saved.status != Running then run == saved
    else
      && run.mode == saved.mode && run.status == InterruptedRun && run.requestedStop == saved.requestedStop
      && |run.devices| == |saved.devices|
      && forall i | 0 <= i < |run.devices| ::
           run.devices[i] == saved.devices[i].(status := RecoveredStatus(saved.devices[i].status))
  }

  /** What each device of an interrupted run comes back as. */
  lemma RecoveredShows(saved: Run, run: Run, i: nat)
    requires IsRecovered(saved, run) && saved.status == Running && i < |saved.devices|
    ensures run.status == InterruptedRun && run.mode == saved.mode && |run.devices| == |saved.devices|
    ensures var before, after := saved.devices[i], run.devices[i];
            && after.selector == before.selector && after.nic == before.nic && after.certificate == before.certificate
            && (after.status == UploadUnconfirmed <==> before.status in {Uploading, UploadUnconfirmed})
            && (after.status == Interrupted <==> before.status in {Testing, Interrupted})
            && (after.status == Skipped <==> before.status in {Pending, Ready, Skipped})
            && (after.status in {UploadUnconfirmed, Interrupted, Skipped} || after.status == before.status)
  {
  }

  method RecoverRun(saved: Run) returns (run: Run)
    ensures IsRecovered(saved, run)
  {
    if saved.status != Running {
      return saved;
    }
    var devices := [];
    for i := 0 to |saved.devices|
      invariant |devices| == i
      invariant forall j | 0 <= j < i :: devices[j] == saved.devices[j].(status := RecoveredStatus(saved.devices[j].status))
    {
      var device := saved.devices[i];
      if device.status == Uploading {
        device := device.(status := UploadUnconfirmed);
      } else if device.status == Testing {
        device := device.(status := Interrupted);
      } else if device.status == Pending || device.status == Ready {
        device := device.(status := Skipped);
      }
      devices := devices + [device];
    }
    run := Run(saved.mode, InterruptedRun, saved.requestedStop, devices);
  }

  method RecoverRuns(saved: map<RunId, Run>) returns (runs: map<RunId, Run>)
    ensures runs.Keys == saved.Keys && forall id | id in runs :: IsRecovered(saved[id], runs[id])
  {
    runs := map[];
    var todo := saved.Keys;
    while todo != {}
      invariant todo <= saved.Keys && runs.Keys == saved.Keys - todo
      invariant forall id | id in runs :: IsRecovered(saved[id], runs[id])
    {
      var id :| id in todo;
      var run := RecoverRun(saved[id]);
      runs, todo := runs[id := run], todo - {id};
    }
  }

  /** The device an import was sent to shows a result, and its run is not running. */
  predicate ShowsResult(im: ImportSent, runs: map<RunId, Run>) {
    im.run.Some? ==>
      && im.run.value in runs && runs[im.run.value].status != Running
      && im.index < |runs[im.run.value].devices| && IsResult(runs[im.run.value].devices[im.index].status)
  }

  /** No run is running, and every import sent in a batch shows a result. */
  ghost predicate Settled(imports: set<ImportSent>, runs: map<RunId, Run>) {
    && (forall id | id in runs :: runs[id].status != Running)
    && forall im | im in imports :: ShowsResult(im, runs)
  }

  /** The device of an import comes back as unconfirmed if its upload was still
      running, and otherwise with the result recorded for it. */
  predicate RecoveredAt(im: ImportSent, saved: map<RunId, Run>, runs: map<RunId, Run>)
    requires im.run.Some?
  {
    && im.run.value in saved && im.run.value in runs
    && im.index < |saved[im.run.value].devices| == |runs[im.run.value].devices|
    && var before, after := saved[im.run.value].devices[im.index].status, runs[im.run.value].devices[im.index].status;
       IsResult(after) && after == if before == Uploading then UploadUnconfirmed else before
  }

  lemma RecoveryShowsResult(im: ImportSent, saved: map<RunId, Run>, runs: map<RunId, Run>)
    requires ShowsImport(im, saved) && im.run.Some?
    requires im.run.value in runs && IsRecovered(saved[im.run.value], runs[im.run.value])
    ensures RecoveredAt(im, saved, runs)
  {
  }

  /** Between commands no run is running, so every import shown shows a result. */
  lemma SettledIffShown(imports: set<ImportSent>, runs: map<RunId, Run>)
    requires forall id | id in runs :: runs[id].status != Running
    ensures Settled(imports, runs) <==> ImportsShown(imports, runs)
  {
    if ImportsShown(imports, runs) {
      forall im | im in imports ensures ShowsResult(im, runs) {
        assert ShowsImport(im, runs);
      }
    }
    if Settled(imports, runs) {
      forall im | im in imports ensures ShowsImport(im, runs) {
        assert ShowsResult(im, runs);
      }
    }
  }

  /** Whatever the saved progress was when the process died: every device that was
      sent an import comes back with a result. */
  lemma {:induction false} RecoveryShowsResults(imports: set<ImportSent>, saved: map<RunId, Run>, runs: map<RunId, Run>)
    requires ImportsShown(imports, saved)
    requires runs.Keys == saved.Keys && forall id | id in runs :: IsRecovered(saved[id], runs[id])
    ensures Settled(imports, runs) && ImportsShown(imports, runs)
    ensures forall im | im in imports && im.run.Some? :: RecoveredAt(im, saved, runs)
  {
    forall id | id in runs ensures runs[id].status != Running {
      assert IsRecovered(saved[id], runs[id]);
    }
    forall im | im in imports && im.run.Some? ensures RecoveredAt(im, saved, runs) {
      RecoveryShowsResult(im, saved, runs);
    }
    SettledIffShown(imports, runs);
  }

  /** A new process: `__init__`. It sends nothing to any device. */
  method Restart(d: Direct) returns (r: Outcome)
    requires d.Inv()
    modifies d`clock, d`saved, d`batches, d`locked
    ensures d.Inv() && !d.locked
    ensures r == Dead || r == Raised || r == Finished(Ready)
    ensures d.world == CALM ==> r.Finished?
    ensures r.Finished? ==>
              && d.saved == d.batches && Settled(d.imports, d.batches)
              && d.batches.Keys == old(d.saved).Keys
              && forall id | id in d.batches :: IsRecovered(old(d.saved)[id], d.batches[id])
    ensures !r.Finished? ==> d.saved == old(d.saved)
  {
    d.locked := false;
    ghost var before := d.saved;
    var runs := RecoverRuns(d.saved);
    d.batches := runs;
    RecoveryShowsResults(d.imports, before, d.batches);
    r := Finished(Ready);
    if d.batches != map[] {
      r := Persist(d);
    }
  }

  // ---- Commands ----

  /** Between commands. */
  ghost predicate Idle(d: Direct)
    reads d
  {
    d.Inv() && !d.locked && Settled(d.imports, d.batches)
  }

  lemma AddedThenMoved(before: map<RunId, Run>, between: map<RunId, Run>, after: map<RunId, Run>, id: RunId)
    requires id in between && between == before[id := between[id]] && OnlyMoved(between, after, id)
    ensures after == before[id := after[id]]
  {
  }

  lemma AddedSettles(imports: set<ImportSent>, before: map<RunId, Run>, after: map<RunId, Run>, id: RunId)
    requires forall other | other in before :: before[other].status != Running
    requires id in after && after == before[id := after[id]] && after[id].status != Running
    requires ImportsShown(imports, after)
    ensures Settled(imports, after)
  {
    SettledIffShown(imports, after);
  }

  lemma NothingStaged(log: seq<Note>, next: seq<Note>, id: RunId, pauses: seq<Pause>, answers: seq<Answers>)
    requires NothingMoved(log, next) && forall note | note in log :: BatchOf(note) != Some(id)
    ensures StagedUnstopped(next, id, pauses, answers)
  {
    forall note | note in next && note.PemStaged? ensures note.run != Some(id) {
      assert BatchOf(note) != Some(id);
    }
  }

  lemma NothingMovedTwice(log: seq<Note>, between: seq<Note>, next: seq<Note>)
    requires NothingMoved(log, between)
    ensures NothingMoved(between, next) ==> NothingMoved(log, next)
  {
  }

  /** A batch from request to end: `start_batch` and its worker. */
  method RunBatch(d: Direct, id: RunId, mode: Mode, targets: seq<Target>, threadStarts: bool, script: Script)
    returns (reply: StartReply, ghost clear: seq<bool>, ghost verified: nat)
    requires Idle(d) && id !in d.batches && GoodScript(script, |targets|, d.staged)
    requires forall note | note in d.log :: BatchOf(note) != Some(id)
    modifies d`clock, d`saved, d`batches, d`locked, d`staged, d`everStaged, d`remote, d`imports, d`log
    ensures d.Inv() && (!reply.StartDead? ==> Idle(d))
    ensures Warranted(d.log, id, mode, script, clear)
            || (d.imports == old(d.imports) && d.everStaged == old(d.everStaged) && NothingMoved(old(d.log), d.log))
    ensures StagedUnstopped(d.log, id, script.uploadPauses, script.answers)
    ensures reply.Refused? <==> targets == [] || exists target | target in targets :: !GoodTarget(target)
    ensures reply.Refused? ==> d.batches == old(d.batches)
    ensures reply.StartRaised? ==>
              id in d.batches && d.batches == old(d.batches)[id := d.batches[id]] && d.batches[id].status == Failed
    ensures reply.Accepted? ==>
              && id in d.batches && d.batches == old(d.batches)[id := d.batches[id]]
              && (d.batches[id].status != Failed ==>
                    d.batches[id].mode == mode
                    && RanThrough(d.batches[id], script, clear, verified, d.batches[id].status, StopLate(script),
                                  d.world == CALM))
    ensures d.world == CALM && reply.Accepted? && d.batches[id].status == Failed ==> ProbeRaises in script.probes
    ensures d.world == CALM ==> !reply.StartDead? && (reply.StartRaised? ==> !threadStarts)
  {
    SettledIffShown(d.imports, d.batches);
    clear, verified := [], 0;
    ghost var before, notes := d.batches, d.log;
    reply := StartBatch(d, id, mode, targets, threadStarts);
    NothingStaged(notes, d.log, id, script.uploadPauses, script.answers);
    if reply.StartDead? || reply.Refused? {
      return;
    }
    if reply.Accepted? {
      ghost var started, log := d.batches, d.log;
      var alive;
      alive, clear, verified := ExecuteBatch(d, id, script);
      NothingMovedTwice(notes, log, d.log);
      if !alive {
        return StartDead, clear, verified;
      }
      AddedThenMoved(before, started, d.batches, id);
    }
    AddedSettles(d.imports, before, d.batches, id);
  }

  datatype SingleReply = SingleRefused | SingleFinished(status: Status) | SingleRaised | SingleDead

  /** The audit of an individual activation's result, and the end of its lock. */
  method AuditSingle(d: Direct, r: Outcome) returns (reply: SingleReply)
    modifies d`clock, d`locked
    ensures !reply.SingleRefused? && (r == Dead ==> reply.SingleDead?)
    ensures reply.SingleFinished? ==> r == Finished(reply.status)
    ensures if reply.SingleDead? then d.locked == old(d.locked) else !d.locked
    ensures d.world == CALM ==>
              reply == match r case Finished(status) => SingleFinished(status) case Raised => SingleRaised case Dead => SingleDead
  {
    var alive, raises := r != Dead, !r.Finished?;
    if r.Finished? {
      alive, raises := d.Step();
    }
    if !alive {
      return SingleDead;
    }
    d.locked := false;
    reply := if raises then SingleRaised else SingleFinished(r.status);
  }

  lemma SingleKeepsSettled(before: set<ImportSent>, after: set<ImportSent>, runs: map<RunId, Run>,
                           selector: Selector, nic: Nic, name: Name)
    requires Settled(before, runs) && AtMostOneMore(before, after, None, 0, selector, nic, name)
    ensures Settled(after, runs)
  {
  }

  /** `activate_one`: one activation under the lock, then the audit of its result. */
  method ActivateSingle(d: Direct, selector: Selector, nic: Nic, certificate: CertificateId, name: Name, a: Answers)
    returns (reply: SingleReply)
    requires d.Inv() && Settled(d.imports, d.batches) && WellFormed(a) && name !in d.staged
    modifies d`clock, d`locked, d`staged, d`everStaged, d`remote, d`imports, d`log
    ensures d.Inv() && Settled(d.imports, d.batches) && d.staged - {name} == old(d.staged)
    ensures AtMostOneNote(old(d.log), d.log, PemStaged(None, 0, name))
    ensures !Permitted(a) ==>
              && d.staged == old(d.staged) && d.remote == old(d.remote) && d.imports == old(d.imports)
              && d.log == old(d.log) && d.everStaged == old(d.everStaged)
    ensures reply.SingleRefused? <==> old(d.locked)
    ensures reply.SingleRefused? ==> d.locked && d.imports == old(d.imports) && d.everStaged == old(d.everStaged)
    ensures reply.SingleFinished? || reply.SingleRaised? ==> !d.locked
    ensures AtMostOneMore(old(d.imports), d.imports, None, 0, selector, nic, name)
    ensures reply == SingleFinished(Verified) ==>
              FullyVerified(a, nic, name) && name !in d.remote && Imported(d.imports, name)
    ensures d.world == CALM && !old(d.locked) ==>
              reply == match Planned(a, nic, name) case Finished(status) => SingleFinished(status) case _ => SingleRaised
  {
    assert d.staged - {name} == d.staged;
    if d.locked {
      return SingleRefused;
    }
    d.locked := true;
    ghost var before := d.imports;
    var r := d.ActivateOne(None, 0, selector, nic, certificate, name, a);
    SingleKeepsSettled(before, d.imports, d.batches, selector, nic, name);
    reply := AuditSingle(d, r);
  }

  /** A complete upload batch delivered to every device: each import was acknowledged
      exactly, seen over HTTPS, and its file deleted. */
  lemma CompleteVouches(run: Run, script: Script, clear: seq<bool>, verified: nat, calm: bool, staged: map<Name, Record>)
    requires run.mode == Upload && run.devices != [] && GoodScript(script, |run.devices|, staged)
    requires BatchShape(run, script, clear, Uploads(Upload, script, clear), verified, Complete, calm)
    ensures Uploads(Upload, script, clear) && verified == |run.devices|
    ensures forall i | 0 <= i < |run.devices| ::
              run.devices[i].status == Verified && FullyVerified(script.answers[i], run.devices[i].nic, script.names[i])
  {
    assert run.devices[0].status == Verified;
    if ProbedShape(run, script, clear) && |clear| > 0 {
      TidiedSuccess(run, script, clear, 0);
    }
  }

  // ---- Whole histories ----

  datatype Event =
    | Batch(id: RunId, mode: Mode, targets: seq<Target>, threadStarts: bool, script: Script)
    | Single(selector: Selector, nic: Nic, certificate: CertificateId, name: Name, answers: Answers)
    | Cleanup(name: Name, call: CleanupCall)
    | NewProcess

  /** The service between commands, and whether a process serves it. */
  datatype State = State(
    staged: map<Name, Record>,
    saved: map<RunId, Run>,
    batches: map<RunId, Run>,
    everStaged: set<Name>,
    remote: set<Name>,
    imports: set<ImportSent>,
    log: seq<Note>,
    up: bool)

  ghost function Now(d: Direct, up: bool): State
    reads d
  {
    State(d.staged, d.saved, d.batches, d.everStaged, d.remote, d.imports, d.log, up)
  }

  /** Identifiers and file names of a request were never used before. */
  predicate Fresh(staged: map<Name, Record>, batches: map<RunId, Run>, log: seq<Note>, event: Event) {
    match event
    case Batch(id, _, targets, _, script) =>
      id !in batches && GoodScript(script, |targets|, staged) && forall note | note in log :: BatchOf(note) != Some(id)
    case Single(_, _, _, name, answers) => WellFormed(answers) && name !in staged
    case Cleanup(_, call) => call.delete != []
    case NewProcess => true
  }

  /** What a batch does to the service, whatever its end: no private PEM moves without
      the warrant of its preflight, nor after a stop; and what it leaves if the process lives. */
  ghost predicate BatchDone(before: State, event: Event, calm: bool, after: State, clear: seq<bool>, verified: nat)
    requires event.Batch?
  {
    && (Warranted(after.log, event.id, event.mode, event.script, clear)
        || (after.imports == before.imports && after.everStaged == before.everStaged && NothingMoved(before.log, after.log)))
    && StagedUnstopped(after.log, event.id, event.script.uploadPauses, event.script.answers)
    && (after.up ==> BatchLeft(before.batches, event, calm, after.batches, clear, verified))
  }

  ghost predicate BatchLeft(before: map<RunId, Run>, event: Event, calm: bool, after: map<RunId, Run>,
                            clear: seq<bool>, verified: nat)
    requires event.Batch?
  {
    if event.targets == [] || exists target | target in event.targets :: !GoodTarget(target) then after == before
    else
      && event.id in after && after == before[event.id := after[event.id]]
      && var run := after[event.id];
         if run.status == Failed then calm ==> !event.threadStarts || ProbeRaises in event.script.probes
         else
           && run.mode == event.mode
           && RanThrough(run, event.script, clear, verified, run.status, StopLate(event.script), calm)
  }

  ghost predicate BatchServed(before: State, event: Event, calm: bool, after: State)
    requires event.Batch?
  {
    exists clear: seq<bool>, verified: nat :: BatchDone(before, event, calm, after, clear, verified)
  }

  ghost predicate SingleDone(before: State, event: Event, calm: bool, after: State)
    requires event.Single? && WellFormed(event.answers)
  {
    && after.batches == before.batches && after.saved == before.saved && after.staged - {event.name} == before.staged
    && AtMostOneMore(before.imports, after.imports, None, 0, event.selector, event.nic, event.name)
    && AtMostOneNote(before.log, after.log, PemStaged(None, 0, event.name))
    && (!Permitted(event.answers) ==> after == before.(up := after.up))
    && (calm && FullyVerified(event.answers, event.nic, event.name) ==>
          Imported(after.imports, event.name) && event.name !in after.remote)
  }

  ghost predicate CleanupDone(before: State, event: Event, calm: bool, after: State)
    requires event.Cleanup? && event.call.delete != []
  {
    && after == before.(staged := after.staged, remote := after.remote, up := after.up)
    && after.staged.Keys == before.staged.Keys
    && (after.remote == before.remote
        || (after.remote == before.remote - {event.name} && event.name in before.staged
            && event.call.trust.Trusted? && event.call.confirmed
            && (before.staged[event.name].knownCompletion || event.call.graceOver)))
    && (!event.call.trust.Trusted? || !event.call.confirmed ==>
          after.remote == before.remote && after.staged == before.staged)
    && (calm ==>
          var planned := PlannedCleanup(before.staged, event.name, event.call);
          && after.staged == AfterCleanup(before.staged, event.name, planned)
          && (planned.Cleaned? ==> event.name !in after.remote))
  }

  /** A new process sends nothing and moves nothing. */
  ghost predicate RestartDone(before: State, after: State) {
    && after == before.(saved := after.saved, batches := after.batches, up := after.up)
    && if !after.up then after.saved == before.saved
       else
         && after.saved == after.batches && after.batches.Keys == before.saved.Keys
         && forall id | id in after.batches :: IsRecovered(before.saved[id], after.batches[id])
  }

  /** What one event makes of the service. One that is not fresh is never made, and
      without a process only a new process does anything. */
  ghost predicate Served(before: State, event: Event, world: World, after: State) {
    if !Fresh(before.staged, before.batches, before.log, event) || !(before.up || event.NewProcess?) then after == before
    else
      && (world == CALM ==> after.up)
      && match event
         case Batch(_, _, _, _, _) => BatchServed(before, event, world == CALM, after)
         case Single(_, _, _, _, _) => SingleDone(before, event, world == CALM, after)
         case Cleanup(_, _) => CleanupDone(before, event, world == CALM, after)
         case NewProcess => RestartDone(before, after)
  }

  method ServeBatch(d: Direct, event: Event) returns (alive: bool)
    requires event.Batch? && Idle(d) && Fresh(d.staged, d.batches, d.log, event)
    modifies d
    ensures d.Inv() && (alive ==> Idle(d)) && d.world == old(d.world)
    ensures BatchServed(old(Now(d, true)), event, d.world == CALM, Now(d, alive))
    ensures d.world == CALM ==> alive
  {
    ghost var before := Now(d, true);
    var reply;
    ghost var clear, verified;
    reply, clear, verified := RunBatch(d, event.id, event.mode, event.targets, event.threadStarts, event.script);
    alive := !reply.StartDead?;
    assert BatchDone(before, event, d.world == CALM, Now(d, alive), clear, verified);
  }

  method ServeSingle(d: Direct, event: Event) returns (alive: bool)
    requires event.Single? && Idle(d) && Fresh(d.staged, d.batches, d.log, event)
    modifies d
    ensures d.Inv() && (alive ==> Idle(d)) && d.world == old(d.world)
    ensures SingleDone(old(Now(d, true)), event, d.world == CALM, Now(d, alive))
    ensures d.world == CALM ==> alive
  {
    VerifiedIff(event.answers, event.nic, event.name);
    var reply := ActivateSingle(d, event.selector, event.nic, event.certificate, event.name, event.answers);
    alive := !reply.SingleDead?;
  }

  method ServeCleanup(d: Direct, event: Event) returns (alive: bool)
    requires event.Cleanup? && Idle(d) && event.call.delete != []
    modifies d
    ensures d.Inv() && (alive ==> Idle(d)) && d.world == old(d.world)
    ensures CleanupDone(old(Now(d, true)), event, d.world == CALM, Now(d, alive))
    ensures d.world == CALM ==> alive
  {
    var reply := d.CleanupOne(event.name, event.call);
    alive := reply != CleanupDead;
  }

  /** One command; `up` says whether a process serves it, and afterwards whether it survived. */
  method Serve(d: Direct, up: bool, event: Event, world: World) returns (alive: bool)
    requires d.Inv() && (up ==> Idle(d))
    modifies d
    ensures d.Inv() && (alive ==> Idle(d))
    ensures Served(old(Now(d, up)), event, world, Now(d, alive))
  {
    d.world, d.clock := world, 0;
    alive := up;
    if !Fresh(d.staged, d.batches, d.log, event) {
      return;
    }
    if event.NewProcess? {
      var r := Restart(d);
      alive := r.Finished?;
    } else if up {
      if event.Batch? {
        alive := ServeBatch(d, event);
      } else if event.Single? {
        alive := ServeSingle(d, event);
      } else {
        alive := ServeCleanup(d, event);
      }
    }
  }

  /** The states a service goes through as it meets the events. */
  ghost predicate History(events: seq<(Event, World)>, trace: seq<State>) {
    && |trace| == |events| + 1
    && trace[0] == State(map[], map[], map[], {}, {}, {}, [], true)
    && forall i | 0 <= i < |events| :: Served(trace[i], events[i].0, events[i].1, trace[i + 1])
  }

  lemma HistoryOneMore(events: seq<(Event, World)>, i: nat, trace: seq<State>, next: State)
    requires i < |events| && History(events[..i], trace) && Served(trace[i], events[i].0, events[i].1, next)
    ensures History(events[..i + 1], trace + [next])
  {
    var longer, met := trace + [next], events[..i + 1];
    forall j | 0 <= j < |met| ensures Served(longer[j], met[j].0, met[j].1, longer[j + 1]) {
      if j < i {
        assert met[j] == events[..i][j] && longer[j] == trace[j] && longer[j + 1] == trace[j + 1];
      }
    }
  }

  /** What holds at every point of every history: the ledger covers every file that may
      be left on a device; no file was imported twice, and no batch imported to an
      interface with another file undeleted; a private PEM of a batch moved only in a
      turn of its device, taken when every device of the batch had been probed ready,
      every device before it verified, and no stop requested; and every import shows. */
  ghost predicate SafeState(s: State) {
    && LedgerCovers(s.staged, s.everStaged, s.remote) && ImportsSafe(s.imports, s.everStaged)
    && NotesSound(s.log) && NotesCover(s.log, s.everStaged, s.imports)
    && ImportsShown(s.imports, s.saved) && (s.up ==> Settled(s.imports, s.batches))
  }

  /** Any commands, in any number, each meeting any answers and faults, and any number
      of processes: the states the service goes through, each safe. */
  method RunHistory(events: seq<(Event, World)>) returns (d: Direct, alive: bool, ghost trace: seq<State>)
    ensures fresh(d) && d.Inv() && (alive ==> Idle(d))
    ensures History(events, trace) && trace[|events|] == Now(d, alive)
    ensures forall s | s in trace :: SafeState(s)
  {
    d := new Direct();
    alive, trace := true, [Now(d, true)];
    for i := 0 to |events|
      invariant fresh(d) && d.Inv() && (alive ==> Idle(d))
      invariant History(events[..i], trace) && trace[i] == Now(d, alive)
      invariant forall s | s in trace :: SafeState(s)
    {
      alive := Serve(d, alive, events[i].0, events[i].1);
      HistoryOneMore(events, i, trace, Now(d, alive));
      trace := trace + [Now(d, alive)];
    }
    assert events[..|events|] == events;
  }

  /** A private PEM that a batch moved, and so an import that it sent, followed a probe
      of every device of the batch that found it ready with nothing left of an earlier
      attempt, and came in a turn taken before any stop was requested. */
  ghost predicate Prepared(log: seq<Note>, batch: RunId, index: nat) {
    exists b, devices :: 0 <= b < |log| && log[b] == TurnBegan(batch, index, devices) && MayUpload(log[..b], batch, index, devices)
  }

  lemma StagingPrepared(log: seq<Note>, batch: RunId, index: nat, name: Name)
    requires NotesSound(log) && PemStaged(Some(batch), index, name) in log
    ensures Prepared(log, batch, index)
  {
    var j :| 0 <= j < |log| && log[j] == PemStaged(Some(batch), index, name);
    assert SoundNote(log, j);
    var b :| 0 <= b < |log[..j]| && TurnOfDevice(log[..j][b], batch, index);
    assert log[..j][b] == log[b] && SoundNote(log, b);
    assert log[b] == TurnBegan(batch, index, log[b].devices);
  }

  /** So it is for every import of a batch, at every point of every history. */
  lemma ImportsPrepared(s: State, im: ImportSent)
    requires SafeState(s) && im in s.imports && im.run.Some?
    ensures Prepared(s.log, im.run.value, im.index)
  {
    StagingPrepared(s.log, im.run.value, im.index, im.name);
  }

  /** After any history, a process that starts finds a result on every device that was
      sent an import in a batch, and by starting sends nothing. */
  method RestartAfterHistory(events: seq<(Event, World)>) returns (d: Direct, ghost trace: seq<State>)
    ensures History(events, trace) && fresh(d) && !d.locked && d.saved == d.batches
    ensures d.imports == trace[|events|].imports && d.remote == trace[|events|].remote
    ensures forall im | im in d.imports && im.run.Some? ::
              && im.run.value in d.batches && im.index < |d.batches[im.run.value].devices|
              && IsResult(d.batches[im.run.value].devices[im.index].status)
              && d.batches[im.run.value].status != Running && !im.blocked
  {
    var alive;
    d, alive, trace := RunHistory(events);
    d.world := CALM;
    var r := Restart(d);
    forall im | im in d.imports && im.run.Some? ensures ShowsResult(im, d.batches) {
    }
  }
}
