/** Batches of direct deliveries: preflight of every device, then one upload at a
    time, with progress saved before each irreversible command and never replayed. */
module DirectBatch {
  import opened Common
  import opened SisReply
  import opened Activation

  predicate IsProbeStatus(s: Status) {
    s == Ready || s == HostKeyChanged || s == ApprovalRequired || s == AuthenticationFailed || s == ConnectionFailed
  }

  /** What other threads do before the worker next takes the batch lock. */
  datatype Pause = Pause(stop: bool, cleanup: Option<(Name, CleanupCall)>)

  predicate GoodPause(p: Pause) {
    p.cleanup.Some? ==> p.cleanup.value.1.delete != []
  }

  /** Where one turn of a loop of the worker ends. */
  datatype Turn = Went(status: Status) | SawStop | Broke | Gone

  // ---- Runs as values ----

  function WithStatus(runs: map<RunId, Run>, id: RunId, index: nat, status: Status): map<RunId, Run>
    requires id in runs && index < |runs[id].devices|
  {
    var devices := runs[id].devices;
    runs[id := runs[id].(devices := devices[index := devices[index].(status := status)])]
  }

  predicate SameTarget(a: Device, b: Device) {
    a.selector == b.selector && a.certificate == b.certificate && a.nic == b.nic
  }

  /** The run moved on: same mode and targets, and a requested stop stays requested. */
  predicate MovedOn(before: Run, after: Run) {
    && before.mode == after.mode && |before.devices| == |after.devices|
    && (before.requestedStop ==> after.requestedStop)
    && forall i | 0 <= i < |before.devices| :: SameTarget(before.devices[i], after.devices[i])
  }

  /** Only the run `id` changed, by moving on. */
  predicate OnlyMoved(before: map<RunId, Run>, after: map<RunId, Run>, id: RunId) {
    id in before && id in after && after == before[id := after[id]] && MovedOn(before[id], after[id])
  }

  lemma MovedTwice(before: map<RunId, Run>, between: map<RunId, Run>, after: map<RunId, Run>, id: RunId)
    requires OnlyMoved(before, between, id) && OnlyMoved(between, after, id)
    ensures OnlyMoved(before, after, id)
  {
  }

  /** Every import of the run went to a device before `bound`, which now shows a result. */
  ghost predicate ImportsSettled(imports: set<ImportSent>, runs: map<RunId, Run>, id: RunId, bound: nat)
    requires id in runs
  {
    forall im | im in imports && im.run == Some(id) ::
      im.index < bound && im.index < |runs[id].devices| && IsResult(runs[id].devices[im.index].status)
  }

  /** Writing one device of a running batch keeps every import shown, if no import
      went to that device. */
  lemma StatusKeepsShown(imports: set<ImportSent>, runs: map<RunId, Run>, id: RunId, index: nat, status: Status)
    requires ImportsShown(imports, runs) && id in runs && index < |runs[id].devices|
    requires forall im | im in imports && im.run == Some(id) :: im.index != index || IsResult(status)
    ensures ImportsShown(imports, WithStatus(runs, id, index, status))
  {
  }

  /** Once every import of a run shows a result, the run may take any status. */
  lemma SettledShown(imports: set<ImportSent>, runs: map<RunId, Run>, id: RunId, run: Run, bound: nat)
    requires ImportsShown(imports, runs) && id in runs && ImportsSettled(imports, runs, id, bound)
    requires |run.devices| == |runs[id].devices|
    requires forall i | 0 <= i < |run.devices| && IsResult(runs[id].devices[i].status) ::
               run.devices[i].status == runs[id].devices[i].status
    ensures ImportsShown(imports, runs[id := run])
    ensures ImportsSettled(imports, runs[id := run], id, bound)
  {
    forall im | im in imports ensures ShowsImport(im, runs[id := run]) {
      assert ShowsImport(im, runs);
    }
  }

  lemma StatusTwice(runs: map<RunId, Run>, id: RunId, index: nat, first: Status, second: Status)
    requires id in runs && index < |runs[id].devices|
    ensures WithStatus(WithStatus(runs, id, index, first), id, index, second) == WithStatus(runs, id, index, second)
  {
    var devices := runs[id].devices;
    assert devices[index := devices[index].(status := first)][index := devices[index].(status := second)]
        == devices[index := devices[index].(status := second)];
  }

  lemma StatusMoves(runs: map<RunId, Run>, id: RunId, index: nat, status: Status)
    requires id in runs && index < |runs[id].devices|
    ensures OnlyMoved(runs, WithStatus(runs, id, index, status), id)
  {
  }

  // ---- Notes of a batch ----

  function BatchOf(note: Note): Option<RunId> {
    match note
    case PemStaged(run, _, _) => run
    case _ => Some(note.batch)
  }

  /** Nothing was noted of the batch but that it began. */
  ghost predicate OnlyBegan(log: seq<Note>, id: RunId, run: Run) {
    && Began(id, run.mode, |run.devices|) in log
    && forall note | note in log && BatchOf(note) == Some(id) :: note.Began?
  }

  /** Notes were added, but no private PEM moved. */
  ghost predicate NothingMoved(before: seq<Note>, after: seq<Note>) {
    Grew(before, after) && forall note | note in after && note.PemStaged? :: note in before
  }

  ghost predicate Grew(before: seq<Note>, after: seq<Note>) {
    forall note | note in before :: note in after
  }

  ghost predicate ProbesNoted(log: seq<Note>, id: RunId, probes: seq<Probe>, clear: seq<bool>) {
    |clear| <= |probes| && forall k | 0 <= k < |clear| :: ProbeSeen(id, k, probes[k], clear[k]) in log
  }

  /** The notes of a batch in its preflight: every probe, and a stop exactly if the run shows one. */
  ghost predicate PreflightNoted(log: seq<Note>, id: RunId, run: Run, probes: seq<Probe>, clear: seq<bool>) {
    && Began(id, run.mode, |run.devices|) in log && (StopAsked(id) in log <==> run.requestedStop)
    && ProbesNoted(log, id, probes, clear)
  }

  /** And in its upload: all that taking the next turn needs, unless a stop was requested. */
  ghost predicate UploadNoted(log: seq<Note>, id: RunId, run: Run, verified: nat) {
    && Began(id, Upload, |run.devices|) in log && (StopAsked(id) in log <==> run.requestedStop)
    && (forall k | 0 <= k < |run.devices| :: ProbeSeen(id, k, Probed(Ready), true) in log)
    && (forall k | 0 <= k < verified :: ResultSeen(id, k, Verified) in log)
  }

  /** Private PEMs of the batch moved only to known and trusted devices before whose
      turns no stop came. */
  ghost predicate StagedUnstopped(log: seq<Note>, id: RunId, pauses: seq<Pause>, answers: seq<Answers>) {
    forall note | note in log && note.PemStaged? && note.run == Some(id) ::
      && note.index < |pauses| == |answers| && Permitted(answers[note.index])
      && forall k | 0 <= k <= note.index :: !pauses[k].stop
  }

  lemma MovedNothing(log: seq<Note>, next: seq<Note>, id: RunId, run: Run, pauses: seq<Pause>,
                     answers: seq<Answers>)
    requires OnlyBegan(log, id, run) && NothingMoved(log, next)
    ensures StagedUnstopped(next, id, pauses, answers)
  {
  }

  lemma NewBatchNoted(log: seq<Note>, id: RunId, run: Run)
    requires forall note | note in log :: BatchOf(note) != Some(id)
    ensures var next := log + [Began(id, run.mode, |run.devices|)]; NothingMoved(log, next) && OnlyBegan(next, id, run)
  {
  }

  // ---- Persisting and pausing ----

  /** `_persist_batches`. */
  method Persist(d: Direct) returns (r: Outcome)
    requires d.Inv() && ImportsShown(d.imports, d.batches)
    modifies d`clock, d`saved
    ensures d.Inv()
    ensures r == Dead || r == Raised || r == Finished(Ready)
    ensures d.world == CALM ==> r.Finished?
    ensures d.saved == if r.Finished? then d.batches else old(d.saved)
  {
    var alive, raises := d.Step();
    if !alive {
      return Dead;
    }
    if raises {
      return Raised;
    }
    d.saved := d.batches;
    r := Finished(Ready);
  }

  lemma StopKeepsShown(imports: set<ImportSent>, runs: map<RunId, Run>, id: RunId)
    requires ImportsShown(imports, runs) && id in runs
    ensures ImportsShown(imports, runs[id := runs[id].(requestedStop := true)])
  {
    forall im | im in imports ensures ShowsImport(im, runs[id := runs[id].(requestedStop := true)]) {
      assert ShowsImport(im, runs);
    }
  }

  /** `stop_batch`: sets the flag of a running batch and saves; an error reaches the
      caller with the flag already set. */
  method StopBatch(d: Direct, id: RunId) returns (alive: bool)
    requires d.Inv() && ImportsShown(d.imports, d.batches)
    modifies d`clock, d`saved, d`batches, d`log
    ensures d.Inv() && ImportsShown(d.imports, d.batches)
    ensures d.world == CALM ==> alive
    ensures d.batches == if id in old(d.batches) && old(d.batches)[id].status == Running
                         then old(d.batches)[id := old(d.batches)[id].(requestedStop := true)] else old(d.batches)
    ensures d.log == if id in old(d.batches) && old(d.batches)[id].status == Running
                     then old(d.log) + [StopAsked(id)] else old(d.log)
  {
    alive := true;
    if id in d.batches && d.batches[id].status == Running {
      StopKeepsShown(d.imports, d.batches, id);
      d.Write(StopAsked(id));
      d.batches := d.batches[id := d.batches[id].(requestedStop := true)];
      var r := Persist(d);
      alive := r != Dead;
    }
  }

  ghost predicate StaysClear(before: map<Name, Record>, after: map<Name, Record>) {
    forall selector: Selector, nic: Nic :: Clear(before, selector, nic) ==> Clear(after, selector, nic)
  }

  /** A cleanup leaves every clear interface clear. */
  lemma CleanupKeepsClear(staged: map<Name, Record>, name: Name, reply: CleanupReply)
    ensures AfterCleanup(staged, name, reply).Keys == staged.Keys
    ensures StaysClear(staged, AfterCleanup(staged, name, reply))
  {
  }

  /** The gap before the worker takes the lock. */
  method Wait(d: Direct, id: RunId, pause: Pause) returns (alive: bool)
    requires d.Inv() && ImportsShown(d.imports, d.batches) && GoodPause(pause)
    requires id in d.batches && d.batches[id].status == Running
    modifies d`clock, d`saved, d`batches, d`staged, d`remote, d`log
    ensures d.Inv() && ImportsShown(d.imports, d.batches)
    ensures d.world == CALM ==> alive
    ensures d.batches == old(d.batches)[id := old(d.batches)[id].(
                           requestedStop := old(d.batches)[id].requestedStop || pause.stop)]
    ensures d.staged.Keys == old(d.staged).Keys
    ensures StaysClear(old(d.staged), d.staged)
    ensures d.log == if pause.stop then old(d.log) + [StopAsked(id)] else old(d.log)
  {
    alive := true;
    var before := d.batches[id];
    assert before.(requestedStop := before.requestedStop) == before;
    if pause.stop {
      alive := StopBatch(d, id);
    }
    assert d.batches == old(d.batches)[id := before.(requestedStop := before.requestedStop || pause.stop)];
    if pause.cleanup.Some? {
      ghost var staged := d.staged;
      var reply := d.CleanupOne(pause.cleanup.value.0, pause.cleanup.value.1);
      CleanupKeepsClear(staged, pause.cleanup.value.0, reply);
      alive := alive && reply != CleanupDead;
    }
  }

  /** One device's new status, saved at once. An error leaves it in memory only. */
  method SetStatus(d: Direct, id: RunId, index: nat, status: Status) returns (r: Outcome)
    requires d.Inv() && ImportsShown(d.imports, d.batches) && id in d.batches && index < |d.batches[id].devices|
    requires forall im | im in d.imports && im.run == Some(id) :: im.index != index || IsResult(status)
    modifies d`clock, d`saved, d`batches
    ensures d.Inv() && ImportsShown(d.imports, d.batches)
    ensures d.batches == WithStatus(old(d.batches), id, index, status)
    ensures r == Dead || r == Raised || r == Finished(Ready)
    ensures d.world == CALM ==> r.Finished?
    ensures d.saved == if r.Finished? then d.batches else old(d.saved)
  {
    StatusKeepsShown(d.imports, d.batches, id, index, status);
    d.batches := WithStatus(d.batches, id, index, status);
    r := Persist(d);
  }

  function TurnOf(r: Outcome): Turn {
    match r
    case Finished(status) => Went(status)
    case Raised => Broke
    case Dead => Gone
  }

  // ---- Preflight ----

  /** The status a probe gives a device; none when the error is not one of those caught. */
  function ProbeStatus(mode: Mode, clear: bool, probe: Probe): Option<Status> {
    match probe
    case Probed(status) => Some(if mode == Upload && !clear then CleanupPending else status)
    case ConnectionError => Some(ConnectionFailed)
    case BadValue => Some(CredentialsRequired)
    case ProbeRaises => None
  }

  /** When a device shows what after its probe. In an upload, anything but an error shows
      as a pending cleanup while a file of an earlier attempt is left. */
  lemma ProbeShows(mode: Mode, clear: bool, probe: Probe, status: Status)
    requires probe.Probed? ==> IsProbeStatus(probe.status)
    ensures var shown := ProbeStatus(mode, clear, probe);
            && (shown == None <==> probe == ProbeRaises)
            && (shown == Some(Ready) <==> probe == Probed(Ready) && (mode == Test || clear))
            && (shown == Some(CleanupPending) <==> probe.Probed? && mode == Upload && !clear)
            && (shown == Some(CredentialsRequired) <==> probe == BadValue)
            && (shown == Some(ConnectionFailed) <==>
                  probe == ConnectionError || (probe == Probed(ConnectionFailed) && (mode == Test || clear)))
            && (status in {HostKeyChanged, ApprovalRequired, AuthenticationFailed} ==>
                  (shown == Some(status) <==> probe == Probed(status) && (mode == Test || clear)))
  {
  }

  /** Probe one device, saving its progress before and after. */
  method ProbeOne(d: Direct, id: RunId, index: nat, probe: Probe) returns (turn: Turn)
    requires d.Inv() && ImportsShown(d.imports, d.batches) && id in d.batches && index < |d.batches[id].devices|
    requires forall im | im in d.imports :: im.run != Some(id)
    modifies d`clock, d`saved, d`batches, d`log
    ensures d.Inv() && ImportsShown(d.imports, d.batches)
    ensures id in d.batches && index < |d.batches[id].devices|
    ensures d.batches == WithStatus(old(d.batches), id, index, d.batches[id].devices[index].status)
    ensures turn.Went? ==>
              && d.batches[id].devices[index].status == turn.status
              && var device := d.batches[id].devices[index];
                 ProbeStatus(d.batches[id].mode, Clear(d.staged, device.selector, device.nic), probe) == Some(turn.status)
    ensures d.world == CALM ==> !turn.Gone? && (turn.Broke? ==> probe == ProbeRaises)
    ensures !turn.SawStop?
    ensures var device := d.batches[id].devices[index];
            var note := ProbeSeen(id, index, probe, Clear(d.staged, device.selector, device.nic));
            d.log == old(d.log) + [note] || (!turn.Went? && d.log == old(d.log))
  {
    ghost var runs := d.batches;
    var r := SetStatus(d, id, index, Testing);
    if !r.Finished? {
      return TurnOf(r);
    }
    var device := d.batches[id].devices[index];
    var clear := d.ProbeDevice(id, index, device.selector, device.nic, probe);
    var status := ProbeStatus(d.batches[id].mode, clear, probe);
    if status.None? {
      return Broke;
    }
    r := SetStatus(d, id, index, status.value);
    StatusTwice(runs, id, index, Testing, status.value);
    turn := if r.Finished? then Went(status.value) else TurnOf(r);
  }

  /** What one turn of the preflight loop does to its run. */
  predicate RunTurn(run: Run, after: Run, index: nat, pause: Pause, probe: Probe, turn: Turn, wasClear: bool) {
    && MovedOn(run, after) && after.status == Running && index < |run.devices|
    && (after.requestedStop <==> run.requestedStop || pause.stop)
    && (forall i | 0 <= i < |run.devices| && i != index :: after.devices[i] == run.devices[i])
    && (turn.SawStop? ==> after.requestedStop && after.devices == run.devices)
    && (turn.Went? ==>
          && !after.requestedStop && after.devices[index].status == turn.status
          && ProbeStatus(after.mode, wasClear, probe) == Some(turn.status))
  }

  /** And what becomes of the ledger; `wasClear` is what it said of the device. */
  ghost predicate LedgerTurn(staged: map<Name, Record>, now: map<Name, Record>, device: Device, turn: Turn, wasClear: bool) {
    && now.Keys == staged.Keys && StaysClear(staged, now)
    && (turn.Went? ==> wasClear == Clear(now, device.selector, device.nic))
  }

  /** And what is noted of it. */
  ghost predicate NotesTurn(log: seq<Note>, next: seq<Note>, id: RunId, index: nat, pause: Pause, probe: Probe,
                            turn: Turn, wasClear: bool)
  {
    && NothingMoved(log, next) && (StopAsked(id) in next <==> StopAsked(id) in log || pause.stop)
    && (turn.Went? ==> ProbeSeen(id, index, probe, wasClear) in next)
  }

  /** One turn of the preflight loop. */
  method ProbeDevice(d: Direct, id: RunId, index: nat, pause: Pause, probe: Probe) returns (turn: Turn, ghost wasClear: bool)
    requires d.Inv() && ImportsShown(d.imports, d.batches) && GoodPause(pause)
    requires id in d.batches && d.batches[id].status == Running && index < |d.batches[id].devices|
    requires forall im | im in d.imports :: im.run != Some(id)
    modifies d`clock, d`saved, d`batches, d`staged, d`remote, d`log
    ensures d.Inv() && ImportsShown(d.imports, d.batches) && OnlyMoved(old(d.batches), d.batches, id)
    ensures RunTurn(old(d.batches)[id], d.batches[id], index, pause, probe, turn, wasClear)
    ensures LedgerTurn(old(d.staged), d.staged, d.batches[id].devices[index], turn, wasClear)
    ensures NotesTurn(old(d.log), d.log, id, index, pause, probe, turn, wasClear)
    ensures d.world == CALM ==> !turn.Gone? && (turn.Broke? ==> probe == ProbeRaises)
  {
    ghost var before := d.batches;
    var alive := Wait(d, id, pause);
    wasClear := false;
    if !alive {
      return Gone, false;
    }
    if d.batches[id].requestedStop {
      return SawStop, false;
    }
    ghost var between := d.batches;
    turn := ProbeOne(d, id, index, probe);
    StatusMoves(between, id, index, d.batches[id].devices[index].status);
    MovedTwice(before, between, d.batches, id);
    wasClear := Clear(d.staged, d.batches[id].devices[index].selector, d.batches[id].devices[index].nic);
  }

  /** How a phase of the worker ends: to the end or at a stop, by an exception, or with the process. */
  datatype Ended = Through | Excepted | Died

  /** The devices a preflight reached show their probe; `clear` says for which of them
      the ledger held no undeleted file when it was consulted. */
  predicate Preflighted(run: Run, probes: seq<Probe>, clear: seq<bool>) {
    && |clear| <= |run.devices| == |probes|
    && (forall i | 0 <= i < |clear| ::
          ProbeStatus(run.mode, clear[i], probes[i]) == Some(run.devices[i].status))
    && (forall i | |clear| <= i < |run.devices| :: run.devices[i].status == Pending)
  }

  predicate AllReady(devices: seq<Device>, bound: nat)
    requires bound <= |devices|
  {
    forall i | 0 <= i < bound :: devices[i].status == Ready
  }

  /** `clear` is what the ledger said at some time between `before` and `after`. */
  ghost predicate ClearBetween(before: map<Name, Record>, after: map<Name, Record>, devices: seq<Device>, clear: seq<bool>)
    requires |clear| <= |devices|
  {
    forall i | 0 <= i < |clear| ::
      && (Clear(before, devices[i].selector, devices[i].nic) ==> clear[i])
      && (clear[i] ==> Clear(after, devices[i].selector, devices[i].nic))
  }

  /** Where the preflight stands: `clear` covers the devices it reached, all of them
      ready if `ready`, and no stop was requested before any of them. */
  predicate RunTo(run: Run, pauses: seq<Pause>, probes: seq<Probe>, clear: seq<bool>, ready: bool) {
    && run.status == Running && |pauses| == |probes| && Preflighted(run, probes, clear)
    && (ready <==> AllReady(run.devices, |clear|))
    && (forall i | 0 <= i < |clear| :: !pauses[i].stop)
  }

  ghost predicate LedgerTo(staged: map<Name, Record>, now: map<Name, Record>, devices: seq<Device>, clear: seq<bool>) {
    now.Keys == staged.Keys && StaysClear(staged, now) && |clear| <= |devices| && ClearBetween(staged, now, devices, clear)
  }

  ghost predicate PreflightTo(run: Run, staged: map<Name, Record>, now: map<Name, Record>,
                              pauses: seq<Pause>, probes: seq<Probe>, clear: seq<bool>, ready: bool)
  {
    RunTo(run, pauses, probes, clear, ready) && LedgerTo(staged, now, run.devices, clear)
  }

  lemma LedgerOneMore(devices: seq<Device>, after: seq<Device>, staged: map<Name, Record>, now: map<Name, Record>,
                      next: map<Name, Record>, clear: seq<bool>, turn: Turn, wasClear: bool)
    requires LedgerTo(staged, now, devices, clear) && |clear| < |devices| == |after|
    requires forall i | 0 <= i < |devices| :: SameTarget(devices[i], after[i])
    requires LedgerTurn(now, next, after[|clear|], turn, wasClear)
    ensures LedgerTo(staged, next, after, if turn.Went? then clear + [wasClear] else clear)
  {
    forall i | 0 <= i < |clear| ensures SameTarget(devices[i], after[i]) {
    }
  }

  lemma ProbeNotedMore(log: seq<Note>, next: seq<Note>, id: RunId, run: Run, after: Run, pause: Pause, probes: seq<Probe>,
                       clear: seq<bool>, turn: Turn, wasClear: bool)
    requires PreflightNoted(log, id, run, probes, clear) && |clear| < |probes|
    requires RunTurn(run, after, |clear|, pause, probes[|clear|], turn, wasClear)
    requires NotesTurn(log, next, id, |clear|, pause, probes[|clear|], turn, wasClear)
    ensures PreflightNoted(next, id, after, probes, if turn.Went? then clear + [wasClear] else clear)
  {
  }

  lemma RunOneMore(run: Run, after: Run, pauses: seq<Pause>, probes: seq<Probe>, clear: seq<bool>, ready: bool,
                   turn: Turn, wasClear: bool)
    requires RunTo(run, pauses, probes, clear, ready) && |clear| < |probes| && !run.requestedStop
    requires RunTurn(run, after, |clear|, pauses[|clear|], probes[|clear|], turn, wasClear)
    ensures turn.Went? ==>
              RunTo(after, pauses, probes, clear + [wasClear], ready && turn.status == Ready) && !after.requestedStop
    ensures turn.SawStop? ==>
              RunTo(after, pauses, probes, clear, ready) && after.requestedStop && pauses[|clear|].stop
  {
  }

  /** The preflight loop. Nothing is staged or imported in it. */
  method ProbeAll(d: Direct, id: RunId, pauses: seq<Pause>, probes: seq<Probe>)
    returns (ended: Ended, ready: bool, ghost clear: seq<bool>)
    requires d.Inv() && ImportsShown(d.imports, d.batches)
    requires id in d.batches && PreflightTo(d.batches[id], d.staged, d.staged, pauses, probes, [], true)
    requires PreflightNoted(d.log, id, d.batches[id], probes, [])
    requires !d.batches[id].requestedStop && forall p | p in pauses :: GoodPause(p)
    requires forall im | im in d.imports :: im.run != Some(id)
    modifies d`clock, d`saved, d`batches, d`staged, d`remote, d`log
    ensures d.Inv() && ImportsShown(d.imports, d.batches) && OnlyMoved(old(d.batches), d.batches, id)
    ensures d.batches[id].status == Running && d.staged.Keys == old(d.staged).Keys
    ensures NothingMoved(old(d.log), d.log)
    ensures ended.Through? ==> PreflightNoted(d.log, id, d.batches[id], probes, clear)
    ensures ended.Through? ==>
              && PreflightTo(d.batches[id], old(d.staged), d.staged, pauses, probes, clear, ready)
              && (d.batches[id].requestedStop <==> |clear| < |probes|)
              && (|clear| < |probes| ==> pauses[|clear|].stop)
    ensures d.world == CALM ==> !ended.Died? && (ended.Excepted? ==> ProbeRaises in probes)
  {
    clear, ready := [], true;
    ghost var before, staged, notes := d.batches, d.staged, d.log;
    var index := 0;
    while index < |probes|
      invariant 0 <= index == |clear| <= |probes|
      invariant d.Inv() && ImportsShown(d.imports, d.batches) && OnlyMoved(before, d.batches, id)
      invariant PreflightTo(d.batches[id], staged, d.staged, pauses, probes, clear, ready)
      invariant !d.batches[id].requestedStop
      invariant NothingMoved(notes, d.log) && PreflightNoted(d.log, id, d.batches[id], probes, clear)
    {
      ghost var runs, now, log := d.batches, d.staged, d.log;
      var turn, wasClear := ProbeDevice(d, id, index, pauses[index], probes[index]);
      MovedTwice(before, runs, d.batches, id);
      if turn.Gone? || turn.Broke? {
        return if turn.Gone? then Died else Excepted, false, clear;
      }
      ProbeNotedMore(log, d.log, id, runs[id], d.batches[id], pauses[index], probes, clear, turn, wasClear);
      RunOneMore(runs[id], d.batches[id], pauses, probes, clear, ready, turn, wasClear);
      LedgerOneMore(runs[id].devices, d.batches[id].devices, staged, now, d.staged, clear, turn, wasClear);
      if turn.SawStop? {
        break;
      }
      index, clear, ready := index + 1, clear + [wasClear], ready && turn.status == Ready;
    }
    ended := Through;
  }

  // ---- Upload ----

  /** The result a batch records for an activation that ended so. */
  function Recorded(outcome: Outcome): Status {
    if outcome.Finished? then outcome.status else UploadUnconfirmed
  }

  /** An activation that raised, or died with its process, counts as unconfirmed; any
      other shows its own result. */
  lemma RecordedShows(outcome: Outcome, status: Status)
    ensures Recorded(outcome) == status <==>
            outcome == Finished(status) || (!outcome.Finished? && status == UploadUnconfirmed)
  {
  }

  predicate IsUploadResult(s: Status) {
    IsResult(s) || s == HostKeyChanged || s == ApprovalRequired
  }

  /** After an activation for device `index`, every import of the run is settled. */
  lemma ResultSettles(before: set<ImportSent>, after: set<ImportSent>, runs: map<RunId, Run>, id: RunId, index: nat,
                      status: Status, selector: Selector, nic: Nic, name: Name)
    requires id in runs && index < |runs[id].devices| && ImportsSettled(before, runs, id, index)
    requires AtMostOneMore(before, after, Some(id), index, selector, nic, name)
    requires IsResult(status) || after == before
    ensures ImportsSettled(after, WithStatus(runs, id, index, status), id, index + 1)
    ensures forall im | im in after && im.run == Some(id) :: im.index != index || IsResult(status)
  {
  }

  /** A file deleted in the end leaves every clear interface clear. */
  lemma DeletedKeepsClear(before: map<Name, Record>, after: map<Name, Record>, name: Name)
    requires name !in before && after - {name} == before && name in after && after[name].status == Deleted
    ensures StaysClear(before, after)
  {
    forall selector: Selector, nic: Nic | Clear(before, selector, nic) ensures Clear(after, selector, nic) {
      forall n | n in after && SamePair(after[n], selector, nic) ensures after[n].status == Deleted {
        if n != name {
          assert n in after - {name} && before[n] == after[n];
        }
      }
    }
  }

  /** Notes were added, those of stagings for this device only and only if it `moves`, and no stop. */
  ghost predicate NotesGrew(before: seq<Note>, after: seq<Note>, id: RunId, index: nat, moves: bool) {
    && Grew(before, after)
    && (forall note | note in after && (note.PemStaged? || note.StopAsked?) ::
          note in before || (moves && StagedFor(note, id, index)))
  }

  /** Activate a device whose saved progress shows an upload; any error counts as unconfirmed. */
  method ActivateSaved(d: Direct, id: RunId, index: nat, name: Name, a: Answers) returns (alive: bool, status: Status)
    requires d.Inv() && WellFormed(a) && name !in d.staged
    requires ShowsUpload(d.batches, id, index) && d.saved == d.batches
    requires ImportsSettled(d.imports, d.batches, id, index)
    requires var device := d.batches[id].devices[index]; Clear(d.staged, device.selector, device.nic)
    requires TurnTaken(d.log, id, index)
    modifies d`clock, d`staged, d`everStaged, d`remote, d`imports, d`log
    ensures AtMostOneNote(old(d.log), d.log, PemStaged(Some(id), index, name))
    ensures !Permitted(a) ==> d.log == old(d.log) && d.imports == old(d.imports)
    ensures alive && status == Verified ==> PemStaged(Some(id), index, name) in d.log
    ensures d.Inv() && d.staged.Keys <= old(d.staged).Keys + {name}
    ensures IsUploadResult(status) && ImportsSettled(d.imports, WithStatus(d.batches, id, index, status), id, index + 1)
    ensures forall im | im in d.imports && im.run == Some(id) :: im.index != index || IsResult(status)
    ensures alive && status == Verified ==>
              FullyVerified(a, d.batches[id].devices[index].nic, name) && StaysClear(old(d.staged), d.staged)
    ensures d.world == CALM ==> alive && status == Recorded(Planned(a, d.batches[id].devices[index].nic, name))
  {
    var device := d.batches[id].devices[index];
    ghost var before, staged := d.imports, d.staged;
    var r := d.ActivateOne(Some(id), index, device.selector, device.nic, device.certificate, name, a);
    if r == Finished(Verified) {
      DeletedKeepsClear(staged, d.staged, name);
    }
    alive, status := r != Dead, Recorded(r);
    ResultSettles(before, d.imports, d.batches, id, index, status, device.selector, device.nic, name);
  }

  lemma TurnMayBegin(log: seq<Note>, id: RunId, run: Run, index: nat)
    requires UploadNoted(log, id, run, index) && !run.requestedStop && index < |run.devices|
    ensures MayFollow(log, TurnBegan(id, index, |run.devices|))
  {
  }

  lemma TurnIsTaken(log: seq<Note>, id: RunId, index: nat, devices: nat)
    ensures TurnTaken(log + [TurnBegan(id, index, devices)], id, index)
  {
    assert TurnOfDevice((log + [TurnBegan(id, index, devices)])[|log|], id, index);
  }

  /** The turn of a device is taken, and saved as an upload. */
  method BeginTurn(d: Direct, id: RunId, index: nat) returns (r: Outcome)
    requires d.Inv() && ImportsShown(d.imports, d.batches) && id in d.batches && index < |d.batches[id].devices|
    requires UploadNoted(d.log, id, d.batches[id], index) && !d.batches[id].requestedStop
    requires forall im | im in d.imports && im.run == Some(id) :: im.index != index
    modifies d`clock, d`saved, d`batches, d`log
    ensures d.Inv() && ImportsShown(d.imports, d.batches)
    ensures d.batches == WithStatus(old(d.batches), id, index, Uploading)
    ensures r == Dead || r == Raised || r == Finished(Ready)
    ensures d.world == CALM ==> r.Finished?
    ensures d.saved == if r.Finished? then d.batches else old(d.saved)
    ensures NotesGrew(old(d.log), d.log, id, index, false) && TurnTaken(d.log, id, index)
  {
    NotesGrewOnce(d.log, TurnBegan(id, index, |d.batches[id].devices|), id, index);
    TurnMayBegin(d.log, id, d.batches[id], index);
    TurnIsTaken(d.log, id, index, |d.batches[id].devices|);
    d.Write(TurnBegan(id, index, |d.batches[id].devices|));
    r := SetStatus(d, id, index, Uploading);
  }

  lemma StagingSeen(log: seq<Note>, id: RunId, index: nat, name: Name, status: Status)
    requires status == Verified ==> PemStaged(Some(id), index, name) in log
    ensures MayFollow(log, ResultSeen(id, index, status))
  {
    if status == Verified {
      var b :| 0 <= b < |log| && log[b] == PemStaged(Some(id), index, name);
      assert StagedFor(log[b], id, index);
    }
  }

  /** The result of an activation is noted and saved. */
  method SaveResult(d: Direct, id: RunId, index: nat, ghost name: Name, status: Status) returns (r: Outcome)
    requires d.Inv() && ImportsShown(d.imports, d.batches) && id in d.batches && index < |d.batches[id].devices|
    requires forall im | im in d.imports && im.run == Some(id) :: im.index != index || IsResult(status)
    requires status == Verified ==> PemStaged(Some(id), index, name) in d.log
    modifies d`clock, d`saved, d`batches, d`log
    ensures d.Inv() && ImportsShown(d.imports, d.batches)
    ensures d.batches == WithStatus(old(d.batches), id, index, status)
    ensures r == Dead || r == Raised || r == Finished(Ready)
    ensures d.world == CALM ==> r.Finished?
    ensures d.log == old(d.log) + [ResultSeen(id, index, status)]
  {
    StagingSeen(d.log, id, index, name, status);
    d.Write(ResultSeen(id, index, status));
    r := SetStatus(d, id, index, status);
  }

  lemma NotesGrewOnce(log: seq<Note>, note: Note, id: RunId, index: nat)
    requires !note.PemStaged? && !note.StopAsked?
    ensures NotesGrew(log, log + [note], id, index, false)
  {
  }

  lemma ActivationNotesGrow(log: seq<Note>, staged: seq<Note>, id: RunId, index: nat, name: Name, status: Status, moves: bool)
    requires AtMostOneNote(log, staged, PemStaged(Some(id), index, name)) && (!moves ==> staged == log)
    ensures NotesGrew(log, staged, id, index, moves)
    ensures NotesGrew(log, staged + [ResultSeen(id, index, status)], id, index, moves)
  {
  }

  lemma NotesGrewTwice(before: seq<Note>, between: seq<Note>, after: seq<Note>, id: RunId, index: nat, moves: bool)
    requires NotesGrew(before, between, id, index, false) && NotesGrew(between, after, id, index, moves)
    ensures NotesGrew(before, after, id, index, moves)
  {
  }

  /** From the saved progress to the saved result. */
  method UploadSaved(d: Direct, id: RunId, index: nat, name: Name, a: Answers) returns (turn: Turn)
    requires d.Inv() && WellFormed(a) && name !in d.staged && d.saved == d.batches
    requires ShowsUpload(d.batches, id, index) && TurnTaken(d.log, id, index)
    requires ImportsSettled(d.imports, d.batches, id, index)
    requires var device := d.batches[id].devices[index]; Clear(d.staged, device.selector, device.nic)
    modifies d`clock, d`saved, d`batches, d`staged, d`everStaged, d`remote, d`imports, d`log
    ensures d.Inv() && d.staged.Keys <= old(d.staged).Keys + {name}
    ensures NotesGrew(old(d.log), d.log, id, index, Permitted(a))
    ensures turn == Went(Verified) ==> ResultSeen(id, index, Verified) in d.log
    ensures turn.Went? || turn.Broke? ==>
              && ImportsShown(d.imports, d.batches)
              && id in d.batches && index < |d.batches[id].devices|
              && d.batches == WithStatus(old(d.batches), id, index, d.batches[id].devices[index].status)
              && ImportsSettled(d.imports, d.batches, id, index + 1)
    ensures turn.Went? ==> turn.status == d.batches[id].devices[index].status && IsUploadResult(turn.status)
    ensures turn == Went(Verified) ==>
              FullyVerified(a, old(d.batches)[id].devices[index].nic, name) && StaysClear(old(d.staged), d.staged)
    ensures d.world == CALM ==> turn == Went(Recorded(Planned(a, old(d.batches)[id].devices[index].nic, name)))
    ensures !turn.SawStop?
  {
    ghost var log := d.log;
    var alive, status := ActivateSaved(d, id, index, name, a);
    ActivationNotesGrow(log, d.log, id, index, name, status, Permitted(a));
    if !alive {
      return Gone;
    }
    var r := SaveResult(d, id, index, name, status);
    turn := if r.Finished? then Went(status) else TurnOf(r);
  }

  /** The irreversible part of an upload turn: progress is saved, then the device is activated. */
  method UploadOne(d: Direct, id: RunId, index: nat, name: Name, a: Answers) returns (turn: Turn)
    requires d.Inv() && ImportsShown(d.imports, d.batches) && WellFormed(a) && name !in d.staged
    requires id in d.batches && d.batches[id].status == Running && index < |d.batches[id].devices|
    requires ImportsSettled(d.imports, d.batches, id, index)
    requires var device := d.batches[id].devices[index]; Clear(d.staged, device.selector, device.nic)
    requires d.batches[id].mode == Upload && UploadNoted(d.log, id, d.batches[id], index) && !d.batches[id].requestedStop
    modifies d`clock, d`saved, d`batches, d`staged, d`everStaged, d`remote, d`imports, d`log
    ensures NotesGrew(old(d.log), d.log, id, index, Permitted(a))
    ensures turn == Went(Verified) ==> ResultSeen(id, index, Verified) in d.log
    ensures d.Inv() && d.staged.Keys <= old(d.staged).Keys + {name}
    ensures turn.Went? || turn.Broke? ==>
              && ImportsShown(d.imports, d.batches)
              && id in d.batches && index < |d.batches[id].devices|
              && d.batches == WithStatus(old(d.batches), id, index, d.batches[id].devices[index].status)
              && ImportsSettled(d.imports, d.batches, id, index + 1)
    ensures turn.Went? ==> turn.status == d.batches[id].devices[index].status && IsUploadResult(turn.status)
    ensures turn == Went(Verified) ==>
              FullyVerified(a, old(d.batches)[id].devices[index].nic, name) && StaysClear(old(d.staged), d.staged)
    ensures d.world == CALM ==> turn == Went(Recorded(Planned(a, old(d.batches)[id].devices[index].nic, name)))
    ensures !turn.SawStop?
  {
    ghost var runs, log := d.batches, d.log;
    var r := BeginTurn(d, id, index);
    if !r.Finished? {
      NotesGrewTwice(log, d.log, d.log, id, index, Permitted(a));
      return TurnOf(r);
    }
    ghost var turned := d.log;
    turn := UploadSaved(d, id, index, name, a);
    NotesGrewTwice(log, turned, d.log, id, index, Permitted(a));
    if turn != Gone {
      StatusTwice(runs, id, index, Uploading, d.batches[id].devices[index].status);
    }
  }

  /** What one turn of the upload loop does to its run. */
  ghost predicate UploadTurn(run: Run, after: Run, staged: map<Name, Record>, now: map<Name, Record>,
                             index: nat, pause: Pause, name: Name, a: Answers, turn: Turn, calm: bool)
  {
    && MovedOn(run, after) && after.status == Running && index < |run.devices| && WellFormed(a)
    && now.Keys <= staged.Keys + {name}
    && (after.requestedStop <==> run.requestedStop || pause.stop)
    && (forall i | 0 <= i < |run.devices| && i != index :: after.devices[i] == run.devices[i])
    && (turn.SawStop? ==> after.requestedStop && after.devices == run.devices)
    && (turn.Went? ==> !after.requestedStop && turn.status == after.devices[index].status && IsUploadResult(turn.status))
    && (turn == Went(Verified) ==> FullyVerified(a, after.devices[index].nic, name) && StaysClear(staged, now))
    && (calm ==> turn == if after.requestedStop then SawStop else Went(Recorded(Planned(a, run.devices[index].nic, name))))
  }

  /** What the turn of a device adds: no staging but its own, and none if a stop was
      requested or the device is not known and trusted. */
  ghost predicate StagedInTurn(before: seq<Note>, after: seq<Note>, id: RunId, index: nat, pause: Pause,
                               a: Answers)
  {
    forall note | note in after && note.PemStaged? ::
      note in before || (StagedFor(note, id, index) && !pause.stop && Permitted(a))
  }

  lemma TurnNotes(log: seq<Note>, waited: seq<Note>, next: seq<Note>, id: RunId, index: nat, pause: Pause,
                  a: Answers)
    requires waited == if pause.stop then log + [StopAsked(id)] else log
    requires next == waited || (!pause.stop && NotesGrew(waited, next, id, index, Permitted(a)))
    ensures Grew(log, next) && StagedInTurn(log, next, id, index, pause, a)
    ensures StopAsked(id) in next <==> StopAsked(id) in log || pause.stop
  {
  }

  lemma TurnUploadNoted(log: seq<Note>, next: seq<Note>, id: RunId, index: nat, pause: Pause, run: Run, after: Run, turn: Turn)
    requires UploadNoted(log, id, run, index) && Grew(log, next)
    requires StopAsked(id) in next <==> StopAsked(id) in log || pause.stop
    requires |after.devices| == |run.devices| && (after.requestedStop <==> run.requestedStop || pause.stop)
    requires turn == Went(Verified) ==> ResultSeen(id, index, Verified) in next
    ensures UploadNoted(next, id, after, if turn == Went(Verified) then index + 1 else index)
  {
  }

  /** One turn of the upload loop. */
  method UploadDevice(d: Direct, id: RunId, index: nat, pause: Pause, name: Name, a: Answers) returns (turn: Turn)
    requires d.Inv() && ImportsShown(d.imports, d.batches) && GoodPause(pause) && WellFormed(a) && name !in d.staged
    requires id in d.batches && d.batches[id].status == Running && index < |d.batches[id].devices|
    requires ImportsSettled(d.imports, d.batches, id, index)
    requires var device := d.batches[id].devices[index]; Clear(d.staged, device.selector, device.nic)
    requires d.batches[id].mode == Upload && UploadNoted(d.log, id, d.batches[id], index)
    modifies d`clock, d`saved, d`batches, d`staged, d`everStaged, d`remote, d`imports, d`log
    ensures d.Inv()
    ensures !turn.Gone? ==>
              && ImportsShown(d.imports, d.batches) && OnlyMoved(old(d.batches), d.batches, id)
              && UploadTurn(old(d.batches)[id], d.batches[id], old(d.staged), d.staged,
                            index, pause, name, a, turn, d.world == CALM)
              && ImportsSettled(d.imports, d.batches, id, if turn.SawStop? then index else index + 1)
    ensures Grew(old(d.log), d.log) && StagedInTurn(old(d.log), d.log, id, index, pause, a)
    ensures !turn.Gone? ==> UploadNoted(d.log, id, d.batches[id], if turn == Went(Verified) then index + 1 else index)
    ensures d.world == CALM ==> turn.Went? || turn.SawStop?
  {
    ghost var before, log := d.batches, d.log;
    var alive := Wait(d, id, pause);
    ghost var waited := d.log;
    TurnNotes(log, waited, waited, id, index, pause, a);
    if !alive {
      return Gone;
    }
    assert UploadNoted(waited, id, d.batches[id], index) by {
      TurnUploadNoted(log, waited, id, index, pause, before[id], d.batches[id], SawStop);
    }
    if d.batches[id].requestedStop {
      return SawStop;
    }
    ghost var between := d.batches;
    turn := UploadOne(d, id, index, name, a);
    TurnNotes(log, waited, d.log, id, index, pause, a);
    if turn != Gone {
      StatusMoves(between, id, index, d.batches[id].devices[index].status);
      MovedTwice(before, between, d.batches, id);
      TurnUploadNoted(log, d.log, id, index, pause, before[id], d.batches[id], turn);
    }
  }

  /** Where the upload loop stands: the first `verified` devices are verified, with
      all that this vouches for, no stop came before any of them, and no other
      device was touched. */
  ghost predicate UploadTo(run: Run, staged: map<Name, Record>, pauses: seq<Pause>, names: seq<Name>,
                           answers: seq<Answers>, verified: nat)
  {
    && run.status == Running && !run.requestedStop
    && VerifiedTo(run, pauses, names, answers, verified)
    && (forall i | verified <= i < |run.devices| ::
          && run.devices[i].status == Ready && names[i] !in staged
          && Clear(staged, run.devices[i].selector, run.devices[i].nic))
  }

  ghost predicate VerifiedTo(run: Run, pauses: seq<Pause>, names: seq<Name>, answers: seq<Answers>, verified: nat) {
    && verified <= |run.devices| == |names| == |answers| == |pauses|
    && (forall a | a in answers :: WellFormed(a))
    && (forall i | 0 <= i < verified ::
          && !pauses[i].stop && run.devices[i].status == Verified
          && FullyVerified(answers[i], run.devices[i].nic, names[i]))
  }

  /** How an upload loop that was not cut short leaves the run: a verified prefix,
      then either a stop requested there or one other result, then devices it never touched. */
  ghost predicate UploadShape(run: Run, pauses: seq<Pause>, names: seq<Name>, answers: seq<Answers>,
                              verified: nat, untouched: Status, calm: bool)
  {
    && VerifiedTo(run, pauses, names, answers, verified)
    && (forall i | verified < i < |run.devices| :: run.devices[i].status == untouched)
    && (verified < |run.devices| ==>
          if pauses[verified].stop then run.devices[verified].status == untouched
          else
            && IsUploadResult(run.devices[verified].status) && run.devices[verified].status != Verified
            && (calm ==> run.devices[verified].status
                         == Recorded(Planned(answers[verified], run.devices[verified].nic, names[verified]))))
  }

  lemma UploadedOneMore(run: Run, after: Run, staged: map<Name, Record>, now: map<Name, Record>, pauses: seq<Pause>,
                        names: seq<Name>, answers: seq<Answers>, verified: nat, turn: Turn, calm: bool)
    requires UploadTo(run, staged, pauses, names, answers, verified) && verified < |names| && NoDuplicates(names)
    requires UploadTurn(run, after, staged, now, verified, pauses[verified], names[verified], answers[verified], turn, calm)
    ensures turn == Went(Verified) ==> UploadTo(after, now, pauses, names, answers, verified + 1)
    ensures turn.SawStop? || (turn.Went? && turn.status != Verified) ==>
              UploadShape(after, pauses, names, answers, verified, Ready, calm)
              && after.requestedStop == pauses[verified].stop == turn.SawStop?
  {
  }

  lemma StagedOneMore(log: seq<Note>, next: seq<Note>, id: RunId, index: nat, pauses: seq<Pause>,
                     answers: seq<Answers>)
    requires |answers| == |pauses| && StagedUnstopped(log, id, pauses, answers) && index < |pauses| && forall k | 0 <= k < index :: !pauses[k].stop
    requires StagedInTurn(log, next, id, index, pauses[index], answers[index])
    ensures StagedUnstopped(next, id, pauses, answers)
  {
    forall note | note in next && note.PemStaged? && note.run == Some(id)
      ensures && note.index < |pauses| && Permitted(answers[note.index])
              && forall k | 0 <= k <= note.index :: !pauses[k].stop
    {
      if note !in log {
        assert note.index == index && !pauses[index].stop && Permitted(answers[index]);
      }
    }
  }

  /** The upload loop. */
  method UploadAll(d: Direct, id: RunId, pauses: seq<Pause>, names: seq<Name>, answers: seq<Answers>)
    returns (ended: Ended, ready: bool, ghost verified: nat)
    requires d.Inv() && ImportsShown(d.imports, d.batches)
    requires id in d.batches && UploadTo(d.batches[id], d.staged, pauses, names, answers, 0)
    requires (forall p | p in pauses :: GoodPause(p)) && NoDuplicates(names) && ImportsSettled(d.imports, d.batches, id, 0)
    requires d.batches[id].mode == Upload && UploadNoted(d.log, id, d.batches[id], 0) && StagedUnstopped(d.log, id, pauses, answers)
    modifies d`clock, d`saved, d`batches, d`staged, d`everStaged, d`remote, d`imports, d`log
    ensures Grew(old(d.log), d.log) && StagedUnstopped(d.log, id, pauses, answers)
    ensures d.Inv()
    ensures !ended.Died? ==>
              && ImportsShown(d.imports, d.batches) && OnlyMoved(old(d.batches), d.batches, id)
              && d.batches[id].status == Running && ImportsSettled(d.imports, d.batches, id, |names|)
    ensures ended.Through? ==>
              && UploadShape(d.batches[id], pauses, names, answers, verified, Ready, d.world == CALM)
              && (d.batches[id].requestedStop <==> verified < |names| && pauses[verified].stop)
              && (ready <==> verified == |names| || d.batches[id].requestedStop)
    ensures d.world == CALM ==> ended.Through?
  {
    verified, ready := 0, true;
    ghost var before, notes := d.batches, d.log;
    var index := 0;
    while index < |names|
      invariant 0 <= index == verified <= |names| && ready
      invariant d.Inv() && ImportsShown(d.imports, d.batches) && OnlyMoved(before, d.batches, id)
      invariant UploadTo(d.batches[id], d.staged, pauses, names, answers, verified)
      invariant ImportsSettled(d.imports, d.batches, id, verified)
      invariant d.batches[id].mode == Upload && UploadNoted(d.log, id, d.batches[id], verified)
      invariant Grew(notes, d.log) && StagedUnstopped(d.log, id, pauses, answers)
    {
      ghost var runs, staged, log := d.batches, d.staged, d.log;
      var turn := UploadDevice(d, id, index, pauses[index], names[index], answers[index]);
      StagedOneMore(log, d.log, id, index, pauses, answers);
      if turn.Gone? {
        return Died, false, verified;
      }
      MovedTwice(before, runs, d.batches, id);
      if turn.Broke? {
        return Excepted, false, verified;
      }
      UploadedOneMore(runs[id], d.batches[id], staged, d.staged, pauses, names, answers, verified, turn, d.world == CALM);
      if turn.SawStop? {
        break;
      }
      if turn.status != Verified {
        ready := false;
        break;
      }
      index, verified := index + 1, verified + 1;
    }
    ended := Through;
  }

  // ---- The worker ----

  /** All that a batch meets: for each device a gap, a probe, a second gap, a fresh
      name and the answers to its activation; and the gaps between the phases. */
  datatype Script = Script(
    pauses: seq<Pause>, probes: seq<Probe>, midway: Pause,
    uploadPauses: seq<Pause>, names: seq<Name>, answers: seq<Answers>, last: Pause,
    beforeAudit: Pause, afterAudit: Pause)

  function LastPauses(script: Script): seq<Pause> {
    [script.midway, script.last, script.beforeAudit, script.afterAudit]
  }

  predicate GoodScript(script: Script, n: nat, staged: map<Name, Record>) {
    && |script.pauses| == |script.probes| == |script.uploadPauses| == |script.names| == |script.answers| == n
    && (forall p | p in script.pauses + script.uploadPauses + LastPauses(script) :: GoodPause(p))
    && (forall probe: Probe | probe in script.probes && probe.Probed? :: IsProbeStatus(probe.status))
    && (forall a | a in script.answers :: WellFormed(a))
    && NoDuplicates(script.names) && forall name | name in script.names :: name !in staged
  }

  function TidyStatus(mode: Mode, status: Status): Status {
    if status == Pending || (mode == Upload && status == Ready) then Skipped else status
  }

  lemma TidyShows(mode: Mode, status: Status)
    ensures TidyStatus(mode, status) == Skipped <==>
            status == Pending || status == Skipped || (mode == Upload && status == Ready)
    ensures TidyStatus(mode, status) == Skipped || TidyStatus(mode, status) == status
  {
  }

  /** Devices that were never reached, or never uploaded to, show as skipped. */
  method Tidy(run: Run) returns (tidied: Run)
    ensures |tidied.devices| == |run.devices| && tidied == run.(devices := tidied.devices)
    ensures forall i | 0 <= i < |run.devices| ::
              tidied.devices[i] == run.devices[i].(status := TidyStatus(run.mode, run.devices[i].status))
  {
    var devices := [];
    for i := 0 to |run.devices|
      invariant |devices| == i
      invariant forall j | 0 <= j < i :: devices[j] == run.devices[j].(status := TidyStatus(run.mode, run.devices[j].status))
    {
      var device := run.devices[i];
      if device.status == Pending || (run.mode == Upload && device.status == Ready) {
        device := device.(status := Skipped);
      }
      devices := devices + [device];
    }
    tidied := run.(devices := devices);
  }

  /** What the devices of a batch without an upload phase show. */
  predicate ProbedShape(run: Run, script: Script, clear: seq<bool>) {
    && |clear| <= |run.devices| == |script.probes|
    && (forall i | 0 <= i < |clear| ::
          && ProbeStatus(run.mode, clear[i], script.probes[i]).Some?
          && run.devices[i].status == TidyStatus(run.mode, ProbeStatus(run.mode, clear[i], script.probes[i]).value))
    && (forall i | |clear| <= i < |run.devices| :: run.devices[i].status == Skipped)
  }

  /** Every device was found ready, with nothing left of an earlier attempt. */
  predicate AllProbedReady(script: Script, clear: seq<bool>) {
    |clear| == |script.probes| && forall i | 0 <= i < |clear| :: clear[i] && script.probes[i] == Probed(Ready)
  }

  /** The preflight reached exactly the devices before the first stop. */
  predicate StoppedAt(script: Script, clear: seq<bool>) {
    && |clear| <= |script.pauses| && (forall i | 0 <= i < |clear| :: !script.pauses[i].stop)
    && (|clear| < |script.pauses| ==> script.pauses[|clear|].stop)
  }

  /** A stop was requested by the time the final status was settled. */
  predicate StopSeen(script: Script, clear: seq<bool>, uploading: bool, verified: nat) {
    || |clear| < |script.probes| || script.midway.stop || script.last.stop
    || (uploading && verified < |script.names| && verified < |script.uploadPauses| && script.uploadPauses[verified].stop)
  }

  /** A stop requested while the results are audited comes too late for the status. */
  predicate StopLate(script: Script) {
    script.beforeAudit.stop || script.afterAudit.stop
  }

  /** What a batch that ran through did and shows, whenever stops were requested. */
  ghost predicate BatchShape(run: Run, script: Script, clear: seq<bool>, uploading: bool, verified: nat,
                             final: RunStatus, calm: bool)
  {
    && StoppedAt(script, clear)
    && (if uploading then UploadShape(run, script.uploadPauses, script.names, script.answers, verified, Skipped, calm)
        else ProbedShape(run, script, clear))
    && final == (if StopSeen(script, clear, uploading, verified) then Stopped
                 else if forall i | 0 <= i < |run.devices| :: run.devices[i].status == Success(run.mode) then Complete
                 else NeedsAttention)
  }

  function Success(mode: Mode): Status {
    if mode == Upload then Verified else Ready
  }

  /** Tidying a run keeps its imports shown and settled. */
  lemma TidyKeepsShown(imports: set<ImportSent>, runs: map<RunId, Run>, id: RunId, tidied: Run, bound: nat)
    requires ImportsShown(imports, runs) && id in runs && ImportsSettled(imports, runs, id, bound)
    requires |tidied.devices| == |runs[id].devices| && tidied == runs[id].(devices := tidied.devices)
    requires forall i | 0 <= i < |tidied.devices| ::
               tidied.devices[i] == runs[id].devices[i].(status := TidyStatus(runs[id].mode, runs[id].devices[i].status))
    ensures ImportsShown(imports, runs[id := tidied]) && ImportsSettled(imports, runs[id := tidied], id, bound)
    ensures OnlyMoved(runs, runs[id := tidied], id)
  {
    SettledShown(imports, runs, id, tidied, bound);
  }

  /** The end of the try block: tidy the devices and settle on a status. */
  method Close(d: Direct, id: RunId, ready: bool, last: Pause) returns (alive: bool, final: RunStatus)
    requires d.Inv() && ImportsShown(d.imports, d.batches) && GoodPause(last)
    requires id in d.batches && d.batches[id].status == Running
    requires ImportsSettled(d.imports, d.batches, id, |d.batches[id].devices|)
    modifies d`clock, d`saved, d`batches, d`staged, d`remote, d`log
    ensures d.Inv() && ImportsShown(d.imports, d.batches) && OnlyMoved(old(d.batches), d.batches, id)
    ensures d.batches[id].status == Running && ImportsSettled(d.imports, d.batches, id, |d.batches[id].devices|)
    ensures d.staged.Keys == old(d.staged).Keys
    ensures NothingMoved(old(d.log), d.log)
    ensures d.world == CALM ==> alive
    ensures alive ==>
              && (forall i | 0 <= i < |d.batches[id].devices| ::
                    d.batches[id].devices[i].status == TidyStatus(d.batches[id].mode, old(d.batches)[id].devices[i].status))
              && (d.batches[id].requestedStop <==> old(d.batches)[id].requestedStop || last.stop)
              && final == if d.batches[id].requestedStop then Stopped else if ready then Complete else NeedsAttention
  {
    ghost var before := d.batches;
    alive := Wait(d, id, last);
    final := Failed;
    if alive {
      ghost var runs := d.batches;
      var tidied := Tidy(d.batches[id]);
      TidyKeepsShown(d.imports, d.batches, id, tidied, |tidied.devices|);
      d.batches := d.batches[id := tidied];
      MovedTwice(before, runs, d.batches, id);
      final := if tidied.requestedStop then Stopped else if ready then Complete else NeedsAttention;
    }
  }

  /** What the preflight phase comes to, the gap after it included. */
  ghost predicate Passed(run: Run, staged: map<Name, Record>, now: map<Name, Record>, script: Script,
                         clear: seq<bool>, ready: bool)
  {
    && PreflightTo(run, staged, now, script.pauses, script.probes, clear, ready)
    && GoodScript(script, |run.devices|, staged) && StoppedAt(script, clear)
    && (run.requestedStop <==> |clear| < |script.probes| || script.midway.stop)
  }

  lemma WaitedPassed(probed: Run, run: Run, staged: map<Name, Record>, now: map<Name, Record>, next: map<Name, Record>,
                     script: Script, clear: seq<bool>, ready: bool)
    requires PreflightTo(probed, staged, now, script.pauses, script.probes, clear, ready)
    requires GoodScript(script, |probed.devices|, staged)
    requires probed.requestedStop <==> |clear| < |script.probes|
    requires |clear| < |script.probes| ==> script.pauses[|clear|].stop
    requires run == probed.(requestedStop := probed.requestedStop || script.midway.stop)
    requires next.Keys == now.Keys && StaysClear(now, next)
    ensures Passed(run, staged, next, script, clear, ready)
  {
  }

  predicate Uploads(mode: Mode, script: Script, clear: seq<bool>) {
    mode == Upload && AllProbedReady(script, clear) && !script.midway.stop
  }

  /** An upload phase that might start: every device was probed, and found ready with
      nothing left of an earlier attempt, and no stop came before any probe or after the last. */
  ghost predicate Warranted(log: seq<Note>, id: RunId, mode: Mode, script: Script, clear: seq<bool>) {
    && Uploads(mode, script, clear) && ProbesNoted(log, id, script.probes, clear)
    && forall pause | pause in script.pauses :: !pause.stop
  }

  lemma PreflightWarrants(log: seq<Note>, id: RunId, run: Run, script: Script, clear: seq<bool>)
    requires StoppedAt(script, clear) && PreflightNoted(log, id, run, script.probes, clear)
    requires |script.pauses| == |script.probes|
    ensures Uploads(run.mode, script, clear) ==> Warranted(log, id, run.mode, script, clear)
  {
    if Uploads(run.mode, script, clear) {
      forall pause | pause in script.pauses ensures !pause.stop {
        var i :| 0 <= i < |script.pauses| && script.pauses[i] == pause;
      }
    }
  }

  lemma WarrantStays(log: seq<Note>, next: seq<Note>, id: RunId, mode: Mode, script: Script, clear: seq<bool>)
    requires Grew(log, next) && (Uploads(mode, script, clear) ==> Warranted(log, id, mode, script, clear))
    ensures Uploads(mode, script, clear) ==> Warranted(next, id, mode, script, clear)
  {
  }

  lemma BeganNoted(log: seq<Note>, id: RunId, run: Run, probes: seq<Probe>)
    requires OnlyBegan(log, id, run) && !run.requestedStop
    ensures PreflightNoted(log, id, run, probes, [])
  {
    assert BatchOf(StopAsked(id)) == Some(id);
  }

  lemma WaitedNoted(log: seq<Note>, next: seq<Note>, id: RunId, probed: Run, run: Run, pause: Pause, probes: seq<Probe>,
                    clear: seq<bool>)
    requires PreflightNoted(log, id, probed, probes, clear) && next == if pause.stop then log + [StopAsked(id)] else log
    requires run == probed.(requestedStop := probed.requestedStop || pause.stop)
    ensures PreflightNoted(next, id, run, probes, clear)
  {
  }

  lemma StopMovesNothing(log: seq<Note>, between: seq<Note>, next: seq<Note>, id: RunId, pause: Pause)
    requires NothingMoved(log, between) && next == if pause.stop then between + [StopAsked(id)] else between
    ensures NothingMoved(log, next)
  {
  }

  /** The gap after the preflight, up to the decision whether to upload. */
  method AfterPreflight(d: Direct, id: RunId, script: Script, ready: bool,
                        ghost staged: map<Name, Record>, ghost clear: seq<bool>) returns (alive: bool)
    requires d.Inv() && ImportsShown(d.imports, d.batches) && id in d.batches
    requires PreflightTo(d.batches[id], staged, d.staged, script.pauses, script.probes, clear, ready)
    requires GoodScript(script, |d.batches[id].devices|, staged)
    requires d.batches[id].requestedStop <==> |clear| < |script.probes|
    requires |clear| < |script.probes| ==> script.pauses[|clear|].stop
    requires PreflightNoted(d.log, id, d.batches[id], script.probes, clear)
    modifies d`clock, d`saved, d`batches, d`staged, d`remote, d`log
    ensures d.Inv() && ImportsShown(d.imports, d.batches) && OnlyMoved(old(d.batches), d.batches, id)
    ensures d.batches[id].status == Running && NothingMoved(old(d.log), d.log)
    ensures Passed(d.batches[id], staged, d.staged, script, clear, ready)
    ensures PreflightNoted(d.log, id, d.batches[id], script.probes, clear)
    ensures d.world == CALM ==> alive
  {
    ghost var probed, now, log := d.batches, d.staged, d.log;
    alive := Wait(d, id, script.midway);
    StopMovesNothing(log, log, d.log, id, script.midway);
    WaitedNoted(log, d.log, id, probed[id], d.batches[id], script.midway, script.probes, clear);
    WaitedPassed(probed[id], d.batches[id], staged, now, d.staged, script, clear, ready);
  }

  /** The preflight phase, up to the decision whether to upload. */
  method Preflight(d: Direct, id: RunId, script: Script) returns (ended: Ended, ready: bool, ghost clear: seq<bool>)
    requires d.Inv() && ImportsShown(d.imports, d.batches)
    requires id in d.batches && d.batches[id].status == Running && !d.batches[id].requestedStop
    requires forall device | device in d.batches[id].devices :: device.status == Pending
    requires OnlyBegan(d.log, id, d.batches[id])
    requires GoodScript(script, |d.batches[id].devices|, d.staged)
    requires forall im | im in d.imports :: im.run != Some(id)
    modifies d`clock, d`saved, d`batches, d`staged, d`remote, d`log
    ensures d.Inv() && ImportsShown(d.imports, d.batches) && OnlyMoved(old(d.batches), d.batches, id)
    ensures d.batches[id].status == Running && NothingMoved(old(d.log), d.log)
    ensures ended.Through? ==> PreflightNoted(d.log, id, d.batches[id], script.probes, clear)
    ensures ended.Through? ==> Passed(d.batches[id], old(d.staged), d.staged, script, clear, ready)
    ensures d.world == CALM ==> !ended.Died? && (ended.Excepted? ==> ProbeRaises in script.probes)
  {
    ghost var before, staged := d.batches, d.staged;
    BeganNoted(d.log, id, d.batches[id], script.probes);
    ended, ready, clear := ProbeAll(d, id, script.pauses, script.probes);
    if !ended.Through? {
      return;
    }
    ghost var probed := d.batches;
    var alive := AfterPreflight(d, id, script, ready, staged, clear);
    MovedTwice(before, probed, d.batches, id);
    ended := if alive then Through else Died;
  }

  /** The upload phase starts exactly when every device was probed ready and no stop
      came by then; nothing of an earlier attempt is then left for any of them. */
  lemma UploadStarts(run: Run, staged: map<Name, Record>, now: map<Name, Record>, script: Script,
                     clear: seq<bool>, ready: bool)
    requires Passed(run, staged, now, script, clear, ready) && run.mode == Upload
    ensures ready && !run.requestedStop <==> AllProbedReady(script, clear) && !script.midway.stop
    ensures ready && !run.requestedStop ==> UploadTo(run, now, script.uploadPauses, script.names, script.answers, 0)
  {
  }

  /** The notes of such a preflight are all that the first turn needs. */
  lemma UploadStartsNoted(log: seq<Note>, id: RunId, run: Run, script: Script, clear: seq<bool>)
    requires PreflightNoted(log, id, run, script.probes, clear) && run.mode == Upload
    requires AllProbedReady(script, clear) && |run.devices| == |script.probes|
    ensures UploadNoted(log, id, run, 0)
  {
    forall k | 0 <= k < |run.devices| ensures ProbeSeen(id, k, Probed(Ready), true) in log {
      assert ProbeSeen(id, k, script.probes[k], clear[k]) in log;
    }
  }

  /** The upload phase, if there is one. */
  method UploadPhase(d: Direct, id: RunId, script: Script, ready: bool,
                     ghost staged: map<Name, Record>, ghost clear: seq<bool>)
    returns (ended: Ended, allVerified: bool, ghost verified: nat)
    requires d.Inv() && ImportsShown(d.imports, d.batches) && id in d.batches
    requires Passed(d.batches[id], staged, d.staged, script, clear, ready)
    requires ImportsSettled(d.imports, d.batches, id, 0)
    requires PreflightNoted(d.log, id, d.batches[id], script.probes, clear)
    requires StagedUnstopped(d.log, id, script.uploadPauses, script.answers)
    modifies d`clock, d`saved, d`batches, d`staged, d`everStaged, d`remote, d`imports, d`log
    ensures Grew(old(d.log), d.log) && StagedUnstopped(d.log, id, script.uploadPauses, script.answers)
    ensures d.Inv()
    ensures !ended.Died? ==>
              && ImportsShown(d.imports, d.batches) && OnlyMoved(old(d.batches), d.batches, id)
              && d.batches[id].status == Running && ImportsSettled(d.imports, d.batches, id, |script.names|)
    ensures !Uploads(old(d.batches)[id].mode, script, clear) ==>
              && ended.Through? && allVerified == ready && d.imports == old(d.imports) && d.everStaged == old(d.everStaged)
              && d.log == old(d.log)
              && d.batches == old(d.batches) && (d.batches[id].mode == Upload && ready ==> d.batches[id].requestedStop)
    ensures Uploads(old(d.batches)[id].mode, script, clear) && ended.Through? ==>
              UploadDone(d.batches[id], script, verified, allVerified, d.world == CALM)
    ensures d.world == CALM ==> ended.Through?
  {
    ended, allVerified, verified := Through, ready, 0;
    if d.batches[id].mode == Upload {
      UploadStarts(d.batches[id], staged, d.staged, script, clear, ready);
    }
    if d.batches[id].mode == Upload && ready && !d.batches[id].requestedStop {
      UploadStartsNoted(d.log, id, d.batches[id], script, clear);
      ended, allVerified, verified := UploadAll(d, id, script.uploadPauses, script.names, script.answers);
    }
  }

  ghost predicate UploadDone(run: Run, script: Script, verified: nat, allVerified: bool, calm: bool) {
    && UploadShape(run, script.uploadPauses, script.names, script.answers, verified, Ready, calm)
    && (run.requestedStop <==> verified < |script.names| && script.uploadPauses[verified].stop)
    && (allVerified <==> verified == |script.names| || run.requestedStop)
  }

  lemma TidiedShape(probed: Run, run: Run, script: Script, clear: seq<bool>)
    requires Preflighted(probed, script.probes, clear) && MovedOn(probed, run)
    requires forall i | 0 <= i < |run.devices| :: run.devices[i].status == TidyStatus(run.mode, probed.devices[i].status)
    ensures ProbedShape(run, script, clear)
  {
  }

  lemma TidiedSuccess(run: Run, script: Script, clear: seq<bool>, i: nat)
    requires ProbedShape(run, script, clear) && i < |clear|
    requires forall probe: Probe | probe in script.probes && probe.Probed? :: IsProbeStatus(probe.status)
    ensures run.devices[i].status == Success(run.mode) <==>
            run.mode == Test && ProbeStatus(run.mode, clear[i], script.probes[i]) == Some(Ready)
  {
    assert script.probes[i] in script.probes;
  }

  /** A batch that ran through has its shape and keeps every stop, with `late` those
      requested after its status was settled. */
  ghost predicate RanThrough(run: Run, script: Script, clear: seq<bool>, verified: nat, final: RunStatus,
                             late: bool, calm: bool)
  {
    var uploading := Uploads(run.mode, script, clear);
    && BatchShape(run, script, clear, uploading, verified, final, calm)
    && (run.requestedStop <==> StopSeen(script, clear, uploading, verified) || late)
  }

  /** The two ways a batch that ran through ends have their shape. */
  lemma ProbedEnds(probed: Run, run: Run, staged: map<Name, Record>, now: map<Name, Record>, script: Script,
                   clear: seq<bool>, ready: bool, final: RunStatus, calm: bool)
    requires Passed(probed, staged, now, script, clear, ready) && MovedOn(probed, run)
    requires run.requestedStop <==> probed.requestedStop || script.last.stop
    requires probed.mode == Upload && ready ==> run.requestedStop
    requires forall i | 0 <= i < |run.devices| :: run.devices[i].status == TidyStatus(run.mode, probed.devices[i].status)
    requires final == if run.requestedStop then Stopped else if ready then Complete else NeedsAttention
    ensures BatchShape(run, script, clear, false, 0, final, calm)
    ensures run.requestedStop <==> StopSeen(script, clear, false, 0)
  {
    TidiedShape(probed, run, script, clear);
    if !run.requestedStop {
      forall i | 0 <= i < |clear|
        ensures run.devices[i].status == Success(run.mode) <==> run.mode == Test && probed.devices[i].status == Ready
      {
        TidiedSuccess(run, script, clear, i);
      }
    }
  }

  lemma UploadEnds(uploaded: Run, run: Run, staged: map<Name, Record>, script: Script, clear: seq<bool>, verified: nat,
                   allVerified: bool, final: RunStatus, calm: bool)
    requires UploadDone(uploaded, script, verified, allVerified, calm) && MovedOn(uploaded, run)
    requires GoodScript(script, |uploaded.devices|, staged) && Uploads(run.mode, script, clear) && StoppedAt(script, clear)
    requires run.requestedStop <==> uploaded.requestedStop || script.last.stop
    requires forall i | 0 <= i < |run.devices| :: run.devices[i].status == TidyStatus(run.mode, uploaded.devices[i].status)
    requires final == if run.requestedStop then Stopped else if allVerified then Complete else NeedsAttention
    ensures BatchShape(run, script, clear, true, verified, final, calm)
    ensures run.requestedStop <==> StopSeen(script, clear, true, verified)
  {
    UploadedStop(uploaded, run, script, clear, verified, allVerified, calm);
  }

  lemma UploadedStop(uploaded: Run, run: Run, script: Script, clear: seq<bool>, verified: nat, allVerified: bool, calm: bool)
    requires UploadDone(uploaded, script, verified, allVerified, calm) && AllProbedReady(script, clear) && !script.midway.stop
    requires |script.uploadPauses| == |script.names|
    requires run.requestedStop <==> uploaded.requestedStop || script.last.stop
    ensures run.requestedStop <==> StopSeen(script, clear, true, verified)
  {
  }

  /** From the decision whether to upload to the end of the try block. */
  method Deliver(d: Direct, id: RunId, script: Script, ready: bool, ghost staged: map<Name, Record>, ghost clear: seq<bool>)
    returns (ended: Ended, final: RunStatus, ghost verified: nat)
    requires d.Inv() && ImportsShown(d.imports, d.batches) && id in d.batches
    requires Passed(d.batches[id], staged, d.staged, script, clear, ready)
    requires ImportsSettled(d.imports, d.batches, id, 0)
    requires PreflightNoted(d.log, id, d.batches[id], script.probes, clear)
    requires StagedUnstopped(d.log, id, script.uploadPauses, script.answers)
    modifies d`clock, d`saved, d`batches, d`staged, d`everStaged, d`remote, d`imports, d`log
    ensures Grew(old(d.log), d.log) && StagedUnstopped(d.log, id, script.uploadPauses, script.answers)
    ensures d.Inv()
    ensures !ended.Died? ==>
              && ImportsShown(d.imports, d.batches) && OnlyMoved(old(d.batches), d.batches, id)
              && d.batches[id].status == Running && ImportsSettled(d.imports, d.batches, id, |d.batches[id].devices|)
    ensures Uploads(old(d.batches)[id].mode, script, clear)
            || (d.imports == old(d.imports) && d.everStaged == old(d.everStaged) && NothingMoved(old(d.log), d.log))
    ensures ended.Through? ==>
              RanThrough(d.batches[id], script, clear, verified, final, false, d.world == CALM)
    ensures d.world == CALM ==> ended.Through?
  {
    final := Failed;
    ghost var probed, now := d.batches, d.staged;
    var allGood;
    ended, allGood, verified := UploadPhase(d, id, script, ready, staged, clear);
    if !ended.Through? {
      return;
    }
    ghost var worked := d.batches;
    var alive;
    alive, final := Close(d, id, allGood, script.last);
    if !alive {
      ended := Died;
      return;
    }
    MovedTwice(probed, worked, d.batches, id);
    if Uploads(probed[id].mode, script, clear) {
      UploadEnds(worked[id], d.batches[id], staged, script, clear, verified, allGood, final, d.world == CALM);
    } else {
      ProbedEnds(probed[id], d.batches[id], staged, now, script, clear, ready, final, d.world == CALM);
    }
  }

  /** The try block of `_execute_batch`. Every import goes to a run whose devices were
      all probed ready; without an upload phase nothing is staged or imported. */
  method Work(d: Direct, id: RunId, script: Script)
    returns (ended: Ended, final: RunStatus, ghost clear: seq<bool>, ghost verified: nat)
    requires d.Inv() && ImportsShown(d.imports, d.batches)
    requires id in d.batches && d.batches[id].status == Running && !d.batches[id].requestedStop
    requires forall device | device in d.batches[id].devices :: device.status == Pending
    requires GoodScript(script, |d.batches[id].devices|, d.staged)
    requires forall im | im in d.imports :: im.run != Some(id)
    requires OnlyBegan(d.log, id, d.batches[id])
    modifies d`clock, d`saved, d`batches, d`staged, d`everStaged, d`remote, d`imports, d`log
    ensures StagedUnstopped(d.log, id, script.uploadPauses, script.answers)
    ensures d.Inv()
    ensures !ended.Died? ==>
              && ImportsShown(d.imports, d.batches) && OnlyMoved(old(d.batches), d.batches, id)
              && d.batches[id].status == Running && ImportsSettled(d.imports, d.batches, id, |d.batches[id].devices|)
    ensures Warranted(d.log, id, old(d.batches)[id].mode, script, clear)
            || (d.imports == old(d.imports) && d.everStaged == old(d.everStaged) && NothingMoved(old(d.log), d.log))
    ensures ended.Through? ==>
              RanThrough(d.batches[id], script, clear, verified, final, false, d.world == CALM)
    ensures d.world == CALM ==> !ended.Died? && (ended.Excepted? ==> ProbeRaises in script.probes)
  {
    verified, final := 0, Failed;
    ghost var before, staged, notes := d.batches, d.staged, d.log;
    var ready;
    ended, ready, clear := Preflight(d, id, script);
    MovedNothing(notes, d.log, id, before[id], script.uploadPauses, script.answers);
    if !ended.Through? {
      return;
    }
    ghost var probed, log := d.batches, d.log;
    PreflightWarrants(log, id, probed[id], script, clear);
    ended, final, verified := Deliver(d, id, script, ready, staged, clear);
    WarrantStays(log, d.log, id, probed[id].mode, script, clear);
    if !ended.Died? {
      MovedTwice(before, probed, d.batches, id);
    }
  }

  // ---- Starting and ending a batch ----

  lemma StatusChangeKeepsShown(imports: set<ImportSent>, runs: map<RunId, Run>, id: RunId, status: RunStatus)
    requires ImportsShown(imports, runs) && id in runs && ImportsSettled(imports, runs, id, |runs[id].devices|)
    ensures var after := runs[id := runs[id].(status := status)];
            ImportsShown(imports, after) && ImportsSettled(imports, after, id, |runs[id].devices|)
  {
    SettledShown(imports, runs, id, runs[id].(status := status), |runs[id].devices|);
  }

  lemma StatusChangeTwice(runs: map<RunId, Run>, id: RunId, first: RunStatus, second: RunStatus)
    requires id in runs
    ensures var after := runs[id := runs[id].(status := first)];
            after[id := after[id].(status := second)] == runs[id := runs[id].(status := second)]
  {
  }

  /** Save a run with its final status; if that raises, it is failed in memory. */
  method SaveFinal(d: Direct, id: RunId, status: RunStatus) returns (alive: bool, shown: RunStatus)
    requires d.Inv() && ImportsShown(d.imports, d.batches)
    requires id in d.batches && ImportsSettled(d.imports, d.batches, id, |d.batches[id].devices|)
    modifies d`clock, d`saved, d`batches
    ensures d.Inv() && ImportsShown(d.imports, d.batches)
    ensures d.batches == old(d.batches)[id := old(d.batches)[id].(status := shown)]
    ensures ImportsSettled(d.imports, d.batches, id, |d.batches[id].devices|)
    ensures shown == status || shown == Failed
    ensures alive && shown == status != Failed ==> d.saved == d.batches
    ensures d.world == CALM ==> alive && shown == status && d.saved == d.batches
  {
    ghost var runs := d.batches;
    StatusChangeKeepsShown(d.imports, runs, id, status);
    StatusChangeKeepsShown(d.imports, runs, id, Failed);
    StatusChangeTwice(runs, id, status, Failed);
    d.batches := d.batches[id := d.batches[id].(status := status)];
    var r := Persist(d);
    alive, shown := r != Dead, status;
    if r == Raised {
      d.batches := d.batches[id := d.batches[id].(status := Failed)];
      shown := Failed;
    }
  }

  /** The audit of an upload, and the gaps around it. */
  method Audit(d: Direct, id: RunId, before: Pause, after: Pause) returns (alive: bool, raises: bool)
    requires d.Inv() && ImportsShown(d.imports, d.batches) && GoodPause(before) && GoodPause(after)
    requires id in d.batches && d.batches[id].status == Running
    modifies d`clock, d`saved, d`batches, d`staged, d`remote, d`log
    ensures NothingMoved(old(d.log), d.log)
    ensures d.Inv() && (alive ==> ImportsShown(d.imports, d.batches))
    ensures alive ==>
              d.batches == old(d.batches)[id := old(d.batches)[id].(
                             requestedStop := old(d.batches)[id].requestedStop || before.stop || after.stop)]
    ensures d.world == CALM ==> alive && !raises
  {
    ghost var runs := d.batches;
    raises := false;
    alive := Wait(d, id, before);
    if alive && d.batches[id].mode == Upload {
      alive, raises := d.Step();
    }
    if alive {
      ghost var between := d.batches;
      alive := Wait(d, id, after);
      UpdateTwice(runs, id, between[id], d.batches[id]);
    }
  }

  /** The finally block: audit the results of an upload, save the final status, free the lock. */
  method Finish(d: Direct, id: RunId, final: RunStatus, before: Pause, after: Pause) returns (alive: bool, shown: RunStatus)
    requires d.Inv() && ImportsShown(d.imports, d.batches) && GoodPause(before) && GoodPause(after)
    requires id in d.batches && d.batches[id].status == Running
    requires ImportsSettled(d.imports, d.batches, id, |d.batches[id].devices|)
    modifies d`clock, d`saved, d`batches, d`locked, d`staged, d`remote, d`log
    ensures NothingMoved(old(d.log), d.log)
    ensures d.Inv()
    ensures alive ==>
              && !d.locked && ImportsShown(d.imports, d.batches)
              && d.batches == old(d.batches)[id := old(d.batches)[id].(status := shown,
                             requestedStop := old(d.batches)[id].requestedStop || before.stop || after.stop)]
              && ImportsSettled(d.imports, d.batches, id, |d.batches[id].devices|)
              && (shown == final || shown == Failed)
              && (shown == final != Failed ==> d.saved == d.batches)
    ensures d.world == CALM ==> alive && shown == final && d.saved == d.batches
  {
    ghost var runs := d.batches;
    shown := final;
    var raises;
    alive, raises := Audit(d, id, before, after);
    if !alive {
      return;
    }
    ghost var audited := d.batches[id];
    alive, shown := SaveFinal(d, id, if raises then Failed else final);
    UpdateTwice(runs, id, audited, d.batches[id]);
    if alive {
      d.locked := false;
    }
  }

  lemma ShapeStays(run: Run, after: Run, script: Script, clear: seq<bool>, verified: nat, final: RunStatus,
                   late: bool, calm: bool)
    requires RanThrough(run, script, clear, verified, final, false, calm)
    requires after == run.(status := after.status, requestedStop := run.requestedStop || late)
    ensures RanThrough(after, script, clear, verified, final, late, calm)
  {
  }

  lemma FinishMoves(runs: map<RunId, Run>, id: RunId, run: Run)
    requires id in runs && run == runs[id].(status := run.status, requestedStop := run.requestedStop)
    requires runs[id].requestedStop ==> run.requestedStop
    ensures OnlyMoved(runs, runs[id := run], id)
  {
  }

  /** The finally block of a batch whose try block ended so. */
  method EndBatch(d: Direct, id: RunId, script: Script, ended: Ended, final: RunStatus,
                  ghost clear: seq<bool>, ghost verified: nat) returns (alive: bool)
    requires d.Inv() && ImportsShown(d.imports, d.batches) && id in d.batches && d.batches[id].status == Running
    requires ImportsSettled(d.imports, d.batches, id, |d.batches[id].devices|)
    requires GoodPause(script.beforeAudit) && GoodPause(script.afterAudit) && !ended.Died?
    requires ended.Through? ==> RanThrough(d.batches[id], script, clear, verified, final, false, d.world == CALM)
    modifies d`clock, d`saved, d`batches, d`locked, d`staged, d`remote, d`log
    ensures NothingMoved(old(d.log), d.log)
    ensures d.Inv()
    ensures alive ==>
              && !d.locked && ImportsShown(d.imports, d.batches) && OnlyMoved(old(d.batches), d.batches, id)
              && ImportsSettled(d.imports, d.batches, id, |d.batches[id].devices|)
              && d.batches[id].status in {Stopped, Complete, NeedsAttention, Failed}
    ensures alive && d.batches[id].status != Failed ==>
              RanThrough(d.batches[id], script, clear, verified, d.batches[id].status, StopLate(script), d.world == CALM)
    ensures d.world == CALM ==> alive && (d.batches[id].status == Failed ==> ended.Excepted?)
  {
    ghost var worked := d.batches;
    var settled, shown := if ended.Through? then final else Failed, Failed;
    alive, shown := Finish(d, id, settled, script.beforeAudit, script.afterAudit);
    if alive {
      FinishMoves(worked, id, d.batches[id]);
      if ended.Through? {
        ShapeStays(worked[id], d.batches[id], script, clear, verified, final, StopLate(script), d.world == CALM);
      }
    }
  }

  lemma EndKeepsNotes(before: seq<Note>, log: seq<Note>, next: seq<Note>, id: RunId, mode: Mode, script: Script, clear: seq<bool>)
    requires NothingMoved(log, next) && StagedUnstopped(log, id, script.uploadPauses, script.answers)
    ensures StagedUnstopped(next, id, script.uploadPauses, script.answers)
    ensures NothingMoved(before, log) ==> NothingMoved(before, next)
    ensures Warranted(log, id, mode, script, clear) ==> Warranted(next, id, mode, script, clear)
  {
  }

  /** `_execute_batch`. No private PEM moves unless every device was probed ready in
      this very run and no stop came first. A run that does not end as failed has
      its shape, whenever stops were requested, and the status that fits the stops
      seen when it was settled; the lock is free again whatever happened. */
  method ExecuteBatch(d: Direct, id: RunId, script: Script) returns (alive: bool, ghost clear: seq<bool>, ghost verified: nat)
    requires d.Inv() && ImportsShown(d.imports, d.batches)
    requires id in d.batches && d.batches[id].status == Running && !d.batches[id].requestedStop
    requires forall device | device in d.batches[id].devices :: device.status == Pending
    requires GoodScript(script, |d.batches[id].devices|, d.staged)
    requires forall im | im in d.imports :: im.run != Some(id)
    requires OnlyBegan(d.log, id, d.batches[id])
    modifies d`clock, d`saved, d`batches, d`locked, d`staged, d`everStaged, d`remote, d`imports, d`log
    ensures StagedUnstopped(d.log, id, script.uploadPauses, script.answers)
    ensures d.Inv()
    ensures Warranted(d.log, id, old(d.batches)[id].mode, script, clear)
            || (d.imports == old(d.imports) && d.everStaged == old(d.everStaged) && NothingMoved(old(d.log), d.log))
    ensures alive ==>
              && !d.locked && ImportsShown(d.imports, d.batches) && OnlyMoved(old(d.batches), d.batches, id)
              && ImportsSettled(d.imports, d.batches, id, |d.batches[id].devices|)
              && d.batches[id].status in {Stopped, Complete, NeedsAttention, Failed}
    ensures alive && d.batches[id].status != Failed ==>
              RanThrough(d.batches[id], script, clear, verified, d.batches[id].status, StopLate(script), d.world == CALM)
    ensures d.world == CALM ==> alive && (d.batches[id].status == Failed ==> ProbeRaises in script.probes)
  {
    ghost var before, notes := d.batches, d.log;
    var ended, final;
    ended, final, clear, verified := Work(d, id, script);
    if ended.Died? {
      return false, clear, verified;
    }
    ghost var worked, log := d.batches, d.log;
    alive := EndBatch(d, id, script, ended, final, clear, verified);
    EndKeepsNotes(notes, log, d.log, id, before[id].mode, script, clear);
    if alive {
      MovedTwice(before, worked, d.batches, id);
    }
  }

  /** A device asked for, and what the checks of the request find about it. */
  datatype Target = Target(selector: Selector, certificate: CertificateId, nic: int, known: bool, available: bool)

  predicate GoodTarget(target: Target) {
    1 <= target.nic <= 2 && target.known && target.available
  }

  datatype StartReply = Refused | StartRaised | Accepted | StartDead

  predicate NewRun(run: Run, mode: Mode, targets: seq<Target>) {
    && run.mode == mode && run.status == Running && !run.requestedStop && |run.devices| == |targets|
    && forall i | 0 <= i < |targets| ::
         GoodTarget(targets[i])
         && run.devices[i] == Device(targets[i].selector, targets[i].certificate, targets[i].nic, Pending)
  }

  /** The loop over the targets: refused at the first bad one. */
  method CheckTargets(targets: seq<Target>) returns (ok: bool, devices: seq<Device>)
    ensures ok <==> forall target | target in targets :: GoodTarget(target)
    ensures ok <==> forall target | target in targets ::
              (target.nic == 1 || target.nic == 2) && target.known && target.available
    ensures ok ==> |devices| == |targets| && forall i | 0 <= i < |targets| ::
              GoodTarget(targets[i])
              && devices[i] == Device(targets[i].selector, targets[i].certificate, targets[i].nic, Pending)
  {
    devices := [];
    for i := 0 to |targets|
      invariant |devices| == i && forall j | 0 <= j < i ::
                  GoodTarget(targets[j])
                  && devices[j] == Device(targets[j].selector, targets[j].certificate, targets[j].nic, Pending)
    {
      if !(1 <= targets[i].nic <= 2 && targets[i].known && targets[i].available) {
        assert targets[i] in targets;
        return false, [];
      }
      devices := devices + [Device(targets[i].selector, targets[i].certificate, targets[i].nic, Pending)];
    }
    ok := true;
  }

  /** A new run has no imports yet. */
  lemma NewRunKeepsShown(imports: set<ImportSent>, runs: map<RunId, Run>, id: RunId, run: Run)
    requires ImportsShown(imports, runs) && id !in runs
    ensures ImportsShown(imports, runs[id := run]) && forall im | im in imports :: im.run != Some(id)
  {
    forall im | im in imports ensures ShowsImport(im, runs[id := run]) && im.run != Some(id) {
      assert ShowsImport(im, runs);
    }
  }

  /** `start_batch`, up to the start of the worker. */
  method StartBatch(d: Direct, id: RunId, mode: Mode, targets: seq<Target>, threadStarts: bool) returns (reply: StartReply)
    requires d.Inv() && ImportsShown(d.imports, d.batches) && id !in d.batches
    requires forall note | note in d.log :: BatchOf(note) != Some(id)
    modifies d`clock, d`saved, d`batches, d`locked, d`log
    ensures d.Inv() && ImportsShown(d.imports, d.batches)
    ensures forall im | im in d.imports :: im.run != Some(id)
    ensures reply.Refused? <==>
              targets == [] || old(d.locked) || exists target | target in targets :: !GoodTarget(target)
    ensures reply.Refused? ==> d.batches == old(d.batches) && d.saved == old(d.saved) && d.locked == old(d.locked)
    ensures !reply.Refused? ==> id in d.batches && d.batches == old(d.batches)[id := d.batches[id]]
    ensures reply.Accepted? ==> NewRun(d.batches[id], mode, targets) && d.locked && d.saved == d.batches
    ensures NothingMoved(old(d.log), d.log) && (reply.Accepted? ==> OnlyBegan(d.log, id, d.batches[id]))
    ensures reply.StartRaised? ==> d.batches[id].status == Failed && !d.locked
    ensures d.world == CALM ==> !reply.StartDead? && (reply.StartRaised? ==> !threadStarts)
  {
    var ok, devices := CheckTargets(targets);
    if targets == [] || !ok || d.locked {
      NewRunKeepsShown(d.imports, d.batches, id, Run(mode, Running, false, []));
      return Refused;
    }
    d.locked := true;
    var run := Run(mode, Running, false, devices);
    NewRunKeepsShown(d.imports, d.batches, id, run);
    NewRunKeepsShown(d.imports, d.batches, id, run.(status := Failed));
    assert d.batches[id := run][id := run.(status := Failed)] == d.batches[id := run.(status := Failed)];
    d.batches := d.batches[id := run];
    var r := Persist(d);
    if r == Dead {
      return StartDead;
    }
    if r == Raised || !threadStarts {
      d.batches := d.batches[id := run.(status := Failed)];
      d.locked := false;
      return StartRaised;
    }
    NewBatchNoted(d.log, id, run);
    d.Write(Began(id, mode, |devices|));
    reply := Accepted;
  }
}