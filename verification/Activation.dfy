/** Direct delivery of one certificate to one device: the ledger of staged files,
    the commands sent, and the answers they meet. */
module Activation {
  import opened Common
  import opened SisReply
  import SisReader

  type Selector = string
  type CertificateId = string
  type RunId = string
  type Name = Bytes  // of a staged file

  /** What a device row shows. */
  datatype Status =
    | Pending | Testing | Ready | Uploading | Skipped | Interrupted
    | Verified | UploadUnconfirmed | CleanupPending | DeleteFailed
    | HostKeyChanged | ApprovalRequired | AuthenticationFailed | ConnectionFailed | CredentialsRequired

  datatype RecordStatus = Staged | AwaitingCleanup | FailedDelete | Deleted

  /** One entry of the ledger of staged files. */
  datatype Record = Record(
    selector: Selector, nic: Nic, certificate: CertificateId, status: RecordStatus, knownCompletion: bool)

  datatype Exchange = Exchange(preloaded: Bytes, received: Bytes, writeConfirmed: bool)

  /** What a transport operation comes to under one credential pair. `reached` says
      that the command took effect on the device before the error. */
  datatype Reply =
    | AuthRefused
    | KeyChanged
    | Denied(reached: bool)
    | Broken(reached: bool)
    | Unexpected(reached: bool)
    | Answered(exchange: Exchange)

  datatype Trust = Trusted | Untrusted(status: Status) | TrustRaises

  /** All that an activation meets outside the process. `verified` and `activated`
      are the two HTTPS checks; none stands for a check that raises. */
  datatype Answers = Answers(
    targetKnown: bool,
    trust: Trust,
    hasCertificate: bool,
    stage: seq<Reply>,
    ingest: seq<Reply>,
    verified: Option<bool>,
    activated: Option<bool>,
    delete: seq<Reply>)

  datatype Outcome = Finished(status: Status) | Raised | Dead

  /** When the process dies and which durable writes raise, counted by step. */
  datatype World = World(diesAt: Option<nat>, raisesAt: set<nat>)

  const CALM := World(None, {})

  /** An import command that reached a device. `blocked` says that another file
      staged for the same interface was still undeleted. */
  datatype ImportSent = ImportSent(
    run: Option<RunId>, index: nat, selector: Selector, nic: Nic, name: Name, blocked: bool)

  datatype Device = Device(selector: Selector, certificate: CertificateId, nic: Nic, status: Status)

  datatype Mode = Test | Upload

  datatype RunStatus = Running | Complete | NeedsAttention | Stopped | Failed | InterruptedRun

  datatype Run = Run(mode: Mode, status: RunStatus, requestedStop: bool, devices: seq<Device>)

  /** What probing one device comes to. */
  datatype Probe = Probed(status: Status) | ConnectionError | BadValue | ProbeRaises

  /** What happened in batches, in order: a batch accepted, a device probed and the
      ledger consulted for it, a stop requested, the upload turn of a device taken
      under the lock, the result of its activation; and a private PEM moved to a device. */
  datatype Note =
    | Began(batch: RunId, mode: Mode, devices: nat)
    | ProbeSeen(batch: RunId, index: nat, probe: Probe, clear: bool)
    | StopAsked(batch: RunId)
    | TurnBegan(batch: RunId, index: nat, devices: nat)
    | ResultSeen(batch: RunId, index: nat, status: Status)
    | PemStaged(run: Option<RunId>, index: nat, name: Name)

  /** `_with_credentials`: the next pair is tried only after a refused login, which
      comes before any command is sent. */
  function Decisive(replies: seq<Reply>): Reply
    requires replies != []
  {
    if |replies| > 1 && replies[0] == AuthRefused then Decisive(replies[1..]) else replies[0]
  }

  /** The same as the loop of the source; `tried` pairs were used. */
  method WithCredentials(replies: seq<Reply>) returns (reply: Reply, tried: nat)
    requires replies != []
    ensures reply == Decisive(replies)
    ensures 1 <= tried <= |replies| && reply == replies[tried - 1]
    ensures forall k | 0 <= k < tried - 1 :: replies[k] == AuthRefused
    ensures reply == AuthRefused ==> tried == |replies|
  {
    tried := 1;
    while tried < |replies| && replies[tried - 1] == AuthRefused
      invariant 1 <= tried <= |replies|
      invariant forall k | 0 <= k < tried - 1 :: replies[k] == AuthRefused
      invariant Decisive(replies) == Decisive(replies[tried - 1..])
    {
      assert replies[tried - 1..][1..] == replies[tried..];
      tried := tried + 1;
    }
    reply := replies[tried - 1];
  }

  predicate Reaches(reply: Reply) {
    match reply
    case AuthRefused => false
    case KeyChanged => false
    case Denied(reached) => reached
    case Broken(reached) => reached
    case Unexpected(reached) => reached
    case Answered(exchange) => exchange.writeConfirmed
  }

  /** A command counts as sent when its reply came after the write, or when an error says
      that it had taken effect by then. */
  lemma ReachesIff(reply: Reply)
    ensures Reaches(reply) <==>
            || (exists exchange :: reply == Answered(exchange) && exchange.writeConfirmed)
            || reply == Denied(true) || reply == Broken(true) || reply == Unexpected(true)
  {
  }

  /** The import was acknowledged exactly, with nothing received beforehand. */
  predicate Acknowledged(exchange: Exchange, nic: Nic, name: Name) {
    exchange.preloaded == [] && exchange.writeConfirmed
    && ExactAck(exchange.received, nic, Some(SisCommand(nic, name)), Import)
  }

  /** An import is acknowledged by a reply in the language of acknowledgements, with
      nothing received before the command and all of it sent. */
  lemma AcknowledgedIff(exchange: Exchange, nic: Nic, name: Name)
    requires NoLineEnds(name)
    ensures Acknowledged(exchange, nic, name) <==>
            && exchange.preloaded == [] && exchange.writeConfirmed
            && IsReply(exchange.received, nic, Some(SisCommand(nic, name)), Import)
  {
    SisReader.SisCommandIsCommand(nic, name);
    ExactAckIffReply(exchange.received, nic, Some(SisCommand(nic, name)), Import);
  }

  // ---- Facts about the ledger ----

  predicate SamePair(record: Record, selector: Selector, nic: Nic) {
    record.selector == selector && record.nic == nic
  }

  /** No file staged for the interface is undeleted, other than one of the given name. */
  predicate ClearExcept(staged: map<Name, Record>, selector: Selector, nic: Nic, name: Name) {
    forall n | n in staged && n != name && SamePair(staged[n], selector, nic) :: staged[n].status == Deleted
  }

  predicate Clear(staged: map<Name, Record>, selector: Selector, nic: Nic) {
    forall n | n in staged && SamePair(staged[n], selector, nic) :: staged[n].status == Deleted
  }

  /** An interface is clear when no undeleted file is recorded for it. */
  lemma ClearIff(staged: map<Name, Record>, selector: Selector, nic: Nic)
    ensures Clear(staged, selector, nic) <==>
            !exists n | n in staged :: staged[n].selector == selector && staged[n].nic == nic && staged[n].status != Deleted
  {
  }

  /** Every name ever staged has a record, and every file that may still be on a
      device has an undeleted one. */
  ghost predicate LedgerCovers(staged: map<Name, Record>, everStaged: set<Name>, remote: set<Name>) {
    everStaged <= staged.Keys && forall n | n in remote :: n in staged && staged[n].status != Deleted
  }

  /** The results an activation can leave once its import was sent. */
  predicate IsResult(s: Status) {
    s == Verified || s == UploadUnconfirmed || s == CleanupPending || s == DeleteFailed || s == AuthenticationFailed
  }

  /** A device that was sent an import shows a result, or an upload still running. */
  predicate ShowsImport(im: ImportSent, runs: map<RunId, Run>) {
    im.run.Some? ==>
      && im.run.value in runs
      && var run := runs[im.run.value];
         && im.index < |run.devices|
         && (IsResult(run.devices[im.index].status)
             || (run.devices[im.index].status == Uploading && run.status == Running))
  }

  ghost predicate ImportsShown(imports: set<ImportSent>, runs: map<RunId, Run>) {
    forall im | im in imports :: ShowsImport(im, runs)
  }

  /** Imports go to names that were staged, once per name, and in a batch only to
      interfaces with nothing else undeleted. */
  ghost predicate ImportsSafe(imports: set<ImportSent>, everStaged: set<Name>) {
    && (forall im | im in imports :: im.name in everStaged && (im.run.Some? ==> !im.blocked))
    && (forall im, other | im in imports && other in imports && im.name == other.name :: im == other)
  }

  /** The import of the named file reached its device. */
  ghost predicate Imported(imports: set<ImportSent>, name: Name) {
    exists im :: im in imports && im.name == name
  }

  /** At most one import was added, for the given place and name. */
  ghost predicate AtMostOneMore(before: set<ImportSent>, after: set<ImportSent>,
                                run: Option<RunId>, index: nat, selector: Selector, nic: Nic, name: Name)
  {
    || after == before
    || after == before + {ImportSent(run, index, selector, nic, name, true)}
    || after == before + {ImportSent(run, index, selector, nic, name, false)}
  }

  predicate AtMostOneNote(before: seq<Note>, after: seq<Note>, note: Note) {
    after == before || after == before + [note]
  }

  /** A record with a new status; a completion once known stays known. */
  function Restated(record: Record, status: RecordStatus, known: bool): Record {
    record.(status := status, knownCompletion := record.knownCompletion || known)
  }

  /** What the ledger says of a file when its activation ended with a result. */
  predicate RecordFits(record: Record, result: Status) {
    record.status == match result
                     case Verified => Deleted
                     case DeleteFailed => FailedDelete
                     case _ => AwaitingCleanup
  }

  // ---- Facts about the notes ----

  /** The upload turn of a device may be taken: every device of the batch was probed
      ready with nothing left of an earlier attempt, every device before this one was
      verified, and no stop was requested. */
  predicate MayUpload(log: seq<Note>, batch: RunId, index: nat, devices: nat) {
    && index < devices && Began(batch, Upload, devices) in log && StopAsked(batch) !in log
    && (forall k | 0 <= k < devices :: ProbeSeen(batch, k, Probed(Ready), true) in log)
    && (forall k | 0 <= k < index :: ResultSeen(batch, k, Verified) in log)
  }

  predicate TurnOfDevice(note: Note, batch: RunId, index: nat) {
    note.TurnBegan? && note.batch == batch && note.index == index
  }

  ghost predicate TurnTaken(log: seq<Note>, batch: RunId, index: nat) {
    exists b :: 0 <= b < |log| && TurnOfDevice(log[b], batch, index)
  }

  predicate StagedFor(note: Note, batch: RunId, index: nat) {
    note.PemStaged? && note.run == Some(batch) && note.index == index
  }

  ghost predicate MovedTo(log: seq<Note>, batch: RunId, index: nat) {
    exists b :: 0 <= b < |log| && StagedFor(log[b], batch, index)
  }

  /** A turn is taken when it may be, a private PEM of a batch moves in its turn, and
      no device is verified without one. */
  ghost predicate MayFollow(log: seq<Note>, note: Note) {
    match note
    case TurnBegan(batch, index, devices) => MayUpload(log, batch, index, devices)
    case PemStaged(Some(batch), index, _) => TurnTaken(log, batch, index)
    case ResultSeen(batch, index, Verified) => MovedTo(log, batch, index)
    case _ => true
  }

  ghost predicate SoundNote(log: seq<Note>, j: nat)
    requires j < |log|
  {
    MayFollow(log[..j], log[j])
  }

  ghost predicate NotesSound(log: seq<Note>) {
    forall j | 0 <= j < |log| :: SoundNote(log, j)
  }

  ghost predicate StagingNoted(log: seq<Note>, name: Name) {
    exists j :: 0 <= j < |log| && log[j].PemStaged? && log[j].name == name
  }

  /** Every staging is noted, and every import follows one for the same device and name. */
  ghost predicate NotesCover(log: seq<Note>, everStaged: set<Name>, imports: set<ImportSent>) {
    && (forall name | name in everStaged :: StagingNoted(log, name))
    && (forall im | im in imports :: PemStaged(im.run, im.index, im.name) in log)
  }

  lemma OneMoreNote(log: seq<Note>, note: Note, everStaged: set<Name>, imports: set<ImportSent>)
    requires NotesSound(log) && MayFollow(log, note) && NotesCover(log, everStaged, imports)
    ensures NotesSound(log + [note]) && NotesCover(log + [note], everStaged, imports)
    ensures note.PemStaged? ==> NotesCover(log + [note], everStaged + {note.name}, imports)
  {
    var longer := log + [note];
    forall j | 0 <= j < |longer| ensures SoundNote(longer, j) {
      assert longer[..j] == log[..j];
      if j < |log| {
        assert SoundNote(log, j);
      } else {
        assert log[..j] == log;
      }
    }
    forall name | name in everStaged ensures StagingNoted(longer, name) {
      var j :| 0 <= j < |log| && log[j].PemStaged? && log[j].name == name;
      assert longer[j] == log[j];
    }
    assert longer[|log|] == note;
  }

  // ---- What an activation comes to when nothing goes wrong inside the process ----

  function AfterFailure(reply: Reply, verified: Option<bool>): Outcome
    requires !reply.Answered?
  {
    match reply
    case KeyChanged => Finished(CleanupPending)
    case AuthRefused => Finished(AuthenticationFailed)
    case Denied(_) => Finished(AuthenticationFailed)
    case Broken(_) => if verified.None? then Raised else Finished(CleanupPending)
    case Unexpected(_) => Raised
  }

  function AfterDelete(reply: Reply): Outcome {
    match reply
    case Answered(_) => Finished(Verified)
    case AuthRefused => Finished(DeleteFailed)
    case Denied(_) => Finished(DeleteFailed)
    case Broken(_) => Finished(DeleteFailed)
    case KeyChanged => Raised
    case Unexpected(_) => Raised
  }

  /** There is always a credential pair to try, and the trust check blocks only
      with the two statuses it has for that. */
  predicate WellFormed(a: Answers) {
    && a.stage != [] && a.ingest != [] && a.delete != []
    && (a.trust.Untrusted? ==> a.trust.status == HostKeyChanged || a.trust.status == ApprovalRequired)
  }

  function Planned(a: Answers, nic: Nic, name: Name): Outcome
    requires WellFormed(a)
  {
    if !a.targetKnown then Raised
    else if a.trust.TrustRaises? then Raised
    else if a.trust.Untrusted? then Finished(a.trust.status)
    else if !a.hasCertificate then Raised
    else PlannedTransfer(a, nic, name)
  }

  function PlannedTransfer(a: Answers, nic: Nic, name: Name): Outcome
    requires WellFormed(a)
  {
    var staged := Decisive(a.stage);
    if !staged.Answered? then AfterFailure(staged, a.verified) else PlannedImport(a, nic, name)
  }

  function PlannedImport(a: Answers, nic: Nic, name: Name): Outcome
    requires WellFormed(a)
  {
    var ingested := Decisive(a.ingest);
    if !ingested.Answered? then AfterFailure(ingested, a.verified)
    else if !Acknowledged(ingested.exchange, nic, name) then
      if a.verified.None? then Raised else Finished(CleanupPending)
    else if a.activated.None? then Raised
    else if !a.activated.value then Finished(CleanupPending)
    else AfterDelete(Decisive(a.delete))
  }

  /** The import was answered, and the answer acknowledges it. */
  predicate ImportAcknowledged(a: Answers, nic: Nic, name: Name)
    requires WellFormed(a)
  {
    Decisive(a.ingest).Answered? && Acknowledged(Decisive(a.ingest).exchange, nic, name)
  }

  /** A cleanup request and what it meets; `graceOver` compares the clock with the record's deadline. */
  datatype CleanupCall = CleanupCall(confirmed: bool, graceOver: bool, trust: Trust, delete: seq<Reply>)

  datatype CleanupReply = Cleaned | StillPending | Blocked(status: Status) | CouldNotDelete | CleanupRaised | CleanupDead

  /** Deletion was confirmed, and the device is done with the file or has had its time. */
  predicate MayDelete(record: Record, call: CleanupCall) {
    call.confirmed && (record.knownCompletion || call.graceOver)
  }

  /** The ledger after a cleanup that ended so. */
  function AfterCleanup(staged: map<Name, Record>, name: Name, r: CleanupReply): map<Name, Record> {
    if name !in staged || staged[name].status == Deleted || !(r.Cleaned? || r.CouldNotDelete?) then staged
    else staged[name := Restated(staged[name], if r.Cleaned? then Deleted else FailedDelete, false)]
  }

  function PlannedCleanup(staged: map<Name, Record>, name: Name, call: CleanupCall): CleanupReply
    requires call.delete != []
  {
    if name !in staged then CleanupRaised
    else if staged[name].status == Deleted then Cleaned
    else if !MayDelete(staged[name], call) then StillPending
    else
      match call.trust
      case Untrusted(status) => Blocked(status)
      case TrustRaises => CleanupRaised
      case Trusted =>
        match Decisive(call.delete)
        case KeyChanged => Blocked(HostKeyChanged)
        case Unexpected(_) => CleanupRaised
        case Answered(_) => Cleaned
        case _ => CouldNotDelete
  }

  /** When a cleanup ends in each way, with no fault inside the process. */
  lemma CleanupIff(staged: map<Name, Record>, name: Name, call: CleanupCall, status: Status)
    requires call.delete != []
    ensures var r, delete := PlannedCleanup(staged, name, call), Decisive(call.delete);
            var left := name in staged && staged[name].status != Deleted;
            var ready := left && call.confirmed && (staged[name].knownCompletion || call.graceOver);
            && (r == StillPending <==> left && !ready)
            && (r == Cleaned <==> (name in staged && !left) || (ready && call.trust.Trusted? && delete.Answered?))
            && (r == Blocked(status) <==>
                  ready && (call.trust == Untrusted(status)
                            || (call.trust.Trusted? && delete.KeyChanged? && status == HostKeyChanged)))
            && (r == CouldNotDelete <==> ready && call.trust.Trusted? && (Refused(delete) || delete.Broken?))
            && (r == CleanupRaised <==>
                  name !in staged || (ready && (call.trust.TrustRaises? || (call.trust.Trusted? && delete.Unexpected?))))
  {
  }

  /** The ledger after a cleanup: the one record is deleted or marked, if there was something to do. */
  lemma CleanupLeaves(staged: map<Name, Record>, name: Name, r: CleanupReply, other: Name)
    ensures var after := AfterCleanup(staged, name, r);
            && after.Keys == staged.Keys && (other in staged && other != name ==> after[other] == staged[other])
            && (name in staged ==>
                  && after[name] == staged[name].(status := after[name].status)
                  && after[name].status == if staged[name].status == Deleted || r == Cleaned then Deleted
                                           else if r == CouldNotDelete then FailedDelete else staged[name].status)
  {
  }

  // ---- The service ----

  class Direct {
    // durable
    var staged: map<Name, Record>
    var saved: map<RunId, Run>
    // in memory
    var batches: map<RunId, Run>
    var locked: bool
    // the process and the outside
    var world: World
    var clock: nat
    var log: seq<Note>
    ghost var everStaged: set<Name>
    ghost var remote: set<Name>
    ghost var imports: set<ImportSent>
    constructor ()
      ensures staged == map[] && saved == map[] && batches == map[] && !locked
      ensures everStaged == {} && remote == {} && imports == {} && log == []
      ensures Inv() && batches == saved
    {
      staged, saved, batches, locked := map[], map[], map[], false;
      world, clock, log := CALM, 0, [];
      everStaged, remote, imports := {}, {}, {};
    }

    ghost predicate Inv()
      reads this
    {
      && LedgerCovers(staged, everStaged, remote)
      && ImportsSafe(imports, everStaged)
      && ImportsShown(imports, saved)
      && NotesSound(log) && NotesCover(log, everStaged, imports)
    }

    /** A note of something other than a probe or a staging. */
    method Write(note: Note)
      requires Inv() && MayFollow(log, note) && !note.ProbeSeen? && !note.PemStaged?
      modifies this`log
      ensures Inv() && log == old(log) + [note]
    {
      OneMoreNote(log, note, everStaged, imports);
      log := log + [note];
    }

    /** `probe_one`, with the ledger consulted after it. Nothing else notes a probe. */
    method ProbeDevice(batch: RunId, index: nat, selector: Selector, nic: Nic, probe: Probe) returns (clear: bool)
      requires Inv()
      modifies this`log
      ensures Inv() && clear == Clear(staged, selector, nic)
      ensures log == old(log) + [ProbeSeen(batch, index, probe, clear)]
    {
      clear := Clear(staged, selector, nic);
      OneMoreNote(log, ProbeSeen(batch, index, probe, clear), everStaged, imports);
      log := log + [ProbeSeen(batch, index, probe, clear)];
    }

    /** One step of the process: false when it dies here. */
    method Step() returns (alive: bool, raises: bool)
      modifies this`clock
      ensures alive <==> world.diesAt != Some(old(clock))
      ensures raises <==> old(clock) in world.raisesAt
      ensures clock == if alive then old(clock) + 1 else old(clock)
    {
      alive := world.diesAt != Some(clock);
      raises := clock in world.raisesAt;
      if alive {
        clock := clock + 1;
      }
    }

    /** A write of the ledger, by `_record_staged`, `_set_staged` or the diagnostics. */
    method PutRecord(name: Name, record: Record) returns (r: Outcome)
      requires Inv() && (record.status == Deleted ==> name !in remote)
      modifies this`clock, this`staged
      ensures Inv()
      ensures r == Dead || r == Raised || r == Finished(Ready)
      ensures world == CALM ==> r.Finished?
      ensures staged == if r.Finished? then old(staged)[name := record] else old(staged)
    {
      var alive, raises := Step();
      if !alive {
        return Dead;
      }
      if raises {
        return Raised;
      }
      staged := staged[name := record];
      r := Finished(Ready);
    }

    /** `transport.stage` for a recorded name. Nothing else notes a staging. */
    method Stage(run: Option<RunId>, index: nat, name: Name, replies: seq<Reply>)
      returns (alive: bool, reply: Reply)
      requires Inv() && replies != [] && name in staged && staged[name].status != Deleted
      requires MayFollow(log, PemStaged(run, index, name))
      modifies this`clock, this`everStaged, this`remote, this`log
      ensures Inv() && reply == Decisive(replies)
      ensures world == CALM ==> alive
      ensures everStaged == if alive then old(everStaged) + {name} else old(everStaged)
      ensures remote == if alive then old(remote) + {name} else old(remote)
      ensures log == if alive then old(log) + [PemStaged(run, index, name)] else old(log)
    {
      var tried;
      reply, tried := WithCredentials(replies);
      var raises;
      alive, raises := Step();
      if alive {
        OneMoreNote(log, PemStaged(run, index, name), everStaged, imports);
        everStaged, remote := everStaged + {name}, remote + {name};
        log := log + [PemStaged(run, index, name)];
      }
    }

    /** `transport.ingest`: the irreversible import command. */
    method Ingest(run: Option<RunId>, index: nat, selector: Selector, nic: Nic, name: Name, replies: seq<Reply>)
      returns (alive: bool, reply: Reply)
      requires Inv() && replies != [] && name in everStaged && PemStaged(run, index, name) in log
      requires forall im | im in imports :: im.name != name
      requires run.Some? ==> ClearExcept(staged, selector, nic, name)
      requires run.Some? ==> ShowsUpload(saved, run.value, index)
      modifies this`clock, this`imports
      ensures Inv() && reply == Decisive(replies)
      ensures world == CALM ==> alive
      ensures imports == if alive && Reaches(reply)
                         then old(imports) + {ImportSent(run, index, selector, nic, name,
                                                         !ClearExcept(staged, selector, nic, name))}
                         else old(imports)
    {
      var tried;
      reply, tried := WithCredentials(replies);
      var raises;
      alive, raises := Step();
      if alive && Reaches(reply) {
        imports := imports + {ImportSent(run, index, selector, nic, name, !ClearExcept(staged, selector, nic, name))};
      }
    }

    /** `transport.delete`: the file is gone once the call has returned. */
    method Remove(name: Name, replies: seq<Reply>) returns (alive: bool, reply: Reply)
      requires Inv() && replies != []
      modifies this`clock, this`remote
      ensures Inv() && reply == Decisive(replies)
      ensures world == CALM ==> alive
      ensures remote == if alive && reply.Answered? then old(remote) - {name} else old(remote)
    {
      var tried;
      reply, tried := WithCredentials(replies);
      var raises;
      alive, raises := Step();
      if alive && reply.Answered? {
        remote := remote - {name};
      }
    }

    /** `_set_staged`: rewrites the record, and on success reports a status. */
    method SetStaged(name: Name, status: RecordStatus, known: bool, reported: Status) returns (r: Outcome)
      requires Inv() && name in staged && (status == Deleted ==> name !in remote)
      modifies this`clock, this`staged
      ensures Inv() && name in staged
      ensures r == Dead || r == Raised || r == Finished(reported)
      ensures world == CALM ==> r == Finished(reported)
      ensures staged == if r.Finished?
                        then old(staged)[name := Restated(old(staged)[name], status, known)] else old(staged)
    {
      var record := staged[name];
      r := PutRecord(name, Restated(record, status, known));
      if r.Finished? {
        r := Finished(reported);
      }
    }

    /** The error branches around the transfer. */
    method GiveUp(name: Name, reply: Reply, verified: Option<bool>) returns (r: Outcome)
      requires Inv() && name in staged && !reply.Answered?
      modifies this`clock, this`staged
      ensures Inv() && name in staged && staged == old(staged)[name := staged[name]]
      ensures world == CALM ==> r == AfterFailure(reply, verified)
      ensures r.Finished? ==> IsResult(r.status) && r.status != Verified && RecordFits(staged[name], r.status)
      ensures staged[name].knownCompletion == old(staged)[name].knownCompletion
      ensures SamePair(staged[name], old(staged)[name].selector, old(staged)[name].nic)
    {
      match reply {
        case KeyChanged =>
          r := SetStaged(name, AwaitingCleanup, false, CleanupPending);
        case AuthRefused =>
          r := SetStaged(name, AwaitingCleanup, false, AuthenticationFailed);
        case Denied(_) =>
          r := SetStaged(name, AwaitingCleanup, false, AuthenticationFailed);
        case Broken(_) =>
          if verified.None? {
            return Raised;
          }
          r := SetStaged(name, AwaitingCleanup, false, CleanupPending);
        case Unexpected(_) =>
          r := Raised;
      }
    }

    /** Delete the file of a certificate that was seen. */
    method DeleteSeen(name: Name, delete: seq<Reply>) returns (r: Outcome)
      requires Inv() && name in staged && delete != []
      modifies this`clock, this`staged, this`remote
      ensures Inv() && name in staged && staged == old(staged)[name := staged[name]]
      ensures world == CALM ==> r == AfterDelete(Decisive(delete))
      ensures r.Finished? ==> IsResult(r.status) && RecordFits(staged[name], r.status)
      ensures old(staged)[name].knownCompletion ==> staged[name].knownCompletion
      ensures r == Finished(Verified) ==> Decisive(delete).Answered? && name !in remote
      ensures SamePair(staged[name], old(staged)[name].selector, old(staged)[name].nic)
    {
      var alive, reply := Remove(name, delete);
      if !alive {
        return Dead;
      }
      match reply {
        case Answered(_) =>
          r := SetStaged(name, Deleted, true, Verified);
        case KeyChanged =>
          r := Raised;
        case Unexpected(_) =>
          r := Raised;
        case _ =>
          r := SetStaged(name, FailedDelete, true, DeleteFailed);
      }
    }

    /** From the acknowledgement on: wait for the certificate, then delete the file. */
    method Conclude(name: Name, activated: Option<bool>, delete: seq<Reply>) returns (r: Outcome)
      requires Inv() && name in staged && delete != []
      modifies this`clock, this`staged, this`remote
      ensures Inv() && name in staged && staged == old(staged)[name := staged[name]]
      ensures world == CALM ==>
                r == if activated.None? then Raised
                     else if !activated.value then Finished(CleanupPending) else AfterDelete(Decisive(delete))
      ensures r.Finished? ==> IsResult(r.status) && RecordFits(staged[name], r.status) && staged[name].knownCompletion
      ensures r == Finished(Verified) ==> activated == Some(true) && Decisive(delete).Answered? && name !in remote
      ensures SamePair(staged[name], old(staged)[name].selector, old(staged)[name].nic)
    {
      r := SetStaged(name, Staged, true, Uploading);
      if !r.Finished? {
        return;
      }
      if activated.None? {
        return Raised;
      }
      if !activated.value {
        r := SetStaged(name, AwaitingCleanup, true, CleanupPending);
        return;
      }
      r := DeleteSeen(name, delete);
    }

    /** Save the diagnostics of a reply and act on it. */
    method ReadReply(nic: Nic, name: Name, exchange: Exchange, a: Answers) returns (r: Outcome)
      requires Inv() && WellFormed(a) && name in staged
      modifies this`clock, this`staged, this`remote
      ensures Inv() && name in staged && staged == old(staged)[name := staged[name]]
      ensures world == CALM ==>
                r == if !Acknowledged(exchange, nic, name) then
                       if a.verified.None? then Raised else Finished(CleanupPending)
                     else if a.activated.None? then Raised
                     else if !a.activated.value then Finished(CleanupPending) else AfterDelete(Decisive(a.delete))
      ensures r.Finished? ==> IsResult(r.status) && RecordFits(staged[name], r.status)
      ensures staged[name].knownCompletion ==> old(staged)[name].knownCompletion || Acknowledged(exchange, nic, name)
      ensures r == Finished(Verified) ==>
                && Acknowledged(exchange, nic, name) && a.activated == Some(true) && Decisive(a.delete).Answered?
                && name !in remote
      ensures SamePair(staged[name], old(staged)[name].selector, old(staged)[name].nic)
    {
      r := PutRecord(name, staged[name]);
      if !r.Finished? {
        return;
      }
      if !Acknowledged(exchange, nic, name) {
        if a.verified.None? {
          return Raised;
        }
        r := SetStaged(name, AwaitingCleanup, false, CleanupPending);
        return;
      }
      r := Conclude(name, a.activated, a.delete);
    }

    /** Import a staged file and act on the reply. */
    method ImportStaged(run: Option<RunId>, index: nat, selector: Selector, nic: Nic, name: Name, a: Answers)
      returns (r: Outcome)
      requires Inv() && WellFormed(a) && name in staged && SamePair(staged[name], selector, nic)
      requires name in everStaged && PemStaged(run, index, name) in log && forall im | im in imports :: im.name != name
      requires run.Some? ==> ClearExcept(staged, selector, nic, name) && ShowsUpload(saved, run.value, index)
      modifies this`clock, this`staged, this`remote, this`imports
      ensures Inv() && name in staged && staged == old(staged)[name := staged[name]] && SamePair(staged[name], selector, nic)
      ensures world == CALM ==> r == PlannedImport(a, nic, name)
      ensures r.Finished? ==> IsResult(r.status) && RecordFits(staged[name], r.status)
      ensures staged[name].knownCompletion ==> old(staged)[name].knownCompletion || ImportAcknowledged(a, nic, name)
      ensures AtMostOneMore(old(imports), imports, run, index, selector, nic, name)
      ensures r == Finished(Verified) ==>
                && ImportAcknowledged(a, nic, name) && a.activated == Some(true) && Decisive(a.delete).Answered?
                && name !in remote && Imported(imports, name)
    {
      var alive, reply := Ingest(run, index, selector, nic, name, a.ingest);
      if !alive {
        return Dead;
      }
      if reply.Answered? {
        r := ReadReply(nic, name, reply.exchange, a);
      } else {
        r := GiveUp(name, reply, a.verified);
      }
    }

    /** From the reply to the staging on. */
    method TransferStaged(run: Option<RunId>, index: nat, selector: Selector, nic: Nic, name: Name,
                          reply: Reply, a: Answers) returns (r: Outcome)
      requires Inv() && WellFormed(a) && name in staged && SamePair(staged[name], selector, nic)
      requires name in everStaged && PemStaged(run, index, name) in log && forall im | im in imports :: im.name != name
      requires run.Some? ==> ClearExcept(staged, selector, nic, name) && ShowsUpload(saved, run.value, index)
      modifies this`clock, this`staged, this`remote, this`imports
      ensures Inv() && name in staged && staged == old(staged)[name := staged[name]] && SamePair(staged[name], selector, nic)
      ensures world == CALM ==> r == if !reply.Answered? then AfterFailure(reply, a.verified) else PlannedImport(a, nic, name)
      ensures r.Finished? ==> IsResult(r.status) && RecordFits(staged[name], r.status)
      ensures staged[name].knownCompletion ==> old(staged)[name].knownCompletion || ImportAcknowledged(a, nic, name)
      ensures AtMostOneMore(old(imports), imports, run, index, selector, nic, name)
      ensures r == Finished(Verified) ==>
                && reply.Answered? && ImportAcknowledged(a, nic, name)
                && a.activated == Some(true) && Decisive(a.delete).Answered?
                && name !in remote && Imported(imports, name)
    {
      if !reply.Answered? {
        r := GiveUp(name, reply, a.verified);
        return;
      }
      r := PutRecord(name, staged[name]);
      if !r.Finished? {
        return;
      }
      r := ImportStaged(run, index, selector, nic, name, a);
    }

    /** Stage, import and read the reply, for a name just recorded. */
    method Transfer(run: Option<RunId>, index: nat, selector: Selector, nic: Nic, name: Name, a: Answers)
      returns (r: Outcome)
      requires Inv() && WellFormed(a) && name in staged && SamePair(staged[name], selector, nic)
      requires staged[name].status == Staged && name !in everStaged && MayFollow(log, PemStaged(run, index, name))
      requires run.Some? ==> ClearExcept(staged, selector, nic, name) && ShowsUpload(saved, run.value, index)
      modifies this`clock, this`staged, this`everStaged, this`remote, this`imports, this`log
      ensures Inv() && name in staged && staged == old(staged)[name := staged[name]] && SamePair(staged[name], selector, nic)
      ensures log == old(log) + [PemStaged(run, index, name)] || (r == Dead && log == old(log))
      ensures world == CALM ==> r == PlannedTransfer(a, nic, name)
      ensures r.Finished? ==> IsResult(r.status) && RecordFits(staged[name], r.status)
      ensures staged[name].knownCompletion ==> old(staged)[name].knownCompletion || ImportAcknowledged(a, nic, name)
      ensures AtMostOneMore(old(imports), imports, run, index, selector, nic, name)
      ensures r == Finished(Verified) ==>
                && Decisive(a.stage).Answered? && ImportAcknowledged(a, nic, name)
                && a.activated == Some(true) && Decisive(a.delete).Answered?
                && name !in remote && Imported(imports, name)
    {
      var alive, reply := Stage(run, index, name, a.stage);
      if !alive {
        return Dead;
      }
      r := TransferStaged(run, index, selector, nic, name, reply, a);
    }

    /** `_activate_one`, for a name never used before. */
    method ActivateOne(run: Option<RunId>, index: nat,
                       selector: Selector, nic: Nic, certificate: CertificateId, name: Name, a: Answers) returns (r: Outcome)
      requires Inv() && WellFormed(a) && name !in staged && MayFollow(log, PemStaged(run, index, name))
      requires run.Some? ==> Clear(staged, selector, nic) && ShowsUpload(saved, run.value, index)
      modifies this`clock, this`staged, this`everStaged, this`remote, this`imports, this`log
      ensures AtMostOneNote(old(log), log, PemStaged(run, index, name))
      ensures Inv() && staged - {name} == old(staged)
      ensures name in staged ==> SamePair(staged[name], selector, nic)
      ensures world == CALM ==> r == Planned(a, nic, name)
      ensures r.Finished? ==> (name in staged && IsResult(r.status) && RecordFits(staged[name], r.status))
                              || (a.trust == Untrusted(r.status) && imports == old(imports) && staged == old(staged))
      ensures r.Finished? && name in staged ==>
                && (staged[name].status == Deleted <==> r.status == Verified)
                && (staged[name].status == FailedDelete <==> r.status == DeleteFailed)
                && staged[name].status != Staged
      ensures name in staged && staged[name].knownCompletion ==> ImportAcknowledged(a, nic, name)
      ensures AtMostOneMore(old(imports), imports, run, index, selector, nic, name)
      ensures !Permitted(a) ==> staged == old(staged) && remote == old(remote) && imports == old(imports) && log == old(log)
                                && everStaged == old(everStaged)
      ensures r == Finished(Verified) ==> FullyVerified(a, nic, name)
                                          && name in staged && staged[name].status == Deleted && name !in remote
                                          && Imported(imports, name) && PemStaged(run, index, name) in log
    {
      if !a.targetKnown || a.trust.TrustRaises? {
        return Raised;
      }
      if a.trust.Untrusted? {
        return Finished(a.trust.status);
      }
      if !a.hasCertificate {
        return Raised;
      }
      r := PutRecord(name, Record(selector, nic, certificate, Staged, false));
      if !r.Finished? {
        return;
      }
      r := Transfer(run, index, selector, nic, name, a);
    }

    /** `cleanup_one`. */
    method CleanupOne(name: Name, call: CleanupCall) returns (r: CleanupReply)
      requires Inv() && call.delete != []
      modifies this`clock, this`staged, this`remote
      ensures Inv() && staged == AfterCleanup(old(staged), name, r)
      ensures world == CALM ==> r == PlannedCleanup(old(staged), name, call)
      ensures remote == old(remote)
              || (remote == old(remote) - {name} && name in old(staged) && old(staged)[name].status != Deleted
                  && call.trust.Trusted? && call.confirmed && (old(staged)[name].knownCompletion || call.graceOver)
                  && Decisive(call.delete).Answered?)
      ensures !call.trust.Trusted? || !call.confirmed ==> remote == old(remote) && staged == old(staged)
      ensures name in old(staged) && old(staged)[name].status != Deleted ==>
                var ready := call.confirmed && (old(staged)[name].knownCompletion || call.graceOver);
                && (r == StillPending <==> !ready)
                && (ready && call.trust.Untrusted? ==> r == Blocked(call.trust.status))
      ensures r == Cleaned ==> name in staged && staged[name].status == Deleted && name !in remote
    {
      if name !in staged {
        return CleanupRaised;
      }
      var record := staged[name];
      if record.status == Deleted {
        return Cleaned;
      }
      if !MayDelete(record, call) {
        return StillPending;
      }
      if !call.trust.Trusted? {
        return if call.trust.Untrusted? then Blocked(call.trust.status) else CleanupRaised;
      }
      var alive, reply := Remove(name, call.delete);
      if !alive {
        return CleanupDead;
      }
      var written;
      match reply {
        case KeyChanged =>
          return Blocked(HostKeyChanged);
        case Unexpected(_) =>
          return CleanupRaised;
        case Answered(_) =>
          written := SetStaged(name, Deleted, false, Skipped);
          r := Cleaned;
        case _ =>
          written := SetStaged(name, FailedDelete, false, Skipped);
          r := CouldNotDelete;
      }
      if !written.Finished? {
        r := if written == Dead then CleanupDead else CleanupRaised;
      }
    }
  }

  /** The target is known, its keys are approved, and there is a certificate to deliver. */
  predicate Permitted(a: Answers) {
    a.targetKnown && a.trust.Trusted? && a.hasCertificate
  }

  /** Everything a verified result vouches for. */
  predicate FullyVerified(a: Answers, nic: Nic, name: Name)
    requires WellFormed(a)
  {
    && a.targetKnown && a.trust.Trusted? && a.hasCertificate
    && Decisive(a.stage).Answered? && ImportAcknowledged(a, nic, name)
    && a.activated == Some(true) && Decisive(a.delete).Answered?
  }

  /** With no fault inside the process, verified is reported exactly then. */
  lemma VerifiedIff(a: Answers, nic: Nic, name: Name)
    requires WellFormed(a)
    ensures Planned(a, nic, name) == Finished(Verified) <==> FullyVerified(a, nic, name)
  {
    AfterFailureNotVerified(Decisive(a.stage), a.verified);
    AfterFailureNotVerified(Decisive(a.ingest), a.verified);
  }

  predicate Refused(reply: Reply) {
    reply.AuthRefused? || reply.Denied?
  }

  /** The host key changed, or the connection broke and HTTPS could still be checked. */
  predicate Interrupted(reply: Reply, verified: Option<bool>) {
    reply.KeyChanged? || (reply.Broken? && verified.Some?)
  }

  /** When each of the other results is reported, with no fault inside the process. */
  lemma ResultsIff(a: Answers, nic: Nic, name: Name, held: Status)
    requires WellFormed(a) && (held == HostKeyChanged || held == ApprovalRequired)
    ensures var r, stage, ingest := Planned(a, nic, name), Decisive(a.stage), Decisive(a.ingest);
            && (r == Finished(held) <==> a.targetKnown && a.trust == Untrusted(held))
            && (r == Finished(AuthenticationFailed) <==>
                  Permitted(a) && (Refused(stage) || (stage.Answered? && Refused(ingest))))
            && (r == Finished(CleanupPending) <==>
                  && Permitted(a)
                  && (|| Interrupted(stage, a.verified)
                      || (stage.Answered? && Interrupted(ingest, a.verified))
                      || (stage.Answered? && ingest.Answered? && !ImportAcknowledged(a, nic, name) && a.verified.Some?)
                      || (stage.Answered? && ImportAcknowledged(a, nic, name) && a.activated == Some(false))))
            && (r == Finished(DeleteFailed) <==>
                  && Permitted(a) && stage.Answered? && ImportAcknowledged(a, nic, name) && a.activated == Some(true)
                  && (Refused(Decisive(a.delete)) || Decisive(a.delete).Broken?))
  {
  }

  /** The transfer raises, or an error comes where HTTPS could not be checked either. */
  predicate Fails(reply: Reply, verified: Option<bool>) {
    reply.Unexpected? || (reply.Broken? && verified.None?)
  }

  /** And when nothing is reported at all. */
  lemma RaisedIff(a: Answers, nic: Nic, name: Name)
    requires WellFormed(a)
    ensures var stage, ingest, delete := Decisive(a.stage), Decisive(a.ingest), Decisive(a.delete);
            Planned(a, nic, name) == Raised <==>
            || !a.targetKnown || a.trust.TrustRaises? || (a.trust.Trusted? && !a.hasCertificate)
            || (Permitted(a)
                && (|| Fails(stage, a.verified)
                    || (stage.Answered?
                        && (|| Fails(ingest, a.verified)
                            || (ingest.Answered? && !ImportAcknowledged(a, nic, name) && a.verified.None?)
                            || (ImportAcknowledged(a, nic, name)
                                && (a.activated.None? || (a.activated.value && (delete.KeyChanged? || delete.Unexpected?))))))))
  {
  }

  lemma AfterFailureNotVerified(reply: Reply, verified: Option<bool>)
    ensures !reply.Answered? ==> AfterFailure(reply, verified) != Finished(Verified)
  {
  }

  /** The durable progress shows an upload of this device in a running batch. */
  predicate ShowsUpload(runs: map<RunId, Run>, id: RunId, index: nat) {
    id in runs && index < |runs[id].devices| && runs[id].devices[index].status == Uploading && runs[id].status == Running
  }
}
