/** Issuing, deleting and backing up certificates at once: files change under a
    lock that backups also take, while database rows change without it. */
module Backup {
  import opened Common

  type CertificateId = string
  type FileName = string

  /** A change of the files of one certificate. A removal belongs to a deletion
      that was asked for or undoes an issuance that failed. */
  datatype FileEvent = Made(id: CertificateId, files: set<FileName>) | Dropped(id: CertificateId, asked: bool)

  /** What was begun so far: issuances, second issuances of one identifier, issuances
      that raised after their row was committed, and deletions. */
  datatype Past = Past(
    issued: set<CertificateId>,
    again: set<CertificateId>,
    raised: set<CertificateId>,
    begun: set<CertificateId>)

  /** A finished backup. `log` is what had happened to files when its lock was taken,
      and `past` what had been begun when its rows were copied. */
  datatype Copy = Copy(
    rows: set<CertificateId>,
    dirs: map<CertificateId, set<FileName>>,
    log: seq<FileEvent>,
    past: Past)

  /** A request, at the point it has reached. */
  datatype Actor =
    | Issuing(id: CertificateId, files: set<FileName>)
    | Created(id: CertificateId)
    | Undoing(id: CertificateId)
    | Deleting(id: CertificateId)
    | Removing(id: CertificateId, asked: bool)
    | DroppingRow(id: CertificateId)
    | Waiting
    | Locked(log: seq<FileEvent>)
    | Copying(copy: Copy, todo: set<CertificateId>)
    | Over

  /** How a step that writes turns out. Only the completion of a job can raise
      after its transaction has committed. */
  datatype Luck = Good | Raises | RaisesAfterCommit

  datatype Move =
    | BeginIssue(id: CertificateId, files: set<FileName>)
    | BeginDelete(id: CertificateId)
    | BeginBackup
    | Go(actor: nat, luck: Luck, file: FileName, dir: CertificateId)
    | Crash

  datatype State = State(
    dirs: map<CertificateId, set<FileName>>,
    rows: set<CertificateId>,
    log: seq<FileEvent>,
    lock: Option<nat>,
    actors: seq<Actor>,
    backups: seq<Copy>,
    past: Past)

  const START := State(map[], {}, [], None, [], [], Past({}, {}, {}, {}))

  /** The last thing that happened to the files of a certificate. */
  function Last(log: seq<FileEvent>, id: CertificateId): Option<FileEvent> {
    if log == [] then None
    else if log[|log| - 1].id == id then Some(log[|log| - 1])
    else Last(log[..|log| - 1], id)
  }

  /** The files a certificate was last made with. */
  function LastMade(log: seq<FileEvent>, id: CertificateId): Option<set<FileName>> {
    if log == [] then None
    else
      var event := log[|log| - 1];
      if event.Made? && event.id == id then Some(event.files) else LastMade(log[..|log| - 1], id)
  }

  // ---- The steps ----

  function At(s: State, a: nat, actor: Actor): State
    requires a < |s.actors|
  {
    s.(actors := s.actors[a := actor])
  }

  function Unlock(s: State): State {
    s.(lock := None)
  }

  /** `create_certificate_set`: the directory appears complete, or not at all. */
  function Create(s: State, a: nat, id: CertificateId, files: set<FileName>, luck: Luck): State
    requires a < |s.actors|
  {
    if s.lock.Some? then s
    else if id in s.dirs || luck != Good then At(s, a, Over)
    else At(s.(dirs := s.dirs[id := files], log := s.log + [Made(id, files)]), a, Created(id))
  }

  /** The row is inserted without the lock; an error undoes the files. */
  function Insert(s: State, a: nat, id: CertificateId, luck: Luck): State
    requires a < |s.actors|
  {
    if id in s.rows || luck == Raises then At(s, a, Undoing(id))
    else if luck == RaisesAfterCommit then At(s.(rows := s.rows + {id}, past := s.past.(raised := s.past.raised + {id})), a, Undoing(id))
    else At(s.(rows := s.rows + {id}), a, Over)
  }

  function AfterRemoval(id: CertificateId, asked: bool): Actor {
    if asked then DroppingRow(id) else Over
  }

  /** `delete_certificate_set`: take the lock, unless there is nothing to remove. */
  function StartRemoval(s: State, a: nat, id: CertificateId, asked: bool): State
    requires a < |s.actors|
  {
    if s.lock.Some? then s
    else if id !in s.dirs then At(s, a, AfterRemoval(id, asked))
    else At(s.(lock := Some(a)), a, Removing(id, asked))
  }

  /** One file, or at last the directory; an error leaves the rest. */
  function RemoveOne(s: State, a: nat, id: CertificateId, asked: bool, luck: Luck, file: FileName): State
    requires a < |s.actors|
  {
    if luck != Good || id !in s.dirs then At(Unlock(s), a, Over)
    else if s.dirs[id] == {} then
      At(Unlock(s).(dirs := s.dirs - {id}, log := s.log + [Dropped(id, asked)]), a, AfterRemoval(id, asked))
    else if file in s.dirs[id] then s.(dirs := s.dirs[id := s.dirs[id] - {file}], log := s.log + [Dropped(id, asked)])
    else s
  }

  /** One directory of the copy, or its end. */
  function CopyOne(s: State, a: nat, copy: Copy, todo: set<CertificateId>, dir: CertificateId): State
    requires a < |s.actors|
  {
    if todo == {} then At(Unlock(s).(backups := s.backups + [copy]), a, Over)
    else if dir in todo && dir in s.dirs then At(s, a, Copying(copy.(dirs := copy.dirs[dir := s.dirs[dir]]), todo - {dir}))
    else s
  }

  function Act(s: State, a: nat, luck: Luck, file: FileName, dir: CertificateId): State
    requires a < |s.actors|
  {
    match s.actors[a]
    case Issuing(id, files) => Create(s, a, id, files, luck)
    case Created(id) => Insert(s, a, id, luck)
    case Undoing(id) => StartRemoval(s, a, id, false)
    case Deleting(id) => StartRemoval(s, a, id, true)
    case Removing(id, asked) => RemoveOne(s, a, id, asked, luck, file)
    case DroppingRow(id) => At(if luck == Good then s.(rows := s.rows - {id}) else s, a, Over)
    case Waiting => if s.lock.Some? then s else At(s.(lock := Some(a)), a, Locked(s.log))
    case Locked(log) =>
      if luck != Good then At(Unlock(s), a, Over) else At(s, a, Copying(Copy(s.rows, map[], log, s.past), s.dirs.Keys))
    case Copying(copy, todo) =>
      if luck != Good then At(Unlock(s), a, Over) else CopyOne(s, a, copy, todo, dir)
    case Over => s
  }

  function PastIssue(past: Past, id: CertificateId): Past {
    past.(issued := past.issued + {id}, again := if id in past.issued then past.again + {id} else past.again)
  }

  /** One move of any request, a new request, or the death of the process. */
  function Next(s: State, move: Move): State {
    match move
    case BeginIssue(id, files) => s.(actors := s.actors + [Issuing(id, files)], past := PastIssue(s.past, id))
    case BeginDelete(id) =>
      if id in s.rows then s.(actors := s.actors + [Deleting(id)], past := s.past.(begun := s.past.begun + {id})) else s
    case BeginBackup => s.(actors := s.actors + [Waiting])
    case Go(a, luck, file, dir) => if a < |s.actors| then Act(s, a, luck, file, dir) else s
    case Crash => s.(actors := [], lock := None)
  }

  function Run(moves: seq<Move>): State {
    if moves == [] then START else Next(Run(moves[..|moves| - 1]), moves[|moves| - 1])
  }

  // ---- What every state keeps ----

  predicate HoldsLock(actor: Actor) {
    actor.Removing? || actor.Locked? || actor.Copying?
  }

  predicate LockHeld(lock: Option<nat>, actors: seq<Actor>) {
    && (lock.Some? ==> lock.value < |actors|)
    && forall a | 0 <= a < |actors| && HoldsLock(actors[a]) :: lock == Some(a)
  }

  /** All the files the certificate was last made with are there. */
  predicate Complete(dirs: map<CertificateId, set<FileName>>, log: seq<FileEvent>, id: CertificateId) {
    id in dirs && LastMade(log, id) == Some(dirs[id])
  }

  /** The files are all there exactly when nothing has touched them since they were made. */
  predicate Followed(dirs: map<CertificateId, set<FileName>>, log: seq<FileEvent>, id: CertificateId) {
    && (Last(log, id) == None ==> id !in dirs)
    && (Complete(dirs, log, id) <==> Last(log, id).Some? && Last(log, id).value.Made?)
    && (id in dirs ==> LastMade(log, id).Some? && dirs[id] <= LastMade(log, id).value)
  }

  ghost predicate FilesFollowLog(dirs: map<CertificateId, set<FileName>>, log: seq<FileEvent>) {
    forall id :: Followed(dirs, log, id)
  }

  /** The files of the certificate were made at some time. If a deletion that was asked
      for touched them last, it had begun; if the undoing of an issuance did, that
      issuance raised after its commit, unless the identifier was issued twice. */
  predicate Kept(log: seq<FileEvent>, past: Past, id: CertificateId) {
    && Last(log, id).Some?
    && (Last(log, id).value.Dropped? ==>
          if Last(log, id).value.asked then id in past.begun else id in past.raised + past.again)
  }

  predicate RowsKept(rows: set<CertificateId>, log: seq<FileEvent>, past: Past) {
    forall id | id in rows :: Kept(log, past, id)
  }

  ghost predicate Closed(copy: Copy) {
    RowsKept(copy.rows, copy.log, copy.past) && forall id | id in copy.rows :: Followed(copy.dirs, copy.log, id)
  }

  /** The identifier an unfinished issuance works on. */
  function Pending(actor: Actor): Option<CertificateId> {
    match actor
    case Issuing(id, _) => Some(id)
    case Created(id) => Some(id)
    case Undoing(id) => Some(id)
    case Removing(id, false) => Some(id)
    case _ => None
  }

  /** An unfinished issuance has no row yet, unless it raised after its commit. */
  predicate Unstored(actor: Actor, rows: set<CertificateId>, past: Past) {
    var id := Pending(actor);
    id.Some? ==>
      && id.value in past.issued
      && (id.value in rows ==> id.value in past.again || (id.value in past.raised && (actor.Undoing? || actor.Removing?)))
  }

  /** An identifier issued once has one unfinished issuance at most. */
  predicate OneIssuance(past: Past, actors: seq<Actor>) {
    forall a, b | 0 <= a < b < |actors| && Pending(actors[a]).Some? && Pending(actors[a]) == Pending(actors[b]) ::
      Pending(actors[a]).value in past.again
  }

  /** The identifier whose deletion is under way. */
  function Asked(actor: Actor): Option<CertificateId> {
    match actor
    case Deleting(id) => Some(id)
    case Removing(id, true) => Some(id)
    case _ => None
  }

  ghost predicate ActorInv(s: State, actor: Actor) {
    && Unstored(actor, s.rows, s.past)
    && (Asked(actor).Some? ==> Asked(actor).value in s.past.begun)
    && match actor
       case Created(id) => Kept(s.log, s.past, id)
       case Locked(log) => log == s.log
       case Copying(copy, todo) =>
         && copy.log == s.log && RowsKept(copy.rows, s.log, copy.past)
         && todo + copy.dirs.Keys == s.dirs.Keys
         && forall id | id in copy.dirs :: id in s.dirs && copy.dirs[id] == s.dirs[id]
       case _ => true
  }

  ghost predicate Inv(s: State) {
    && LockHeld(s.lock, s.actors)
    && FilesFollowLog(s.dirs, s.log)
    && RowsKept(s.rows, s.log, s.past)
    && s.rows <= s.past.issued
    && OneIssuance(s.past, s.actors)
    && (forall actor | actor in s.actors :: ActorInv(s, actor))
    && (forall copy | copy in s.backups :: Closed(copy))
  }

  lemma LastOneMore(log: seq<FileEvent>, event: FileEvent, id: CertificateId)
    ensures Last(log + [event], id) == if event.id == id then Some(event) else Last(log, id)
    ensures LastMade(log + [event], id)
         == if event.Made? && event.id == id then Some(event.files) else LastMade(log, id)
  {
    assert (log + [event])[..|log|] == log;
  }

  /** An actor that moves to a point without claims of its own changes nothing for the others. */
  lemma MoveKeeps(s: State, a: nat, actor: Actor)
    requires Inv(s) && a < |s.actors| && ActorInv(s, actor)
    requires HoldsLock(actor) ==> s.lock == Some(a)
    requires Pending(actor).Some? ==> Pending(actor) == Pending(s.actors[a])
    ensures Inv(At(s, a, actor))
  {
    var t := At(s, a, actor);
    forall other | other in t.actors ensures ActorInv(t, other) {
      assert other == actor || other in s.actors;
    }
  }

  lemma UnlockKeeps(s: State, a: nat, actor: Actor)
    requires Inv(s) && a < |s.actors| && s.lock == Some(a) && ActorInv(s, actor) && !HoldsLock(actor)
    requires Pending(actor).Some? ==> Pending(actor) == Pending(s.actors[a])
    ensures Inv(At(Unlock(s), a, actor))
  {
    var t := At(Unlock(s), a, actor);
    forall other | other in t.actors ensures ActorInv(t, other) {
      assert other == actor || other in s.actors;
    }
  }

  lemma LockKeeps(s: State, a: nat, actor: Actor)
    requires Inv(s) && a < |s.actors| && s.lock == None && ActorInv(s, actor)
    requires Pending(actor).Some? ==> Pending(actor) == Pending(s.actors[a])
    ensures Inv(At(s.(lock := Some(a)), a, actor))
  {
    var t := At(s.(lock := Some(a)), a, actor);
    forall other | other in t.actors ensures ActorInv(t, other) {
      assert other == actor || other in s.actors;
    }
  }

  /** A change of files by the only request that may hold the lock. */
  lemma LogKeeps(s: State, a: nat, event: FileEvent, dirs: map<CertificateId, set<FileName>>)
    requires Inv(s) && a < |s.actors|
    requires s.lock == None || s.lock == Some(a)
    requires forall id | id != event.id :: (id in s.dirs <==> id in dirs) && (id in s.dirs ==> dirs[id] == s.dirs[id])
    requires event.Made? ==> event.id in dirs && dirs[event.id] == event.files
    requires event.Dropped? ==> event.id in s.dirs && (event.id in dirs ==> dirs[event.id] < s.dirs[event.id])
    requires event.Dropped? ==> s.actors[a] == Removing(event.id, event.asked)
    requires !s.actors[a].Locked? && !s.actors[a].Copying?
    ensures Inv(s.(dirs := dirs, log := s.log + [event]))
  {
    var t := s.(dirs := dirs, log := s.log + [event]);
    LogFollowed(s.dirs, s.log, event, dirs);
    assert s.actors[a] in s.actors;
    forall id | Kept(s.log, s.past, id) && (event.Dropped? && !event.asked && event.id == id ==> id in s.past.raised + s.past.again)
      ensures Kept(t.log, t.past, id)
    {
      LastOneMore(s.log, event, id);
    }
    forall actor | actor in t.actors ensures ActorInv(t, actor) {
      var b :| 0 <= b < |s.actors| && s.actors[b] == actor;
      assert ActorInv(s, actor);
      assert actor.Created? && event.Dropped? && !event.asked && event.id == actor.id ==>
        Pending(s.actors[a]) == Pending(s.actors[b]) && a != b;
    }
  }

  lemma LogFollowed(dirs: map<CertificateId, set<FileName>>, log: seq<FileEvent>, event: FileEvent,
                    after: map<CertificateId, set<FileName>>)
    requires FilesFollowLog(dirs, log)
    requires forall id | id != event.id :: (id in dirs <==> id in after) && (id in dirs ==> after[id] == dirs[id])
    requires event.Made? ==> event.id in after && after[event.id] == event.files
    requires event.Dropped? ==> event.id in dirs && (event.id in after ==> after[event.id] < dirs[event.id])
    ensures FilesFollowLog(after, log + [event])
  {
    forall id ensures Followed(after, log + [event], id) {
      LastOneMore(log, event, id);
      assert Followed(dirs, log, id);
    }
  }

  lemma CreateKeeps(s: State, a: nat, id: CertificateId, files: set<FileName>, luck: Luck)
    requires Inv(s) && a < |s.actors| && s.actors[a] == Issuing(id, files)
    ensures Inv(Create(s, a, id, files, luck))
  {
    assert s.actors[a] in s.actors;
    if s.lock == None {
      if id in s.dirs || luck != Good {
        MoveKeeps(s, a, Over);
      } else {
        var dirs, event := s.dirs[id := files], Made(id, files);
        LogKeeps(s, a, event, dirs);
        LastOneMore(s.log, event, id);
        MoveKeeps(s.(dirs := dirs, log := s.log + [event]), a, Created(id));
      }
    }
  }

  lemma InsertKeeps(s: State, a: nat, id: CertificateId, luck: Luck)
    requires Inv(s) && a < |s.actors| && s.actors[a] == Created(id)
    ensures Inv(Insert(s, a, id, luck))
  {
    assert s.actors[a] in s.actors;
    if id in s.rows || luck == Raises {
      MoveKeeps(s, a, Undoing(id));
    } else {
      var t := Insert(s, a, id, luck);
      forall other | other in t.actors ensures ActorInv(t, other) {
        InsertKeepsActor(s, a, id, luck, other);
      }
    }
  }

  lemma InsertKeepsActor(s: State, a: nat, id: CertificateId, luck: Luck, other: Actor)
    requires Inv(s) && a < |s.actors| && s.actors[a] == Created(id) && id !in s.rows && luck != Raises
    requires other in Insert(s, a, id, luck).actors
    ensures ActorInv(Insert(s, a, id, luck), other)
  {
    var t := Insert(s, a, id, luck);
    var b :| 0 <= b < |t.actors| && t.actors[b] == other;
    assert s.actors[a] in s.actors && s.actors[b] in s.actors;
    assert b != a && Pending(other) == Some(id) ==> id in s.past.again by {
      if b != a && Pending(other) == Some(id) {
        assert Pending(s.actors[if a < b then a else b]) == Pending(s.actors[if a < b then b else a]);
      }
    }
  }

  lemma RemoveKeeps(s: State, a: nat, id: CertificateId, asked: bool, luck: Luck, file: FileName)
    requires Inv(s) && a < |s.actors| && s.actors[a] == Removing(id, asked)
    ensures Inv(RemoveOne(s, a, id, asked, luck, file))
  {
    if luck != Good || id !in s.dirs {
      UnlockKeeps(s, a, Over);
    } else if s.dirs[id] == {} || file in s.dirs[id] {
      var dirs := if s.dirs[id] == {} then s.dirs - {id} else s.dirs[id := s.dirs[id] - {file}];
      LogKeeps(s, a, Dropped(id, asked), dirs);
      if s.dirs[id] == {} {
        UnlockKeeps(s.(dirs := dirs, log := s.log + [Dropped(id, asked)]), a, AfterRemoval(id, asked));
      }
    }
  }

  lemma StartRemovalKeeps(s: State, a: nat, id: CertificateId, asked: bool)
    requires Inv(s) && a < |s.actors| && s.actors[a] == if asked then Deleting(id) else Undoing(id)
    ensures Inv(StartRemoval(s, a, id, asked))
  {
    assert s.actors[a] in s.actors;
    if s.lock == None {
      if id !in s.dirs {
        MoveKeeps(s, a, AfterRemoval(id, asked));
      } else {
        LockKeeps(s, a, Removing(id, asked));
      }
    }
  }

  lemma CopyKeeps(s: State, a: nat, copy: Copy, todo: set<CertificateId>, dir: CertificateId)
    requires Inv(s) && a < |s.actors| && s.actors[a] == Copying(copy, todo)
    ensures Inv(CopyOne(s, a, copy, todo, dir))
  {
    assert s.actors[a] in s.actors;
    if todo == {} {
      forall id | id in copy.rows ensures Followed(copy.dirs, copy.log, id) {
        assert Followed(s.dirs, s.log, id);
        assert id in s.dirs ==> id in todo + copy.dirs.Keys;
      }
      UnlockKeeps(s, a, Over);
    } else if dir in todo && dir in s.dirs {
      MoveKeeps(s, a, Copying(copy.(dirs := copy.dirs[dir := s.dirs[dir]]), todo - {dir}));
    }
  }

  lemma DropRowKeeps(s: State, a: nat, id: CertificateId)
    requires Inv(s) && a < |s.actors| && s.actors[a] == DroppingRow(id)
    ensures Inv(s.(rows := s.rows - {id}))
  {
    var t := s.(rows := s.rows - {id});
    forall actor | actor in t.actors ensures ActorInv(t, actor) {
      assert ActorInv(s, actor);
    }
  }

  lemma ActKeeps(s: State, a: nat, luck: Luck, file: FileName, dir: CertificateId)
    requires Inv(s) && a < |s.actors|
    ensures Inv(Act(s, a, luck, file, dir))
  {
    match s.actors[a] {
      case Issuing(id, files) =>
        CreateKeeps(s, a, id, files, luck);
      case Created(id) =>
        InsertKeeps(s, a, id, luck);
      case Undoing(id) =>
        StartRemovalKeeps(s, a, id, false);
      case Deleting(id) =>
        StartRemovalKeeps(s, a, id, true);
      case Removing(id, asked) =>
        RemoveKeeps(s, a, id, asked, luck, file);
      case DroppingRow(id) =>
        DropRowKeeps(s, a, id);
        MoveKeeps(if luck == Good then s.(rows := s.rows - {id}) else s, a, Over);
      case Waiting =>
        if s.lock == None {
          LockKeeps(s, a, Locked(s.log));
        }
      case Locked(log) =>
        assert s.actors[a] in s.actors;
        if luck != Good {
          UnlockKeeps(s, a, Over);
        } else {
          MoveKeeps(s, a, Copying(Copy(s.rows, map[], log, s.past), s.dirs.Keys));
        }
      case Copying(copy, todo) =>
        if luck != Good {
          UnlockKeeps(s, a, Over);
        } else {
          CopyKeeps(s, a, copy, todo, dir);
        }
      case Over =>
    }
  }

  lemma NextKeeps(s: State, move: Move)
    requires Inv(s)
    ensures Inv(Next(s, move))
  {
    var t := Next(s, move);
    match move {
      case Go(a, luck, file, dir) =>
        if a < |s.actors| {
          ActKeeps(s, a, luck, file, dir);
        }
      case BeginIssue(id, files) =>
        assert forall a | 0 <= a < |s.actors| :: s.actors[a] in s.actors;
        forall actor | actor in t.actors ensures ActorInv(t, actor) {
          assert actor == Issuing(id, files) || actor in s.actors;
        }
      case BeginDelete(id) =>
        forall actor | actor in t.actors ensures ActorInv(t, actor) {
          assert actor == Deleting(id) || actor in s.actors;
        }
      case BeginBackup =>
        forall actor | actor in t.actors ensures ActorInv(t, actor) {
          assert actor == Waiting || actor in s.actors;
        }
      case Crash =>
    }
  }

  /** However requests interleave, fail and die: every backup is closed. */
  lemma {:induction false} BackupsClosed(moves: seq<Move>)
    ensures Inv(Run(moves))
    ensures forall copy | copy in Run(moves).backups :: Closed(copy)
  {
    if moves != [] {
      BackupsClosed(moves[..|moves| - 1]);
      NextKeeps(Run(moves[..|moves| - 1]), moves[|moves| - 1]);
    }
  }

  /** What a backup says of a row it holds: all the files the certificate was made
      with, unless a removal had begun on them when the lock was taken, and only then. */
  lemma BackedUpComplete(moves: seq<Move>, copy: Copy, id: CertificateId)
    requires copy in Run(moves).backups && id in copy.rows
    ensures Last(copy.log, id).Some?
    ensures Complete(copy.dirs, copy.log, id) <==> Last(copy.log, id).value.Made?
  {
    BackupsClosed(moves);
    assert Kept(copy.log, copy.past, id) && Followed(copy.dirs, copy.log, id);
  }

  /** Who removed the files of a row that is backed up without all of them: a deletion
      begun for this certificate, or the undoing of its own issuance, which had raised
      after its commit. Where only one of the two was there, it is known which. */
  lemma WhoRemoved(moves: seq<Move>, copy: Copy, id: CertificateId)
    requires copy in Run(moves).backups && id in copy.rows && id !in copy.past.again
    requires !Complete(copy.dirs, copy.log, id)
    ensures Last(copy.log, id).Some? && Last(copy.log, id).value.Dropped?
    ensures Last(copy.log, id).value.asked ==> id in copy.past.begun
    ensures !Last(copy.log, id).value.asked ==> id in copy.past.raised
    ensures !(id in copy.past.begun && id in copy.past.raised) ==>
              (Last(copy.log, id).value.asked <==> id !in copy.past.raised)
  {
    BackupsClosed(moves);
    assert Kept(copy.log, copy.past, id) && Followed(copy.dirs, copy.log, id);
  }

  // ---- An issuance that raises after its commit ----

  const FILES: set<FileName> := {"metadata.json"}

  predicate NobodyDeletes(moves: seq<Move>) {
    forall move | move in moves :: !move.BeginDelete?
  }

  lemma Step(moves: seq<Move>, move: Move) returns (more: seq<Move>)
    ensures Run(more) == Next(Run(moves), move)
    ensures NobodyDeletes(moves) && !move.BeginDelete? ==> NobodyDeletes(more)
  {
    more := moves + [move];
    assert more[..|moves|] == moves;
  }

  /** The single issuance of `id`, its row stored and its files as given. */
  function Single(id: CertificateId, dirs: map<CertificateId, set<FileName>>, drops: seq<FileEvent>,
                  lock: Option<nat>, actor: Actor): State
  {
    State(dirs, {id}, [Made(id, FILES)] + drops, lock, [actor], [], Past({id}, {}, {id}, {}))
  }

  lemma RemovesFile(id: CertificateId)
    ensures Next(Single(id, map[id := FILES], [], Some(0), Removing(id, false)), Go(0, Good, "metadata.json", ""))
         == Single(id, map[id := {}], [Dropped(id, false)], Some(0), Removing(id, false))
  {
    assert FILES - {"metadata.json"} == {};
  }

  lemma RemovesDirectory(id: CertificateId)
    ensures Next(Single(id, map[id := {}], [Dropped(id, false)], Some(0), Removing(id, false)), Go(0, Good, "", ""))
         == Single(id, map[], [Dropped(id, false), Dropped(id, false)], None, Over)
  {
    var dirs: map<CertificateId, set<FileName>> := map[id := {}];
    assert dirs - {id} == map[];
  }

  lemma CommitsThenRaises(id: CertificateId) returns (moves: seq<Move>)
    ensures Run(moves) == Single(id, map[id := FILES], [], None, Undoing(id)) && NobodyDeletes(moves)
  {
    moves := Step([], BeginIssue(id, FILES));
    moves := Step(moves, Go(0, Good, "", ""));
    moves := Step(moves, Go(0, RaisesAfterCommit, "", ""));
  }

  lemma CommitsThenUndoes(id: CertificateId) returns (moves: seq<Move>)
    ensures Run(moves) == Single(id, map[], [Dropped(id, false), Dropped(id, false)], None, Over) && NobodyDeletes(moves)
  {
    moves := CommitsThenRaises(id);
    moves := Step(moves, Go(0, Good, "", ""));
    assert Run(moves) == Single(id, map[id := FILES], [], Some(0), Removing(id, false));
    moves := Step(moves, Go(0, Good, "metadata.json", ""));
    RemovesFile(id);
    moves := Step(moves, Go(0, Good, "", ""));
    RemovesDirectory(id);
  }

  /** A backup of a store without files. */
  lemma TakesBackup(s: State)
    requires s.dirs == map[] && s.lock == None
    ensures var go := Go(|s.actors|, Good, "", "");
            Next(Next(Next(Next(s, BeginBackup), go), go), go).rows == s.rows
            && Next(Next(Next(Next(s, BeginBackup), go), go), go).backups == s.backups + [Copy(s.rows, map[], s.log, s.past)]
  {
    var a := |s.actors|;
    var go := Go(a, Good, "", "");
    var begun := Next(s, BeginBackup);
    assert begun.actors[a] == Waiting;
    var locked := Next(begun, go);
    assert locked == At(begun.(lock := Some(a)), a, Locked(s.log)) && locked.actors[a] == Locked(s.log);
    var copying := Next(locked, go);
    assert locked.dirs.Keys == {};
    assert copying == At(locked, a, Copying(Copy(s.rows, map[], s.log, s.past), {}));
    assert copying.actors[a] == Copying(Copy(s.rows, map[], s.log, s.past), {});
  }

  /** When completing a job raises after its commit, the files of a certificate whose
      row is stored are removed. Nobody asked for a deletion, and a backup taken then
      holds the row and no files. */
  lemma CommittedWithoutFiles(id: CertificateId) returns (moves: seq<Move>)
    ensures NobodyDeletes(moves)
    ensures var log := [Made(id, FILES), Dropped(id, false), Dropped(id, false)];
            Run(moves).rows == {id} && Run(moves).backups == [Copy({id}, map[], log, Past({id}, {}, {id}, {}))]
  {
    var undone := CommitsThenUndoes(id);
    var begun := Step(undone, BeginBackup);
    var locked := Step(begun, Go(1, Good, "", ""));
    var copying := Step(locked, Go(1, Good, "", ""));
    moves := Step(copying, Go(1, Good, "", ""));
    TakesBackup(Run(undone));
    assert [Made(id, FILES)] + [Dropped(id, false), Dropped(id, false)]
        == [Made(id, FILES), Dropped(id, false), Dropped(id, false)];
  }

  // ---- A deletion that overtakes the undoing ----

  /** The issuance of `id` raised after its commit, and a deletion was asked for as well. */
  function Raced(id: CertificateId, dirs: map<CertificateId, set<FileName>>, drops: seq<FileEvent>,
                 lock: Option<nat>, actor: Actor): State
  {
    State(dirs, {id}, [Made(id, FILES)] + drops, lock, [Undoing(id), actor], [], Past({id}, {}, {id}, {id}))
  }

  lemma DeletesFile(id: CertificateId)
    ensures Next(Raced(id, map[id := FILES], [], Some(1), Removing(id, true)), Go(1, Good, "metadata.json", ""))
         == Raced(id, map[id := {}], [Dropped(id, true)], Some(1), Removing(id, true))
  {
    assert FILES - {"metadata.json"} == {};
  }

  lemma DeletesDirectory(id: CertificateId)
    ensures Next(Raced(id, map[id := {}], [Dropped(id, true)], Some(1), Removing(id, true)), Go(1, Good, "", ""))
         == Raced(id, map[], [Dropped(id, true), Dropped(id, true)], None, DroppingRow(id))
  {
    var dirs: map<CertificateId, set<FileName>> := map[id := {}];
    assert dirs - {id} == map[];
  }

  /** With both under way, the files may go by the deletion although the issuance raised,
      so neither condition alone tells who removed them. */
  lemma RaisedYetAsked(id: CertificateId) returns (moves: seq<Move>, copy: Copy)
    ensures copy in Run(moves).backups && id in copy.rows && id in copy.past.raised && id in copy.past.begun
    ensures copy.log == [Made(id, FILES), Dropped(id, true), Dropped(id, true)]
  {
    moves := CommitsThenRaises(id);
    moves := Step(moves, BeginDelete(id));
    moves := Step(moves, Go(1, Good, "", ""));
    assert Run(moves) == Raced(id, map[id := FILES], [], Some(1), Removing(id, true));
    moves := Step(moves, Go(1, Good, "metadata.json", ""));
    DeletesFile(id);
    moves := Step(moves, Go(1, Good, "", ""));
    DeletesDirectory(id);
    ghost var emptied := Run(moves);
    copy := Copy({id}, map[], emptied.log, emptied.past);
    moves := Step(moves, BeginBackup);
    moves := Step(moves, Go(2, Good, "", ""));
    moves := Step(moves, Go(2, Good, "", ""));
    moves := Step(moves, Go(2, Good, "", ""));
    TakesBackup(emptied);
  }

  // ---- Requests that nothing disturbs ----

  function RunFrom(s: State, moves: seq<Move>): State
    decreases |moves|
  {
    if moves == [] then s else RunFrom(Next(s, moves[0]), moves[1..])
  }

  lemma OneMoveFirst(s: State, move: Move, rest: seq<Move>)
    ensures RunFrom(s, [move] + rest) == RunFrom(Next(s, move), rest)
  {
    assert ([move] + rest)[1..] == rest;
  }

  /** An issuance stores all its files and its row. */
  lemma IssuanceComes(s: State, id: CertificateId, files: set<FileName>) returns (moves: seq<Move>)
    requires s.lock == None && id !in s.dirs && id !in s.rows
    ensures var t := RunFrom(s, moves);
            t.rows == s.rows + {id} && t.dirs == s.dirs[id := files] && t.lock == None && t.backups == s.backups
  {
    var a := |s.actors|;
    var begin, go := BeginIssue(id, files), Go(a, Good, "", "");
    var begun := Next(s, begin);
    assert begun.actors[a] == Issuing(id, files);
    var created := Next(begun, go);
    assert created.actors[a] == Created(id);
    OneMoveFirst(created, go, []);
    OneMoveFirst(begun, go, [go]);
    OneMoveFirst(s, begin, [go] + [go]);
    moves := [begin] + ([go] + [go]);
  }

  /** From the lock on: the files go one by one, then the directory, and the row if asked for. */
  lemma RemovalComes(s: State, a: nat, id: CertificateId, asked: bool) returns (moves: seq<Move>)
    requires a < |s.actors| && s.actors[a] == Removing(id, asked) && s.lock == Some(a) && id in s.dirs
    ensures var t := RunFrom(s, moves);
            && t.rows == (if asked then s.rows - {id} else s.rows)
            && t.dirs == s.dirs - {id} && t.lock == None && t.backups == s.backups
    decreases |s.dirs[id]|
  {
    if s.dirs[id] == {} {
      var go := Go(a, Good, "", "");
      var removed := Next(s, go);
      assert removed.actors[a] == AfterRemoval(id, asked);
      OneMoveFirst(removed, go, []);
      OneMoveFirst(s, go, [go]);
      moves := [go] + [go];
    } else {
      var file :| file in s.dirs[id];
      var go := Go(a, Good, file, "");
      var next := Next(s, go);
      assert next.dirs[id] == s.dirs[id] - {file};
      var rest := RemovalComes(next, a, id, asked);
      OneMoveFirst(s, go, rest);
      assert next.dirs - {id} == s.dirs - {id};
      moves := [go] + rest;
    }
  }

  /** A deletion removes the files and the row. */
  lemma DeletionComes(s: State, id: CertificateId) returns (moves: seq<Move>)
    requires s.lock == None && id in s.rows
    ensures var t := RunFrom(s, moves);
            t.rows == s.rows - {id} && t.dirs == s.dirs - {id} && t.lock == None && t.backups == s.backups
  {
    var a := |s.actors|;
    var begin, go := BeginDelete(id), Go(a, Good, "", "");
    var begun := Next(s, begin);
    assert begun.actors[a] == Deleting(id);
    var locked := Next(begun, go);
    var rest: seq<Move>;
    if id in s.dirs {
      assert locked.actors[a] == Removing(id, true);
      rest := RemovalComes(locked, a, id, true);
    } else {
      assert locked.actors[a] == DroppingRow(id) && s.dirs - {id} == s.dirs;
      OneMoveFirst(locked, go, []);
      rest := [go];
    }
    OneMoveFirst(begun, go, rest);
    OneMoveFirst(s, begin, [go] + rest);
    moves := [begin] + ([go] + rest);
  }

  /** What is copied so far is as it stands, and `todo` is the rest. */
  predicate CopiedSoFar(s: State, copy: Copy, todo: set<CertificateId>) {
    && todo !! copy.dirs.Keys && todo + copy.dirs.Keys == s.dirs.Keys
    && forall id | id in copy.dirs :: id in s.dirs && copy.dirs[id] == s.dirs[id]
  }

  lemma CopyOneMore(s: State, copy: Copy, todo: set<CertificateId>, dir: CertificateId) returns (more: Copy)
    requires CopiedSoFar(s, copy, todo) && dir in todo
    ensures dir in s.dirs && more == copy.(dirs := copy.dirs[dir := s.dirs[dir]]) && CopiedSoFar(s, more, todo - {dir})
  {
    assert dir in todo + copy.dirs.Keys;
    more := copy.(dirs := copy.dirs[dir := s.dirs[dir]]);
    assert more.dirs.Keys == copy.dirs.Keys + {dir};
    assert (todo - {dir}) + more.dirs.Keys == todo + copy.dirs.Keys;
  }

  lemma CopiedAll(s: State, copy: Copy)
    requires CopiedSoFar(s, copy, {})
    ensures copy.dirs == s.dirs
  {
    assert copy.dirs.Keys == {} + copy.dirs.Keys;
  }

  lemma CopyingComes(s: State, a: nat, copy: Copy, todo: set<CertificateId>) returns (moves: seq<Move>)
    requires a < |s.actors| && s.actors[a] == Copying(copy, todo) && CopiedSoFar(s, copy, todo)
    ensures var t := RunFrom(s, moves);
            && t.backups == s.backups + [copy.(dirs := s.dirs)]
            && t.rows == s.rows && t.dirs == s.dirs && t.lock == None
    decreases |todo|
  {
    if todo == {} {
      CopiedAll(s, copy);
      moves := [Go(a, Good, "", "")];
      OneMoveFirst(s, moves[0], []);
    } else {
      var dir :| dir in todo;
      var go := Go(a, Good, "", dir);
      var more := CopyOneMore(s, copy, todo, dir);
      var next := At(s, a, Copying(more, todo - {dir}));
      assert next == Next(s, go);
      var rest := CopyingComes(next, a, more, todo - {dir});
      OneMoveFirst(s, go, rest);
      moves := [go] + rest;
    }
  }

  /** A backup copies every row and every directory as they are. */
  lemma BackupComes(s: State) returns (moves: seq<Move>)
    requires s.lock == None
    ensures var t := RunFrom(s, moves);
            && t.backups == s.backups + [Copy(s.rows, s.dirs, s.log, s.past)]
            && t.rows == s.rows && t.dirs == s.dirs && t.lock == None
  {
    var a := |s.actors|;
    var go := Go(a, Good, "", "");
    var begun := Next(s, BeginBackup);
    assert begun.actors[a] == Waiting;
    var locked := Next(begun, go);
    assert locked.actors[a] == Locked(s.log);
    var copying := Next(locked, go);
    assert copying.actors[a] == Copying(Copy(s.rows, map[], s.log, s.past), s.dirs.Keys);
    var rest := CopyingComes(copying, a, Copy(s.rows, map[], s.log, s.past), s.dirs.Keys);
    OneMoveFirst(locked, go, rest);
    OneMoveFirst(begun, go, [go] + rest);
    OneMoveFirst(s, BeginBackup, [go] + ([go] + rest));
    moves := [BeginBackup] + ([go] + ([go] + rest));
  }

  /** An issuance whose row cannot be inserted leaves neither files nor row. */
  lemma FailedIssuanceComes(s: State, id: CertificateId, files: set<FileName>) returns (moves: seq<Move>)
    requires s.lock == None && id !in s.dirs && id !in s.rows
    ensures var t := RunFrom(s, moves);
            t.rows == s.rows && t.dirs == s.dirs && t.lock == None && t.backups == s.backups
  {
    var a := |s.actors|;
    var begin, go, raise := BeginIssue(id, files), Go(a, Good, "", ""), Go(a, Raises, "", "");
    var begun := Next(s, begin);
    var created := Next(begun, go);
    assert created.actors[a] == Created(id);
    var undoing := Next(created, raise);
    assert undoing.actors[a] == Undoing(id);
    var locked := Next(undoing, go);
    assert locked.actors[a] == Removing(id, false);
    var rest := RemovalComes(locked, a, id, false);
    assert s.dirs[id := files] - {id} == s.dirs;
    OneMoveFirst(undoing, go, rest);
    OneMoveFirst(created, raise, [go] + rest);
    OneMoveFirst(begun, go, [raise] + ([go] + rest));
    OneMoveFirst(s, begin, [go] + ([raise] + ([go] + rest)));
    moves := [begin] + ([go] + ([raise] + ([go] + rest)));
  }
}
