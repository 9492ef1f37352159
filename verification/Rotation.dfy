/** Master-key rotation of the vault over a table of encrypted secrets, with the
    process free to stop at any durable write. */
module Rotation {
  import opened Common

  type KeyId = nat
  type Key = nat
  type SecretId = string
  type Purpose = string
  type Plaintext = string

  /** Authenticated encryption: opens only under the sealing key and purpose. */
  datatype Ciphertext = Sealed(key: Key, associated: Purpose, plaintext: Plaintext)

  datatype Blob = Blob(keyId: KeyId, ciphertext: Ciphertext, purpose: Purpose)

  datatype KeyFile = KeyFile(keyId: KeyId, key: Key)

  datatype Opened = Opened(plaintext: Plaintext) | UnknownKey | InvalidTag

  datatype Secret = Secret(purpose: Purpose, plaintext: Plaintext)

  /** What a rotation run came to. `converted` counts the rows it rewrote. */
  datatype Outcome = Completed(converted: nat) | Stopped(converted: nat)

  function Open(blob: Blob, key: Key, purpose: Purpose): Opened {
    if blob.ciphertext.key == key && blob.ciphertext.associated == purpose then Opened(blob.ciphertext.plaintext)
    else InvalidTag
  }

  /** `decrypt`, as a function of the keys a vault holds. */
  function Decrypted(master: KeyFile, pending: Option<KeyFile>, blob: Blob, purpose: Purpose): Opened {
    if blob.keyId == master.keyId then Open(blob, master.key, purpose)
    else if pending.Some? && blob.keyId == pending.value.keyId then Open(blob, pending.value.key, purpose)
    else UnknownKey
  }

  /** A blob opens to what was sealed exactly under the key of its identifier, for its own
      purpose; the master key is tried before the pending one. */
  lemma DecryptedIff(master: KeyFile, pending: Option<KeyFile>, blob: Blob, purpose: Purpose, plaintext: Plaintext)
    ensures var r := Decrypted(master, pending, blob, purpose);
            && (r == UnknownKey <==>
                  blob.keyId != master.keyId && (pending == None || blob.keyId != pending.value.keyId))
            && (r == Opened(plaintext) <==>
                  && blob.ciphertext.associated == purpose && blob.ciphertext.plaintext == plaintext
                  && ((blob.keyId == master.keyId && blob.ciphertext.key == master.key)
                      || (blob.keyId != master.keyId && pending == Some(KeyFile(blob.keyId, blob.ciphertext.key)))))
  {
  }

  ghost function ContentsOf(rows: map<SecretId, Blob>): map<SecretId, Secret> {
    map id | id in rows :: Secret(rows[id].purpose, rows[id].ciphertext.plaintext)
  }

  ghost predicate Knows(known: map<KeyId, Key>, file: KeyFile) {
    file.keyId in known && known[file.keyId] == file.key
  }

  /** Blobs carry generated keys under their own identifiers. */
  ghost predicate RowsConsistent(known: map<KeyId, Key>, rows: map<SecretId, Blob>) {
    forall id | id in rows ::
      Knows(known, KeyFile(rows[id].keyId, rows[id].ciphertext.key)) && rows[id].ciphertext.associated == rows[id].purpose
  }

  /** Every row is under a key that one of the two files holds. */
  predicate RowsHeld(rows: map<SecretId, Blob>, master: KeyFile, pending: Option<KeyFile>) {
    forall id | id in rows ::
      rows[id].keyId == master.keyId || (pending.Some? && rows[id].keyId == pending.value.keyId)
  }

  ghost predicate AllUnder(rows: map<SecretId, Blob>, keyId: KeyId) {
    forall id | id in rows :: rows[id].keyId == keyId
  }

  ghost predicate NoneUnder(rows: map<SecretId, Blob>, keyId: KeyId) {
    forall id | id in rows :: rows[id].keyId != keyId
  }

  /** The master key and the pending key of a process, or of the two key files. */
  datatype Ring = Ring(master: KeyFile, pending: Option<KeyFile>)

  /** Every key the process may encrypt under is also in a file. */
  ghost predicate BackedBy(memory: Ring, files: Ring, rows: map<SecretId, Blob>) {
    && memory.pending == files.pending
    && (memory.master == files.master || (Some(memory.master) == files.pending && AllUnder(rows, memory.master.keyId)))
  }

  /** The write of the pending file raised and the process lives on: the new key is
      held in memory only. The process may since have moved rows to it, and even made
      it its master key. */
  ghost predicate OnlyInMemory(memory: Ring, files: Ring, rows: map<SecretId, Blob>) {
    && memory.pending.Some? && files.pending == None
    && (memory.master == files.master
        || (memory.master == memory.pending.value && AllUnder(rows, memory.master.keyId)))
  }

  ghost predicate RingKnown(known: map<KeyId, Key>, ring: Ring) {
    Knows(known, ring.master) && (ring.pending.Some? ==> Knows(known, ring.pending.value))
  }

  /** What a running process, its files and the table are to each other: the process can read every row. */
  ghost predicate Serves(known: map<KeyId, Key>, memory: Ring, files: Ring, rows: map<SecretId, Blob>) {
    && RowsConsistent(known, rows) && RingKnown(known, memory) && RingKnown(known, files)
    && RowsHeld(rows, memory.master, memory.pending)
    && (BackedBy(memory, files, rows) || OnlyInMemory(memory, files, rows))
  }

  /** The pending key in memory only, and nothing under it yet. */
  ghost predicate Unused(memory: Ring, files: Ring, rows: map<SecretId, Blob>) {
    && memory.pending.Some? && files.pending == None && memory.master == files.master
    && memory.pending.value.keyId != memory.master.keyId && NoneUnder(rows, memory.pending.value.keyId)
  }

  /** The files hold the keys of all rows unless a row is under a key in memory only. */
  lemma HeldIff(known: map<KeyId, Key>, memory: Ring, files: Ring, rows: map<SecretId, Blob>)
    requires Serves(known, memory, files, rows)
    ensures RowsHeld(rows, files.master, files.pending) <==>
            || BackedBy(memory, files, rows)
            || memory.pending.value == files.master
            || NoneUnder(rows, memory.pending.value.keyId)
  {
    if !BackedBy(memory, files, rows) && RowsHeld(rows, files.master, files.pending) {
      if id :| id in rows && rows[id].keyId == memory.pending.value.keyId {
        assert rows[id].keyId == files.master.keyId;
      }
    }
  }

  /** The durable state: both key files and the secrets table. A process survives
      `writesLeft` further durable writes; the next one does not happen, because
      the process died there or because the write raised. */
  class Disk {
    var master: KeyFile
    var pending: Option<KeyFile>
    var rows: map<SecretId, Blob>
    var writesLeft: nat
    ghost var known: map<KeyId, Key>  // every key ever generated

    /** `initialize` on an empty directory. */
    constructor (first: KeyFile)
      ensures master == first && pending == None && rows == map[]
      ensures known == map[first.keyId := first.key]
      ensures Consistent() && Recoverable()
    {
      master, pending, rows, writesLeft := first, None, map[], 0;
      known := map[first.keyId := first.key];
    }

    /** Key files and blobs carry generated keys under their own identifiers. */
    ghost predicate Consistent()
      reads this
    {
      Knows(known, master) && (pending.Some? ==> Knows(known, pending.value)) && RowsConsistent(known, rows)
    }

    ghost function Files(): Ring
      reads this
    {
      Ring(master, pending)
    }

    /** A new process can read every row. */
    predicate Recoverable()
      reads this
    {
      RowsHeld(rows, master, pending)
    }

    /** What the table means, whatever key each row is under. */
    ghost function Contents(): map<SecretId, Secret>
      reads this
    {
      ContentsOf(rows)
    }

  }

  class Vault {
    const disk: Disk
    var master: KeyFile
    var pending: Option<KeyFile>

    /** `_load_master_key` in a new process. */
    constructor Load(disk: Disk)
      ensures this.disk == disk && master == disk.master && pending == disk.pending
      ensures disk.Consistent() && disk.Recoverable() ==> Valid() && Backed()
    {
      this.disk := disk;
      master, pending := disk.master, disk.pending;
    }

    ghost function Memory(): Ring
      reads this
    {
      Ring(master, pending)
    }

    ghost predicate Backed()
      reads this, disk
    {
      BackedBy(Memory(), disk.Files(), disk.rows)
    }

    /** Backed, or the pending key is in memory only and not in use. */
    ghost predicate Calm()
      reads this, disk
    {
      Backed() || Unused(Memory(), disk.Files(), disk.rows)
    }

    ghost predicate Valid()
      reads this, disk
    {
      Serves(disk.known, Memory(), disk.Files(), disk.rows)
    }

    /** `encrypt` and `put_secret`: one transaction. */
    method PutSecret(id: SecretId, secret: Secret)
      requires Valid()
      modifies disk`rows
      ensures Valid() && (Backed() <==> old(Backed())) && (old(Calm()) ==> Calm())
      ensures disk.Contents() == old(disk.Contents())[id := secret]
      ensures id in disk.rows && disk.rows[id].keyId == master.keyId
    {
      var blob := Blob(master.keyId, Sealed(master.key, secret.purpose, secret.plaintext), secret.purpose);
      disk.rows := disk.rows[id := blob];
    }

    method DeleteSecret(id: SecretId)
      requires Valid()
      modifies disk`rows
      ensures Valid() && (Backed() <==> old(Backed())) && (old(Calm()) ==> Calm())
      ensures disk.Contents() == old(disk.Contents()) - {id}
    {
      disk.rows := disk.rows - {id};
    }

    /** `begin_rotation`. The key is generated before the file is written, so a
        write that raises leaves it in memory only. */
    method BeginRotation(generated: KeyFile) returns (written: bool)
      requires Valid() && generated.keyId !in disk.known
      modifies this`pending, disk`pending, disk`writesLeft, disk`known
      ensures Valid() && pending.Some? && disk.rows == old(disk.rows)
      ensures pending == if old(pending).Some? then old(pending) else Some(generated)
      ensures written <==> old(pending).Some? || old(disk.writesLeft) > 0
      ensures disk.writesLeft == if old(pending).Some? || !written then old(disk.writesLeft) else old(disk.writesLeft) - 1
      ensures disk.pending == if old(pending).None? && written then pending else old(disk.pending)
      ensures (Backed() <==> old(Backed()) && written) && (old(Backed()) ==> Calm())
      ensures disk.known == if old(pending).Some? then old(disk.known) else old(disk.known)[generated.keyId := generated.key]
    {
      if pending.Some? {
        return true;
      }
      pending := Some(generated);
      disk.known := disk.known[generated.keyId := generated.key];
      if disk.writesLeft == 0 {
        return false;
      }
      disk.writesLeft := disk.writesLeft - 1;
      disk.pending := pending;
      written := true;
    }

    /** `activate_pending_key`: memory first, then the master file, then the pending file. */
    method ActivatePendingKey() returns (finished: bool)
      requires pending.Some?
      modifies this, disk`master, disk`pending, disk`writesLeft
      ensures master == old(pending).value
      ensures finished <==> old(disk.writesLeft) >= 2
      ensures finished ==> disk.writesLeft == old(disk.writesLeft) - 2
      ensures !finished ==> disk.writesLeft == 0 && pending == old(pending) && disk.pending == old(disk.pending)
      ensures finished ==> pending == None && disk.pending == None
      ensures disk.master == if old(disk.writesLeft) >= 1 then master else old(disk.master)
    {
      master := pending.value;
      if disk.writesLeft == 0 {
        return false;
      }
      disk.writesLeft := disk.writesLeft - 1;
      disk.master := master;
      if disk.writesLeft == 0 {
        return false;
      }
      disk.writesLeft := disk.writesLeft - 1;
      disk.pending := None;
      pending := None;
      finished := true;
    }
  }

  ghost function RowsOutside(rows: map<SecretId, Blob>, keyId: KeyId): set<SecretId> {
    set id | id in rows && rows[id].keyId != keyId
  }

  /** The key a run moves the table to. */
  ghost function TargetKey(vault: Vault, generated: KeyFile): KeyFile
    reads vault
  {
    if vault.pending.Some? then vault.pending.value else generated
  }

  /** The durable writes a full run still needs. */
  ghost function WritesNeeded(vault: Vault, generated: KeyFile): nat
    reads vault, vault.disk
  {
    (if vault.pending.Some? then 0 else 1) + |RowsOutside(vault.disk.rows, TargetKey(vault, generated).keyId)| + 2
  }

  /** A row moved to another key. */
  function Converted(blob: Blob, target: KeyFile): Blob {
    Blob(target.keyId, Sealed(target.key, blob.purpose, blob.ciphertext.plaintext), blob.purpose)
  }

  function ConvertedRows(rows: map<SecretId, Blob>, target: KeyFile, ids: set<SecretId>): map<SecretId, Blob> {
    map id | id in rows :: if id in ids then Converted(rows[id], target) else rows[id]
  }

  lemma ConvertOneMore(rows: map<SecretId, Blob>, target: KeyFile, ids: set<SecretId>, id: SecretId)
    requires id in rows && id !in ids
    ensures ConvertedRows(rows, target, ids)[id := Converted(rows[id], target)] == ConvertedRows(rows, target, ids + {id})
  {
  }

  lemma ConversionKeepsContents(rows: map<SecretId, Blob>, target: KeyFile, ids: set<SecretId>)
    requires ids <= RowsOutside(rows, target.keyId)
    ensures ContentsOf(ConvertedRows(rows, target, ids)) == ContentsOf(rows)
    ensures AllUnder(ConvertedRows(rows, target, RowsOutside(rows, target.keyId)), target.keyId)
  {
  }

  lemma ConversionKeepsConsistency(
    rows: map<SecretId, Blob>, target: KeyFile, ids: set<SecretId>, known: map<KeyId, Key>)
    requires RowsConsistent(known, rows) && Knows(known, target)
    ensures RowsConsistent(known, ConvertedRows(rows, target, ids))
  {
  }

  /** A table part-way through conversion is held exactly when the target key is in a file or no row was turned. */
  lemma HeldWhileConverting(
    rows: map<SecretId, Blob>, target: KeyFile, ids: set<SecretId>, master: KeyFile, pending: Option<KeyFile>)
    requires ids <= RowsOutside(rows, target.keyId) && RowsHeld(rows, master, pending)
    ensures RowsHeld(ConvertedRows(rows, target, ids), master, pending) <==>
            ids == {} || target.keyId == master.keyId || (pending.Some? && target.keyId == pending.value.keyId)
  {
    var after := ConvertedRows(rows, target, ids);
    if ids != {} {
      var id :| id in ids;
      assert after[id].keyId == target.keyId;
    }
  }

  ghost predicate Readable(vault: Vault, blob: Blob)
    reads vault
  {
    Decrypted(vault.master, vault.pending, blob, blob.purpose) == Opened(blob.ciphertext.plaintext)
  }

  /** One turn of the loop: read, `decrypt`, `encrypt_for_rotation`, update. */
  method ConvertRow(vault: Vault, id: SecretId) returns (written: bool)
    requires vault.pending.Some? && id in vault.disk.rows && Readable(vault, vault.disk.rows[id])
    modifies vault.disk`rows, vault.disk`writesLeft
    ensures written <==> old(vault.disk.writesLeft) > 0
    ensures vault.disk.writesLeft == if written then old(vault.disk.writesLeft) - 1 else 0
    ensures vault.disk.rows == if written
                               then old(vault.disk.rows)[id := Converted(old(vault.disk.rows)[id], vault.pending.value)]
                               else old(vault.disk.rows)
  {
    var disk := vault.disk;
    var blob := disk.rows[id];
    var plain := Decrypted(vault.master, vault.pending, blob, blob.purpose);
    var target := vault.pending.value;
    var replacement := Blob(target.keyId, Sealed(target.key, blob.purpose, plain.plaintext), blob.purpose);
    if disk.writesLeft == 0 {
      return false;
    }
    disk.writesLeft := disk.writesLeft - 1;
    disk.rows := disk.rows[id := replacement];
    written := true;
  }

  /** The conversion loop of `rotate_secrets`, over the rows in any order. */
  method ConvertRows(vault: Vault) returns (outcome: Outcome, ghost turned: set<SecretId>)
    requires vault.pending.Some?
    requires forall id | id in RowsOutside(vault.disk.rows, vault.pending.value.keyId) :: Readable(vault, vault.disk.rows[id])
    modifies vault.disk`rows, vault.disk`writesLeft
    ensures turned <= RowsOutside(old(vault.disk.rows), vault.pending.value.keyId) && |turned| == outcome.converted
    ensures vault.disk.rows == ConvertedRows(old(vault.disk.rows), vault.pending.value, turned)
    ensures vault.disk.writesLeft == old(vault.disk.writesLeft) - outcome.converted
    ensures outcome.Completed? ==> turned == RowsOutside(old(vault.disk.rows), vault.pending.value.keyId)
    ensures outcome.Stopped? ==>
              vault.disk.writesLeft == 0 && |turned| < |RowsOutside(old(vault.disk.rows), vault.pending.value.keyId)|
  {
    var disk, target := vault.disk, vault.pending.value;
    ghost var start := disk.rows;
    var todo := set id | id in disk.rows && disk.rows[id].keyId != target.keyId;
    turned := {};
    assert disk.rows == ConvertedRows(start, target, turned);
    var converted := 0;
    while todo != {}
      invariant turned + todo == RowsOutside(start, target.keyId) && turned !! todo
      invariant disk.rows == ConvertedRows(start, target, turned)
      invariant converted == |turned| && disk.writesLeft + converted == old(disk.writesLeft)
      decreases |todo|
    {
      var id :| id in todo;
      assert id in turned + todo && disk.rows[id] == start[id];
      var written := ConvertRow(vault, id);
      if !written {
        assert |turned + todo| == |turned| + |todo|;
        return Stopped(converted), turned;
      }
      ConvertOneMore(start, target, turned, id);
      MoveOne(turned, todo, id);
      converted, todo, turned := converted + 1, todo - {id}, turned + {id};
    }
    outcome := Completed(converted);
  }

  lemma MoveOne(turned: set<SecretId>, todo: set<SecretId>, id: SecretId)
    requires turned !! todo && id in todo
    ensures (turned + {id}) + (todo - {id}) == turned + todo && (turned + {id}) !! (todo - {id})
    ensures |turned + {id}| == |turned| + 1 && |todo - {id}| < |todo|
  {
  }

  /** Converting rows keeps them in reach of the process. The files still hold all keys
      if they hold the target key, or if they did before and no row was turned. */
  lemma ConvertedServes(known: map<KeyId, Key>, memory: Ring, files: Ring, rows: map<SecretId, Blob>, turned: set<SecretId>)
    requires Serves(known, memory, files, rows) && memory.pending.Some?
    requires turned <= RowsOutside(rows, memory.pending.value.keyId)
    ensures var after := ConvertedRows(rows, memory.pending.value, turned);
            && Serves(known, memory, files, after)
            && (BackedBy(memory, files, after) <==> BackedBy(memory, files, rows))
            && (RowsHeld(after, files.master, files.pending) <==>
                  || BackedBy(memory, files, rows)
                  || memory.pending.value == files.master
                  || (RowsHeld(rows, files.master, files.pending) && turned == {}))
  {
    var target := memory.pending.value;
    var after := ConvertedRows(rows, target, turned);
    ConversionKeepsConsistency(rows, target, turned, known);
    HeldWhileConverting(rows, target, turned, memory.master, memory.pending);
    HeldIff(known, memory, files, rows);
    HeldIff(known, memory, files, after);
    if turned != {} {
      var id :| id in turned;
      assert after[id].keyId == target.keyId;
    } else {
      assert after == rows;
    }
  }

  /** The end of a rotation, from a table all under the pending key: wherever the file
      writes stop, the process can read on, and the files can once the master file is written. */
  lemma ActivatedServes(known: map<KeyId, Key>, memory: Ring, files: Ring, rows: map<SecretId, Blob>)
    requires Serves(known, memory, files, rows) && memory.pending.Some?
    requires AllUnder(rows, memory.pending.value.keyId)
    ensures var target := memory.pending.value;
            && Serves(known, Ring(target, memory.pending), files, rows)
            && (BackedBy(Ring(target, memory.pending), files, rows) <==> BackedBy(memory, files, rows))
            && Serves(known, Ring(target, memory.pending), Ring(target, files.pending), rows)
            && (BackedBy(Ring(target, memory.pending), Ring(target, files.pending), rows) <==> BackedBy(memory, files, rows))
            && Serves(known, Ring(target, None), Ring(target, None), rows)
            && RowsHeld(rows, target, files.pending)
  {
  }

  /** The run from the written pending file on. */
  method ConvertAndActivate(vault: Vault) returns (outcome: Outcome)
    requires vault.Valid() && vault.pending.Some?
    modifies vault, vault.disk`master, vault.disk`pending, vault.disk`rows, vault.disk`writesLeft
    ensures vault.Valid() && vault.disk.Contents() == old(vault.disk.Contents())
    ensures var target, writes := old(vault.pending).value, old(vault.disk.writesLeft);
            var outside := |RowsOutside(old(vault.disk.rows), target.keyId)|;
            && (outcome.Completed? <==> writes >= outside + 2)
            && vault.disk.master == (if writes >= outside + 1 then target else old(vault.disk.master))
            && outcome.converted == Min(writes, outside)
    ensures outcome.Completed? ==> vault.disk.pending == None && AllUnder(vault.disk.rows, vault.disk.master.keyId)
    ensures outcome.Stopped? ==> vault.disk.writesLeft == 0 && vault.pending == old(vault.pending)
    ensures vault.Backed() <==> outcome.Completed? || old(vault.Backed())
    ensures vault.disk.Recoverable() <==>
              || old(vault.Backed())
              || vault.disk.master == old(vault.pending).value
              || (old(vault.disk.Recoverable()) && outcome.converted == 0)
  {
    ghost var known, memory, files, start := vault.disk.known, vault.Memory(), vault.disk.Files(), vault.disk.rows;
    ghost var turned;
    outcome, turned := ConvertRows(vault);
    ConversionKeepsContents(start, memory.pending.value, turned);
    ConvertedServes(known, memory, files, start, turned);
    if outcome.Stopped? {
      return;
    }
    ActivatedServes(known, memory, files, vault.disk.rows);
    var finished := vault.ActivatePendingKey();
    if !finished {
      outcome := Stopped(outcome.converted);
    }
  }

  /** `rotate_secrets`. A new process can read the table wherever the run stops, unless
      the pending key is in memory only and in use, and the run does not get as far as
      the master file. */
  method RotateSecrets(vault: Vault, generated: KeyFile) returns (outcome: Outcome)
    requires vault.Valid() && generated.keyId !in vault.disk.known
    modifies vault, vault.disk
    ensures vault.Valid() && vault.disk.Contents() == old(vault.disk.Contents())
    ensures outcome.Completed? <==> old(vault.disk.writesLeft) >= old(WritesNeeded(vault, generated))
    ensures outcome.Completed? ==> vault.disk.pending == None && AllUnder(vault.disk.rows, vault.disk.master.keyId)
    ensures outcome.Stopped? ==> vault.disk.writesLeft == 0 && vault.pending == Some(old(TargetKey(vault, generated)))
    ensures vault.disk.master ==
              if old(vault.disk.writesLeft) + 1 >= old(WritesNeeded(vault, generated)) then old(TargetKey(vault, generated))
              else old(vault.disk.master)
    ensures outcome.converted ==
              Min(if old(vault.pending).Some? || old(vault.disk.writesLeft) == 0 then old(vault.disk.writesLeft)
                  else old(vault.disk.writesLeft) - 1,
                  |RowsOutside(old(vault.disk.rows), old(TargetKey(vault, generated)).keyId)|)
    ensures vault.Backed() <==>
              || outcome.Completed?
              || (old(vault.Backed()) && (old(vault.pending).Some? || old(vault.disk.writesLeft) > 0))
    ensures old(vault.Backed()) ==> vault.Calm()
    ensures vault.disk.Recoverable() <==>
              || old(vault.Backed())
              || vault.disk.master == old(TargetKey(vault, generated))
              || (old(vault.disk.Recoverable()) && outcome.converted == 0)
    ensures old(vault.disk.known.Keys) <= vault.disk.known.Keys <= old(vault.disk.known.Keys) + {generated.keyId}
  {
    var written := vault.BeginRotation(generated);
    if written {
      outcome := ConvertAndActivate(vault);
    } else {
      outcome := Stopped(0);
    }
  }

  // ---- Whole histories ----

  /** What happens to a vault. A rotation runs until it has made `writes` durable
      writes or is done; if it stops, the process either dies and is restarted or
      lives on with the exception. */
  datatype Event =
    | Put(id: SecretId, secret: Secret)
    | Delete(id: SecretId)
    | Rotate(generated: KeyFile, writes: nat, dies: bool)
    | Restart

  /** What is stored after one more event. Rotations and restarts play no part. */
  function StoredNext(before: map<SecretId, Secret>, event: Event): map<SecretId, Secret> {
    match event
    case Put(id, secret) => before[id := secret]
    case Delete(id) => before - {id}
    case Rotate(_, _, _) => before
    case Restart => before
  }

  function Stored(events: seq<Event>): map<SecretId, Secret> {
    if events == [] then map[] else StoredNext(Stored(events[..|events| - 1]), events[|events| - 1])
  }

  /** Generated key identifiers never repeat. */
  ghost predicate FreshKeys(first: KeyFile, events: seq<Event>) {
    forall i | 0 <= i < |events| && events[i].Rotate? ::
      && events[i].generated.keyId != first.keyId
      && forall j | 0 <= j < i && events[j].Rotate? :: events[j].generated.keyId != events[i].generated.keyId
  }

  ghost predicate GeneratedBy(k: KeyId, events: seq<Event>) {
    exists j :: 0 <= j < |events| && events[j].Rotate? && events[j].generated.keyId == k
  }

  /** The keys that exist after the events. */
  ghost predicate Generated(known: set<KeyId>, first: KeyFile, events: seq<Event>) {
    forall k | k in known :: k == first.keyId || GeneratedBy(k, events)
  }

  lemma GeneratedNext(known: set<KeyId>, first: KeyFile, events: seq<Event>, done: nat, knownNext: set<KeyId>)
    requires FreshKeys(first, events) && done < |events| && Generated(known, first, events[..done])
    requires knownNext <= if events[done].Rotate? then known + {events[done].generated.keyId} else known
    ensures events[done].Rotate? ==> events[done].generated.keyId !in known
    ensures Generated(knownNext, first, events[..done + 1])
  {
    forall k | k in knownNext && k in known && k != first.keyId
      ensures GeneratedBy(k, events[..done + 1])
    {
      var j :| 0 <= j < |events[..done]| && events[..done][j].Rotate? && events[..done][j].generated.keyId == k;
      assert events[..done + 1][j] == events[j];
    }
    if events[done].Rotate? {
      assert events[..done + 1][done] == events[done];
    }
  }

  /** If a pending key is still to be written here, that write raises and the process lives on. */
  predicate FailsAndLives(event: Event) {
    event.Rotate? && !event.dies && event.writes == 0
  }

  /** An event that the same process lives on after, unless it is a rotation that got through. */
  predicate LivesOn(event: Event) {
    !event.Restart? && !(event.Rotate? && event.dies)
  }

  /** A process whose rotation failed at its first write rotates again. */
  predicate RotatesAgain(events: seq<Event>, i: nat, j: nat) {
    && i < j < |events|
    && FailsAndLives(events[i]) && (forall k | i < k < j :: LivesOn(events[k]))
    && events[j].Rotate?
  }

  ghost predicate Risked(events: seq<Event>) {
    exists i, j :: RotatesAgain(events, i, j)
  }

  /** The running process failed at the first write of a rotation. */
  ghost predicate Failed(events: seq<Event>, done: nat)
    requires done <= |events|
  {
    exists i: nat :: i < done && FailsAndLives(events[i]) && forall k | i < k < done :: LivesOn(events[k])
  }

  /** What a state tells of the events that led to it. */
  ghost predicate Explained(events: seq<Event>, done: nat, backed: bool, calm: bool)
    requires done <= |events|
  {
    (!backed ==> Failed(events, done)) && (!calm ==> Risked(events))
  }

  lemma ExplainedNext(events: seq<Event>, done: nat, backed: bool, calm: bool, backedNext: bool, calmNext: bool)
    requires done < |events| && Explained(events, done, backed, calm)
    requires !backedNext ==> FailsAndLives(events[done]) || (!backed && LivesOn(events[done]))
    requires !calmNext ==> !calm || (!backed && events[done].Rotate?)
    ensures Explained(events, done + 1, backedNext, calmNext)
  {
    if !backedNext && !FailsAndLives(events[done]) {
      var i: nat :| i < done && FailsAndLives(events[i]) && forall k | i < k < done :: LivesOn(events[k]);
    }
    if !calmNext && calm {
      var i: nat :| i < done && FailsAndLives(events[i]) && forall k | i < k < done :: LivesOn(events[k]);
      assert RotatesAgain(events, i, done);
    }
  }

  /** One event in a process, which may end with it. */
  method Meet(vault: Vault, event: Event) returns (ends: bool)
    requires vault.Valid() && (event.Rotate? ==> event.generated.keyId !in vault.disk.known)
    modifies vault, vault.disk
    ensures vault.Valid() && vault.disk.Contents() == StoredNext(old(vault.disk.Contents()), event)
    ensures !ends && !vault.Backed() ==> FailsAndLives(event) || (!old(vault.Backed()) && LivesOn(event))
    ensures !vault.Calm() ==> !old(vault.Calm()) || (!old(vault.Backed()) && event.Rotate?)
    ensures vault.disk.known.Keys <=
              if event.Rotate? then old(vault.disk.known.Keys) + {event.generated.keyId} else old(vault.disk.known.Keys)
  {
    ends := event.Restart?;
    if event.Put? {
      vault.PutSecret(event.id, event.secret);
    } else if event.Delete? {
      vault.DeleteSecret(event.id);
    } else if event.Rotate? {
      vault.disk.writesLeft := event.writes;
      var outcome := RotateSecrets(vault, event.generated);
      ends := outcome.Stopped? && event.dies;
    }
  }

  /** Where a process stands after so many of the events. */
  ghost predicate Follows(vault: Vault, first: KeyFile, events: seq<Event>, done: nat)
    requires done <= |events|
    reads vault, vault.disk
  {
    && vault.Valid()
    && Explained(events, done, vault.Backed(), vault.Calm())
    && vault.disk.Contents() == Stored(events[..done])
    && Generated(vault.disk.known.Keys, first, events[..done])
  }

  lemma StoredStep(events: seq<Event>, done: nat)
    requires done < |events|
    ensures Stored(events[..done + 1]) == StoredNext(Stored(events[..done]), events[done])
  {
    assert events[..done + 1][..done] == events[..done];
  }

  /** The next event, and the new process if it ends this one. */
  method MeetNext(vault: Vault, first: KeyFile, events: seq<Event>, done: nat) returns (next: Vault)
    requires FreshKeys(first, events) && done < |events| && Follows(vault, first, events, done)
    modifies vault, vault.disk
    ensures next.disk == vault.disk && (next == vault || fresh(next))
    ensures next.disk.Contents() == Stored(events[..done + 1])
    ensures next.disk.Recoverable() ==> Follows(next, first, events, done + 1)
    ensures !next.disk.Recoverable() ==> Risked(events) && (next == vault ==> Follows(next, first, events, done + 1))
  {
    ghost var backed, calm, known := vault.Backed(), vault.Calm(), vault.disk.known.Keys;
    GeneratedNext(known, first, events, done, known);
    StoredStep(events, done);
    var ends := Meet(vault, events[done]);
    GeneratedNext(known, first, events, done, vault.disk.known.Keys);
    ExplainedNext(events, done, backed, calm, ends || vault.Backed(), vault.Calm());
    HeldIff(vault.disk.known, vault.Memory(), vault.disk.Files(), vault.disk.rows);
    next := vault;
    if ends {
      next := new Vault.Load(vault.disk);
    }
  }

  /** Files that hold the keys of all rows open each of them to its contents. */
  lemma HeldOpens(known: map<KeyId, Key>, files: Ring, rows: map<SecretId, Blob>, contents: map<SecretId, Secret>)
    requires RowsConsistent(known, rows) && RingKnown(known, files) && RowsHeld(rows, files.master, files.pending)
    requires contents == ContentsOf(rows)
    ensures rows.Keys == contents.Keys
    ensures forall id | id in rows ::
              Decrypted(files.master, files.pending, rows[id], contents[id].purpose) == Opened(contents[id].plaintext)
  {
  }

  /** And files that do not leave some row under a key that nobody has. */
  lemma NotHeldLoses(files: Ring, rows: map<SecretId, Blob>) returns (id: SecretId)
    requires !RowsHeld(rows, files.master, files.pending)
    ensures id in rows && Decrypted(files.master, files.pending, rows[id], rows[id].purpose) == UnknownKey
  {
    id :| id in rows && rows[id].keyId != files.master.keyId
          && (files.pending.None? || rows[id].keyId != files.pending.value.keyId);
  }

  method NewProcess(first: KeyFile, events: seq<Event>) returns (vault: Vault)
    ensures fresh(vault) && fresh(vault.disk) && vault.disk.master == first
    ensures Follows(vault, first, events, 0)
  {
    var disk := new Disk(first);
    vault := new Vault.Load(disk);
  }

  /** Runs the events until a restart finds a secret out of reach. Whatever the
      crashes, resumptions and writes in between, every secret stored and not deleted
      decrypts in a new process to what was stored, unless a process rotated again
      after failing at the first write of a rotation. */
  method RunHistory(first: KeyFile, events: seq<Event>) returns (disk: Disk, done: nat)
    requires FreshKeys(first, events)
    ensures done <= |events| && (done < |events| ==> !disk.Recoverable())
    ensures disk.rows.Keys == Stored(events[..done]).Keys
    ensures disk.Recoverable() ==>
              forall id | id in disk.rows ::
                Decrypted(disk.master, disk.pending, disk.rows[id], Stored(events[..done])[id].purpose)
                == Opened(Stored(events[..done])[id].plaintext)
    ensures !disk.Recoverable() ==> Risked(events)
  {
    var vault := NewProcess(first, events);
    disk := vault.disk;
    done := 0;
    var alive := true;
    while done < |events| && alive
      invariant 0 <= done <= |events|
      invariant vault.disk == disk && fresh(disk) && fresh(vault)
      invariant disk.Contents() == Stored(events[..done])
      invariant alive ==> Follows(vault, first, events, done)
      invariant !alive ==> !disk.Recoverable() && Risked(events)
    {
      var next := MeetNext(vault, first, events, done);
      alive := next == vault || disk.Recoverable();
      vault := next;
      done := done + 1;
    }
    if disk.Recoverable() {
      HeldOpens(disk.known, disk.Files(), disk.rows, Stored(events[..done]));
    }
  }

  /** One secret stored, then a first rotation whose pending file could not be written. */
  method LiveFirstFailure(first: KeyFile, second: KeyFile) returns (vault: Vault)
    requires first.keyId != second.keyId
    ensures fresh(vault) && fresh(vault.disk) && vault.Valid() && !vault.Backed() && vault.pending == Some(second)
    ensures vault.disk.Recoverable() && vault.disk.Files() == Ring(first, None)
    ensures vault.disk.rows.Keys == {"a"} && vault.disk.known.Keys <= {first.keyId, second.keyId}
  {
    var disk := new Disk(first);
    vault := new Vault.Load(disk);
    vault.PutSecret("a", Secret("p", "x"));
    disk.writesLeft := 0;
    var failed := RotateSecrets(vault, second);
    assert disk.rows.Keys == disk.Contents().Keys == {"a"};
  }

  /** The risk is real: a secret is lost when the pending file could not be written,
      the same process rotates again, and dies after converting a row. */
  method FirstFailureLosesSecret(first: KeyFile, second: KeyFile, third: KeyFile) returns (disk: Disk)
    requires first.keyId != second.keyId && third.keyId != first.keyId && third.keyId != second.keyId
    ensures disk.rows.Keys == {"a"}
    ensures Decrypted(disk.master, disk.pending, disk.rows["a"], disk.rows["a"].purpose) == UnknownKey
  {
    var vault := LiveFirstFailure(first, second);
    disk := vault.disk;
    assert RowsOutside(disk.rows, second.keyId) == {"a"};
    disk.writesLeft := 1;
    var died := RotateSecrets(vault, third);
    assert disk.rows.Keys == disk.Contents().Keys == {"a"};
  }
}
