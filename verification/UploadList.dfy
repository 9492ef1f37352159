/** The list of devices to upload to, and what becomes of it when uploads are recorded. */
module UploadList {
  import opened Common
  import Identifiers

  type CertificateId = string
  type RunId = string

  /** A stored certificate; the table lists them oldest first. */
  datatype Certificate = Certificate(
    id: CertificateId, kind: string, issuerType: string, identifiers: seq<string>, deviceName: string)

  datatype Row = Row(selector: string, certificate: CertificateId, caption: string, identifiers: seq<string>)

  /** The parts of naming that come from outside: reading an IP address into its
      canonical form, and trimming, lower-casing and dropping trailing dots. */
  datatype Naming = Naming(address: string -> Option<string>, tidy: string -> string)

  /** The first identifier that is an IP address. */
  function FirstAddress(identifiers: seq<string>, naming: Naming): Option<string> {
    if identifiers == [] then None
    else if naming.address(identifiers[0]).Some? then naming.address(identifiers[0])
    else FirstAddress(identifiers[1..], naming)
  }

  /** `_selector`. */
  function Selector(certificate: Certificate, naming: Naming): string {
    var address := FirstAddress(certificate.identifiers, naming);
    if address.Some? then address.value
    else if certificate.identifiers != [] then naming.tidy(certificate.identifiers[0])
    else certificate.id
  }

  predicate IsLocalLeaf(certificate: Certificate) {
    certificate.kind == "leaf" && certificate.issuerType == "local_ca"
  }

  function RowOf(certificate: Certificate, naming: Naming): Row {
    var selector := Selector(certificate, naming);
    Row(selector, certificate.id, if certificate.deviceName != "" then certificate.deviceName else selector,
        certificate.identifiers)
  }

  // ---- The list, as it is meant ----

  /** The certificate at `i` is the newest local leaf of its device. */
  predicate Owns(certificates: seq<Certificate>, i: nat, naming: Naming)
    requires i < |certificates|
  {
    && IsLocalLeaf(certificates[i]) && Selector(certificates[i], naming) != ""
    && forall j | i < j < |certificates| && IsLocalLeaf(certificates[j]) ::
         Selector(certificates[j], naming) != Selector(certificates[i], naming)
  }

  predicate Listed(certificates: seq<Certificate>, i: nat, completed: set<CertificateId>, naming: Naming)
    requires i < |certificates|
  {
    Owns(certificates, i, naming) && certificates[i].id !in completed
  }

  /** By label, then by selector. */
  predicate RowLeq(a: Row, b: Row) {
    if a.caption == b.caption then Identifiers.Leq(a.selector, b.selector) else Identifiers.Leq(a.caption, b.caption)
  }

  predicate IsSorted(rows: seq<Row>) {
    forall i, j | 0 <= i < j < |rows| :: RowLeq(rows[i], rows[j])
  }

  predicate OnePerDevice(rows: seq<Row>) {
    forall i, j | 0 <= i < j < |rows| :: rows[i].selector != rows[j].selector
  }

  predicate ListedFrom(certificates: seq<Certificate>, i: nat, completed: set<CertificateId>, naming: Naming, row: Row) {
    exists j :: i <= j < |certificates| && Listed(certificates, j, completed, naming) && row == RowOf(certificates[j], naming)
  }

  /** One row for each device whose newest local leaf is not completed, sorted. */
  ghost predicate IsListing(rows: seq<Row>, certificates: seq<Certificate>, completed: set<CertificateId>, naming: Naming) {
    && IsSorted(rows) && OnePerDevice(rows)
    && forall row :: row in rows <==> ListedFrom(certificates, 0, completed, naming, row)
  }

  /** The name of a device: the first identifier that is an address, read as one, or else
      the first identifier, or else the certificate. */
  lemma {:induction false} FirstAddressIff(identifiers: seq<string>, naming: Naming, address: string)
    ensures FirstAddress(identifiers, naming) == Some(address) <==>
            exists i :: 0 <= i < |identifiers| && naming.address(identifiers[i]) == Some(address)
                        && forall j | 0 <= j < i :: naming.address(identifiers[j]).None?
  {
    if identifiers != [] && naming.address(identifiers[0]).None? {
      var rest := identifiers[1..];
      FirstAddressIff(rest, naming, address);
      if i :| 0 <= i < |rest| && naming.address(rest[i]) == Some(address)
              && forall j | 0 <= j < i :: naming.address(rest[j]).None? {
        assert identifiers[i + 1] == rest[i];
        forall j | 0 <= j < i + 1 ensures naming.address(identifiers[j]).None? {
          assert j > 0 ==> identifiers[j] == rest[j - 1];
        }
      }
      if i :| 0 <= i < |identifiers| && naming.address(identifiers[i]) == Some(address)
              && forall j | 0 <= j < i :: naming.address(identifiers[j]).None? {
        assert i > 0 && rest[i - 1] == identifiers[i];
        forall j | 0 <= j < i - 1 ensures naming.address(rest[j]).None? {
          assert rest[j] == identifiers[j + 1];
        }
      }
    }
  }

  lemma SelectorIff(certificate: Certificate, naming: Naming)
    ensures var names := certificate.identifiers;
            if exists i :: 0 <= i < |names| && naming.address(names[i]).Some? then
              FirstAddress(names, naming) == Some(Selector(certificate, naming))
            else Selector(certificate, naming) == if names == [] then certificate.id else naming.tidy(names[0])
  {
    NoAddress(certificate.identifiers, naming);
  }

  lemma {:induction false} NoAddress(identifiers: seq<string>, naming: Naming)
    ensures FirstAddress(identifiers, naming).None? <==>
            forall i | 0 <= i < |identifiers| :: naming.address(identifiers[i]).None?
  {
    if identifiers != [] {
      NoAddress(identifiers[1..], naming);
      assert forall i | 0 < i < |identifiers| :: identifiers[i] == identifiers[1..][i - 1];
    }
  }

  /** What the list holds, written out: the columns of each row, whose it is, and the order. */
  lemma ListingReads(rows: seq<Row>, certificates: seq<Certificate>, completed: set<CertificateId>, naming: Naming, row: Row)
    requires IsListing(rows, certificates, completed, naming)
    ensures row in rows <==>
            exists i :: 0 <= i < |certificates| && IsNewestLeaf(certificates, i, naming) && certificates[i].id !in completed
                        && row.selector == Selector(certificates[i], naming) && row.certificate == certificates[i].id
                        && row.identifiers == certificates[i].identifiers
                        && row.caption == if certificates[i].deviceName == "" then row.selector else certificates[i].deviceName
    ensures forall i, j | 0 <= i < j < |rows| ::
              || (rows[i].caption != rows[j].caption && Identifiers.Leq(rows[i].caption, rows[j].caption))
              || (rows[i].caption == rows[j].caption && Identifiers.Leq(rows[i].selector, rows[j].selector))
  {
    if i :| 0 <= i < |certificates| && IsNewestLeaf(certificates, i, naming) && certificates[i].id !in completed
            && row == Row(Selector(certificates[i], naming), certificates[i].id, row.caption, certificates[i].identifiers)
            && row.caption == if certificates[i].deviceName == "" then row.selector else certificates[i].deviceName {
      assert Listed(certificates, i, completed, naming) && row == RowOf(certificates[i], naming);
    }
    if row in rows {
      var i :| 0 <= i < |certificates| && Listed(certificates, i, completed, naming) && row == RowOf(certificates[i], naming);
      assert IsNewestLeaf(certificates, i, naming);
    }
  }

  /** A leaf of the local authority for some device, and no newer one is for the same. */
  predicate IsNewestLeaf(certificates: seq<Certificate>, i: nat, naming: Naming)
    requires i < |certificates|
  {
    && certificates[i].kind == "leaf" && certificates[i].issuerType == "local_ca" && Selector(certificates[i], naming) != ""
    && forall j | i < j < |certificates| && certificates[j].kind == "leaf" && certificates[j].issuerType == "local_ca" ::
         Selector(certificates[j], naming) != Selector(certificates[i], naming)
  }

  lemma RowLeqTotal(a: Row, b: Row)
    ensures RowLeq(a, b) || RowLeq(b, a)
  {
    Identifiers.LeqTotal(a.caption, b.caption);
    Identifiers.LeqTotal(a.selector, b.selector);
  }

  lemma RowLeqTransitive(a: Row, b: Row, c: Row)
    requires RowLeq(a, b) && RowLeq(b, c)
    ensures RowLeq(a, c)
  {
    if a.caption == b.caption == c.caption {
      Identifiers.LeqTransitive(a.selector, b.selector, c.selector);
    } else if a.caption != b.caption && b.caption != c.caption {
      Identifiers.LeqTransitive(a.caption, b.caption, c.caption);
      if a.caption == c.caption {
        Identifiers.LeqAntisymmetric(a.caption, b.caption);
      }
    }
  }

  lemma RowLeqSelector(a: Row, b: Row)
    requires RowLeq(a, b) && RowLeq(b, a)
    ensures a.selector == b.selector
  {
    if a.caption == b.caption {
      Identifiers.LeqAntisymmetric(a.selector, b.selector);
    } else {
      Identifiers.LeqAntisymmetric(a.caption, b.caption);
    }
  }

  lemma HeadLeast(rows: seq<Row>, row: Row)
    requires IsSorted(rows) && row in rows
    ensures RowLeq(rows[0], row)
  {
    var i :| 0 <= i < |rows| && rows[i] == row;
    if i == 0 {
      RowLeqTotal(row, row);
    }
  }

  /** Sorted lists with one row per device are equal when they hold the same rows. */
  lemma {:induction false} SameRowsEqual(rows: seq<Row>, others: seq<Row>)
    requires IsSorted(rows) && IsSorted(others) && OnePerDevice(rows) && OnePerDevice(others)
    requires forall row :: row in rows <==> row in others
    ensures rows == others
    decreases |rows|
  {
    if others != [] {
      assert others[0] in rows;
    }
    if rows != [] {
      assert rows[0] in others;
      HeadLeast(rows, others[0]);
      HeadLeast(others, rows[0]);
      RowLeqSelector(rows[0], others[0]);
      HeadsEqual(rows, others);
      forall row ensures row in rows[1..] <==> row in others[1..] {
        InTail(rows, row);
        InTail(others, row);
      }
      SameRowsEqual(rows[1..], others[1..]);
      assert rows == [rows[0]] + rows[1..] && others == [others[0]] + others[1..];
    }
  }

  lemma HeadsEqual(rows: seq<Row>, others: seq<Row>)
    requires rows != [] && others != [] && rows[0].selector == others[0].selector
    requires OnePerDevice(others) && rows[0] in others
    ensures rows[0] == others[0]
  {
    var i :| 0 <= i < |others| && others[i] == rows[0];
    assert i == 0;
  }

  lemma InTail(rows: seq<Row>, row: Row)
    requires rows != [] && OnePerDevice(rows)
    ensures row in rows[1..] <==> row in rows && row != rows[0]
  {
    assert rows == [rows[0]] + rows[1..];
    if row in rows[1..] {
      var i :| 0 <= i < |rows[1..]| && rows[1..][i] == row;
      assert rows[i + 1] == row;
    }
  }

  /** There is one such listing. */
  lemma ListingUnique(rows: seq<Row>, others: seq<Row>, certificates: seq<Certificate>,
                      completed: set<CertificateId>, naming: Naming)
    requires IsListing(rows, certificates, completed, naming) && IsListing(others, certificates, completed, naming)
    ensures rows == others
  {
    SameRowsEqual(rows, others);
  }

  // ---- The list, as it is computed ----

  function Insert(row: Row, rows: seq<Row>): seq<Row> {
    if rows == [] || RowLeq(row, rows[0]) then [row] + rows else [rows[0]] + Insert(row, rows[1..])
  }

  /** `sorted` by label and selector. */
  function Sort(rows: seq<Row>): seq<Row> {
    if rows == [] then [] else Insert(rows[0], Sort(rows[1..]))
  }

  lemma {:induction false} InsertKeeps(row: Row, rows: seq<Row>)
    requires IsSorted(rows) && OnePerDevice(rows) && forall r | r in rows :: r.selector != row.selector
    ensures IsSorted(Insert(row, rows)) && OnePerDevice(Insert(row, rows))
    ensures forall r :: r in Insert(row, rows) <==> r == row || r in rows
  {
    if rows == [] {
    } else if RowLeq(row, rows[0]) {
      forall j | 0 <= j < |rows| ensures RowLeq(row, rows[j]) {
        if j > 0 {
          RowLeqTransitive(row, rows[0], rows[j]);
        }
      }
    } else {
      RowLeqTotal(row, rows[0]);
      InsertKeeps(row, rows[1..]);
      var rest := Insert(row, rows[1..]);
      forall r | r in rest ensures RowLeq(rows[0], r) && rows[0].selector != r.selector {
        if r != row {
          var j :| 0 <= j < |rows[1..]| && rows[1..][j] == r;
          assert rows[j + 1] == r;
        }
      }
      assert rows == [rows[0]] + rows[1..];
    }
  }

  lemma {:induction false} SortKeeps(rows: seq<Row>)
    requires OnePerDevice(rows)
    ensures IsSorted(Sort(rows)) && OnePerDevice(Sort(rows)) && forall r :: r in Sort(rows) <==> r in rows
  {
    if rows != [] {
      SortKeeps(rows[1..]);
      assert rows == [rows[0]] + rows[1..];
      forall r | r in Sort(rows[1..]) ensures r.selector != rows[0].selector {
        assert r in rows[1..];
      }
      InsertKeeps(rows[0], Sort(rows[1..]));
    }
  }

  /** A local leaf at `i` or newer has the selector. */
  predicate SeenFrom(certificates: seq<Certificate>, i: nat, selector: string, naming: Naming) {
    exists j :: i <= j < |certificates| && IsLocalLeaf(certificates[j]) && Selector(certificates[j], naming) == selector
  }

  /** The rows are those of the certificates at `i` or newer, each device once. */
  ghost predicate Scanned(rows: seq<Row>, certificates: seq<Certificate>, i: nat,
                          completed: set<CertificateId>, naming: Naming)
  {
    && OnePerDevice(rows)
    && (forall row | row in rows :: SeenFrom(certificates, i, row.selector, naming))
    && forall row :: row in rows <==> ListedFrom(certificates, i, completed, naming, row)
  }

  lemma SeenOneMore(certificates: seq<Certificate>, i: nat, selector: string, naming: Naming)
    requires i < |certificates|
    ensures SeenFrom(certificates, i, selector, naming) <==>
            SeenFrom(certificates, i + 1, selector, naming)
            || (IsLocalLeaf(certificates[i]) && Selector(certificates[i], naming) == selector)
  {
  }

  lemma OwnsIffUnseen(certificates: seq<Certificate>, i: nat, naming: Naming)
    requires i < |certificates|
    ensures Owns(certificates, i, naming) <==>
            && IsLocalLeaf(certificates[i]) && Selector(certificates[i], naming) != ""
            && !SeenFrom(certificates, i + 1, Selector(certificates[i], naming), naming)
  {
  }

  lemma ListedOneMore(certificates: seq<Certificate>, i: nat, completed: set<CertificateId>, naming: Naming, row: Row)
    requires i < |certificates|
    ensures ListedFrom(certificates, i, completed, naming, row) <==>
            || ListedFrom(certificates, i + 1, completed, naming, row)
            || (Listed(certificates, i, completed, naming) && row == RowOf(certificates[i], naming))
  {
  }

  lemma ScannedOneMore(rows: seq<Row>, certificates: seq<Certificate>, i: nat, completed: set<CertificateId>, naming: Naming)
    requires i < |certificates| && Scanned(rows, certificates, i + 1, completed, naming)
    ensures Scanned(if Listed(certificates, i, completed, naming) then rows + [RowOf(certificates[i], naming)] else rows,
                    certificates, i, completed, naming)
  {
    forall selector ensures SeenFrom(certificates, i + 1, selector, naming) ==> SeenFrom(certificates, i, selector, naming) {
      SeenOneMore(certificates, i, selector, naming);
    }
    SeenOneMore(certificates, i, Selector(certificates[i], naming), naming);
    OwnsIffUnseen(certificates, i, naming);
    forall row ensures ListedFrom(certificates, i, completed, naming, row) <==>
                       || ListedFrom(certificates, i + 1, completed, naming, row)
                       || (Listed(certificates, i, completed, naming) && row == RowOf(certificates[i], naming))
    {
      ListedOneMore(certificates, i, completed, naming, row);
    }
  }

  /** `list_devices`: newest first, one row per selector not seen before. */
  method ListDevices(certificates: seq<Certificate>, completed: set<CertificateId>, naming: Naming) returns (rows: seq<Row>)
    ensures IsListing(rows, certificates, completed, naming)
  {
    rows := [];
    var seen: set<string> := {};
    var i := |certificates|;
    while i > 0
      invariant 0 <= i <= |certificates| && Scanned(rows, certificates, i, completed, naming)
      invariant forall s :: s in seen <==> s != "" && SeenFrom(certificates, i, s, naming)
    {
      i := i - 1;
      var certificate := certificates[i];
      var selector := Selector(certificate, naming);
      ScannedOneMore(rows, certificates, i, completed, naming);
      OwnsIffUnseen(certificates, i, naming);
      forall s ensures SeenFrom(certificates, i, s, naming) <==>
                       SeenFrom(certificates, i + 1, s, naming) || (IsLocalLeaf(certificate) && selector == s)
      {
        SeenOneMore(certificates, i, s, naming);
      }
      if IsLocalLeaf(certificate) && selector != "" && selector !in seen {
        seen := seen + {selector};
        if certificate.id !in completed {
          rows := rows + [RowOf(certificate, naming)];
        }
      }
    }
    SortKeeps(rows);
    rows := Sort(rows);
  }
}
