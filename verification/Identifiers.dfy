/** Certificate identifiers: normalising a requested list and comparing lists
    by the key under which staging proofs are stored. */
module Identifiers {
  import opened Common

  /** The parts of name handling that come from outside: trimming blanks and
      trailing dots, recognising IP addresses, and IDNA encoding in lower case. */
  datatype Naming = Naming(trim: string -> string, isIp: string -> bool, idna: string -> Option<string>)

  datatype Reading = Blank | Refused | Named(name: string)

  datatype Normalized = Names(names: seq<string>) | InvalidIdentifier | NoIdentifier

  predicate EndsWith(s: string, suffix: string) {
    |suffix| <= |s| && s[|s| - |suffix|..] == suffix
  }

  /** How one requested value is read. */
  function Read(raw: string, publicAcme: bool, naming: Naming): Reading {
    var value := naming.trim(raw);
    if value == "" then Blank
    else
      var wildcard := "*." <= value;
      var name := if wildcard then value[2..] else value;
      if naming.isIp(name) then
        if publicAcme then Refused else Named(name)
      else
        match naming.idna(name)
        case None => Refused
        case Some(ascii) =>
          if publicAcme && ('.' !in ascii || EndsWith(ascii, ".local") || ascii == "localhost") then Refused
          else Named(if wildcard then "*." + ascii else ascii)
  }

  /** A name that a public authority cannot serve. */
  predicate IsPrivateName(name: string) {
    '.' !in name || name == "localhost" || exists k | 0 <= k <= |name| :: name[k..] == ".local"
  }

  /** How a value reads, written out: blanks are skipped, addresses are kept as they are
      unless the authority is public, and a wildcard is put back before the encoded name. */
  lemma ReadIff(raw: string, rest: string, wildcard: bool, publicAcme: bool, naming: Naming)
    requires if wildcard then naming.trim(raw) == "*." + rest
             else naming.trim(raw) == rest && (|rest| < 2 || rest[0] != '*' || rest[1] != '.')
    ensures var r := Read(raw, publicAcme, naming);
            if !wildcard && rest == "" then r == Blank
            else if naming.isIp(rest) then r == (if publicAcme then Refused else Named(rest))
            else
              match naming.idna(rest)
              case None => r == Refused
              case Some(name) =>
                && (r == Refused <==> publicAcme && IsPrivateName(name))
                && (r != Refused ==> r == Named(if wildcard then "*." + name else name))
  {
    if wildcard {
      assert naming.trim(raw)[2..] == rest;
    }
    if naming.idna(rest).Some? {
      var name := naming.idna(rest).value;
      if exists k | 0 <= k <= |name| :: name[k..] == ".local" {
        var k :| 0 <= k <= |name| && name[k..] == ".local";
        assert k == |name| - 6;
      }
    }
  }

  /** The names read, in order. */
  function NamesRead(values: seq<string>, publicAcme: bool, naming: Naming): seq<string> {
    if values == [] then []
    else
      var last := Read(values[|values| - 1], publicAcme, naming);
      NamesRead(values[..|values| - 1], publicAcme, naming) + if last.Named? then [last.name] else []
  }

  lemma ReadOneMore(values: seq<string>, i: nat, publicAcme: bool, naming: Naming)
    requires i < |values|
    ensures var reading := Read(values[i], publicAcme, naming);
            NamesRead(values[..i + 1], publicAcme, naming)
            == if reading.Named? then NamesRead(values[..i], publicAcme, naming) + [reading.name]
               else NamesRead(values[..i], publicAcme, naming)
  {
    assert values[..i + 1][..i] == values[..i];
  }

  /** The distinct names among the first `i` values. */
  function Collected(values: seq<string>, i: nat, publicAcme: bool, naming: Naming): seq<string>
    requires i <= |values|
  {
    Distinct(NamesRead(values[..i], publicAcme, naming))
  }

  lemma CollectedOneMore(values: seq<string>, i: nat, publicAcme: bool, naming: Naming)
    requires i < |values|
    ensures var reading, before := Read(values[i], publicAcme, naming), Collected(values, i, publicAcme, naming);
            Collected(values, i + 1, publicAcme, naming)
            == if reading.Named? && reading.name !in before then before + [reading.name] else before
  {
    ReadOneMore(values, i, publicAcme, naming);
    var reading, names := Read(values[i], publicAcme, naming), NamesRead(values[..i], publicAcme, naming);
    if reading.Named? {
      DistinctOneMore(names, reading.name);
    }
  }

  lemma CollectedEnds(values: seq<string>, publicAcme: bool, naming: Naming)
    ensures Collected(values, 0, publicAcme, naming) == []
    ensures Collected(values, |values|, publicAcme, naming) == Distinct(NamesRead(values, publicAcme, naming))
    ensures Distinct(NamesRead(values, publicAcme, naming)) == [] <==> NamesRead(values, publicAcme, naming) == []
  {
    assert values[..|values|] == values;
    var names := NamesRead(values, publicAcme, naming);
    assert names != [] ==> names[0] in Distinct(names);
  }

  /** One of the first `i` values is refused. */
  predicate Refuses(values: seq<string>, i: nat, publicAcme: bool, naming: Naming)
    requires i <= |values|
  {
    exists k | 0 <= k < i :: Read(values[k], publicAcme, naming).Refused?
  }

  lemma RefusesOneMore(values: seq<string>, i: nat, publicAcme: bool, naming: Naming)
    requires i < |values|
    ensures Refuses(values, i + 1, publicAcme, naming) <==>
            Refuses(values, i, publicAcme, naming) || Read(values[i], publicAcme, naming).Refused?
  {
  }

  lemma RefusesStays(values: seq<string>, i: nat, publicAcme: bool, naming: Naming)
    requires i <= |values| && Refuses(values, i, publicAcme, naming)
    ensures Refuses(values, |values|, publicAcme, naming)
  {
  }

  /** `normalize_identifiers`. */
  method NormalizeIdentifiers(values: seq<string>, publicAcme: bool, naming: Naming) returns (r: Normalized)
    ensures r.InvalidIdentifier? <==> Refuses(values, |values|, publicAcme, naming)
    ensures r.Names? ==> r.names == Distinct(NamesRead(values, publicAcme, naming)) && r.names != []
    ensures r.NoIdentifier? ==> NamesRead(values, publicAcme, naming) == []
  {
    var normalized: seq<string> := [];
    var seen: set<string> := {};
    CollectedEnds(values, publicAcme, naming);
    for i := 0 to |values|
      invariant !Refuses(values, i, publicAcme, naming)
      invariant normalized == Collected(values, i, publicAcme, naming)
      invariant forall n :: n in seen <==> n in normalized
    {
      var reading := Read(values[i], publicAcme, naming);
      CollectedOneMore(values, i, publicAcme, naming);
      RefusesOneMore(values, i, publicAcme, naming);
      if reading.Refused? {
        RefusesStays(values, i + 1, publicAcme, naming);
        return InvalidIdentifier;
      }
      if reading.Named? && reading.name !in seen {
        normalized := normalized + [reading.name];
        seen := seen + {reading.name};
      }
    }
    r := if normalized == [] then NoIdentifier else Names(normalized);
  }

  // ---- The key of a staging proof ----

  /** The order in which strings are sorted: by their first differing character. */
  predicate Leq(a: string, b: string) {
    a == "" || (b != "" && (a[0] < b[0] || (a[0] == b[0] && Leq(a[1..], b[1..]))))
  }

  lemma {:induction false} LeqTotal(a: string, b: string)
    ensures Leq(a, b) || Leq(b, a)
  {
    if a != "" && b != "" && a[0] == b[0] {
      LeqTotal(a[1..], b[1..]);
    }
  }

  lemma {:induction false} LeqAntisymmetric(a: string, b: string)
    requires Leq(a, b) && Leq(b, a)
    ensures a == b
  {
    if a != "" {
      LeqAntisymmetric(a[1..], b[1..]);
      assert a == [a[0]] + a[1..] && b == [b[0]] + b[1..];
    }
  }

  lemma {:induction false} LeqTransitive(a: string, b: string, c: string)
    requires Leq(a, b) && Leq(b, c)
    ensures Leq(a, c)
  {
    if a != "" && a[0] == b[0] == c[0] {
      LeqTransitive(a[1..], b[1..], c[1..]);
    }
  }

  /** At the first character in which they differ, `a` has the lower one, or it ends there. */
  predicate Before(a: string, b: string, k: nat) {
    k <= |a| && k < |b| && a[..k] == b[..k] && (k == |a| || a[k] < b[k])
  }

  lemma {:induction false} LeqIff(a: string, b: string)
    ensures Leq(a, b) <==> a == b || exists k :: Before(a, b, k)
  {
    if a == "" {
      assert b != "" ==> Before(a, b, 0);
    } else if b != "" {
      LeqIff(a[1..], b[1..]);
      assert a == [a[0]] + a[1..] && b == [b[0]] + b[1..];
      forall k: nat | k > 0 && Before(a, b, k) ensures a[0] == b[0] {
        assert a[..k][0] == b[..k][0];
      }
      if a[0] < b[0] {
        assert Before(a, b, 0);
      }
      if a[0] == b[0] {
        forall k: nat ensures Before(a[1..], b[1..], k) ==> Before(a, b, k + 1) {
          if Before(a[1..], b[1..], k) {
            assert a[..k + 1] == [a[0]] + a[1..][..k] && b[..k + 1] == [b[0]] + b[1..][..k];
          }
        }
        forall k: nat ensures Before(a, b, k + 1) ==> Before(a[1..], b[1..], k) {
          if Before(a, b, k + 1) {
            assert a[1..][..k] == a[..k + 1][1..] && b[1..][..k] == b[..k + 1][1..];
          }
        }
        if k: nat :| Before(a, b, k) {
          assert k > 0 && Before(a[1..], b[1..], k - 1);
        }
      }
    }
  }

  predicate IsSorted(s: seq<string>) {
    forall i, j | 0 <= i < j < |s| :: Leq(s[i], s[j])
  }

  function Insert(x: string, s: seq<string>): seq<string> {
    if s == [] || Leq(x, s[0]) then [x] + s else [s[0]] + Insert(x, s[1..])
  }

  /** `sorted`. */
  function Sort(s: seq<string>): seq<string> {
    if s == [] then [] else Insert(s[0], Sort(s[1..]))
  }

  lemma SortedCons(x: string, s: seq<string>)
    requires IsSorted(s) && (s != [] ==> Leq(x, s[0]))
    ensures IsSorted([x] + s)
  {
    forall j | 0 <= j < |s| ensures Leq(x, s[j]) {
      if j > 0 { LeqTransitive(x, s[0], s[j]); }
    }
    assert forall i | 1 <= i < |s| + 1 :: ([x] + s)[i] == s[i - 1];
  }

  lemma {:induction false} InsertSorted(x: string, s: seq<string>)
    requires IsSorted(s)
    ensures IsSorted(Insert(x, s))
    ensures Insert(x, s)[0] == x || (s != [] && Insert(x, s)[0] == s[0])
  {
    if s == [] || Leq(x, s[0]) {
      SortedCons(x, s);
    } else {
      InsertSorted(x, s[1..]);
      LeqTotal(x, s[0]);
      SortedCons(s[0], Insert(x, s[1..]));
    }
  }

  lemma {:induction false} InsertPermutes(x: string, s: seq<string>)
    ensures multiset(Insert(x, s)) == multiset(s) + multiset{x}
  {
    if s != [] && !Leq(x, s[0]) {
      InsertPermutes(x, s[1..]);
      assert s == [s[0]] + s[1..];
    }
  }

  lemma {:induction false} SortSorts(s: seq<string>)
    ensures IsSorted(Sort(s)) && multiset(Sort(s)) == multiset(s)
  {
    if s != [] {
      SortSorts(s[1..]);
      InsertSorted(s[0], Sort(s[1..]));
      InsertPermutes(s[0], Sort(s[1..]));
      assert s == [s[0]] + s[1..];
    }
  }

  /** The head of a sorted list stands below each of its elements. */
  lemma HeadLeast(s: seq<string>, x: string)
    requires IsSorted(s) && x in s
    ensures Leq(s[0], x)
  {
    var i :| 0 <= i < |s| && s[i] == x;
    if i == 0 { LeqTotal(x, x); }
  }

  lemma HeadsEqual(s: seq<string>, t: seq<string>)
    requires IsSorted(s) && IsSorted(t) && multiset(s) == multiset(t) && s != [] && t != []
    ensures s[0] == t[0]
  {
    assert s[0] in multiset(t) && t[0] in multiset(s);
    HeadLeast(t, s[0]);
    HeadLeast(s, t[0]);
    LeqAntisymmetric(s[0], t[0]);
  }

  lemma TailMultiset(s: seq<string>)
    requires s != []
    ensures multiset(s[1..]) == multiset(s) - multiset{s[0]}
  {
    assert s == [s[0]] + s[1..];
  }

  lemma {:induction false} SortedUnique(s: seq<string>, t: seq<string>)
    requires IsSorted(s) && IsSorted(t) && multiset(s) == multiset(t)
    ensures s == t
    decreases |s|
  {
    assert |s| == |multiset(s)| == |multiset(t)| == |t|;
    if s != [] {
      HeadsEqual(s, t);
      var s', t' := s[1..], t[1..];
      assert s == [s[0]] + s' && t == [t[0]] + t';
      TailMultiset(s);
      TailMultiset(t);
      SortedUnique(s', t');
    }
  }

  predicate SameNames(s: seq<string>, t: seq<string>) {
    (forall n | n in s :: n in t) && (forall n | n in t :: n in s)
  }

  /** The key under which a staging proof is stored, the digest taken as injective. */
  function ProofKey(identifiers: seq<string>): seq<string> {
    Sort(identifiers)
  }

  lemma {:induction false} NoDuplicatesCount(s: seq<string>)
    requires NoDuplicates(s)
    ensures forall n :: multiset(s)[n] == if n in s then 1 else 0
  {
    if s != [] {
      assert s == [s[0]] + s[1..];
      NoDuplicatesCount(s[1..]);
    }
  }

  /** Equal keys always mean equal sets of names. */
  lemma EqualKeysSameNames(s: seq<string>, t: seq<string>)
    requires ProofKey(s) == ProofKey(t)
    ensures SameNames(s, t)
  {
    SortSorts(s);
    SortSorts(t);
    assert forall n :: n in s <==> n in multiset(s);
    assert forall n :: n in t <==> n in multiset(t);
  }

  /** On lists without duplicates, such as normalised ones, the key is equal
      exactly when the sets of names are. */
  lemma KeyIffSameNames(s: seq<string>, t: seq<string>)
    requires NoDuplicates(s) && NoDuplicates(t)
    ensures ProofKey(s) == ProofKey(t) <==> SameNames(s, t)
  {
    if ProofKey(s) == ProofKey(t) {
      EqualKeysSameNames(s, t);
    }
    if SameNames(s, t) {
      NoDuplicatesCount(s);
      NoDuplicatesCount(t);
      assert multiset(s) == multiset(t);
      SortSorts(s);
      SortSorts(t);
      SortedUnique(Sort(s), Sort(t));
    }
  }
}
