/** Ordering a supplied certificate chain and judging an imported certificate. */
module Chain {
  import opened Common

  datatype Constraints = Constraints(ca: bool, pathLength: Option<nat>)

  /** What the validator reads from a certificate. Two certificates with equal
      fields are the same certificate. */
  datatype Certificate = Certificate(
    subject: string,
    issuer: string,
    publicKey: nat,
    notBefore: int,
    notAfter: int,
    constraints: Option<Constraints>,
    keyCertSign: Option<bool>,
    identifiers: set<string>,
    fingerprint: nat)

  /** Whether a certificate's signature verifies under a public key. */
  type SignatureCheck = (Certificate, nat) -> bool

  datatype ErrorCode =
    | PrivateKeyMismatch
    | NotYetValid
    | Expired
    | LeafIsCa
    | IdentifierMismatch
    | ChainIncomplete
    | IssuerMismatch
    | SignatureInvalid
    | InvalidTime
    | IssuerNotCa
    | PathLengthExceeded
    | MissingCaConstraint
    | CannotSign

  datatype TrustStatus = System | Enterprise | ExplicitPrivate | Untrusted

  predicate SelfIssued(c: Certificate) {
    c.subject == c.issuer
  }

  predicate IsCa(c: Certificate) {
    c.constraints.Some? && c.constraints.value.ca
  }

  // ---- Ordering ----

  /** The first certificate whose subject is the issuer of `last`. */
  function FirstIssuer(last: Certificate, remaining: seq<Certificate>): (found: Option<Certificate>)
    ensures found.Some? ==> found.value in remaining && found.value.subject == last.issuer
    ensures found.None? ==> forall c | c in remaining :: c.subject != last.issuer
  {
    if remaining == [] then None
    else if remaining[0].subject == last.issuer then Some(remaining[0])
    else FirstIssuer(last, remaining[1..])
  }

  /** `list.remove`: drops the first element equal to `c`. */
  function Remove(s: seq<Certificate>, c: Certificate): (r: seq<Certificate>)
    requires c in s
    ensures |r| == |s| - 1
  {
    if s[0] == c then s[1..] else [s[0]] + Remove(s[1..], c)
  }

  lemma {:induction false} RemoveMultiset(s: seq<Certificate>, c: Certificate)
    requires c in s
    ensures multiset(Remove(s, c)) == multiset(s) - multiset{c}
  {
    assert s == [s[0]] + s[1..];
    if s[0] != c {
      RemoveMultiset(s[1..], c);
    }
  }

  /** The certificates placed after `last`. */
  function Issuers(last: Certificate, remaining: seq<Certificate>): seq<Certificate>
    decreases |remaining|
  {
    match FirstIssuer(last, remaining)
    case None => []
    case Some(c) => [c] + if SelfIssued(c) then [] else Issuers(c, Remove(remaining, c))
  }

  /** `_order_chain`. */
  method OrderChain(leaf: Certificate, supplied: seq<Certificate>) returns (ordered: seq<Certificate>)
    ensures ordered == [leaf] + Issuers(leaf, supplied)
  {
    ordered := [leaf];
    var remaining := supplied;
    while remaining != []
      invariant ordered != []
      invariant ordered + Issuers(ordered[|ordered| - 1], remaining) == [leaf] + Issuers(leaf, supplied)
      decreases |remaining|
    {
      var last := ordered[|ordered| - 1];
      var found := FirstIssuer(last, remaining);
      if found.None? {
        break;
      }
      var c := found.value;
      ghost var rest := if SelfIssued(c) then [] else Issuers(c, Remove(remaining, c));
      assert ordered + ([c] + rest) == ordered + [c] + rest;
      ordered := ordered + [c];
      remaining := Remove(remaining, c);
      if SelfIssued(c) {
        return;
      }
    }
    assert Issuers(ordered[|ordered| - 1], remaining) == [];
  }

  /** A subject names at most one certificate of the list. */
  ghost predicate SubjectsDetermine(s: seq<Certificate>) {
    forall i, j | 0 <= i < j < |s| && s[i].subject == s[j].subject :: s[i] == s[j]
  }

  lemma SameMembers(s: seq<Certificate>, t: seq<Certificate>)
    requires multiset(s) == multiset(t)
    ensures forall c :: c in s <==> c in t
  {
    assert forall c :: c in s <==> c in multiset(s);
    assert forall c :: c in t <==> c in multiset(t);
  }

  lemma SameSubject(s: seq<Certificate>, c: Certificate, d: Certificate)
    requires SubjectsDetermine(s) && c in s && d in s && c.subject == d.subject
    ensures c == d
  {
    var i :| 0 <= i < |s| && s[i] == c;
    var j :| 0 <= j < |s| && s[j] == d;
    if i < j {
      assert s[i] == s[j];
    } else if j < i {
      assert s[j] == s[i];
    }
  }

  lemma RemoveDetermines(s: seq<Certificate>, c: Certificate)
    requires c in s && SubjectsDetermine(s)
    ensures SubjectsDetermine(Remove(s, c))
  {
    var r := Remove(s, c);
    RemoveMultiset(s, c);
    forall i, j | 0 <= i < j < |r| && r[i].subject == r[j].subject ensures r[i] == r[j] {
      assert r[i] in multiset(r) && r[j] in multiset(r);
      assert r[i] in multiset(s) && r[j] in multiset(s);
      SameSubject(s, r[i], r[j]);
    }
  }

  lemma SameFirstIssuer(last: Certificate, s: seq<Certificate>, t: seq<Certificate>)
    requires multiset(s) == multiset(t) && SubjectsDetermine(s)
    ensures FirstIssuer(last, s) == FirstIssuer(last, t)
  {
    SameMembers(s, t);
    var found, other := FirstIssuer(last, s), FirstIssuer(last, t);
    if found.Some? && other.Some? {
      SameSubject(s, found.value, other.value);
    }
  }

  /** The chain does not depend on the order in which certificates were supplied. */
  lemma {:induction false} OrderIrrelevant(last: Certificate, s: seq<Certificate>, t: seq<Certificate>)
    requires multiset(s) == multiset(t) && SubjectsDetermine(s)
    ensures Issuers(last, s) == Issuers(last, t)
    decreases |s|
  {
    SameMembers(s, t);
    SameFirstIssuer(last, s, t);
    var found := FirstIssuer(last, s);
    if found.Some? {
      var c := found.value;
      RemoveMultiset(s, c);
      RemoveMultiset(t, c);
      RemoveDetermines(s, c);
      OrderIrrelevant(c, Remove(s, c), Remove(t, c));
    }
  }

  /** The certificate that `issuers[i]` is expected to have issued. */
  function Child(leaf: Certificate, issuers: seq<Certificate>, i: nat): Certificate
    requires i < |issuers|
  {
    if i == 0 then leaf else issuers[i - 1]
  }

  /** Each certificate of `[last] + issuers` names the next one as its issuer. */
  predicate Linked(last: Certificate, issuers: seq<Certificate>) {
    forall i | 0 <= i < |issuers| :: Child(last, issuers, i).issuer == issuers[i].subject
  }

  /** Only the last certificate of the list may be self-issued. */
  predicate SelfIssuedOnlyLast(issuers: seq<Certificate>) {
    forall i | 0 <= i < |issuers| - 1 :: !SelfIssued(issuers[i])
  }

  lemma LinkedCons(last: Certificate, c: Certificate, rest: seq<Certificate>)
    ensures Linked(last, [c] + rest) <==> last.issuer == c.subject && Linked(c, rest)
  {
    var issuers := [c] + rest;
    assert Child(last, issuers, 0) == last && issuers[0] == c;
    forall i | 0 <= i < |rest| ensures Child(c, rest, i) == Child(last, issuers, i + 1) && rest[i] == issuers[i + 1] {
    }
    forall i | 1 <= i < |issuers| ensures Child(last, issuers, i) == Child(c, rest, i - 1) && rest[i - 1] == issuers[i] {
    }
  }

  lemma SelfIssuedCons(c: Certificate, rest: seq<Certificate>)
    requires SelfIssuedOnlyLast(rest) && !SelfIssued(c)
    ensures SelfIssuedOnlyLast([c] + rest)
  {
    assert forall i | 1 <= i < |rest| + 1 :: ([c] + rest)[i] == rest[i - 1];
  }

  /** Every adjacent pair of an ordered chain is linked. */
  lemma {:induction false} OrderedLinked(last: Certificate, remaining: seq<Certificate>)
    ensures Linked(last, Issuers(last, remaining))
    decreases |remaining|
  {
    var found := FirstIssuer(last, remaining);
    if found.Some? {
      var c := found.value;
      var rest := if SelfIssued(c) then [] else Issuers(c, Remove(remaining, c));
      if !SelfIssued(c) {
        OrderedLinked(c, Remove(remaining, c));
      }
      LinkedCons(last, c, rest);
    }
  }

  /** The search stops at the first self-issued issuer. */
  lemma {:induction false} OrderedSelfIssued(last: Certificate, remaining: seq<Certificate>)
    ensures SelfIssuedOnlyLast(Issuers(last, remaining))
    decreases |remaining|
  {
    var found := FirstIssuer(last, remaining);
    if found.Some? && !SelfIssued(found.value) {
      var c := found.value;
      OrderedSelfIssued(c, Remove(remaining, c));
      SelfIssuedCons(c, Issuers(c, Remove(remaining, c)));
    }
  }

  /** Every issuer placed was supplied, and no more often than supplied. */
  lemma {:induction false} OrderedSupplied(last: Certificate, remaining: seq<Certificate>)
    ensures multiset(Issuers(last, remaining)) <= multiset(remaining)
    ensures |Issuers(last, remaining)| <= |remaining|
    decreases |remaining|
  {
    var found := FirstIssuer(last, remaining);
    if found.Some? {
      var c := found.value;
      var rest := if SelfIssued(c) then [] else Issuers(c, Remove(remaining, c));
      if !SelfIssued(c) {
        OrderedSupplied(c, Remove(remaining, c));
      }
      RemoveMultiset(remaining, c);
      assert multiset([c] + rest) == multiset{c} + multiset(rest);
      assert c in multiset(remaining);
    }
  }

  /** A path upwards from `last`: linked, and self-issued at most at its end. */
  predicate UpwardPath(last: Certificate, path: seq<Certificate>) {
    Linked(last, path) && SelfIssuedOnlyLast(path)
  }

  /** A complete path from the issuer of `last` up to a self-issued root. */
  predicate CompletePath(last: Certificate, path: seq<Certificate>) {
    path != [] && UpwardPath(last, path) && SelfIssued(path[|path| - 1])
  }

  lemma SelfIssuedTail(c: Certificate, rest: seq<Certificate>)
    requires SelfIssuedOnlyLast([c] + rest)
    ensures SelfIssuedOnlyLast(rest) && (rest != [] ==> !SelfIssued(c))
  {
    var path := [c] + rest;
    assert path[0] == c;
    forall i | 0 <= i < |rest| - 1 ensures !SelfIssued(rest[i]) {
      assert rest[i] == path[i + 1];
    }
  }

  lemma FirstPlaced(last: Certificate, c: Certificate, rest: seq<Certificate>)
    requires c.subject == last.issuer
    ensures Issuers(last, [c] + rest) == [c] + if SelfIssued(c) then [] else Issuers(c, rest)
  {
    assert ([c] + rest)[1..] == rest;
    assert FirstIssuer(last, [c] + rest) == Some(c) && Remove([c] + rest, c) == rest;
  }

  /** Supplied in order, an upward path is the chain. */
  lemma {:induction false} PathInOrder(last: Certificate, path: seq<Certificate>)
    requires UpwardPath(last, path)
    ensures Issuers(last, path) == path
    decreases |path|
  {
    if path != [] {
      var c, rest := path[0], path[1..];
      assert path == [c] + rest;
      LinkedCons(last, c, rest);
      SelfIssuedTail(c, rest);
      FirstPlaced(last, c, rest);
      PathInOrder(c, rest);
    }
  }

  /** So is it when supplied in any order. */
  lemma PathRecovered(leaf: Certificate, path: seq<Certificate>, supplied: seq<Certificate>)
    requires UpwardPath(leaf, path) && SubjectsDetermine(path)
    requires multiset(supplied) == multiset(path)
    ensures Issuers(leaf, supplied) == path
  {
    OrderIrrelevant(leaf, path, supplied);
    PathInOrder(leaf, path);
  }

  /** A complete chain to a self-issued root is recovered in full from any order. */
  lemma CompleteChainRecovered(leaf: Certificate, path: seq<Certificate>, supplied: seq<Certificate>)
    requires CompletePath(leaf, path) && SubjectsDetermine(path)
    requires multiset(supplied) == multiset(path)
    ensures Issuers(leaf, supplied) == path
  {
    PathRecovered(leaf, path, supplied);
  }

  // ---- The verdict ----

  function CountCas(issuers: seq<Certificate>): nat {
    if issuers == [] then 0 else CountCas(issuers[1..]) + if IsCa(issuers[0]) then 1 else 0
  }

  /** The codes an issuer adds once its link holds. `below` holds the issuers
      between the leaf and this one. */
  function IssuerErrors(issuer: Certificate, below: seq<Certificate>, now: int): seq<ErrorCode> {
    (if issuer.notBefore > now || issuer.notAfter <= now then [InvalidTime] else [])
    + (match issuer.constraints
       case None => [MissingCaConstraint]
       case Some(constraints) =>
         if !constraints.ca then [IssuerNotCa]
         else if constraints.pathLength.Some? && CountCas(below) > constraints.pathLength.value then [PathLengthExceeded]
         else [])
    + (if issuer.keyCertSign == Some(false) then [CannotSign] else [])
  }

  /** The codes of the links from issuer `index` on; a broken link ends the scan. */
  function ChainErrors(leaf: Certificate, issuers: seq<Certificate>, index: nat, now: int, signed: SignatureCheck)
    : seq<ErrorCode>
    requires index <= |issuers|
    decreases |issuers| - index
  {
    if index == |issuers| then []
    else if Child(leaf, issuers, index).issuer != issuers[index].subject then [IssuerMismatch]
    else if !signed(Child(leaf, issuers, index), issuers[index].publicKey) then [SignatureInvalid]
    else IssuerErrors(issuers[index], issuers[..index], now) + ChainErrors(leaf, issuers, index + 1, now, signed)
  }

  function LeafErrors(leaf: Certificate, publicKey: nat, expected: set<string>, now: int): seq<ErrorCode> {
    (if leaf.publicKey != publicKey then [PrivateKeyMismatch] else [])
    + (if leaf.notBefore > now then [NotYetValid] else [])
    + (if leaf.notAfter <= now then [Expired] else [])
    + (if IsCa(leaf) then [LeafIsCa] else [])
    + (if expected != {} && !(expected <= leaf.identifiers) then [IdentifierMismatch] else [])
  }

  function AllErrors(
    leaf: Certificate, publicKey: nat, supplied: seq<Certificate>, expected: set<string>, now: int, signed: SignatureCheck)
    : seq<ErrorCode>
  {
    var issuers := Issuers(leaf, supplied);
    LeafErrors(leaf, publicKey, expected, now)
    + (if supplied != [] && |issuers| != |supplied| then [ChainIncomplete] else [])
    + ChainErrors(leaf, issuers, 0, now, signed)
  }

  function Trust(ordered: seq<Certificate>, system: set<nat>, enterprise: set<nat>, private_: set<nat>, explicitRoot: bool)
    : TrustStatus
  {
    if |ordered| <= 1 then Untrusted
    else
      var root := ordered[|ordered| - 1].fingerprint;
      if root in system then System
      else if root in enterprise then Enterprise
      else if root in private_ || explicitRoot then ExplicitPrivate
      else Untrusted
  }

  /** The body of the chain loop after the two checks that end it. */
  method CheckIssuer(issuer: Certificate, below: seq<Certificate>, now: int) returns (errors: seq<ErrorCode>)
    ensures errors == IssuerErrors(issuer, below, now)
  {
    errors := [];
    if issuer.notBefore > now || issuer.notAfter <= now {
      errors := errors + [InvalidTime];
    }
    match issuer.constraints {
      case None =>
        errors := errors + [MissingCaConstraint];
      case Some(constraints) =>
        if !constraints.ca {
          errors := errors + [IssuerNotCa];
        } else if constraints.pathLength.Some? {
          var subordinate := CountCas(below);
          if subordinate > constraints.pathLength.value {
            errors := errors + [PathLengthExceeded];
          }
        }
    }
    if issuer.keyCertSign == Some(false) {
      errors := errors + [CannotSign];
    }
  }

  /** The loop of `validate_certificate_import` over the ordered chain. */
  method CheckChain(ordered: seq<Certificate>, now: int, signed: SignatureCheck) returns (errors: seq<ErrorCode>)
    requires ordered != []
    ensures errors == ChainErrors(ordered[0], ordered[1..], 0, now, signed)
  {
    ghost var leaf, issuers := ordered[0], ordered[1..];
    errors := [];
    var index := 0;
    while index < |ordered| - 1
      invariant 0 <= index <= |issuers|
      invariant errors + ChainErrors(leaf, issuers, index, now, signed) == ChainErrors(leaf, issuers, 0, now, signed)
    {
      var child, issuer := ordered[index], ordered[index + 1];
      assert issuer == issuers[index] && child == Child(leaf, issuers, index);
      assert ordered[1..index + 1] == issuers[..index];
      if child.issuer != issuer.subject {
        errors := errors + [IssuerMismatch];
        return;
      }
      if !signed(child, issuer.publicKey) {
        errors := errors + [SignatureInvalid];
        return;
      }
      var more := CheckIssuer(issuer, ordered[1..index + 1], now);
      assert errors + (more + ChainErrors(leaf, issuers, index + 1, now, signed))
          == errors + more + ChainErrors(leaf, issuers, index + 1, now, signed);
      errors := errors + more;
      index := index + 1;
    }
  }

  /** `validate_certificate_import`. The reported codes are the distinct codes of `errors`. */
  method ValidateImport(
    leaf: Certificate, publicKey: nat, supplied: seq<Certificate>, expected: set<string>, now: int,
    signed: SignatureCheck, system: set<nat>, enterprise: set<nat>, private_: set<nat>, explicitRoot: bool)
    returns (valid: bool, trust: TrustStatus, ordered: seq<Certificate>, errors: seq<ErrorCode>)
    ensures ordered == [leaf] + Issuers(leaf, supplied)
    ensures errors == AllErrors(leaf, publicKey, supplied, expected, now, signed)
    ensures valid <==> errors == []
    ensures trust == Trust(ordered, system, enterprise, private_, explicitRoot)
  {
    ordered := OrderChain(leaf, supplied);
    assert ordered[1..] == Issuers(leaf, supplied);
    var incomplete := if supplied != [] && |ordered| != |supplied| + 1 then [ChainIncomplete] else [];
    var chainErrors := CheckChain(ordered, now, signed);
    errors := LeafErrors(leaf, publicKey, expected, now) + incomplete + chainErrors;
    valid := errors == [];
    trust := Trust(ordered, system, enterprise, private_, explicitRoot);
  }

  // ---- The reference: section 6.1.4 of RFC 5280 ----

  /** Steps (k), (l) and (m) run from the root, which stands last, down to the
      certificate that issued the leaf. `maxPathLength` is the counter's value. */
  predicate Rfc5280Path(issuers: seq<Certificate>, maxPathLength: int) {
    issuers == [] ||
    var c := issuers[|issuers| - 1];
    && IsCa(c)
    && (!SelfIssued(c) ==> maxPathLength > 0)
    && var decremented := if SelfIssued(c) then maxPathLength else maxPathLength - 1;
       var limited := if c.constraints.value.pathLength.Some? && c.constraints.value.pathLength.value < decremented
                      then c.constraints.value.pathLength.value else decremented;
       Rfc5280Path(issuers[..|issuers| - 1], limited)
  }

  /** The validator's own path-length rule for one issuer. */
  predicate WithinLength(issuers: seq<Certificate>, p: nat)
    requires p < |issuers|
  {
    IsCa(issuers[p]) &&
    (issuers[p].constraints.value.pathLength.Some?
     ==> CountCas(issuers[..p]) <= issuers[p].constraints.value.pathLength.value)
  }

  predicate PerIssuerPath(issuers: seq<Certificate>) {
    forall p | 0 <= p < |issuers| :: WithinLength(issuers, p)
  }

  predicate LengthsAllow(issuers: seq<Certificate>) {
    forall p | 0 <= p < |issuers| ::
      IsCa(issuers[p]) &&
      (issuers[p].constraints.value.pathLength.Some? ==> p <= issuers[p].constraints.value.pathLength.value)
  }

  lemma {:induction false} CountAllCas(issuers: seq<Certificate>)
    requires forall c | c in issuers :: IsCa(c)
    ensures CountCas(issuers) == |issuers|
  {
    if issuers != [] {
      CountAllCas(issuers[1..]);
    }
  }

  lemma PerIssuerIsLengths(issuers: seq<Certificate>)
    ensures PerIssuerPath(issuers) <==> LengthsAllow(issuers)
  {
    if exists p :: 0 <= p < |issuers| && !IsCa(issuers[p]) {
      var p :| 0 <= p < |issuers| && !IsCa(issuers[p]);
      assert !WithinLength(issuers, p);
    } else {
      forall p | 0 <= p < |issuers| ensures CountCas(issuers[..p]) == p {
        CountAllCas(issuers[..p]);
      }
      assert forall p | 0 <= p < |issuers| :: WithinLength(issuers, p) <==>
        (issuers[p].constraints.value.pathLength.Some? ==> p <= issuers[p].constraints.value.pathLength.value);
    }
  }

  lemma {:induction false} CounterBelowRoot(issuers: seq<Certificate>, maxPathLength: int)
    requires forall c | c in issuers :: !SelfIssued(c)
    requires maxPathLength >= 0
    ensures Rfc5280Path(issuers, maxPathLength) <==> |issuers| <= maxPathLength && LengthsAllow(issuers)
  {
    if issuers != [] {
      var n := |issuers| - 1;
      var c, below := issuers[n], issuers[..n];
      assert issuers == below + [c];
      if IsCa(c) && maxPathLength > 0 {
        var length := c.constraints.value.pathLength;
        CounterBelowRoot(below, if length.Some? && length.value < maxPathLength - 1 then length.value else maxPathLength - 1);
      }
      LengthsSnoc(below, c);
    }
  }

  lemma LengthsSnoc(below: seq<Certificate>, c: Certificate)
    ensures LengthsAllow(below + [c]) <==>
      && LengthsAllow(below) && IsCa(c)
      && (c.constraints.value.pathLength.Some? ==> |below| <= c.constraints.value.pathLength.value)
  {
    var issuers := below + [c];
    assert issuers[|below|] == c;
    assert forall p | 0 <= p < |below| :: issuers[p] == below[p];
  }

  /** The rules agree on any issuers of which only the last may be self-issued. */
  lemma CounterIsLengths(issuers: seq<Certificate>)
    requires SelfIssuedOnlyLast(issuers)
    ensures Rfc5280Path(issuers, |issuers| + 1) <==> LengthsAllow(issuers)
  {
    if issuers != [] {
      var n := |issuers| - 1;
      var c, below := issuers[n], issuers[..n];
      assert issuers == below + [c];
      LengthsSnoc(below, c);
      assert forall d | d in below :: !SelfIssued(d);
      if IsCa(c) {
        var decremented := if SelfIssued(c) then n + 2 else n + 1;
        var length := c.constraints.value.pathLength;
        CounterBelowRoot(below, if length.Some? && length.value < decremented then length.value else decremented);
      }
    }
  }

  /** On every ordered chain the per-issuer rule and the RFC 5280 counter agree. */
  lemma PathRulesAgree(leaf: Certificate, supplied: seq<Certificate>)
    ensures var issuers := Issuers(leaf, supplied);
            PerIssuerPath(issuers) <==> Rfc5280Path(issuers, |issuers| + 1)
  {
    var issuers := Issuers(leaf, supplied);
    OrderedSelfIssued(leaf, supplied);
    PerIssuerIsLengths(issuers);
    CounterIsLengths(issuers);
  }

  /** One link of an acceptable chain, path length aside. */
  predicate GoodLink(leaf: Certificate, issuers: seq<Certificate>, i: nat, now: int, signed: SignatureCheck)
    requires i < |issuers|
  {
    && Child(leaf, issuers, i).issuer == issuers[i].subject
    && signed(Child(leaf, issuers, i), issuers[i].publicKey)
    && issuers[i].notBefore <= now < issuers[i].notAfter
    && issuers[i].keyCertSign != Some(false)
  }

  predicate GoodLinks(leaf: Certificate, issuers: seq<Certificate>, now: int, signed: SignatureCheck) {
    forall i | 0 <= i < |issuers| :: GoodLink(leaf, issuers, i, now, signed)
  }

  predicate GoodLeaf(leaf: Certificate, publicKey: nat, expected: set<string>, now: int) {
    leaf.publicKey == publicKey && leaf.notBefore <= now < leaf.notAfter && !IsCa(leaf) && expected <= leaf.identifiers
  }

  /** What an accepted import means, without the validator's own scan. */
  ghost predicate Acceptable(
    leaf: Certificate, publicKey: nat, supplied: seq<Certificate>, expected: set<string>, now: int, signed: SignatureCheck)
  {
    var issuers := Issuers(leaf, supplied);
    && GoodLeaf(leaf, publicKey, expected, now)
    && multiset(issuers) == multiset(supplied)
    && GoodLinks(leaf, issuers, now, signed)
    && Rfc5280Path(issuers, |issuers| + 1)
  }

  lemma {:induction false} NoChainErrors(
    leaf: Certificate, issuers: seq<Certificate>, index: nat, now: int, signed: SignatureCheck)
    requires index <= |issuers|
    ensures ChainErrors(leaf, issuers, index, now, signed) == [] <==>
            forall i | index <= i < |issuers| :: GoodLink(leaf, issuers, i, now, signed) && WithinLength(issuers, i)
    decreases |issuers| - index
  {
    if index < |issuers| {
      NoChainErrors(leaf, issuers, index + 1, now, signed);
      NoIssuerErrors(issuers[index], issuers[..index], now);
      if GoodLink(leaf, issuers, index, now, signed) && WithinLength(issuers, index) {
        assert IssuerErrors(issuers[index], issuers[..index], now) == [];
      }
    }
  }

  lemma NoIssuerErrors(issuer: Certificate, below: seq<Certificate>, now: int)
    ensures IssuerErrors(issuer, below, now) == [] <==>
      && issuer.notBefore <= now < issuer.notAfter
      && IsCa(issuer)
      && (issuer.constraints.value.pathLength.Some? ==> CountCas(below) <= issuer.constraints.value.pathLength.value)
      && issuer.keyCertSign != Some(false)
  {
  }

  lemma AllSupplied(issuers: seq<Certificate>, supplied: seq<Certificate>)
    requires multiset(issuers) <= multiset(supplied)
    ensures multiset(issuers) == multiset(supplied) <==> |issuers| == |supplied|
  {
    var rest := multiset(supplied) - multiset(issuers);
    assert multiset(supplied) == multiset(issuers) + rest;
    assert |multiset(issuers)| == |issuers| && |multiset(supplied)| == |supplied|;
    if |issuers| == |supplied| {
      assert |rest| == 0;
    }
  }

  lemma NoLeafErrors(leaf: Certificate, publicKey: nat, expected: set<string>, now: int)
    ensures LeafErrors(leaf, publicKey, expected, now) == [] <==> GoodLeaf(leaf, publicKey, expected, now)
  {
  }

  lemma NoErrorsInChain(leaf: Certificate, issuers: seq<Certificate>, now: int, signed: SignatureCheck)
    ensures ChainErrors(leaf, issuers, 0, now, signed) == [] <==>
            GoodLinks(leaf, issuers, now, signed) && PerIssuerPath(issuers)
  {
    NoChainErrors(leaf, issuers, 0, now, signed);
    if ChainErrors(leaf, issuers, 0, now, signed) == [] {
      assert forall i | 0 <= i < |issuers| :: GoodLink(leaf, issuers, i, now, signed) && WithinLength(issuers, i);
    }
  }

  lemma EmptyConcatenation(a: seq<ErrorCode>, b: seq<ErrorCode>, c: seq<ErrorCode>)
    ensures a + b + c == [] <==> a == [] && b == [] && c == []
  {
    assert |a + b + c| == |a| + |b| + |c|;
  }

  lemma NoErrors(
    leaf: Certificate, publicKey: nat, supplied: seq<Certificate>, expected: set<string>, now: int, signed: SignatureCheck)
    ensures AllErrors(leaf, publicKey, supplied, expected, now, signed) == [] <==>
            && LeafErrors(leaf, publicKey, expected, now) == []
            && (supplied == [] || |Issuers(leaf, supplied)| == |supplied|)
            && ChainErrors(leaf, Issuers(leaf, supplied), 0, now, signed) == []
  {
    EmptyConcatenation(
      LeafErrors(leaf, publicKey, expected, now),
      if supplied != [] && |Issuers(leaf, supplied)| != |supplied| then [ChainIncomplete] else [],
      ChainErrors(leaf, Issuers(leaf, supplied), 0, now, signed));
  }

  lemma AllUsed(leaf: Certificate, supplied: seq<Certificate>)
    ensures supplied == [] || |Issuers(leaf, supplied)| == |supplied| <==>
            multiset(Issuers(leaf, supplied)) == multiset(supplied)
  {
    OrderedSupplied(leaf, supplied);
    AllSupplied(Issuers(leaf, supplied), supplied);
  }

  lemma NoErrorsInOrdered(leaf: Certificate, supplied: seq<Certificate>, now: int, signed: SignatureCheck)
    ensures var issuers := Issuers(leaf, supplied);
            ChainErrors(leaf, issuers, 0, now, signed) == [] <==>
            GoodLinks(leaf, issuers, now, signed) && Rfc5280Path(issuers, |issuers| + 1)
  {
    NoErrorsInChain(leaf, Issuers(leaf, supplied), now, signed);
    PathRulesAgree(leaf, supplied);
  }

  /** The validator accepts exactly the imports whose leaf fits the key, the time
      and the identifiers, whose supplied certificates are all used, whose links
      verify, and whose path passes the RFC 5280 counter. */
  lemma ValidIffAcceptable(
    leaf: Certificate, publicKey: nat, supplied: seq<Certificate>, expected: set<string>, now: int, signed: SignatureCheck)
    ensures AllErrors(leaf, publicKey, supplied, expected, now, signed) == []
       <==> Acceptable(leaf, publicKey, supplied, expected, now, signed)
  {
    NoErrors(leaf, publicKey, supplied, expected, now, signed);
    NoLeafErrors(leaf, publicKey, expected, now);
    AllUsed(leaf, supplied);
    NoErrorsInOrdered(leaf, supplied, now, signed);
  }

  /** The supplied certificates, put in some order, are an upward path of good links
      that passes the counter. */
  ghost predicate FormsGoodPath(leaf: Certificate, supplied: seq<Certificate>, path: seq<Certificate>, now: int,
                                signed: SignatureCheck)
  {
    && multiset(path) == multiset(supplied) && UpwardPath(leaf, path)
    && GoodLinks(leaf, path, now, signed) && Rfc5280Path(path, |path| + 1)
  }

  lemma {:induction false} DeterminedAgain(s: seq<Certificate>, t: seq<Certificate>)
    requires multiset(s) == multiset(t) && SubjectsDetermine(s)
    ensures SubjectsDetermine(t)
  {
    SameMembers(s, t);
    forall i, j | 0 <= i < j < |t| && t[i].subject == t[j].subject ensures t[i] == t[j] {
      assert t[i] in t && t[j] in t;
      SameSubject(s, t[i], t[j]);
    }
  }

  /** Acceptance without any mention of how the validator orders a chain: the leaf is
      good, and the supplied certificates can be put in an order that makes a good path. */
  lemma AcceptedIffGoodPath(
    leaf: Certificate, publicKey: nat, supplied: seq<Certificate>, expected: set<string>, now: int, signed: SignatureCheck)
    requires SubjectsDetermine(supplied)
    ensures AllErrors(leaf, publicKey, supplied, expected, now, signed) == [] <==>
            && GoodLeaf(leaf, publicKey, expected, now)
            && exists path :: FormsGoodPath(leaf, supplied, path, now, signed)
  {
    ValidIffAcceptable(leaf, publicKey, supplied, expected, now, signed);
    if Acceptable(leaf, publicKey, supplied, expected, now, signed) {
      OrderedLinked(leaf, supplied);
      OrderedSelfIssued(leaf, supplied);
      assert FormsGoodPath(leaf, supplied, Issuers(leaf, supplied), now, signed);
    }
    if path :| FormsGoodPath(leaf, supplied, path, now, signed) {
      DeterminedAgain(supplied, path);
      PathRecovered(leaf, path, supplied);
    }
  }

  lemma NoMismatchCode(issuer: Certificate, below: seq<Certificate>, now: int)
    ensures IssuerMismatch !in IssuerErrors(issuer, below, now)
  {
  }

  lemma {:induction false} LinkedNoMismatch(
    leaf: Certificate, issuers: seq<Certificate>, index: nat, now: int, signed: SignatureCheck)
    requires Linked(leaf, issuers) && index <= |issuers|
    ensures IssuerMismatch !in ChainErrors(leaf, issuers, index, now, signed)
    decreases |issuers| - index
  {
    if index < |issuers| {
      LinkedNoMismatch(leaf, issuers, index + 1, now, signed);
      NoMismatchCode(issuers[index], issuers[..index], now);
      assert Child(leaf, issuers, index).issuer == issuers[index].subject;
      var here, above := IssuerErrors(issuers[index], issuers[..index], now), ChainErrors(leaf, issuers, index + 1, now, signed);
      assert ChainErrors(leaf, issuers, index, now, signed) == [SignatureInvalid]
          || ChainErrors(leaf, issuers, index, now, signed) == here + above;
    }
  }

  /** The mismatch code is never reported: ordering links every pair. */
  lemma MismatchUnreachable(
    leaf: Certificate, publicKey: nat, supplied: seq<Certificate>, expected: set<string>, now: int, signed: SignatureCheck)
    ensures IssuerMismatch !in AllErrors(leaf, publicKey, supplied, expected, now, signed)
  {
    OrderedLinked(leaf, supplied);
    LinkedNoMismatch(leaf, Issuers(leaf, supplied), 0, now, signed);
  }

  // ---- Every code, and the trust status ----

  predicate SignedAt(leaf: Certificate, issuers: seq<Certificate>, i: nat, signed: SignatureCheck)
    requires i < |issuers|
  {
    signed(Child(leaf, issuers, i), issuers[i].publicKey)
  }

  /** Every link up to issuer `i` verifies, from issuer `from` on. */
  predicate SignedTo(leaf: Certificate, issuers: seq<Certificate>, from: nat, i: nat, signed: SignatureCheck)
    requires i < |issuers|
  {
    forall j | from <= j <= i :: SignedAt(leaf, issuers, j, signed)
  }

  /** The CA certificates between the leaf and issuer `i`. */
  function CasBelow(issuers: seq<Certificate>, i: nat): set<nat>
    requires i <= |issuers|
  {
    set j: nat | j < i && issuers[j].constraints.Some? && issuers[j].constraints.value.ca
  }

  lemma CasOneMore(issuers: seq<Certificate>, i: nat)
    requires i < |issuers|
    ensures |CasBelow(issuers, i + 1)| == |CasBelow(issuers, i)| + if IsCa(issuers[i]) then 1 else 0
  {
    assert CasBelow(issuers, i + 1) == CasBelow(issuers, i) + if IsCa(issuers[i]) then {i} else {};
  }

  lemma {:induction false} CountIsCasBelow(issuers: seq<Certificate>, i: nat)
    requires i <= |issuers|
    ensures CountCas(issuers[..i]) == |CasBelow(issuers, i)|
  {
    if i > 0 {
      CountIsCasBelow(issuers, i - 1);
      CountSnoc(issuers[..i - 1], issuers[i - 1]);
      assert issuers[..i] == issuers[..i - 1] + [issuers[i - 1]];
      CasOneMore(issuers, i - 1);
    }
  }

  lemma {:induction false} CountSnoc(below: seq<Certificate>, c: Certificate)
    ensures CountCas(below + [c]) == CountCas(below) + if IsCa(c) then 1 else 0
  {
    if below == [] {
      assert below + [c] == [c];
    } else {
      CountSnoc(below[1..], c);
      assert (below + [c])[1..] == below[1..] + [c];
    }
  }

  /** What is wrong with issuer `i`, its link aside. */
  predicate Shows(code: ErrorCode, issuers: seq<Certificate>, i: nat, now: int)
    requires i < |issuers|
  {
    var c := issuers[i];
    match code
    case InvalidTime => now < c.notBefore || c.notAfter <= now
    case MissingCaConstraint => c.constraints.None?
    case IssuerNotCa => c.constraints.Some? && !c.constraints.value.ca
    case PathLengthExceeded =>
      && c.constraints.Some? && c.constraints.value.ca && c.constraints.value.pathLength.Some?
      && |CasBelow(issuers, i)| > c.constraints.value.pathLength.value
    case CannotSign => c.keyCertSign == Some(false)
    case _ => false
  }

  lemma IssuerCodeIff(code: ErrorCode, issuers: seq<Certificate>, i: nat, now: int)
    requires i < |issuers|
    ensures code in IssuerErrors(issuers[i], issuers[..i], now) <==> Shows(code, issuers, i, now)
  {
    CountIsCasBelow(issuers, i);
  }

  /** A code is reported for a chain when some issuer shows it and every link up to
      that issuer verifies; an invalid signature when some link does not. */
  lemma {:induction false} ChainCodeIff(
    code: ErrorCode, leaf: Certificate, issuers: seq<Certificate>, index: nat, now: int, signed: SignatureCheck)
    requires Linked(leaf, issuers) && index <= |issuers|
    ensures code in ChainErrors(leaf, issuers, index, now, signed) <==>
            if code == SignatureInvalid then exists i | index <= i < |issuers| :: !SignedAt(leaf, issuers, i, signed)
            else exists i | index <= i < |issuers| :: SignedTo(leaf, issuers, index, i, signed) && Shows(code, issuers, i, now)
    decreases |issuers| - index
  {
    if index < |issuers| {
      ChainCodeIff(code, leaf, issuers, index + 1, now, signed);
      IssuerCodeIff(code, issuers, index, now);
      assert Child(leaf, issuers, index).issuer == issuers[index].subject;
      if SignedAt(leaf, issuers, index, signed) {
        forall i | index < i < |issuers|
          ensures SignedTo(leaf, issuers, index, i, signed) <==> SignedTo(leaf, issuers, index + 1, i, signed)
        {
        }
        assert SignedTo(leaf, issuers, index, index, signed);
      } else {
        forall i | index <= i < |issuers| ensures !SignedTo(leaf, issuers, index, i, signed) {
        }
      }
    }
  }

  /** What is wrong with the leaf. */
  predicate LeafShows(code: ErrorCode, leaf: Certificate, publicKey: nat, expected: set<string>, now: int) {
    match code
    case PrivateKeyMismatch => leaf.publicKey != publicKey
    case NotYetValid => now < leaf.notBefore
    case Expired => leaf.notAfter <= now
    case LeafIsCa => leaf.constraints.Some? && leaf.constraints.value.ca
    case IdentifierMismatch => exists name | name in expected :: name !in leaf.identifiers
    case _ => false
  }

  lemma LeafCodeIff(code: ErrorCode, leaf: Certificate, publicKey: nat, expected: set<string>, now: int)
    ensures code in LeafErrors(leaf, publicKey, expected, now) <==> LeafShows(code, leaf, publicKey, expected, now)
  {
  }

  /** Exactly when each code is reported for an import. */
  lemma ReportedIff(
    code: ErrorCode, leaf: Certificate, publicKey: nat, supplied: seq<Certificate>, expected: set<string>, now: int,
    signed: SignatureCheck)
    ensures var issuers := Issuers(leaf, supplied);
            code in AllErrors(leaf, publicKey, supplied, expected, now, signed) <==>
            || LeafShows(code, leaf, publicKey, expected, now)
            || (code == ChainIncomplete && multiset(issuers) != multiset(supplied))
            || (code == SignatureInvalid && exists i | 0 <= i < |issuers| :: !SignedAt(leaf, issuers, i, signed))
            || exists i | 0 <= i < |issuers| :: SignedTo(leaf, issuers, 0, i, signed) && Shows(code, issuers, i, now)
  {
    var issuers := Issuers(leaf, supplied);
    OrderedLinked(leaf, supplied);
    LeafCodeIff(code, leaf, publicKey, expected, now);
    AllUsed(leaf, supplied);
    ChainCodeIff(code, leaf, issuers, 0, now, signed);
  }

  lemma RootDecides(ordered: seq<Certificate>, system: set<nat>, enterprise: set<nat>, private_: set<nat>, explicitRoot: bool)
    requires |ordered| > 1
    ensures var trust, root := Trust(ordered, system, enterprise, private_, explicitRoot), ordered[|ordered| - 1].fingerprint;
            && (trust == System <==> root in system)
            && (trust == Enterprise <==> root !in system && root in enterprise)
            && (trust == ExplicitPrivate <==> root !in system + enterprise && (root in private_ || explicitRoot))
            && (trust == Untrusted <==> root !in system + enterprise + private_ && !explicitRoot)
  {
  }

  /** The trust status of a path, in whatever order it was supplied, is decided by its
      last certificate alone: first by the roots of the system, then by those of the
      enterprise, then by the private ones. A lone leaf is untrusted. */
  lemma TrustIff(
    leaf: Certificate, path: seq<Certificate>, supplied: seq<Certificate>,
    system: set<nat>, enterprise: set<nat>, private_: set<nat>, explicitRoot: bool)
    requires UpwardPath(leaf, path) && SubjectsDetermine(path) && multiset(supplied) == multiset(path)
    ensures var trust := Trust([leaf] + Issuers(leaf, supplied), system, enterprise, private_, explicitRoot);
            if path == [] then trust == Untrusted
            else
              var root := path[|path| - 1].fingerprint;
              && (trust == System <==> root in system)
              && (trust == Enterprise <==> root !in system && root in enterprise)
              && (trust == ExplicitPrivate <==> root !in system + enterprise && (root in private_ || explicitRoot))
              && (trust == Untrusted <==> root !in system + enterprise + private_ && !explicitRoot)
  {
    PathRecovered(leaf, path, supplied);
    if path != [] {
      RootDecides([leaf] + path, system, enterprise, private_, explicitRoot);
      assert ([leaf] + path)[|path|] == path[|path| - 1];
    }
  }

  /** Two imports whose paths end in the same root have the same status. */
  lemma SameRootSameTrust(
    leaf: Certificate, path: seq<Certificate>, other: Certificate, otherPath: seq<Certificate>,
    system: set<nat>, enterprise: set<nat>, private_: set<nat>, explicitRoot: bool)
    requires CompletePath(leaf, path) && SubjectsDetermine(path)
    requires CompletePath(other, otherPath) && SubjectsDetermine(otherPath)
    requires path != [] && otherPath != [] && path[|path| - 1] == otherPath[|otherPath| - 1]
    ensures Trust([leaf] + Issuers(leaf, path), system, enterprise, private_, explicitRoot)
         == Trust([other] + Issuers(other, otherPath), system, enterprise, private_, explicitRoot)
  {
    TrustIff(leaf, path, path, system, enterprise, private_, explicitRoot);
    TrustIff(other, otherPath, otherPath, system, enterprise, private_, explicitRoot);
  }
}
