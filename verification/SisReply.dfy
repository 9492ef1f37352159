/** Recognising the reply of an Extron device to one SIS certificate command.
    Bytes are modelled as numbers, and the standard byte-string operations the
    recogniser is built from are spelled out. */
module SisReply {
  import opened Common

  newtype Byte = b: int | 0 <= b < 256
  type Bytes = seq<Byte>

  /** The operation letter of a certificate command: import or delete. */
  datatype Operation = Import | Delete

  type Nic = n: int | 1 <= n <= 2 witness 1

  const CR: Byte := 13
  const LF: Byte := 10
  const ESC: Byte := 27
  const CRLF: Bytes := [CR, LF]
  const CRCRLF: Bytes := [CR, CR, LF]
  const CERT: Bytes := [67, 101, 114, 116]  // "Cert"

  predicate IsLineEnd(b: Byte) {
    b == CR || b == LF
  }

  predicate NoLineEnds(s: Bytes) {
    forall b | b in s :: !IsLineEnd(b)
  }

  predicate OnlyLineEnds(s: Bytes) {
    forall b | b in s :: IsLineEnd(b)
  }

  /** `bytes.replace`: leftmost, non-overlapping. */
  function Replace(s: Bytes, pattern: Bytes, replacement: Bytes): Bytes
    requires pattern != []
    decreases |s|
  {
    if s == [] then []
    else if pattern <= s then replacement + Replace(s[|pattern|..], pattern, replacement)
    else [s[0]] + Replace(s[1..], pattern, replacement)
  }

  /** `rstrip(b"\r\n")`. */
  function StripLineEnds(s: Bytes): Bytes {
    if s != [] && IsLineEnd(s[|s| - 1]) then StripLineEnds(s[..|s| - 1]) else s
  }

  /** `rstrip(b"\r")`. */
  function StripReturns(s: Bytes): Bytes {
    if s != [] && s[|s| - 1] == CR then StripReturns(s[..|s| - 1]) else s
  }

  /** `split(b"\r")`. */
  function SplitReturns(s: Bytes): (lines: seq<Bytes>)
    ensures lines != []
  {
    if s == [] then [[]]
    else
      var rest := SplitReturns(s[1..]);
      if s[0] == CR then [[]] + rest else [[s[0]] + rest[0]] + rest[1..]
  }

  /** Turns CRCRLF into CRLF and then CRLF into CR. */
  function Normalise(s: Bytes): Bytes {
    Replace(Replace(s, CRCRLF, CRLF), CRLF, [CR])
  }

  function Lines(s: Bytes): (lines: seq<Bytes>)
    ensures lines != []
  {
    SplitReturns(Normalise(s))
  }

  /** `_response_lines`. */
  function ResponseLines(value: Bytes): Option<seq<Bytes>> {
    if value == [] || !IsLineEnd(value[|value| - 1]) then None
    else Some(Lines(StripLineEnds(value)))
  }

  function Letter(operation: Operation): Byte {
    match operation
    case Import => 73
    case Delete => 88
  }

  function Digit(nic: Nic): Byte {
    48 + nic as Byte
  }

  /** The acknowledgement text, such as `CertI1`. */
  function Ack(operation: Operation, nic: Nic): Bytes {
    CERT + [Letter(operation), Digit(nic)]
  }

  /** The two ways a terminal echoes a command: the escape byte raw or as `^[`. */
  function Echoes(command: Bytes): set<Bytes> {
    var body := StripReturns(command);
    {body, Replace(body, [ESC], [94, 91])}
  }

  /** `_exact_ack`. */
  predicate ExactAck(value: Bytes, nic: Nic, command: Option<Bytes>, operation: Operation) {
    var expected := Ack(operation, nic);
    match ResponseLines(value)
    case None => false
    case Some(lines) =>
      || lines == [expected]
      || (command.Some? && |lines| == 2 && lines[0] in Echoes(command.value) && lines[1] == expected)
  }

  /** `_sis_command`. */
  function SisCommand(nic: Nic, stagedName: Bytes): Bytes {
    [ESC, 73, Digit(nic), 42] + stagedName + [67, 69, 82, 84, CR]
  }

  // ---- The language of accepted replies, stated without the recogniser ----

  /** The bytes of a text. */
  function Ascii(text: string): (bytes: Bytes)
    requires forall c | c in text :: c < 128 as char
    ensures |bytes| == |text| && forall i | 0 <= i < |text| :: bytes[i] as int == text[i] as int
  {
    seq(|text|, i requires 0 <= i < |text| => (assert text[i] in text; text[i] as int as Byte))
  }

  /** What the device says when it has done the operation. */
  function AckText(operation: Operation, nic: Nic): (text: string)
    ensures |text| == 6 && forall c | c in text :: '0' <= c <= 'z'
  {
    match operation
    case Import => if nic == 1 then "CertI1" else "CertI2"
    case Delete => if nic == 1 then "CertX1" else "CertX2"
  }

  predicate IsSeparator(s: Bytes) {
    s == Ascii("\r") || s == Ascii("\r\n") || s == Ascii("\r\r\n")
  }

  predicate IsTail(s: Bytes) {
    s != [] && forall b | b in s :: b as int == '\r' as int || b as int == '\n' as int
  }

  /** The command without the carriage returns that end it. */
  predicate IsBody(command: Bytes, body: Bytes) {
    && body <= command && (body != [] ==> body[|body| - 1] as int != '\r' as int)
    && forall k | |body| <= k < |command| :: command[k] as int == '\r' as int
  }

  /** The body with every escape byte shown as the two characters `^[`. */
  predicate IsCaretEcho(body: Bytes, echo: Bytes) {
    if body == [] then echo == []
    else if body[0] as int == 27 then Ascii("^[") <= echo && IsCaretEcho(body[1..], echo[2..])
    else echo != [] && echo[0] == body[0] && IsCaretEcho(body[1..], echo[1..])
  }

  /** How a terminal shows a command: as it was sent, or with escapes as `^[`. */
  ghost predicate IsEcho(command: Bytes, echo: Bytes) {
    exists body :: IsBody(command, body) && (echo == body || IsCaretEcho(body, echo))
  }

  ghost predicate IsLead(lead: Bytes, command: Option<Bytes>) {
    || lead == []
    || (command.Some? && exists echo, sep :: IsEcho(command.value, echo) && IsSeparator(sep) && lead == echo + sep)
  }

  /** Nothing or echo plus one separator, then the acknowledgement, then at
      least one byte of CR and LF and nothing else. */
  ghost predicate IsReply(value: Bytes, nic: Nic, command: Option<Bytes>, operation: Operation) {
    exists lead, tail :: IsLead(lead, command) && IsTail(tail) && value == lead + Ascii(AckText(operation, nic)) + tail
  }

  // ---- The recogniser's own pieces amount to these ----

  lemma AckIsText(operation: Operation, nic: Nic)
    ensures Ack(operation, nic) == Ascii(AckText(operation, nic))
  {
  }

  lemma {:induction false} BodyIsStripped(command: Bytes, body: Bytes)
    ensures IsBody(command, body) <==> body == StripReturns(command)
  {
    if command != [] && command[|command| - 1] == CR {
      var shorter := command[..|command| - 1];
      BodyIsStripped(shorter, body);
      if IsBody(command, body) {
        assert body != command;
        assert body <= shorter;
      }
    } else if |body| < |command| {
      var last := |command| - 1;
      assert |body| <= last && command[last] as int != '\r' as int;
    } else if IsBody(command, body) {
      assert body == command;
    }
  }

  lemma {:induction false} CaretEchoIsReplaced(body: Bytes, echo: Bytes)
    ensures IsCaretEcho(body, echo) <==> echo == Replace(body, [ESC], [94, 91])
  {
    if body != [] {
      if body[0] == ESC {
        CaretEchoIsReplaced(body[1..], echo[Min(2, |echo|)..]);
        assert [ESC] <= body && Ascii("^[") == [94, 91];
        assert Ascii("^[") <= echo ==> echo == [94, 91] + echo[2..];
      } else {
        CaretEchoIsReplaced(body[1..], echo[Min(1, |echo|)..]);
        assert !([ESC] <= body);
        assert echo != [] ==> echo == [echo[0]] + echo[1..];
      }
    }
  }

  lemma EchoIsEcho(command: Bytes, echo: Bytes)
    ensures IsEcho(command, echo) <==> echo in Echoes(command)
  {
    var stripped := StripReturns(command);
    BodyIsStripped(command, stripped);
    CaretEchoIsReplaced(stripped, echo);
    if IsEcho(command, echo) {
      var body :| IsBody(command, body) && (echo == body || IsCaretEcho(body, echo));
      BodyIsStripped(command, body);
    }
  }

  lemma SeparatorBytes(s: Bytes)
    ensures IsSeparator(s) <==> s == [CR] || s == CRLF || s == CRCRLF
  {
    assert Ascii("\r") == [CR] && Ascii("\r\n") == CRLF && Ascii("\r\r\n") == CRCRLF;
  }

  lemma TailBytes(s: Bytes)
    ensures IsTail(s) <==> s != [] && OnlyLineEnds(s)
  {
  }

  // ---- Byte-string facts ----

  function FirstReturn(s: Bytes): (k: nat)
    ensures k <= |s| && CR !in s[..k]
    ensures k < |s| ==> s[k] == CR
  {
    if s == [] || s[0] == CR then 0
    else
      var k := 1 + FirstReturn(s[1..]);
      assert s[..k] == [s[0]] + s[1..][..k - 1];
      k
  }

  lemma ReplaceHit(pattern: Bytes, rest: Bytes, replacement: Bytes)
    requires pattern != []
    ensures Replace(pattern + rest, pattern, replacement) == replacement + Replace(rest, pattern, replacement)
  {
    assert (pattern + rest)[|pattern|..] == rest;
  }

  lemma ReplaceMiss(b: Byte, rest: Bytes, pattern: Bytes, replacement: Bytes)
    requires pattern != [] && !(pattern <= [b] + rest)
    ensures Replace([b] + rest, pattern, replacement) == [b] + Replace(rest, pattern, replacement)
  {
    assert ([b] + rest)[1..] == rest;
  }

  lemma {:induction false} ReplaceSkipsPlain(p: Bytes, s: Bytes, pattern: Bytes, replacement: Bytes)
    requires pattern != [] && pattern[0] == CR && CR !in p
    ensures Replace(p + s, pattern, replacement) == p + Replace(s, pattern, replacement)
  {
    if p == [] {
      assert p + s == s;
    } else {
      assert p + s == [p[0]] + (p[1..] + s);
      ReplaceMiss(p[0], p[1..] + s, pattern, replacement);
      ReplaceSkipsPlain(p[1..], s, pattern, replacement);
    }
  }

  lemma NormaliseSkipsPlain(p: Bytes, s: Bytes)
    requires CR !in p
    ensures Normalise(p + s) == p + Normalise(s)
  {
    ReplaceSkipsPlain(p, s, CRCRLF, CRLF);
    ReplaceSkipsPlain(p, Replace(s, CRCRLF, CRLF), CRLF, [CR]);
  }

  /** How many bytes the first line break of `s` takes up. */
  function BreakLength(s: Bytes): (n: nat)
    requires s != [] && s[0] == CR
    ensures 1 <= n <= |s| && IsSeparator(s[..n])
  {
    SeparatorBytes(s[..if CRCRLF <= s then 3 else if CRLF <= s then 2 else 1]);
    if CRCRLF <= s then 3 else if CRLF <= s then 2 else 1
  }

  /** The first pass neither creates nor removes a leading LF. */
  lemma FirstPassHead(s: Bytes)
    ensures var t := Replace(s, CRCRLF, CRLF); t != [] && t[0] == LF ==> s != [] && s[0] == LF
  {
    if s != [] && CRCRLF <= s {
      ReplaceHit(CRCRLF, s[3..], CRLF);
      assert s == CRCRLF + s[3..];
    }
  }

  lemma CrlfAhead(s: Bytes)
    ensures CRLF <= [CR] + s <==> s != [] && s[0] == LF
  {
    assert s != [] ==> ([CR] + s)[1] == s[0];
  }

  lemma NormaliseBreak(s: Bytes)
    requires s != [] && s[0] == CR
    ensures Normalise(s) == [CR] + Normalise(s[BreakLength(s)..])
  {
    var n := BreakLength(s);
    var rest := s[n..];
    var passed := Replace(rest, CRCRLF, CRLF);
    if n == 3 {
      assert s == CRCRLF + rest;
      ReplaceHit(CRCRLF, rest, CRLF);
      ReplaceHit(CRLF, passed, [CR]);
    } else if n == 2 {
      assert s == [CR] + ([LF] + rest);
      ReplaceMiss(CR, [LF] + rest, CRCRLF, CRLF);
      assert ([LF] + rest)[0] != CRCRLF[0];
      ReplaceMiss(LF, rest, CRCRLF, CRLF);
      assert [CR] + ([LF] + passed) == CRLF + passed;
      ReplaceHit(CRLF, passed, [CR]);
    } else {
      assert s == [CR] + rest;
      ReplaceMiss(CR, rest, CRCRLF, CRLF);
      FirstPassHead(rest);
      assert rest != [] && rest[0] == LF ==> CRLF <= s;
      CrlfAhead(passed);
      ReplaceMiss(CR, passed, CRLF, [CR]);
    }
  }

  lemma {:induction false} SplitPlain(p: Bytes, s: Bytes)
    requires CR !in p
    ensures SplitReturns(p) == [p]
    ensures SplitReturns(p + [CR] + s) == [p] + SplitReturns(s)
  {
    if p == [] {
      assert p + [CR] + s == [CR] + s;
    } else {
      SplitPlain(p[1..], s);
      assert (p + [CR] + s)[1..] == p[1..] + [CR] + s;
      assert p == [p[0]] + p[1..];
    }
  }

  lemma LinesPlain(p: Bytes)
    requires CR !in p
    ensures Lines(p) == [p]
  {
    NormaliseSkipsPlain(p, []);
    assert p + [] == p;
    assert Normalise([]) == [];
    SplitPlain(p, []);
  }

  /** The lines of a text are what stands before its first break and the lines after it. */
  lemma LinesBreak(p: Bytes, t: Bytes)
    requires CR !in p && t != [] && t[0] == CR
    ensures Lines(p + t) == [p] + Lines(t[BreakLength(t)..])
  {
    var rest := Normalise(t[BreakLength(t)..]);
    NormaliseSkipsPlain(p, t);
    NormaliseBreak(t);
    assert p + ([CR] + rest) == p + [CR] + rest;
    SplitPlain(p, rest);
  }

  lemma FirstBreak(s: Bytes) returns (p: Bytes, sep: Bytes, after: Bytes)
    requires CR in s
    ensures s == p + (sep + after) && CR !in p && IsSeparator(sep)
    ensures sep + after != [] && (sep + after)[0] == CR
    ensures (sep + after)[BreakLength(sep + after)..] == after
  {
    var k := FirstReturn(s);
    assert s[..|s|] == s;
    p := s[..k];
    var t := s[k..];
    sep, after := t[..BreakLength(t)], t[BreakLength(t)..];
    assert t == sep + after;
  }

  lemma LinesParse(s: Bytes) returns (p: Bytes, sep: Bytes, after: Bytes)
    requires CR in s
    ensures s == p + sep + after && CR !in p && IsSeparator(sep)
    ensures Lines(s) == [p] + Lines(after)
  {
    p, sep, after := FirstBreak(s);
    LinesBreak(p, sep + after);
    assert p + (sep + after) == p + sep + after;
  }

  lemma OneLine(s: Bytes, expected: Bytes)
    requires CR !in expected
    ensures Lines(s) == [expected] <==> s == expected
  {
    if CR in s {
      var p, sep, after := LinesParse(s);
    } else {
      LinesPlain(s);
    }
  }

  lemma {:induction false} ReplaceEscapePlain(s: Bytes)
    requires CR !in s
    ensures CR !in Replace(s, [ESC], [94, 91])
  {
    if s != [] {
      ReplaceEscapePlain(s[1..]);
    }
  }

  lemma {:induction false} StripLineEndsOf(core: Bytes, tail: Bytes)
    requires core != [] && !IsLineEnd(core[|core| - 1])
    requires OnlyLineEnds(tail)
    ensures StripLineEnds(core + tail) == core
  {
    if tail == [] {
      assert core + tail == core;
    } else {
      var shorter := tail[..|tail| - 1];
      assert (core + tail)[..|core + tail| - 1] == core + shorter;
      StripLineEndsOf(core, shorter);
    }
  }

  lemma {:induction false} StripLineEndsRest(s: Bytes)
    ensures StripLineEnds(s) <= s
    ensures OnlyLineEnds(s[|StripLineEnds(s)|..])
    ensures s != [] && IsLineEnd(s[|s| - 1]) ==> |StripLineEnds(s)| < |s|
  {
    if s != [] && IsLineEnd(s[|s| - 1]) {
      var shorter := s[..|s| - 1];
      StripLineEndsRest(shorter);
      var n := |StripLineEnds(s)|;
      assert s[n..] == shorter[n..] + [s[|s| - 1]];
    }
  }

  lemma EchoedLines(echo: Bytes, sep: Bytes, expected: Bytes)
    requires CR !in echo && IsSeparator(sep)
    requires CR !in expected && expected != [] && expected[0] != LF
    ensures Lines(echo + sep + expected) == [echo, expected]
  {
    SeparatorBytes(sep);
    var t := sep + expected;
    assert echo + sep + expected == echo + t;
    assert CRLF <= t ==> t[1] == LF;
    assert CRCRLF <= t ==> t[1] == CR && t[2] == LF;
    assert sep == CRLF || sep == CRCRLF ==> sep <= t;
    assert BreakLength(t) == |sep|;
    assert t[|sep|..] == expected;
    LinesBreak(echo, t);
    LinesPlain(expected);
  }

  lemma AckFacts(operation: Operation, nic: Nic)
    ensures var a := Ack(operation, nic);
            |a| == 6 && NoLineEnds(a) && a[0] != LF && !IsLineEnd(a[5])
  {
  }

  /** The lead of a text of two lines, the second of them the acknowledgement. */
  lemma TwoLines(core: Bytes, expected: Bytes, command: Option<Bytes>) returns (lead: Bytes)
    requires CR !in expected && command.Some? && |Lines(core)| == 2
    requires Lines(core)[0] in Echoes(command.value) && Lines(core)[1] == expected
    ensures IsLead(lead, command) && core == lead + expected
  {
    if CR !in core {
      LinesPlain(core);
    }
    var echo, sep, after := LinesParse(core);
    assert Lines(core)[1..] == Lines(after);
    assert Lines(after) == [expected];
    OneLine(after, expected);
    EchoIsEcho(command.value, echo);
    lead := echo + sep;
  }

  lemma AcceptedIsReply(value: Bytes, nic: Nic, command: Option<Bytes>, operation: Operation)
    requires ExactAck(value, nic, command, operation)
    ensures IsReply(value, nic, command, operation)
  {
    var expected := Ack(operation, nic);
    var core := StripLineEnds(value);
    StripLineEndsRest(value);
    var tail := value[|core|..];
    AckFacts(operation, nic);
    var lead: Bytes := [];
    OneLine(core, expected);
    if core != expected {
      lead := TwoLines(core, expected, command);
    }
    AckIsText(operation, nic);
    TailBytes(tail);
    assert value == lead + expected + tail;
  }

  lemma ReplyIsAccepted(value: Bytes, nic: Nic, command: Option<Bytes>, operation: Operation)
    requires command.Some? ==> CR !in StripReturns(command.value)
    requires IsReply(value, nic, command, operation)
    ensures ExactAck(value, nic, command, operation)
  {
    var expected := Ack(operation, nic);
    AckFacts(operation, nic);
    AckIsText(operation, nic);
    var lead, tail :| IsLead(lead, command) && IsTail(tail) && value == lead + expected + tail;
    TailBytes(tail);
    StripLineEndsOf(lead + expected, tail);
    assert value[|value| - 1] == tail[|tail| - 1];
    if lead == [] {
      assert lead + expected == expected;
      LinesPlain(expected);
    } else {
      ReplaceEscapePlain(StripReturns(command.value));
      var echo, sep :| IsEcho(command.value, echo) && IsSeparator(sep) && lead == echo + sep;
      EchoIsEcho(command.value, echo);
      EchoedLines(echo, sep, expected);
    }
  }

  /** The recogniser accepts exactly the language above, on every input and for
      every command whose text has no CR before its terminator. */
  lemma ExactAckIffReply(value: Bytes, nic: Nic, command: Option<Bytes>, operation: Operation)
    requires command.Some? ==> CR !in StripReturns(command.value)
    ensures ExactAck(value, nic, command, operation) <==> IsReply(value, nic, command, operation)
  {
    if ExactAck(value, nic, command, operation) {
      AcceptedIsReply(value, nic, command, operation);
    }
    if IsReply(value, nic, command, operation) {
      ReplyIsAccepted(value, nic, command, operation);
    }
  }
}
