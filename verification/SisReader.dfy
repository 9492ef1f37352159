/** Collecting a reply from a channel that delivers it in arbitrary pieces. */
module SisReader {
  import opened Common
  import opened SisReply

  /** Which reply a read waits for. */
  datatype Kind = ImportReply | DeleteReply | ViewReply

  /** What one turn of the read loop meets: nothing ready yet, bytes waiting, or
      the far end closed. The list of arrivals ends where the deadline passes. */
  datatype Arrival = Idle | Data(bytes: Bytes) | Closed

  const CHUNK: nat := 128
  const VIEW_LIMIT: nat := 8192

  function Limit(kind: Kind, maxResponseBytes: nat): nat {
    if kind.ViewReply? then VIEW_LIMIT else maxResponseBytes
  }

  predicate IsDigit(b: Byte) {
    48 <= b <= 57
  }

  /** `^` or a preceding CR or LF. */
  predicate Anchored(data: Bytes, i: nat)
    requires i < |data|
  {
    i == 0 || IsLineEnd(data[i - 1])
  }

  predicate AckAt(data: Bytes, i: nat, letter: Byte)
    requires i < |data|
  {
    && i + 7 <= |data| && Anchored(data, i)
    && data[i..i + 4] == CERT && data[i + 4] == letter
    && 49 <= data[i + 5] <= 50 && data[i + 6] == CR
  }

  predicate ErrorAt(data: Bytes, i: nat)
    requires i < |data|
  {
    && i + 4 <= |data| && Anchored(data, i)
    && data[i] == 69 && IsDigit(data[i + 1]) && IsDigit(data[i + 2]) && data[i + 3] == CR
  }

  predicate BraceAt(data: Bytes, i: nat)
    requires i < |data|
  {
    i + 2 <= |data| && data[i] == 125 && data[i + 1] == CR
  }

  predicate EndsAt(data: Bytes, i: nat, kind: Kind)
    requires i < |data|
  {
    || ErrorAt(data, i)
    || match kind
       case ViewReply => BraceAt(data, i)
       case ImportReply => AckAt(data, i, 73)
       case DeleteReply => AckAt(data, i, 88)
  }

  /** A final line has arrived, so the loop stops. */
  predicate Complete(data: Bytes, kind: Kind) {
    exists i: nat | i < |data| :: EndsAt(data, i, kind)
  }

  // ---- Final lines, written out ----

  predicate IsErrorLine(line: string) {
    |line| == 4 && line[0] == 'E' && '0' <= line[1] <= '9' && '0' <= line[2] <= '9' && line[3] == '\r'
  }

  /** A line that ends the wait for a reply; the brace that ends a view may stand anywhere. */
  predicate IsFinalLine(line: string, kind: Kind) {
    || IsErrorLine(line)
    || match kind
       case ImportReply => line == "CertI1\r" || line == "CertI2\r"
       case DeleteReply => line == "CertX1\r" || line == "CertX2\r"
       case ViewReply => false
  }

  /** The text stands at `i`. */
  predicate TextAt(data: Bytes, i: nat, text: string) {
    i + |text| <= |data| && forall k | 0 <= k < |text| :: data[i + k] as int == text[k] as int
  }

  predicate StartsLine(data: Bytes, i: nat)
    requires i <= |data|
  {
    i == 0 || data[i - 1] as int == '\r' as int || data[i - 1] as int == '\n' as int
  }

  ghost predicate HoldsFinalLine(data: Bytes, kind: Kind) {
    || (exists i: nat, line :: TextAt(data, i, line) && StartsLine(data, i) && IsFinalLine(line, kind))
    || (kind.ViewReply? && exists i: nat :: TextAt(data, i, "}\r"))
  }

  lemma CertBytes(data: Bytes, i: nat, letter: Byte)
    requires i + 7 <= |data|
    ensures data[i..i + 4] == CERT <==> TextAt(data, i, "Cert")
  {
    var part := data[i..i + 4];
    assert part[0] == data[i] && part[1] == data[i + 1] && part[2] == data[i + 2] && part[3] == data[i + 3];
    if TextAt(data, i, "Cert") {
      var cert := "Cert";
      assert data[i + 0] as int == cert[0] as int && data[i + 1] as int == cert[1] as int;
      assert data[i + 2] as int == cert[2] as int && data[i + 3] as int == cert[3] as int;
    }
  }

  lemma ErrorIsLine(data: Bytes, i: nat) returns (line: string)
    requires i < |data| && ErrorAt(data, i)
    ensures TextAt(data, i, line) && IsErrorLine(line)
  {
    line := ['E', data[i + 1] as int as char, data[i + 2] as int as char, '\r'];
  }

  lemma AckIsLine(data: Bytes, i: nat, kind: Kind) returns (line: string)
    requires i < |data| && !kind.ViewReply? && AckAt(data, i, if kind.ImportReply? then 73 else 88)
    ensures TextAt(data, i, line) && IsFinalLine(line, kind)
  {
    CertBytes(data, i, data[i + 4]);
    line := if kind.ImportReply? then (if data[i + 5] == 49 then "CertI1\r" else "CertI2\r")
            else (if data[i + 5] == 49 then "CertX1\r" else "CertX2\r");
    forall k | 0 <= k < |line| ensures data[i + k] as int == line[k] as int {
      if k < 4 {
        assert line[k] == "Cert"[k];
      }
    }
  }

  /** The line that the patterns find at `i`. */
  lemma EndIsFinalLine(data: Bytes, kind: Kind, i: nat)
    requires i < |data| && EndsAt(data, i, kind)
    ensures HoldsFinalLine(data, kind)
  {
    if ErrorAt(data, i) {
      var line := ErrorIsLine(data, i);
    } else if kind.ViewReply? {
      assert TextAt(data, i, "}\r");
    } else {
      var line := AckIsLine(data, i, kind);
    }
  }

  lemma FinalLineEnds(data: Bytes, kind: Kind, i: nat, line: string)
    requires TextAt(data, i, line) && StartsLine(data, i) && IsFinalLine(line, kind)
    ensures i < |data| && EndsAt(data, i, kind)
  {
    assert line[0] as int == data[i + 0] as int && line[1] as int == data[i + 1] as int;
    assert line[2] as int == data[i + 2] as int && line[3] as int == data[i + 3] as int;
    if !IsErrorLine(line) {
      assert line[4] as int == data[i + 4] as int && line[5] as int == data[i + 5] as int;
      assert line[6] as int == data[i + 6] as int;
      CertBytes(data, i, data[i + 4]);
      assert TextAt(data, i, "Cert");
    }
  }

  /** The loop stops exactly when a final line is there. */
  lemma CompleteIffFinalLine(data: Bytes, kind: Kind)
    ensures Complete(data, kind) <==> HoldsFinalLine(data, kind)
  {
    if Complete(data, kind) {
      var i: nat :| i < |data| && EndsAt(data, i, kind);
      EndIsFinalLine(data, kind, i);
    }
    if i: nat, line :| TextAt(data, i, line) && StartsLine(data, i) && IsFinalLine(line, kind) {
      FinalLineEnds(data, kind, i, line);
    } else if HoldsFinalLine(data, kind) {
      var end := "}\r";
      var i: nat :| TextAt(data, i, end);
      assert data[i + 0] as int == end[0] as int && data[i + 1] as int == end[1] as int;
      assert EndsAt(data, i, kind);
    }
  }

  /** Everything the channel would deliver before it closes. */
  function Stream(arrivals: seq<Arrival>): Bytes {
    if arrivals == [] then []
    else
      match arrivals[0]
      case Idle => Stream(arrivals[1..])
      case Closed => []
      case Data(bytes) => if bytes == [] then [] else bytes + Stream(arrivals[1..])
  }

  function Waiting(arrivals: seq<Arrival>): nat {
    if arrivals == [] then 0
    else (if arrivals[0].Data? then |arrivals[0].bytes| else 0) + 1 + Waiting(arrivals[1..])
  }

  lemma CompleteStays(data: Bytes, more: Bytes, kind: Kind)
    requires Complete(data, kind)
    ensures Complete(data + more, kind)
  {
    var i: nat :| i < |data| && EndsAt(data, i, kind);
    assert i + 4 <= |data| ==> (data + more)[i..i + 4] == data[i..i + 4];
    assert EndsAt(data + more, i, kind);
  }

  /** What a finished read promises: a prefix of the stream within the limit,
      stopped by a final line, by the limit or by the end of the stream, and never
      more than one chunk after the buffer first held a final line. */
  ghost predicate ReadOutcome(arrivals: seq<Arrival>, kind: Kind, maxResponseBytes: nat, data: Bytes) {
    && data <= Stream(arrivals)
    && (var limit := if kind == ViewReply then 8192 else maxResponseBytes;
        |data| <= limit && (Complete(data, kind) || |data| == limit || data == Stream(arrivals)))
    && (forall k: nat | k + 128 <= |data| :: !Complete(data[..k], kind))
  }

  /** The queue after `n` bytes of its first arrival were received. */
  function Received(queue: seq<Arrival>, n: nat): seq<Arrival>
    requires queue != [] && queue[0].Data? && n <= |queue[0].bytes|
  {
    if n < |queue[0].bytes| then [Data(queue[0].bytes[n..])] + queue[1..] else queue[1..]
  }

  lemma Associates(a: Bytes, b: Bytes, c: Bytes)
    ensures (a + b) + c == a + (b + c)
  {
  }

  lemma RestOfArrival(bytes: Bytes, rest: seq<Arrival>)
    requires bytes != []
    ensures Stream([Data(bytes)] + rest) == bytes + Stream(rest)
    ensures Waiting([Data(bytes)] + rest) == |bytes| + 1 + Waiting(rest)
  {
    assert ([Data(bytes)] + rest)[1..] == rest;
  }

  lemma ReceivedKeepsStream(data: Bytes, queue: seq<Arrival>, n: nat)
    requires queue != [] && queue[0].Data? && 0 < n <= |queue[0].bytes|
    ensures data + Stream(queue) == data + queue[0].bytes[..n] + Stream(Received(queue, n))
    ensures Waiting(Received(queue, n)) < Waiting(queue)
  {
    var bytes, after := queue[0].bytes, Stream(queue[1..]);
    assert bytes == bytes[..n] + bytes[n..];
    Associates(bytes[..n], bytes[n..], after);
    Associates(data, bytes[..n], Stream(Received(queue, n)));
    if n < |bytes| {
      RestOfArrival(bytes[n..], queue[1..]);
    } else {
      assert bytes[n..] == [] && bytes[n..] + after == after;
    }
  }

  lemma AtMostOneChunkLate(before: Bytes, chunk: Bytes, kind: Kind)
    requires !Complete(before, kind) && |chunk| <= CHUNK
    ensures forall k: nat | k + CHUNK <= |before + chunk| :: !Complete((before + chunk)[..k], kind)
  {
    forall k: nat | k + CHUNK <= |before + chunk| ensures !Complete((before + chunk)[..k], kind) {
      assert (before + chunk)[..k] == before[..k];
      assert before[..k] + before[k..] == before;
      if Complete(before[..k], kind) {
        CompleteStays(before[..k], before[k..], kind);
      }
    }
  }

  /** `_read_response`. */
  method ReadResponse(arrivals: seq<Arrival>, kind: Kind, maxResponseBytes: nat) returns (data: Bytes)
    ensures ReadOutcome(arrivals, kind, maxResponseBytes, data)
  {
    data := [];
    var limit := Limit(kind, maxResponseBytes);
    var queue := arrivals;
    while queue != [] && |data| < limit
      invariant |data| <= limit
      invariant data + Stream(queue) == Stream(arrivals)
      invariant !Complete(data, kind)
      decreases Waiting(queue)
    {
      if queue[0].Idle? {
        queue := queue[1..];
        continue;
      }
      if queue[0].Closed? || queue[0].bytes == [] {
        break;
      }
      var n := Min(|queue[0].bytes|, Min(CHUNK, limit - |data|));
      var chunk := queue[0].bytes[..n];
      ReceivedKeepsStream(data, queue, n);
      AtMostOneChunkLate(data, chunk, kind);
      data, queue := data + chunk, Received(queue, n);
      if Complete(data, kind) {
        return;
      }
    }
    assert data + [] == data;
    AtMostOneChunkLate(data, [], kind);
  }

  function KindOf(operation: Operation): Kind {
    if operation.Import? then ImportReply else DeleteReply
  }

  /** A command as this program builds them: ESC first, no line end before the last byte. */
  predicate IsCommand(command: Bytes) {
    var body := StripReturns(command);
    body != [] && body[0] == ESC && NoLineEnds(body)
  }

  lemma EscapeEcho(body: Bytes)
    requires body != [] && body[0] == ESC && NoLineEnds(body)
    ensures var e := Replace(body, [ESC], [94, 91]); NoLineEnds(e) && e != [] && e[0] == 94
  {
    EscapeKeepsPlain(body);
    assert body == [ESC] + body[1..];
    ReplaceHit([ESC], body[1..], [94, 91]);
  }

  lemma {:induction false} EscapeKeepsPlain(s: Bytes)
    requires NoLineEnds(s)
    ensures NoLineEnds(Replace(s, [ESC], [94, 91]))
  {
    if s != [] {
      EscapeKeepsPlain(s[1..]);
    }
  }

  /** No prefix of a reply that ends before the acknowledgement is complete looks final. */
  lemma NeverStopsInsideEcho(data: Bytes, lead: Bytes, nic: Nic, command: Bytes, operation: Operation)
    requires IsCommand(command) && IsLead(lead, Some(command))
    requires data <= lead + Ack(operation, nic)
    ensures !Complete(data, KindOf(operation))
  {
    var ack := Ack(operation, nic);
    AckFacts(operation, nic);
    if lead == [] {
      assert lead + ack == ack;
      assert CR !in data by { assert forall b | b in data :: b in ack; }
    } else {
      var echo, sep :| IsEcho(command, echo) && IsSeparator(sep) && lead == echo + sep;
      EchoIsEcho(command, echo);
      SeparatorBytes(sep);
      EscapeEcho(StripReturns(command));
      assert NoLineEnds(echo) && echo != [] && (echo[0] == ESC || echo[0] == 94);
      forall i: nat | i < |data| ensures !EndsAt(data, i, KindOf(operation)) {
        NoFinalLineAt(data, echo, sep, ack, i, KindOf(operation));
      }
    }
  }

  lemma NoFinalLineAt(data: Bytes, echo: Bytes, sep: Bytes, ack: Bytes, i: nat, kind: Kind)
    requires NoLineEnds(echo) && echo != [] && (echo[0] == ESC || echo[0] == 94) && NoLineEnds(ack)
    requires sep == [CR] || sep == CRLF || sep == CRCRLF
    requires data <= echo + sep + ack && i < |data| && !kind.ViewReply?
    ensures !EndsAt(data, i, kind)
  {
    var whole := echo + sep + ack;
    assert forall j | 0 <= j < |echo| :: whole[j] == echo[j];
    assert forall j | |echo| <= j < |echo + sep| :: whole[j] == sep[j - |echo|];
    assert forall j | |echo + sep| <= j < |whole| :: whole[j] == ack[j - |echo + sep|];
    assert forall j | 0 <= j < |data| :: data[j] == whole[j];
    assert forall j | 0 <= j < |echo| :: !IsLineEnd(echo[j]);
    assert forall j | 0 <= j < |ack| :: !IsLineEnd(ack[j]);
    assert forall j | 0 <= j < |sep| :: IsLineEnd(sep[j]);
    forall j | 0 < j < |data| && data[j] == CR && !IsLineEnd(data[j - 1]) ensures j == |echo| {
    }
    assert i + 4 <= |data| ==> data[i..i + 4][0] == data[i];
  }

  /** The end of every acknowledgement is final, so that the read stops there. */
  lemma AcknowledgementIsFinal(lead: Bytes, nic: Nic, command: Option<Bytes>, operation: Operation, rest: Bytes)
    requires IsLead(lead, command)
    ensures Complete(lead + Ascii(AckText(operation, nic)) + [CR] + rest, KindOf(operation))
  {
    var line := AckText(operation, nic) + "\r";
    var data := lead + Ascii(AckText(operation, nic)) + [CR] + rest;
    if lead != [] {
      var echo, sep :| IsEcho(command.value, echo) && IsSeparator(sep) && lead == echo + sep;
      SeparatorBytes(sep);
      assert lead[|lead| - 1] == sep[|sep| - 1];
    }
    assert TextAt(data, |lead|, line);
    CompleteIffFinalLine(data, KindOf(operation));
  }

  /** A prefix of two parts is a prefix of the first, or all of it and a prefix of the second. */
  lemma PrefixOfTwo(data: Bytes, front: Bytes, tail: Bytes)
    requires data <= front + tail
    ensures |data| <= |front| ==> data <= front
    ensures |data| > |front| ==> data == front + tail[..|data| - |front|]
  {
    assert data == (front + tail)[..|data|];
  }

  lemma CutKeepsReply(data: Bytes, lead: Bytes, tail: Bytes, nic: Nic, command: Bytes, operation: Operation)
    requires IsLead(lead, Some(command)) && IsTail(tail)
    requires data <= (lead + Ack(operation, nic)) + tail && |data| > |lead + Ack(operation, nic)|
    ensures IsReply(data, nic, Some(command), operation)
  {
    var front := lead + Ack(operation, nic);
    PrefixOfTwo(data, front, tail);
    var kept := tail[..|data| - |front|];
    AckIsText(operation, nic);
    assert forall b | b in kept :: b in tail;
    assert IsTail(kept) && data == lead + Ack(operation, nic) + kept;
  }

  /** However a reply in the accepted language is cut up, if it fits in the limit
      and arrives before the deadline, the read returns bytes that are still
      recognised as that acknowledgement. */
  lemma ReadKeepsAcknowledgement(
    arrivals: seq<Arrival>, maxResponseBytes: nat, data: Bytes,
    nic: Nic, command: Bytes, operation: Operation)
    requires IsCommand(command)
    requires IsReply(Stream(arrivals), nic, Some(command), operation)
    requires |Stream(arrivals)| <= maxResponseBytes
    requires ReadOutcome(arrivals, KindOf(operation), maxResponseBytes, data)
    ensures ExactAck(data, nic, Some(command), operation)
  {
    AckIsText(operation, nic);
    var lead, tail :| IsLead(lead, Some(command)) && IsTail(tail) && Stream(arrivals) == lead + Ack(operation, nic) + tail;
    var front := lead + Ack(operation, nic);
    PrefixOfTwo(data, front, tail);
    if |data| <= |front| {
      NeverStopsInsideEcho(data, lead, nic, command, operation);
    }
    CutKeepsReply(data, lead, tail, nic, command, operation);
    ReplyIsAccepted(data, nic, Some(command), operation);
  }

  /** The import command for a staged file is a command in that sense whenever
      the staged name holds no line end. */
  lemma SisCommandIsCommand(nic: Nic, stagedName: Bytes)
    requires NoLineEnds(stagedName)
    ensures IsCommand(SisCommand(nic, stagedName))
  {
    var c := SisCommand(nic, stagedName);
    var body := [ESC, 73, Digit(nic), 42] + stagedName + [67, 69, 82, 84];
    assert c == body + [CR];
    assert c[..|c| - 1] == body;
    assert body[|body| - 1] == 84;
    assert StripReturns(body) == body;
    forall b | b in body ensures !IsLineEnd(b) {
      var k :| 0 <= k < |body| && body[k] == b;
      if k >= 4 && k < 4 + |stagedName| { assert b in stagedName; }
    }
  }

  /** What is sent for an import, written out. */
  lemma SisCommandText(nic: Nic, name: string)
    requires forall c | c in name :: c < 128 as char
    ensures var text := "\U{1B}I" + (if nic == 1 then "1*" else "2*") + name + "CERT\r";
            |SisCommand(nic, Ascii(name))| == |text| && TextAt(SisCommand(nic, Ascii(name)), 0, text)
  {
  }
}
