/** Newline framing of a client's bytes: the bounded read of the request line,
    and the acknowledgement lines of the inbox session it may open. */
module Framing {
  import opened Search
  import opened Wrappers

  type Byte = b: int | 0 <= b < 256

  const NEWLINE: Byte := 10
  const RETURN: Byte := 13
  const MAX_REQUEST_BYTES := 64 * 1024
  const READ_CHUNK := 4096

  // ---- The lines of a byte string, whatever way it arrives ----

  /** Its newline-terminated lines, without the newline. */
  function Lines(s: seq<Byte>): seq<seq<Byte>>
    decreases |s|
  {
    var i := IndexOf(s, NEWLINE);
    if i == |s| then [] else [s[..i]] + Lines(s[i + 1..])
  }

  /** What follows the last newline. */
  function Rest(s: seq<Byte>): (r: seq<Byte>)
    ensures NEWLINE !in r
    decreases |s|
  {
    var i := IndexOf(s, NEWLINE);
    if i == |s| then s[..i] else Rest(s[i + 1..])
  }

  function Join(lines: seq<seq<Byte>>): seq<Byte> {
    if lines == [] then [] else lines[0] + [NEWLINE] + Join(lines[1..])
  }

  lemma FirstLine(buf: seq<Byte>)
    requires IndexOf(buf, NEWLINE) < |buf|
    ensures var i := IndexOf(buf, NEWLINE);
            && Lines(buf) == [buf[..i]] + Lines(buf[i + 1..])
            && Rest(buf) == Rest(buf[i + 1..])
  {
  }

  lemma RejoinFirst(s: seq<Byte>, i: nat, later: seq<seq<Byte>>, rest: seq<Byte>)
    requires i < |s| && s[i] == NEWLINE && s[i + 1..] == Join(later) + rest
    ensures s == Join([s[..i]] + later) + rest
  {
    JoinFirst(s[..i], later);
    assert s == s[..i] + [NEWLINE] + s[i + 1..];
    assert s[..i] + [NEWLINE] + (Join(later) + rest) == s[..i] + [NEWLINE] + Join(later) + rest;
  }

  /** Nothing of the bytes is lost or repeated by cutting them into lines. */
  lemma {:induction false} LinesRejoin(s: seq<Byte>)
    ensures s == Join(Lines(s)) + Rest(s)
    decreases |s|
  {
    var i := IndexOf(s, NEWLINE);
    if i < |s| {
      FirstLine(s);
      LinesRejoin(s[i + 1..]);
      IndexOfSome(s, NEWLINE);
      RejoinFirst(s, i, Lines(s[i + 1..]), Rest(s[i + 1..]));
    } else {
      assert s[..i] == s;
    }
  }

  lemma JoinFirst(line: seq<Byte>, later: seq<seq<Byte>>)
    ensures Join([line] + later) == line + [NEWLINE] + Join(later)
  {
    assert ([line] + later)[1..] == later;
  }

  lemma {:induction false} LinesResume(a: seq<Byte>, b: seq<Byte>)
    ensures Lines(a + b) == Lines(a) + Lines(Rest(a) + b)
    ensures Rest(a + b) == Rest(Rest(a) + b)
    decreases |a|
  {
    var i := IndexOf(a, NEWLINE);
    if i < |a| {
      FirstLineStays(a, b);
      LinesResume(a[i + 1..], b);
      LinesRegroup([a[..i]], Lines(a[i + 1..]), Lines(Rest(a) + b));
    } else {
      assert a[..i] == a;
    }
  }

  lemma LinesRegroup(a: seq<seq<Byte>>, b: seq<seq<Byte>>, c: seq<seq<Byte>>)
    ensures a + (b + c) == (a + b) + c
  {
  }

  lemma FirstLineStays(a: seq<Byte>, b: seq<Byte>)
    requires IndexOf(a, NEWLINE) < |a|
    ensures var i := IndexOf(a, NEWLINE);
            && Lines(a + b) == [a[..i]] + Lines(a[i + 1..] + b)
            && Rest(a + b) == Rest(a[i + 1..] + b)
  {
    var i := IndexOf(a, NEWLINE);
    IndexOfAppend(a, b, NEWLINE);
    assert (a + b)[..i] == a[..i] && (a + b)[i + 1..] == a[i + 1..] + b;
  }

  // ---- Reading the request line ----

  function WithoutReturn(line: seq<Byte>): seq<Byte> {
    if line != [] && line[|line| - 1] == RETURN then line[..|line| - 1] else line
  }

  datatype Reading = Waiting(buf: seq<Byte>) | TooLong | Request(line: seq<Byte>, leftover: seq<Byte>)

  /** A successful read on a connection whose request line is not complete. The
      size is checked before the newline is looked for. */
  function Received(buf: seq<Byte>, chunk: seq<Byte>): Reading {
    var all := buf + chunk;
    if |all| > MAX_REQUEST_BYTES then TooLong
    else if NEWLINE !in all then Waiting(all)
    else Request(WithoutReturn(Lines(all)[0]), all[|Lines(all)[0]| + 1..])
  }

  class ReadingClient {
    var buf: seq<Byte>

    constructor ()
      ensures buf == []
    {
      buf := [];
    }

    method Got(chunk: seq<Byte>) returns (r: Reading)
      modifies this
      ensures r == Received(old(buf), chunk)
      ensures r.Waiting? ==> buf == r.buf
      ensures r.TooLong? ==> buf == old(buf) + chunk
      ensures r.Request? ==> buf == []
    {
      buf := buf + chunk;
      if |buf| > MAX_REQUEST_BYTES {
        return TooLong;
      }
      var split := IndexOf(buf, NEWLINE);
      if split == |buf| {
        assert buf[..split] == buf;
        IndexOfNone(buf, NEWLINE);
        return Waiting(buf);
      }
      var line := buf[..split + 1];
      assert line[..split] == buf[..split] == Lines(buf)[0];
      buf := buf[split + 1..];
      line := line[..|line| - 1];
      if line != [] && line[|line| - 1] == RETURN {
        line := line[..|line| - 1];
      }
      var leftover := buf;
      buf := [];
      return Request(line, leftover);
    }
  }

  // ---- Reading the lines of an inbox session ----

  datatype Input = Data(bytes: seq<Byte>) | Blocked | Eof

  function Bytes(input: Input): seq<Byte> {
    if input.Data? then input.bytes else []
  }

  // ---- One connection, from its first byte on ----

  /** `first` is the request line that was dispatched; when it claims an inbox,
      `lines` are the session's lines handled so far and `rest` its buffer. */
  datatype Conversation =
    | Opening(buf: seq<Byte>)
    | Refused
    | Open(first: seq<Byte>, lines: seq<seq<Byte>>, rest: seq<Byte>)
    | Closed(first: seq<Byte>, lines: seq<seq<Byte>>)
    | HungUp

  function Hear(c: Conversation, input: Input): Conversation {
    match c
    case Opening(buf) =>
      (match input
       case Data(bytes) =>
         (match Received(buf, bytes)
          case Waiting(all) => Opening(all)
          case TooLong => Refused
          case Request(line, leftover) => Open(line, [], leftover))
       case Blocked => c
       case Eof => HungUp)
    case Open(first, lines, rest) =>
      var all := rest + Bytes(input);
      if input.Eof? then Closed(first, lines + Lines(all)) else Open(first, lines + Lines(all), Rest(all))
    case _ => c
  }

  function HearAll(inputs: seq<Input>): Conversation {
    if inputs == [] then Opening([])
    else Hear(HearAll(inputs[..|inputs| - 1]), inputs[|inputs| - 1])
  }

  /** The bytes of the stream, however they were cut. */
  function Stream(inputs: seq<Input>): seq<Byte> {
    if inputs == [] then [] else Stream(inputs[..|inputs| - 1]) + Bytes(inputs[|inputs| - 1])
  }

  /** What a conversation must look like after the stream `s`. */
  predicate Reads(c: Conversation, s: seq<Byte>) {
    match c
    case Opening(buf) => buf == s && NEWLINE !in s && |s| <= MAX_REQUEST_BYTES
    case Open(first, lines, rest) =>
      && Lines(s) != []
      && first == WithoutReturn(Lines(s)[0])
      && lines + Lines(rest) == Lines(s)[1..]
      && Rest(rest) == Rest(s)
    case Closed(first, lines) => Lines(s) != [] && first == WithoutReturn(Lines(s)[0]) && lines == Lines(s)[1..]
    case Refused => |s| > MAX_REQUEST_BYTES
    case HungUp => NEWLINE !in s
  }

  lemma RequestReads(all: seq<Byte>)
    requires NEWLINE in all
    ensures Lines(all) != [] && |Lines(all)[0]| < |all|
    ensures Lines(all)[1..] == Lines(all[|Lines(all)[0]| + 1..])
    ensures Rest(all) == Rest(all[|Lines(all)[0]| + 1..])
  {
    IndexOfSome(all, NEWLINE);
    FirstLine(all);
  }

  lemma OpenHears(s: seq<Byte>, c: Conversation, input: Input)
    requires c.Open? && Reads(c, s)
    ensures Reads(Hear(c, input), s + Bytes(input))
  {
    var more := Bytes(input);
    LinesResume(s, more);
    LinesResume(c.rest, more);
    LinesOfRest(c.rest + more);
    TailsAgree(Lines(s), c.lines, Lines(c.rest), Lines(Rest(s) + more));
    var now := c.lines + Lines(c.rest + more);
    assert now + [] == now;
  }

  lemma TailsAgree(all: seq<seq<Byte>>, done: seq<seq<Byte>>, waiting: seq<seq<Byte>>, later: seq<seq<Byte>>)
    requires all != [] && done + waiting == all[1..]
    ensures (all + later)[0] == all[0]
    ensures (all + later)[1..] == done + (waiting + later)
  {
    assert (all + later)[1..] == all[1..] + later;
    assert done + (waiting + later) == (done + waiting) + later;
  }

  lemma LinesOfRest(s: seq<Byte>)
    ensures Lines(Rest(s)) == [] && Rest(Rest(s)) == Rest(s)
  {
    IndexOfNone(Rest(s), NEWLINE);
    assert Rest(s)[..|Rest(s)|] == Rest(s);
  }

  lemma OpeningHears(s: seq<Byte>, input: Input)
    requires NEWLINE !in s && |s| <= MAX_REQUEST_BYTES
    ensures Reads(Hear(Opening(s), input), s + Bytes(input))
  {
    var all := s + Bytes(input);
    if input.Data? {
      ReceivedReads(s, input.bytes);
    } else {
      assert all == s;
    }
  }

  lemma ReceivedReads(s: seq<Byte>, chunk: seq<Byte>)
    ensures var r, all := Received(s, chunk), s + chunk;
            && (r.Waiting? ==> r.buf == all && NEWLINE !in all && |all| <= MAX_REQUEST_BYTES)
            && (r.TooLong? <==> |all| > MAX_REQUEST_BYTES)
            && (r.Request? ==>
                  && Lines(all) != [] && r.line == WithoutReturn(Lines(all)[0])
                  && Lines(r.leftover) == Lines(all)[1..] && Rest(r.leftover) == Rest(all))
  {
    var all := s + chunk;
    if NEWLINE in all { RequestReads(all); }
  }

  /** Bytes after the end are not read. */
  predicate Ended(c: Conversation) {
    c.Refused? || c.HungUp? || c.Closed?
  }

  /** The request line, and the inbox lines behind it, are the lines of the
      stream up to the end of the conversation: no byte of a line is lost or
      seen twice, and the way the stream was cut into reads does not show. */
  lemma {:induction false} ConversationReads(inputs: seq<Input>) returns (heard: nat)
    ensures heard <= |inputs| && HearAll(inputs) == HearAll(inputs[..heard])
    ensures Reads(HearAll(inputs), Stream(inputs[..heard]))
    ensures Ended(HearAll(inputs)) || heard == |inputs|
  {
    assert inputs[..|inputs|] == inputs;
    if inputs == [] {
      heard := 0;
    } else {
      var before := inputs[..|inputs| - 1];
      var k := ConversationReads(before);
      assert inputs[..k] == before[..k];
      var c, input := HearAll(before), inputs[|inputs| - 1];
      if Ended(c) {
        heard := k;
      } else {
        heard := |inputs|;
        assert before[..k] == before;
        if c.Opening? { OpeningHears(c.buf, input); } else { OpenHears(Stream(before), c, input); }
      }
    }
  }

  /** The stream's end, if it comes, comes last. */
  predicate EofLast(inputs: seq<Input>) {
    forall j :: 0 <= j < |inputs| - 1 ==> !inputs[j].Eof?
  }

  lemma {:induction false} RefusalIsTheOnlyEnd(inputs: seq<Input>)
    requires (forall j :: 0 <= j < |inputs| ==> !inputs[j].Eof?) && Ended(HearAll(inputs))
    ensures HearAll(inputs).Refused?
  {
    var before := inputs[..|inputs| - 1];
    if Ended(HearAll(before)) { RefusalIsTheOnlyEnd(before); }
  }

  lemma WholeStreamReads(inputs: seq<Input>)
    requires EofLast(inputs) && !HearAll(inputs).Refused?
    ensures Reads(HearAll(inputs), Stream(inputs))
  {
    if inputs != [] {
      var before, input := inputs[..|inputs| - 1], inputs[|inputs| - 1];
      var c := HearAll(before);
      if Ended(c) { RefusalIsTheOnlyEnd(before); }
      var k := ConversationReads(before);
      assert before[..k] == before;
      if c.Opening? { OpeningHears(c.buf, input); } else { OpenHears(Stream(before), c, input); }
    }
  }

  /** The request line and all lines behind it, handled or complete in the buffer. */
  function Told(c: Conversation): Option<(seq<Byte>, seq<seq<Byte>>)> {
    match c
    case Open(first, lines, rest) => Some((first, lines + Lines(rest)))
    case Closed(first, lines) => Some((first, lines))
    case _ => None
  }

  lemma ToldIsStream(c: Conversation, s: seq<Byte>)
    requires Reads(c, s) && !c.Refused?
    ensures Told(c) == if Lines(s) == [] then None else Some((WithoutReturn(Lines(s)[0]), Lines(s)[1..]))
  {
    NewlineMakesLines(s);
  }

  /** Two ways of cutting the same bytes, with or without the stream's end behind
      them, tell the daemon the same lines and leave it the same rest, unless one
      of them is refused for its length. */
  lemma CuttingDoesNotShow(one: seq<Input>, other: seq<Input>)
    requires Stream(one) == Stream(other) && EofLast(one) && EofLast(other)
    requires !HearAll(one).Refused? && !HearAll(other).Refused?
    ensures var a, b := HearAll(one), HearAll(other);
            && Told(a) == Told(b)
            && (a.Opening? && b.Opening? ==> a == b)
            && (a.Open? && b.Open? ==> Rest(a.rest) == Rest(b.rest))
  {
    WholeStreamReads(one);
    WholeStreamReads(other);
    ToldIsStream(HearAll(one), Stream(one));
    ToldIsStream(HearAll(other), Stream(other));
  }

  lemma NewlineMakesLines(s: seq<Byte>)
    ensures NEWLINE in s <==> Lines(s) != []
  {
    assert s[..|s|] == s;
  }

  // ---- When a request is refused ----

  /** Read `k` is the one that refuses: no newline had been read before it, and
      it takes the buffer over the limit. */
  predicate RefusedAt(inputs: seq<Input>, k: nat) {
    && k < |inputs|
    && NEWLINE !in Stream(inputs[..k])
    && (forall j :: 0 <= j <= k ==> !inputs[j].Eof?)
    && |Stream(inputs[..k + 1])| > MAX_REQUEST_BYTES
  }

  lemma {:induction false} StreamGrows(inputs: seq<Input>, k: nat)
    requires k <= |inputs|
    ensures |Stream(inputs[..k])| <= |Stream(inputs)|
    ensures Stream(inputs[..k]) == Stream(inputs)[..|Stream(inputs[..k])|]
  {
    assert inputs[..|inputs|] == inputs;
    if k < |inputs| {
      StreamGrows(inputs[..|inputs| - 1], k);
      assert inputs[..|inputs| - 1][..k] == inputs[..k];
    }
  }

  lemma {:induction false} RefusedSomewhere(inputs: seq<Input>) returns (k: nat)
    requires HearAll(inputs).Refused?
    ensures RefusedAt(inputs, k)
  {
    var before := inputs[..|inputs| - 1];
    if HearAll(before).Refused? {
      k := RefusedSomewhere(before);
      assert before[..k] == inputs[..k] && before[..k + 1] == inputs[..k + 1];
    } else {
      k := |inputs| - 1;
      RefusedNow(inputs);
    }
  }

  /** The read that refuses finds the buffer it has read so far. */
  lemma RefusedNow(inputs: seq<Input>)
    requires HearAll(inputs).Refused? && !HearAll(inputs[..|inputs| - 1]).Refused?
    ensures RefusedAt(inputs, |inputs| - 1)
  {
    var k := |inputs| - 1;
    RefusesOpening(HearAll(inputs[..k]), inputs[k]);
    OpeningHeard(inputs[..k]);
    OpeningHeardNoEnd(inputs[..k]);
    assert inputs[..k + 1] == inputs;
  }

  lemma RefusesOpening(c: Conversation, input: Input)
    requires Hear(c, input).Refused? && !c.Refused?
    ensures c.Opening? && !input.Eof? && |c.buf + Bytes(input)| > MAX_REQUEST_BYTES
  {
  }

  lemma OpeningHeard(inputs: seq<Input>)
    requires HearAll(inputs).Opening?
    ensures HearAll(inputs) == Opening(Stream(inputs)) && NEWLINE !in Stream(inputs)
  {
    var heard := ConversationReads(inputs);
    assert inputs[..heard] == inputs;
  }

  lemma {:induction false} OpeningHeardNoEnd(inputs: seq<Input>)
    requires HearAll(inputs).Opening?
    ensures forall j :: 0 <= j < |inputs| ==> !inputs[j].Eof?
  {
    if inputs != [] { OpeningHeardNoEnd(inputs[..|inputs| - 1]); }
  }

  lemma {:induction false} StillOpening(inputs: seq<Input>)
    requires NEWLINE !in Stream(inputs) && |Stream(inputs)| <= MAX_REQUEST_BYTES
    requires forall j :: 0 <= j < |inputs| ==> !inputs[j].Eof?
    ensures HearAll(inputs) == Opening(Stream(inputs))
  {
    if inputs != [] {
      StreamGrows(inputs, |inputs| - 1);
      StillOpening(inputs[..|inputs| - 1]);
    }
  }

  lemma {:induction false} RefusalStays(inputs: seq<Input>, k: nat)
    requires k <= |inputs| && HearAll(inputs[..k]).Refused?
    ensures HearAll(inputs).Refused?
  {
    if k < |inputs| {
      assert inputs[..|inputs| - 1][..k] == inputs[..k];
      RefusalStays(inputs[..|inputs| - 1], k);
    } else {
      assert inputs[..k] == inputs;
    }
  }

  lemma {:induction false} RefusedByRead(inputs: seq<Input>, k: nat)
    requires RefusedAt(inputs, k)
    ensures HearAll(inputs).Refused?
    decreases k
  {
    var before, upTo := inputs[..k], inputs[..k + 1];
    assert upTo[..k] == before && upTo[k] == inputs[k];
    if |Stream(before)| > MAX_REQUEST_BYTES {
      assert before[..k - 1] == inputs[..k - 1] && before == inputs[..k - 1 + 1];
      StreamGrows(before, k - 1);
      RefusedByRead(inputs, k - 1);
    } else {
      StillOpening(before);
      RefusalStays(inputs, k + 1);
    }
  }

  /** A request is refused exactly when some read takes the buffer over the
      limit before any earlier read brought a newline. */
  lemma RefusedExactly(inputs: seq<Input>)
    ensures HearAll(inputs).Refused? <==> exists k: nat :: RefusedAt(inputs, k)
  {
    if HearAll(inputs).Refused? {
      var k := RefusedSomewhere(inputs);
    } else if k: nat :| RefusedAt(inputs, k) {
      RefusedByRead(inputs, k);
    }
  }

  predicate Chunked(inputs: seq<Input>) {
    forall j :: 0 <= j < |inputs| ==> |Bytes(inputs[j])| <= READ_CHUNK
  }

  lemma RefusalIsLate(inputs: seq<Input>, k: nat)
    requires Chunked(inputs) && RefusedAt(inputs, k)
    ensures IndexOf(Stream(inputs), NEWLINE) + READ_CHUNK > MAX_REQUEST_BYTES
  {
    var before := Stream(inputs[..k]);
    RefusedLength(inputs, k);
    StreamGrows(inputs, k);
    LateNewline(before, Stream(inputs));
  }

  /** What came before the read that was refused is within a chunk of the limit. */
  lemma RefusedLength(inputs: seq<Input>, k: nat)
    requires Chunked(inputs) && RefusedAt(inputs, k)
    ensures var before := Stream(inputs[..k]);
            NEWLINE !in before && |before| + READ_CHUNK > MAX_REQUEST_BYTES
  {
    assert inputs[..k + 1][..k] == inputs[..k];
  }

  lemma LateNewline(before: seq<Byte>, all: seq<Byte>)
    requires before <= all && NEWLINE !in before
    ensures IndexOf(all, NEWLINE) >= |before|
  {
    assert all == before + all[|before|..];
    IndexOfNone(before, NEWLINE);
    IndexOfAppend(before, all[|before|..], NEWLINE);
  }

  /** With reads of at most 4096 bytes, a stream whose first newline leaves a
      chunk's room under the limit is never refused, however it is cut. */
  lemma ShortRequestIsNeverRefused(inputs: seq<Input>)
    requires Chunked(inputs)
    requires IndexOf(Stream(inputs), NEWLINE) + READ_CHUNK <= MAX_REQUEST_BYTES
    ensures !HearAll(inputs).Refused?
  {
    if HearAll(inputs).Refused? {
      var k := RefusedSomewhere(inputs);
      RefusalIsLate(inputs, k);
    }
  }

  /** And one whose first newline, if any, is beyond the limit always is. */
  lemma {:induction false} LongRequestIsAlwaysRefused(inputs: seq<Input>)
    requires |Stream(inputs)| > MAX_REQUEST_BYTES
    requires NEWLINE !in Stream(inputs)[..MAX_REQUEST_BYTES]
    requires forall j :: 0 <= j < |inputs| ==> !inputs[j].Eof?
    ensures HearAll(inputs).Refused?
  {
    var k := |inputs| - 1;
    var before := inputs[..k];
    StreamGrows(inputs, k);
    if |Stream(before)| > MAX_REQUEST_BYTES {
      assert Stream(before)[..MAX_REQUEST_BYTES] == Stream(inputs)[..MAX_REQUEST_BYTES];
      LongRequestIsAlwaysRefused(before);
    } else {
      assert Stream(before) == Stream(inputs)[..MAX_REQUEST_BYTES][..|Stream(before)|];
      StillOpening(before);
    }
  }

  // ---- The request line itself ----

  /** One carriage return in front of the newline is not part of the line. */
  lemma ReturnIsStripped(line: seq<Byte>)
    ensures WithoutReturn(line + [13]) == line
    ensures line == [] || line[|line| - 1] != 13 ==> WithoutReturn(line) == line
  {
    assert (line + [13])[..|line|] == line;
  }

  lemma FirstLineIs(line: seq<Byte>, rest: seq<Byte>)
    requires NEWLINE !in line
    ensures Lines(line + [NEWLINE] + rest) != [] && Lines(line + [NEWLINE] + rest)[0] == line
  {
    var all := line + [NEWLINE] + rest;
    IndexOfFirst(line, NEWLINE, rest);
    assert all[..|line|] == line;
    FirstLine(all);
  }

  /** A request that comes whole is what stands before the newline, with or without a carriage
      return there, and everything behind the newline is kept for what follows. */
  lemma RequestIsRead(line: seq<Byte>, rest: seq<Byte>)
    requires 10 !in line && |line| + 2 + |rest| <= 65536
    ensures HearAll([Data(line + [13] + [10] + rest)]) == Open(line, [], rest)
    ensures line == [] || line[|line| - 1] != 13 ==> HearAll([Data(line + [10] + rest)]) == Open(line, [], rest)
  {
    ReturnIsStripped(line);
    WholeIsHeard(line + [13], rest);
    WholeIsHeard(line, rest);
  }

  lemma WholeIsHeard(line: seq<Byte>, rest: seq<Byte>)
    requires 10 !in line && |line| + 1 + |rest| <= 65536
    ensures HearAll([Data(line + [10] + rest)]) == Open(WithoutReturn(line), [], rest)
  {
    var all := line + [10] + rest;
    FirstLineIs(line, rest);
    assert all[|line|] == 10 && all[|line| + 1..] == rest;
    assert [] + all == all;
    assert [Data(all)][..0] == [];
    assert HearAll([]) == Opening([]);
  }
}
