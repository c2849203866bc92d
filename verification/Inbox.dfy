/** The output side of an inbox session: what is queued for the client, what
    has gone out through partial writes, and which messages were offered. */
module Inbox {
  import opened Search
  import opened Framing

  type MessageId = int

  /** A line put on the output: a delivery of a message, or the answer to a line
      of the client. `text` is its JSON encoding. */
  datatype Line = Delivery(message: MessageId, text: seq<Byte>) | Answer(text: seq<Byte>)

  /** What one `write` on the socket did. */
  datatype Wrote = Took(n: nat) | WouldBlock | Broken

  predicate Deliveries(queued: seq<Line>) {
    forall i :: 0 <= i < |queued| ==> queued[i].Delivery?
  }

  /** What the store has queued for the waiter. */
  type Queue = queued: seq<Line> | Deliveries(queued) witness []

  /** The last four fields are histories: the bytes the socket took, the lines ever
      put on the output, the bytes that came in, and the client's lines handled. */
  datatype Session = Session(
    readBuf: seq<Byte>,
    writeBuf: seq<Byte>,
    offered: set<MessageId>,
    open: bool,
    sent: seq<Byte>,
    log: seq<Line>,
    heard: seq<Byte>,
    handled: seq<seq<Byte>>)

  function Texts(log: seq<Line>): seq<seq<Byte>> {
    if log == [] then [] else Texts(log[..|log| - 1]) + [log[|log| - 1].text]
  }

  function Enqueue(s: Session, line: Line): Session {
    s.(writeBuf := s.writeBuf + line.text + [NEWLINE], log := s.log + [line])
  }

  /** Write until the buffer is empty, the socket blocks, or it fails. A write of
      nothing is a failure. After the scripted answers the socket blocks. */
  function Flush(s: Session, script: seq<Wrote>): Session
    decreases |script|
  {
    if s.writeBuf == [] || script == [] then s
    else
      match script[0]
      case Took(n) =>
        if n == 0 || n > |s.writeBuf| then s.(open := false)
        else Flush(s.(sent := s.sent + s.writeBuf[..n], writeBuf := s.writeBuf[n..]), script[1..])
      case WouldBlock => s
      case Broken => s.(open := false)
  }

  /** Offer every queued delivery that this session has not offered before. */
  function Offer(s: Session, queued: Queue): Session {
    if queued == [] then s
    else
      var before := Offer(s, queued[..|queued| - 1]);
      var delivery := queued[|queued| - 1];
      if delivery.message in before.offered then before
      else Enqueue(before, delivery).(offered := before.offered + {delivery.message})
  }

  /** The size of the white space character in front, 0 when there is none: the
      characters that `str::trim` removes, in UTF-8. */
  function Space(s: seq<Byte>): (n: nat)
    ensures n <= |s|
  {
    if s == [] then 0
    else if 9 <= s[0] <= 13 || s[0] == 32 then 1
    else if |s| >= 2 && s[0] == 194 && s[1] in {133, 160} then 2
    else if |s| < 3 then 0
    else if s[0] == 225 && s[1] == 154 && s[2] == 128 then 3
    else if s[0] == 226 && s[1] == 128 && (128 <= s[2] <= 138 || s[2] in {168, 169, 175}) then 3
    else if s[0] == 226 && s[1] == 129 && s[2] == 159 then 3
    else if s[0] == 227 && s[1] == 128 && s[2] == 128 then 3
    else 0
  }

  /** Nothing is left of the line when it is trimmed. */
  predicate Blank(s: seq<Byte>)
    decreases |s|
  {
    s == [] || (Space(s) > 0 && Blank(s[Space(s)..]))
  }

  /** A blank line is skipped, every other line is answered. */
  function AnswerOne(s: Session, line: seq<Byte>, answer: seq<Byte> -> seq<Byte>): Session {
    (if Blank(line) then s else Enqueue(s, Answer(answer(line)))).(handled := s.handled + [line])
  }

  function AnswerAll(s: Session, lines: seq<seq<Byte>>, answer: seq<Byte> -> seq<Byte>): Session {
    if lines == [] then s
    else
      AnswerOne(AnswerAll(s, lines[..|lines| - 1], answer), lines[|lines| - 1], answer)
  }

  /** Answer every complete line of the buffer. */
  function Drained(s: Session, answer: seq<Byte> -> seq<Byte>): Session {
    AnswerAll(s.(readBuf := Rest(s.readBuf)), Lines(s.readBuf), answer)
  }

  /** Read once and answer; the end of the input closes the session, after its last
      lines were answered. */
  function ReadAcks(s: Session, input: Input, answer: seq<Byte> -> seq<Byte>): Session {
    var got := s.(readBuf := s.readBuf + Bytes(input), heard := s.heard + Bytes(input));
    Drained(got, answer).(open := s.open && !input.Eof?)
  }

  /** One round's worth of the world: the socket's answers to the three flushes,
      the store's queue, the input, and the answer to each line. */
  datatype Round = Round(
    first: seq<Wrote>, queued: Queue, second: seq<Wrote>,
    input: Input, answer: seq<Byte> -> seq<Byte>, third: seq<Wrote>)

  /** Where a round stands when it turns to its input. */
  function BeforeReading(s: Session, r: Round): Session {
    Flush(Offer(Flush(s, r.first), r.queued), r.second)
  }

  /** Output first: nothing new is offered, and nothing is read, while earlier
      output is still waiting. */
  function Pump(s: Session, r: Round): Session {
    var a := Flush(s, r.first);
    if !a.open || a.writeBuf != [] then a
    else
      var b := BeforeReading(s, r);
      if !b.open || b.writeBuf != [] then b
      else
        // The flush comes before the read's own error is looked at.
        Flush(ReadAcks(b, r.input, r.answer), r.third)
  }

  function Claimed(leftover: seq<Byte>): Session {
    Session(leftover, [], {}, true, [], [], leftover, [])
  }

  /** A session that failed is dropped and pumped no more. */
  function Run(leftover: seq<Byte>, rounds: seq<Round>): Session {
    if rounds == [] then Claimed(leftover)
    else
      var s := Run(leftover, rounds[..|rounds| - 1]);
      if s.open then Pump(s, rounds[|rounds| - 1]) else s
  }

  // ---- What every step keeps ----

  predicate Conserves(s: Session) {
    s.sent + s.writeBuf == Join(Texts(s.log))
  }

  predicate OfferedAt(log: seq<Line>, i: int, m: MessageId) {
    0 <= i < |log| && log[i].Delivery? && log[i].message == m
  }

  ghost predicate OffersOnce(log: seq<Line>) {
    forall i, j, m :: OfferedAt(log, i, m) && OfferedAt(log, j, m) ==> i == j
  }

  ghost predicate Remembers(log: seq<Line>, offered: set<MessageId>) {
    && (forall i, m :: OfferedAt(log, i, m) ==> m in offered)
    && (forall m :: m in offered ==> exists i :: OfferedAt(log, i, m))
  }

  function AnswerCount(log: seq<Line>): nat {
    if log == [] then 0 else AnswerCount(log[..|log| - 1]) + if log[|log| - 1].Answer? then 1 else 0
  }

  function SpokenCount(lines: seq<seq<Byte>>): nat {
    if lines == [] then 0 else SpokenCount(lines[..|lines| - 1]) + if Blank(lines[|lines| - 1]) then 0 else 1
  }

  /** The lines handled, with those still waiting, are the lines of the input, and
      each that is not blank has its answer. */
  predicate Listens(s: Session) {
    && s.handled + Lines(s.readBuf) == Lines(s.heard)
    && Rest(s.readBuf) == Rest(s.heard)
    && AnswerCount(s.log) == SpokenCount(s.handled)
  }

  ghost predicate Sound(s: Session) {
    Conserves(s) && OffersOnce(s.log) && Remembers(s.log, s.offered) && Listens(s)
  }

  /** The fields a write does not touch. */
  predicate SameInput(s: Session, t: Session) {
    t.readBuf == s.readBuf && t.heard == s.heard && t.handled == s.handled
  }

  lemma {:induction false} JoinAppends(a: seq<seq<Byte>>, text: seq<Byte>)
    ensures Join(a + [text]) == Join(a) + text + [NEWLINE]
  {
    if a == [] {
      assert Join([text]) == text + [NEWLINE] + Join([]);
    } else {
      assert (a + [text])[1..] == a[1..] + [text];
      JoinAppends(a[1..], text);
    }
  }

  lemma EnqueueConserves(s: Session, line: Line)
    requires Conserves(s)
    ensures Conserves(Enqueue(s, line))
  {
    assert (s.log + [line])[..|s.log|] == s.log;
    JoinAppends(Texts(s.log), line.text);
    assert s.sent + (s.writeBuf + line.text + [NEWLINE]) == s.sent + s.writeBuf + line.text + [NEWLINE];
  }

  lemma AnswersAppend(log: seq<Line>, line: Line)
    ensures AnswerCount(log + [line]) == AnswerCount(log) + if line.Answer? then 1 else 0
  {
    assert (log + [line])[..|log|] == log;
  }

  /** What is sound of the output alone. */
  ghost predicate Speaks(s: Session) {
    Conserves(s) && OffersOnce(s.log) && Remembers(s.log, s.offered)
  }

  lemma AnswerKeeps(s: Session, text: seq<Byte>)
    requires Speaks(s)
    ensures Speaks(Enqueue(s, Answer(text)))
  {
    EnqueueConserves(s, Answer(text));
    LogGrows(s.log, Answer(text));
  }

  /** A longer log offers what it offered, where it offered it. */
  lemma LogGrows(log: seq<Line>, line: Line)
    ensures forall i, m :: OfferedAt(log + [line], i, m)
              <==> OfferedAt(log, i, m) || (i == |log| && line.Delivery? && line.message == m)
  {
  }

  lemma DeliveryKeeps(s: Session, line: Line)
    requires Speaks(s) && line.Delivery? && line.message !in s.offered
    ensures Speaks(Enqueue(s, line).(offered := s.offered + {line.message}))
  {
    EnqueueConserves(s, line);
    LogGrows(s.log, line);
    assert OfferedAt(s.log + [line], |s.log|, line.message);
  }

  lemma {:induction false} FlushKeeps(s: Session, script: seq<Wrote>)
    requires Speaks(s)
    ensures Speaks(Flush(s, script))
    ensures var t := Flush(s, script);
            t.log == s.log && t.offered == s.offered && s.sent <= t.sent && SameInput(s, t)
    decreases |script|
  {
    if s.writeBuf != [] && script != [] && script[0].Took? && 0 < script[0].n <= |s.writeBuf| {
      var n := script[0].n;
      assert s.sent + s.writeBuf[..n] + s.writeBuf[n..] == s.sent + s.writeBuf;
      FlushKeeps(s.(sent := s.sent + s.writeBuf[..n], writeBuf := s.writeBuf[n..]), script[1..]);
    }
  }

  /** From `s` to `t` deliveries were offered, and nothing else happened. */
  ghost predicate OffersMade(s: Session, t: Session) {
    && Speaks(t)
    && s.log <= t.log && AnswerCount(t.log) == AnswerCount(s.log)
    && t.sent == s.sent && t.open == s.open && SameInput(s, t) && s.offered <= t.offered
  }

  lemma OfferOneKeeps(s: Session, before: Session, delivery: Line)
    requires OffersMade(s, before) && delivery.Delivery? && delivery.message !in before.offered
    ensures OffersMade(s, Enqueue(before, delivery).(offered := before.offered + {delivery.message}))
  {
    DeliveryKeeps(before, delivery);
    AnswersAppend(before.log, delivery);
  }

  lemma {:induction false} OfferKeeps(s: Session, queued: Queue)
    requires Speaks(s)
    ensures OffersMade(s, Offer(s, queued))
    ensures forall i :: 0 <= i < |queued| ==> queued[i].message in Offer(s, queued).offered
  {
    if queued != [] {
      var n := |queued| - 1;
      var before := Offer(s, queued[..n]);
      OfferKeeps(s, queued[..n]);
      if queued[n].message !in before.offered { OfferOneKeeps(s, before, queued[n]); }
      assert forall i :: 0 <= i < n ==> queued[..n][i] == queued[i];
    }
  }

  lemma SpokenAppends(lines: seq<seq<Byte>>, line: seq<Byte>)
    ensures SpokenCount(lines + [line]) == SpokenCount(lines) + if Blank(line) then 0 else 1
  {
    assert (lines + [line])[..|lines|] == lines;
  }

  /** From `s` to `t` these lines were answered, and nothing else happened. */
  ghost predicate AnswersMade(s: Session, t: Session, lines: seq<seq<Byte>>) {
    && Speaks(t) && AnswerCount(t.log) == SpokenCount(t.handled)
    && s.log <= t.log && t.sent == s.sent && t.offered == s.offered
    && t.readBuf == s.readBuf && t.heard == s.heard && t.handled == s.handled + lines
  }

  lemma AnswerOneKeeps(s: Session, before: Session, lines: seq<seq<Byte>>, answer: seq<Byte> -> seq<Byte>)
    requires lines != [] && AnswersMade(s, before, lines[..|lines| - 1])
    ensures AnswersMade(s, AnswerOne(before, lines[|lines| - 1], answer), lines)
  {
    var line := lines[|lines| - 1];
    if !Blank(line) {
      AnswerKeeps(before, answer(line));
      AnswersAppend(before.log, Answer(answer(line)));
    }
    SpokenAppends(before.handled, line);
    assert s.handled + lines[..|lines| - 1] + [line] == s.handled + lines;
  }

  lemma {:induction false} AnswerAllKeeps(s: Session, lines: seq<seq<Byte>>, answer: seq<Byte> -> seq<Byte>)
    requires Speaks(s) && AnswerCount(s.log) == SpokenCount(s.handled)
    ensures AnswersMade(s, AnswerAll(s, lines, answer), lines)
  {
    if lines != [] {
      var n := |lines| - 1;
      AnswerAllKeeps(s, lines[..n], answer);
      AnswerOneKeeps(s, AnswerAll(s, lines[..n], answer), lines, answer);
    } else {
      assert s.handled + [] == s.handled;
    }
  }

  lemma ReadKeeps(s: Session, input: Input, answer: seq<Byte> -> seq<Byte>)
    requires Sound(s)
    ensures var t := ReadAcks(s, input, answer); Sound(t) && s.log <= t.log && t.sent == s.sent
  {
    var more := Bytes(input);
    var all := s.readBuf + more;
    AnswerAllKeeps(s.(readBuf := Rest(all), heard := s.heard + more), Lines(all), answer);
    HearingMore(s.handled, s.readBuf, s.heard, more);
  }

  lemma HearingMore(handled: seq<seq<Byte>>, readBuf: seq<Byte>, heard: seq<Byte>, more: seq<Byte>)
    requires handled + Lines(readBuf) == Lines(heard) && Rest(readBuf) == Rest(heard)
    ensures (handled + Lines(readBuf + more)) + Lines(Rest(readBuf + more)) == Lines(heard + more)
    ensures Rest(Rest(readBuf + more)) == Rest(heard + more)
  {
    LinesResume(readBuf, more);
    LinesResume(heard, more);
    LinesOfRest(readBuf + more);
    assert handled + (Lines(readBuf) + Lines(Rest(readBuf) + more)) == Lines(heard) + Lines(Rest(readBuf) + more);
    assert (handled + Lines(readBuf + more)) + [] == handled + Lines(readBuf + more);
  }

  lemma BeforeReadingKeeps(s: Session, r: Round)
    requires Sound(s)
    ensures var b := BeforeReading(s, r);
            && Sound(b) && s.log <= b.log && s.sent <= b.sent && SameInput(s, b)
            && AnswerCount(b.log) == AnswerCount(s.log)
            && forall i :: 0 <= i < |r.queued| ==> r.queued[i].message in b.offered
  {
    var a := Flush(s, r.first);
    FlushKeeps(s, r.first);
    OfferKeeps(a, r.queued);
    FlushKeeps(Offer(a, r.queued), r.second);
  }

  lemma PumpKeeps(s: Session, r: Round)
    requires Sound(s)
    ensures Sound(Pump(s, r)) && s.log <= Pump(s, r).log && s.sent <= Pump(s, r).sent
  {
    FlushKeeps(s, r.first);
    BeforeReadingKeeps(s, r);
    var b := BeforeReading(s, r);
    ReadKeeps(b, r.input, r.answer);
    FlushKeeps(ReadAcks(b, r.input, r.answer), r.third);
  }

  /** In every run, whatever the sizes of the partial writes: the bytes taken by
      the socket, followed by the buffer, are the enqueued lines in order; no
      message was offered twice; and the client's lines are handled once each, in
      order, with one answer for each that is not blank. */
  lemma {:induction false} RunIsSound(leftover: seq<Byte>, rounds: seq<Round>)
    ensures Sound(Run(leftover, rounds))
  {
    if rounds == [] {
      assert [] + Lines(leftover) == Lines(leftover);
    } else {
      RunIsSound(leftover, rounds[..|rounds| - 1]);
      var s := Run(leftover, rounds[..|rounds| - 1]);
      if s.open { PumpKeeps(s, rounds[|rounds| - 1]); }
    }
  }

  // ---- What the client sees ----

  predicate OneLine(text: seq<Byte>) {
    NEWLINE !in text
  }

  predicate AllOneLine(log: seq<Line>) {
    forall i :: 0 <= i < |log| ==> OneLine(log[i].text)
  }

  lemma {:induction false} LinesOfJoin(texts: seq<seq<Byte>>)
    requires forall i :: 0 <= i < |texts| ==> OneLine(texts[i])
    ensures Lines(Join(texts)) == texts
  {
    if texts != [] {
      var rest := Join(texts[1..]);
      IndexOfFirst(texts[0], NEWLINE, rest);
      var all := texts[0] + [NEWLINE] + rest;
      assert all[..|texts[0]|] == texts[0] && all[|texts[0]| + 1..] == rest;
      LinesOfJoin(texts[1..]);
    }
  }

  lemma {:induction false} TextsAre(log: seq<Line>)
    ensures |Texts(log)| == |log| && forall i :: 0 <= i < |log| ==> Texts(log)[i] == log[i].text
  {
    if log != [] { TextsAre(log[..|log| - 1]); }
  }

  /** JSON puts no newline inside a line. So the complete lines the client can
      read off the socket, at any moment, are the first of the enqueued ones. */
  lemma ClientReadsPrefix(leftover: seq<Byte>, rounds: seq<Round>)
    requires AllOneLine(Run(leftover, rounds).log)
    ensures var s := Run(leftover, rounds); Lines(s.sent) <= Texts(s.log)
    ensures var s := Run(leftover, rounds); s.writeBuf == [] ==> Lines(s.sent) == Texts(s.log)
  {
    RunIsSound(leftover, rounds);
    var s := Run(leftover, rounds);
    TextsAre(s.log);
    LinesOfJoin(Texts(s.log));
    LinesResume(s.sent, s.writeBuf);
    if s.writeBuf == [] { assert s.sent + s.writeBuf == s.sent; }
  }

  /** The round takes bytes or lines from the client, or answers it. */
  predicate Listened(s: Session, t: Session) {
    t.heard != s.heard || t.handled != s.handled || t.readBuf != s.readBuf || AnswerCount(t.log) != AnswerCount(s.log)
  }

  /** A round turns to its input only when every byte enqueued before has gone out,
      this round's offers included. */
  lemma ReadsOnlyWhenWritten(s: Session, r: Round)
    requires Sound(s) && Listened(s, Pump(s, r))
    ensures var b, t := BeforeReading(s, r), Pump(s, r);
            && b.open && b.writeBuf == [] && b.sent == Join(Texts(b.log)) && b.sent <= t.sent
            && s.log <= b.log <= t.log && !Listened(s, b)
            && forall i :: 0 <= i < |r.queued| ==> r.queued[i].message in b.offered
  {
    FlushKeeps(s, r.first);
    BeforeReadingKeeps(s, r);
    var b := BeforeReading(s, r);
    assert b.writeBuf == [];
    assert b.sent + b.writeBuf == b.sent;
    ReadKeeps(b, r.input, r.answer);
    FlushKeeps(ReadAcks(b, r.input, r.answer), r.third);
  }

  // ---- The session as an object ----

  class InboxSession {
    var readBuf: seq<Byte>
    var writeBuf: seq<Byte>
    var offered: set<MessageId>
    ghost var sent: seq<Byte>
    ghost var log: seq<Line>
    ghost var heard: seq<Byte>
    ghost var handled: seq<seq<Byte>>

    ghost function Value(open: bool): Session
      reads this
    {
      Session(readBuf, writeBuf, offered, open, sent, log, heard, handled)
    }

    constructor (leftover: seq<Byte>)
      ensures Value(true) == Claimed(leftover)
    {
      readBuf, writeBuf, offered := leftover, [], {};
      sent, log, heard, handled := [], [], leftover, [];
    }

    method FlushWrite(script: seq<Wrote>) returns (ok: bool)
      modifies this
      ensures Value(ok) == Flush(old(Value(true)), script)
    {
      var i := 0;
      while writeBuf != [] && i < |script|
        invariant 0 <= i <= |script|
        invariant Flush(Value(true), script[i..]) == Flush(old(Value(true)), script)
      {
        assert script[i..][0] == script[i] && script[i..][1..] == script[i + 1..];
        match script[i] {
          case Took(n) =>
            if n == 0 || n > |writeBuf| { return false; }
            sent := sent + writeBuf[..n];
            writeBuf := writeBuf[n..];
          case WouldBlock => return true;
          case Broken => return false;
        }
        i := i + 1;
      }
      return true;
    }

    method OfferQueued(queued: Queue)
      modifies this
      ensures Value(true) == Offer(old(Value(true)), queued)
    {
      var i := 0;
      while i < |queued|
        invariant 0 <= i <= |queued|
        invariant Value(true) == Offer(old(Value(true)), queued[..i])
      {
        assert queued[..i + 1][..i] == queued[..i];
        if queued[i].message !in offered {
          writeBuf := writeBuf + queued[i].text + [NEWLINE];
          offered := offered + {queued[i].message};
          log := log + [queued[i]];
        }
        i := i + 1;
      }
      assert queued[..i] == queued;
    }

    method AnswerLine(line: seq<Byte>, answer: seq<Byte> -> seq<Byte>)
      modifies this`writeBuf, this`log, this`handled
      ensures Value(true) == AnswerOne(old(Value(true)), line, answer)
    {
      if !Blank(line) {
        writeBuf := writeBuf + answer(line) + [NEWLINE];
        log := log + [Answer(answer(line))];
      }
      handled := handled + [line];
    }

    /** One read, then every complete line in the buffer, as they come; the end of
        the input is an error, but a later one. */
    method ReadInput(input: Input, answer: seq<Byte> -> seq<Byte>) returns (ok: bool)
      modifies this
      ensures Value(ok) == ReadAcks(old(Value(true)), input, answer)
    {
      ok := !input.Eof?;
      readBuf := readBuf + Bytes(input);
      heard := heard + Bytes(input);
      ghost var got := Value(true);
      var index := IndexOf(readBuf, NEWLINE);
      while index < |readBuf|
        invariant index == IndexOf(readBuf, NEWLINE)
        invariant Drained(Value(true), answer) == Drained(got, answer)
        decreases |readBuf|
      {
        DrainOne(Value(true), answer);
        var line := readBuf[..index];
        readBuf := readBuf[index + 1..];
        AnswerLine(line, answer);
        index := IndexOf(readBuf, NEWLINE);
      }
      NothingToDrain(Value(true), answer);
    }

    /** One round of the session; what fails is the round's result. */
    method PumpInbox(r: Round) returns (ok: bool)
      modifies this
      ensures Value(ok) == Pump(old(Value(true)), r)
    {
      ok := FlushWrite(r.first);
      if !ok || writeBuf != [] { return; }
      OfferQueued(r.queued);
      ok := FlushWrite(r.second);
      if !ok || writeBuf != [] { return; }
      var read := ReadInput(r.input, r.answer);
      var flushed := FlushAfter(read, r.third);
      ok := read && flushed;
    }

    /** The last flush, which happens also when the read has failed. */
    method FlushAfter(read: bool, script: seq<Wrote>) returns (ok: bool)
      modifies this
      ensures Value(read && ok) == Flush(old(Value(read)), script)
    {
      FlushIgnoresFailure(Value(true), script);
      ok := FlushWrite(script);
    }
  }

  lemma {:induction false} AnswerFront(s: Session, line: seq<Byte>, later: seq<seq<Byte>>,
                                       answer: seq<Byte> -> seq<Byte>)
    ensures AnswerAll(s, [line] + later, answer) == AnswerAll(AnswerOne(s, line, answer), later, answer)
  {
    var all, n := [line] + later, |later|;
    if n == 0 {
      assert all[..0] == [];
    } else {
      assert all[..n] == [line] + later[..n - 1];
      AnswerFront(s, line, later[..n - 1], answer);
    }
  }

  lemma DrainOne(s: Session, answer: seq<Byte> -> seq<Byte>)
    requires IndexOf(s.readBuf, NEWLINE) < |s.readBuf|
    ensures var i := IndexOf(s.readBuf, NEWLINE);
            Drained(s, answer) == Drained(AnswerOne(s.(readBuf := s.readBuf[i + 1..]), s.readBuf[..i], answer), answer)
  {
    var i := IndexOf(s.readBuf, NEWLINE);
    FirstLine(s.readBuf);
    AnswerFront(s.(readBuf := Rest(s.readBuf)), s.readBuf[..i], Lines(s.readBuf[i + 1..]), answer);
  }

  lemma NothingToDrain(s: Session, answer: seq<Byte> -> seq<Byte>)
    requires IndexOf(s.readBuf, NEWLINE) == |s.readBuf|
    ensures Drained(s, answer) == s
  {
    assert s.readBuf[..|s.readBuf|] == s.readBuf;
  }

  /** Writing does not look at whether the session has failed already. */
  lemma {:induction false} FlushIgnoresFailure(s: Session, script: seq<Wrote>)
    ensures Flush(s.(open := false), script) == Flush(s, script).(open := false)
    decreases |script|
  {
    if s.writeBuf != [] && script != [] && script[0].Took? && 0 < script[0].n <= |s.writeBuf| {
      var n := script[0].n;
      FlushIgnoresFailure(s.(sent := s.sent + s.writeBuf[..n], writeBuf := s.writeBuf[n..]), script[1..]);
    }
  }

  // ---- One session for a waiter ----

  datatype Opened = Opened(waiter: int, session: Session)

  ghost predicate OneEach(inboxes: seq<Opened>) {
    forall i, j :: 0 <= i < j < |inboxes| ==> inboxes[i].waiter != inboxes[j].waiter
  }

  /** `retain`: the sessions of other waiters, in their order. */
  function Others(inboxes: seq<Opened>, waiter: int): (r: seq<Opened>)
    ensures forall o :: o in r <==> o in inboxes && o.waiter != waiter
  {
    if inboxes == [] then []
    else
      var last := inboxes[|inboxes| - 1];
      Others(inboxes[..|inboxes| - 1], waiter) + if last.waiter == waiter then [] else [last]
  }

  /** Pump every session; one whose pump fails is dropped. */
  function Advanced(inboxes: seq<Opened>, rounds: int -> Round): seq<Opened> {
    if inboxes == [] then []
    else
      var last := inboxes[|inboxes| - 1];
      var next := Pump(last.session, rounds(last.waiter));
      Advanced(inboxes[..|inboxes| - 1], rounds) + if next.open then [last.(session := next)] else []
  }

  /** What the daemon does with its sessions: a claim replaces the waiter's session
      and then pumps them all; every poll pumps them all. */
  datatype Deed = Claim(waiter: int, leftover: seq<Byte>, rounds: int -> Round) | Advance(rounds: int -> Round)

  function Parked(inboxes: seq<Opened>, waiter: int, leftover: seq<Byte>): seq<Opened> {
    Others(inboxes, waiter) + [Opened(waiter, Claimed(leftover))]
  }

  function Done(inboxes: seq<Opened>, deed: Deed): seq<Opened> {
    match deed
    case Claim(waiter, leftover, rounds) => Advanced(Parked(inboxes, waiter, leftover), rounds)
    case Advance(rounds) => Advanced(inboxes, rounds)
  }

  function Inboxes(deeds: seq<Deed>): seq<Opened> {
    if deeds == [] then [] else Done(Inboxes(deeds[..|deeds| - 1]), deeds[|deeds| - 1])
  }

  /** The session stands where some run of its own would have brought it. */
  ghost predicate Lived(o: Opened) {
    o.session.open && exists leftover, rounds :: o.session == Run(leftover, rounds)
  }

  lemma LivesOn(o: Opened, r: Round)
    requires Lived(o) && Pump(o.session, r).open
    ensures Lived(o.(session := Pump(o.session, r)))
  {
    var leftover, rounds :| o.session == Run(leftover, rounds);
    assert (rounds + [r])[..|rounds|] == rounds;
    assert Run(leftover, rounds + [r]) == Pump(o.session, r);
  }

  ghost predicate Kept(inboxes: seq<Opened>) {
    OneEach(inboxes) && forall o :: o in inboxes ==> Lived(o)
  }

  lemma KeptAppends(inboxes: seq<Opened>, o: Opened)
    requires Kept(inboxes) && Lived(o) && forall i :: i in inboxes ==> i.waiter != o.waiter
    ensures Kept(inboxes + [o])
  {
  }

  lemma KeptPrefix(inboxes: seq<Opened>, n: nat)
    requires n <= |inboxes| && Kept(inboxes)
    ensures Kept(inboxes[..n])
  {
  }

  lemma {:induction false} OthersKept(inboxes: seq<Opened>, waiter: int)
    requires Kept(inboxes)
    ensures Kept(Others(inboxes, waiter))
  {
    if inboxes != [] {
      var n := |inboxes| - 1;
      KeptPrefix(inboxes, n);
      OthersKept(inboxes[..n], waiter);
      if inboxes[n].waiter != waiter { KeptAppends(Others(inboxes[..n], waiter), inboxes[n]); }
    }
  }

  lemma {:induction false} AdvancedWaiters(inboxes: seq<Opened>, rounds: int -> Round, o: Opened)
    requires o in Advanced(inboxes, rounds)
    ensures exists k :: 0 <= k < |inboxes| && inboxes[k].waiter == o.waiter
  {
    var n := |inboxes| - 1;
    if o in Advanced(inboxes[..n], rounds) {
      AdvancedWaiters(inboxes[..n], rounds, o);
      var k :| 0 <= k < n && inboxes[..n][k].waiter == o.waiter;
      assert inboxes[k].waiter == o.waiter;
    } else {
      assert inboxes[n].waiter == o.waiter;
    }
  }

  lemma {:induction false} AdvancedKept(inboxes: seq<Opened>, rounds: int -> Round)
    requires Kept(inboxes)
    ensures Kept(Advanced(inboxes, rounds))
  {
    if inboxes != [] {
      var n := |inboxes| - 1;
      var before, last := inboxes[..n], inboxes[n];
      KeptPrefix(inboxes, n);
      AdvancedKept(before, rounds);
      if Pump(last.session, rounds(last.waiter)).open {
        LivesOn(last, rounds(last.waiter));
        forall o | o in Advanced(before, rounds)
          ensures o.waiter != last.waiter
        {
          AdvancedWaiters(before, rounds, o);
        }
        KeptAppends(Advanced(before, rounds), last.(session := Pump(last.session, rounds(last.waiter))));
      }
    }
  }

  lemma ClaimedLives(waiter: int, leftover: seq<Byte>)
    ensures Lived(Opened(waiter, Claimed(leftover)))
  {
    assert Run(leftover, []) == Claimed(leftover);
  }

  lemma {:induction false} InboxesKept(deeds: seq<Deed>)
    ensures Kept(Inboxes(deeds))
  {
    if deeds != [] {
      var before, deed := Inboxes(deeds[..|deeds| - 1]), deeds[|deeds| - 1];
      InboxesKept(deeds[..|deeds| - 1]);
      if deed.Claim? {
        OthersKept(before, deed.waiter);
        ClaimedLives(deed.waiter, deed.leftover);
        KeptAppends(Others(before, deed.waiter), Opened(deed.waiter, Claimed(deed.leftover)));
        AdvancedKept(Parked(before, deed.waiter, deed.leftover), deed.rounds);
      } else {
        AdvancedKept(before, deed.rounds);
      }
    }
  }

  /** Over all claims and polls, in any order: no waiter ever has two open sessions,
      and every open session is sound. */
  lemma OneSessionEach(deeds: seq<Deed>)
    ensures OneEach(Inboxes(deeds))
    ensures forall o :: o in Inboxes(deeds) ==> o.session.open && Sound(o.session)
  {
    InboxesKept(deeds);
    forall o | o in Inboxes(deeds)
      ensures Sound(o.session)
    {
      assert Lived(o);
      var leftover, rounds :| o.session == Run(leftover, rounds);
      RunIsSound(leftover, rounds);
    }
  }

  /** A new claim of a waiter leaves nothing of its earlier session. */
  lemma ClaimReplaces(deeds: seq<Deed>, waiter: int, leftover: seq<Byte>, o: Opened)
    requires o in Parked(Inboxes(deeds), waiter, leftover) && o.waiter == waiter
    ensures o.session == Claimed(leftover)
  {
  }

  /** The daemon's vector of sessions. */
  class InboxTable {
    var inboxes: seq<Opened>

    constructor ()
      ensures inboxes == Inboxes([])
    {
      inboxes := [];
    }

    method ParkInbox(waiter: int, leftover: seq<Byte>, rounds: int -> Round)
      modifies this
      ensures inboxes == Done(old(inboxes), Claim(waiter, leftover, rounds))
    {
      var open, i := [], 0;
      while i < |inboxes|
        invariant 0 <= i <= |inboxes| && inboxes == old(inboxes)
        invariant open == Others(inboxes[..i], waiter)
      {
        assert inboxes[..i + 1][..i] == inboxes[..i];
        if inboxes[i].waiter != waiter { open := open + [inboxes[i]]; }
        i := i + 1;
      }
      assert inboxes[..i] == inboxes;
      inboxes := open + [Opened(waiter, Claimed(leftover))];
      AdvanceInboxes(rounds);
    }

    method AdvanceInboxes(rounds: int -> Round)
      modifies this
      ensures inboxes == Advanced(old(inboxes), rounds)
    {
      var stillOpen, i := [], 0;
      while i < |inboxes|
        invariant 0 <= i <= |inboxes| && inboxes == old(inboxes)
        invariant stillOpen == Advanced(inboxes[..i], rounds)
      {
        assert inboxes[..i + 1][..i] == inboxes[..i];
        var next := Pump(inboxes[i].session, rounds(inboxes[i].waiter));
        if next.open { stillOpen := stillOpen + [inboxes[i].(session := next)]; }
        i := i + 1;
      }
      assert inboxes[..i] == inboxes;
      inboxes := stillOpen;
    }
  }

  // ---- A plain response ----

  /** A response written in as many pieces as the socket takes. */
  class AwaitingWrite {
    const bytes: seq<Byte>
    var written: nat
    ghost var sent: seq<Byte>

    ghost predicate Valid()
      reads this
    {
      written <= |bytes| && sent == bytes[..written]
    }

    constructor (bytes: seq<Byte>)
      ensures Valid() && this.bytes == bytes && sent == []
    {
      this.bytes := bytes;
      written, sent := 0, [];
    }

    method AdvanceWrite(wrote: Wrote) returns (ok: bool, complete: bool)
      requires Valid() && (wrote.Took? ==> wrote.n <= |bytes| - written)
      modifies this
      ensures Valid()
      ensures ok <==> !(wrote.Broken? || wrote == Took(0))
      ensures sent == old(sent) + if wrote.Took? then bytes[old(written)..][..wrote.n] else []
      ensures complete <==> ok && wrote.Took? && sent == bytes
    {
      match wrote
      case Took(n) =>
        if n == 0 { return false, false; }
        sent := sent + bytes[written..][..n];
        written := written + n;
        return true, written == |bytes|;
      case WouldBlock => return true, false;
      case Broken => return false, false;
    }
  }
}
