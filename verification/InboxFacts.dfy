/** What a write loop and a round of all inbox sessions leave. */
module InboxFacts {
  import opened Framing
  import opened Inbox

  // ---- One write loop ----

  /** How many bytes the socket took, over answers that all took some. */
  function Taken(script: seq<Wrote>): nat {
    if script == [] then 0
    else Taken(script[..|script| - 1]) + if script[|script| - 1].Took? then script[|script| - 1].n else 0
  }

  predicate AllTook(script: seq<Wrote>) {
    forall i :: 0 <= i < |script| ==> script[i].Took? && script[i].n > 0
  }

  /** A write that the loop cannot go on from. */
  predicate Fails(wrote: Wrote, waiting: nat) {
    wrote.Broken? || (wrote.Took? && (wrote.n == 0 || wrote.n > waiting))
  }

  /** The loop made `k` writes that took something; it stopped since nothing was left, or the socket
      blocked, or a write failed, and only then is the session closed. */
  predicate Stopped(s: Session, t: Session, script: seq<Wrote>, k: nat) {
    && k <= |script| && AllTook(script[..k]) && Taken(script[..k]) <= |s.writeBuf|
    && t.sent == s.sent + s.writeBuf[..Taken(script[..k])] && t.writeBuf == s.writeBuf[Taken(script[..k])..]
    && (t.writeBuf == [] || k == |script| || script[k].WouldBlock? || Fails(script[k], |t.writeBuf|))
    && t.open == (s.open && !(t.writeBuf != [] && k < |script| && Fails(script[k], |t.writeBuf|)))
  }

  lemma {:induction false} TakenFirst(first: Wrote, rest: seq<Wrote>)
    ensures Taken([first] + rest) == (if first.Took? then first.n else 0) + Taken(rest)
  {
    if rest == [] {
      assert [first] + rest == [first] && [first][..0] == [];
      assert Taken([]) == 0;
    } else {
      var n := |rest| - 1;
      TakenFirst(first, rest[..n]);
      assert ([first] + rest)[..|rest|] == [first] + rest[..n];
    }
  }

  /** Bytes go out in their order and none is lost, whatever the socket takes at a time, and the loop
      stops for one of three reasons. */
  lemma {:induction false} FlushStops(s: Session, script: seq<Wrote>) returns (k: nat)
    ensures Stopped(s, Flush(s, script), script, k)
    decreases |script|
  {
    if s.writeBuf != [] && script != [] && script[0].Took? && 0 < script[0].n <= |s.writeBuf| {
      var n := script[0].n;
      var next := s.(sent := s.sent + s.writeBuf[..n], writeBuf := s.writeBuf[n..]);
      var m := FlushStops(next, script[1..]);
      k := m + 1;
      FirstWrite(s, next, Flush(s, script), script, m);
    } else {
      k := 0;
      assert script[..0] == [] && s.sent + s.writeBuf[..0] == s.sent;
    }
  }

  lemma WritesJoin(buf: seq<Byte>, n: nat, m: nat)
    requires n <= |buf| && m <= |buf| - n
    ensures buf[..n] + buf[n..][..m] == buf[..n + m] && buf[n..][m..] == buf[n + m..]
  {
  }

  lemma ScriptsJoin(script: seq<Wrote>, m: nat)
    requires script != [] && script[0].Took? && script[0].n > 0 && m < |script| && AllTook(script[1..][..m])
    ensures AllTook(script[..m + 1]) && Taken(script[..m + 1]) == script[0].n + Taken(script[1..][..m])
  {
    assert script[..m + 1] == [script[0]] + script[1..][..m];
    TakenFirst(script[0], script[1..][..m]);
    assert forall i :: 0 <= i < m ==> script[..m + 1][i + 1] == script[1..][..m][i];
  }

  lemma FirstWrite(s: Session, next: Session, t: Session, script: seq<Wrote>, m: nat)
    requires script != [] && script[0].Took? && 0 < script[0].n <= |s.writeBuf|
    requires next.sent == s.sent + s.writeBuf[..script[0].n] && next.writeBuf == s.writeBuf[script[0].n..]
    requires next.open == s.open && Stopped(next, t, script[1..], m)
    ensures Stopped(s, t, script, m + 1)
  {
    var n, later := script[0].n, Taken(script[1..][..m]);
    ScriptsJoin(script, m);
    WritesJoin(s.writeBuf, n, later);
    assert s.sent + s.writeBuf[..n] + s.writeBuf[n..][..later] == s.sent + (s.writeBuf[..n] + s.writeBuf[n..][..later]);
    assert m + 1 < |script| ==> script[1..][m] == script[m + 1];
  }

  /** A round that gets to its input and finds its end closes the session; one that does not get
      there hears nothing. */
  lemma EndOfInputCloses(s: Session, r: Round)
    requires Sound(s) && r.input.Eof?
    ensures !Pump(s, r).open || (Pump(s, r).writeBuf != [] && !Listened(s, Pump(s, r)))
  {
    FlushKeeps(s, r.first);
    BeforeReadingKeeps(s, r);
    var read := ReadAcks(BeforeReading(s, r), r.input, r.answer);
    var k := FlushStops(read, r.third);
  }

  // ---- One round of all sessions ----

  /** What a round makes of one session. */
  function Pumped(o: Opened, rounds: int -> Round): Opened {
    o.(session := Pump(o.session, rounds(o.waiter)))
  }

  lemma PollKeeps(before: seq<Opened>, rounds: int -> Round, o: Opened)
    requires OneEach(before) && o in before
    ensures if Pumped(o, rounds).session.open then Pumped(o, rounds) in Advanced(before, rounds)
            else forall x :: x in Advanced(before, rounds) ==> x.waiter != o.waiter
  {
    AdvancedIs(before, rounds);
    if !Pumped(o, rounds).session.open {
      forall x | x in Advanced(before, rounds)
        ensures x.waiter != o.waiter
      {
        var p :| p in before && Pumped(p, rounds) == x && x.session.open;
        if p.waiter == o.waiter { SameWaiter(before, p, o); }
      }
    }
  }

  /** In every run a poll pumps each open session once: one whose round stays open is kept as the
      round left it, and one whose round failed is gone. */
  lemma EveryPollKeeps(deeds: seq<Deed>, rounds: int -> Round, o: Opened)
    requires o in Inboxes(deeds)
    ensures var after := Inboxes(deeds + [Deed.Advance(rounds)]);
            if Pumped(o, rounds).session.open then Pumped(o, rounds) in after
            else forall x :: x in after ==> x.waiter != o.waiter
  {
    assert (deeds + [Deed.Advance(rounds)])[..|deeds|] == deeds;
    OneSessionEach(deeds);
    PollKeeps(Inboxes(deeds), rounds, o);
  }

  lemma SameWaiter(inboxes: seq<Opened>, p: Opened, o: Opened)
    requires OneEach(inboxes) && p in inboxes && o in inboxes && p.waiter == o.waiter
    ensures p == o
  {
  }

  lemma {:induction false} AdvancedIs(inboxes: seq<Opened>, rounds: int -> Round)
    ensures forall x :: x in Advanced(inboxes, rounds)
              <==> exists o :: o in inboxes && Pumped(o, rounds) == x && x.session.open
  {
    if inboxes != [] {
      var n := |inboxes| - 1;
      AdvancedIs(inboxes[..n], rounds);
      assert inboxes == inboxes[..n] + [inboxes[n]];
      LastPumped(inboxes[..n], inboxes[n], rounds);
    }
  }

  lemma LastPumped(before: seq<Opened>, last: Opened, rounds: int -> Round)
    ensures forall x :: (exists o :: o in before + [last] && Pumped(o, rounds) == x && x.session.open)
              <==> (exists o :: o in before && Pumped(o, rounds) == x && x.session.open)
                   || (Pumped(last, rounds) == x && x.session.open)
  {
  }

  /** Session `a` stands before session `b`. */
  ghost predicate Before(list: seq<Opened>, a: Opened, b: Opened) {
    exists p, q :: 0 <= p < q < |list| && list[p] == a && list[q] == b
  }

  lemma BeforeStays(list: seq<Opened>, more: seq<Opened>, a: Opened, b: Opened)
    requires Before(list, a, b)
    ensures Before(list + more, a, b)
  {
    var p, q :| 0 <= p < q < |list| && list[p] == a && list[q] == b;
    assert (list + more)[p] == a && (list + more)[q] == b;
  }

  lemma BeforeLast(list: seq<Opened>, a: Opened, b: Opened)
    requires a in list
    ensures Before(list + [b], a, b)
  {
    var p :| 0 <= p < |list| && list[p] == a;
    assert (list + [b])[p] == a && (list + [b])[|list|] == b;
  }

  /** Sessions keep their order. */
  lemma {:induction false} PollKeepsOrder(inboxes: seq<Opened>, rounds: int -> Round, i: nat, j: nat)
    requires i < j < |inboxes| && Pumped(inboxes[i], rounds).session.open && Pumped(inboxes[j], rounds).session.open
    ensures Before(Advanced(inboxes, rounds), Pumped(inboxes[i], rounds), Pumped(inboxes[j], rounds))
  {
    var n := |inboxes| - 1;
    var before, a, b := Advanced(inboxes[..n], rounds), Pumped(inboxes[i], rounds), Pumped(inboxes[j], rounds);
    var last := Pumped(inboxes[n], rounds);
    assert Advanced(inboxes, rounds) == before + if last.session.open then [last] else [];
    if j < n {
      PollKeepsOrder(inboxes[..n], rounds, i, j);
      BeforeStays(before, if last.session.open then [last] else [], a, b);
    } else {
      AdvancedIs(inboxes[..n], rounds);
      assert inboxes[..n][i] in inboxes[..n];
      BeforeLast(before, a, b);
    }
  }

  lemma OthersSnoc(inboxes: seq<Opened>, waiter: int, n: nat)
    requires n < |inboxes|
    ensures Others(inboxes[..n + 1], waiter)
         == Others(inboxes[..n], waiter) + if inboxes[n].waiter == waiter then [] else [inboxes[n]]
  {
    assert inboxes[..n + 1][..n] == inboxes[..n];
  }

  lemma OthersHas(inboxes: seq<Opened>, waiter: int, n: nat, i: nat)
    requires i < n <= |inboxes| && inboxes[i].waiter != waiter
    ensures inboxes[i] in Others(inboxes[..n], waiter)
  {
    assert inboxes[..n][i] in inboxes[..n];
  }

  lemma {:induction false} OrderUpTo(inboxes: seq<Opened>, waiter: int, i: nat, j: nat, n: nat)
    requires i < j < n <= |inboxes| && inboxes[i].waiter != waiter && inboxes[j].waiter != waiter
    ensures Before(Others(inboxes[..n], waiter), inboxes[i], inboxes[j])
  {
    OthersSnoc(inboxes, waiter, n - 1);
    var before := Others(inboxes[..n - 1], waiter);
    if j < n - 1 {
      OrderUpTo(inboxes, waiter, i, j, n - 1);
      BeforeStays(before, if inboxes[n - 1].waiter == waiter then [] else [inboxes[n - 1]], inboxes[i], inboxes[j]);
    } else {
      OthersHas(inboxes, waiter, n - 1, i);
      BeforeLast(before, inboxes[i], inboxes[j]);
    }
  }

  /** So do the sessions of the other waiters when one is claimed anew. */
  lemma ClaimKeepsOrder(inboxes: seq<Opened>, waiter: int, i: nat, j: nat)
    requires i < j < |inboxes| && inboxes[i].waiter != waiter && inboxes[j].waiter != waiter
    ensures Before(Others(inboxes, waiter), inboxes[i], inboxes[j])
  {
    OrderUpTo(inboxes, waiter, i, j, |inboxes|);
    assert inboxes[..|inboxes|] == inboxes;
  }

  // ---- Offers and answers ----

  /** The delivery at place `k` of the queue is one to offer: not offered before, and the first of its
      message here. */
  predicate New(s: Session, queued: Queue, k: nat) {
    k < |queued| && queued[k].message !in s.offered
    && forall i :: 0 <= i < k ==> queued[i].message != queued[k].message
  }

  function NewCount(s: Session, queued: Queue): nat {
    if queued == [] then 0
    else NewCount(s, queued[..|queued| - 1]) + if New(s, queued, |queued| - 1) then 1 else 0
  }

  predicate Mentions(queued: Queue, m: MessageId) {
    exists k :: 0 <= k < |queued| && queued[k].message == m
  }

  lemma LastMention(queued: Queue, m: MessageId)
    requires queued != []
    ensures var n := |queued| - 1; Mentions(queued, m) <==> Mentions(queued[..n], m) || queued[n].message == m
  {
    var n := |queued| - 1;
    if Mentions(queued, m) {
      var k :| 0 <= k < |queued| && queued[k].message == m;
      assert k < n ==> queued[..n][k].message == m;
    }
    if Mentions(queued[..n], m) {
      var k :| 0 <= k < n && queued[..n][k].message == m;
      assert queued[k].message == m;
    }
  }

  lemma {:induction false} OfferedAre(s: Session, queued: Queue, m: MessageId)
    ensures m in Offer(s, queued).offered <==> m in s.offered || Mentions(queued, m)
  {
    if queued != [] {
      OfferedAre(s, queued[..|queued| - 1], m);
      LastMention(queued, m);
    }
  }

  lemma LastIsNew(s: Session, queued: Queue)
    requires queued != []
    ensures var n := |queued| - 1;
            New(s, queued, n) <==> queued[n].message !in s.offered && !Mentions(queued[..n], queued[n].message)
  {
    var n := |queued| - 1;
    if !Mentions(queued[..n], queued[n].message) {
      assert forall i :: 0 <= i < n ==> queued[..n][i] == queued[i];
    }
    if New(s, queued, n) {
      assert forall i :: 0 <= i < n ==> queued[..n][i] == queued[i];
    }
  }

  /** The delivery at place `k` of the queue stands behind the new ones before it. */
  predicate StandsInOrder(s: Session, t: Session, queued: Queue, k: nat)
    requires k < |queued|
  {
    var at := |s.log| + NewCount(s, queued[..k]);
    at < |t.log| && t.log[at] == queued[k]
  }

  /** What is offered is every new delivery of the queue, in the order of the queue, and nothing
      else is put on the output. */
  lemma {:induction false} OffersInOrder(s: Session, queued: Queue)
    ensures var t := Offer(s, queued);
            && s.log <= t.log && |t.log| == |s.log| + NewCount(s, queued)
            && forall k: nat :: New(s, queued, k) ==> StandsInOrder(s, t, queued, k)
  {
    if queued != [] {
      var n := |queued| - 1;
      var before, t := Offer(s, queued[..n]), Offer(s, queued);
      OffersInOrder(s, queued[..n]);
      OfferedAre(s, queued[..n], queued[n].message);
      LastIsNew(s, queued);
      forall k: nat | New(s, queued, k)
        ensures StandsInOrder(s, t, queued, k)
      {
        if k < n { StaysOffered(s, before, t, queued, k); }
      }
    }
  }

  lemma StaysOffered(s: Session, before: Session, t: Session, queued: Queue, k: nat)
    requires k < |queued| - 1 && New(s, queued, k) && before.log <= t.log
    requires New(s, queued[..|queued| - 1], k) ==> StandsInOrder(s, before, queued[..|queued| - 1], k)
    ensures StandsInOrder(s, t, queued, k)
  {
    assert queued[..|queued| - 1][..k] == queued[..k];
  }

  /** The answer to line `k` stands behind those to the lines before it. */
  predicate AnsweredAt(s: Session, t: Session, lines: seq<seq<Byte>>, k: nat, answer: seq<Byte> -> seq<Byte>)
    requires k < |lines|
  {
    var at := |s.log| + SpokenCount(lines[..k]);
    at < |t.log| && t.log[at] == Answer(answer(lines[k]))
  }

  lemma LastAnswered(s: Session, before: Session, lines: seq<seq<Byte>>, answer: seq<Byte> -> seq<Byte>)
    requires lines != [] && s.log <= before.log && |before.log| == |s.log| + SpokenCount(lines[..|lines| - 1])
    ensures var n := |lines| - 1; var t := AnswerOne(before, lines[n], answer);
            && before.log <= t.log && |t.log| == |s.log| + SpokenCount(lines)
            && (!Blank(lines[n]) ==> AnsweredAt(s, t, lines, n, answer))
  {
  }

  /** Every line that is not blank has its own answer on the output, in the order of the lines, and
      nothing else is put there. */
  lemma {:induction false} AnswersInOrder(s: Session, lines: seq<seq<Byte>>, answer: seq<Byte> -> seq<Byte>)
    ensures var t := AnswerAll(s, lines, answer);
            && s.log <= t.log && |t.log| == |s.log| + SpokenCount(lines)
            && forall k :: 0 <= k < |lines| && !Blank(lines[k]) ==> AnsweredAt(s, t, lines, k, answer)
  {
    if lines != [] {
      var n := |lines| - 1;
      var before, t := AnswerAll(s, lines[..n], answer), AnswerAll(s, lines, answer);
      AnswersInOrder(s, lines[..n], answer);
      LastAnswered(s, before, lines, answer);
      forall k | 0 <= k < |lines| && !Blank(lines[k])
        ensures AnsweredAt(s, t, lines, k, answer)
      {
        if k < n {
          assert lines[..n][k] == lines[k];
          StaysAnswered(s, before, t, lines, k, answer);
        }
      }
    }
  }

  lemma StaysAnswered(s: Session, before: Session, t: Session, lines: seq<seq<Byte>>, k: nat,
                      answer: seq<Byte> -> seq<Byte>)
    requires k < |lines| - 1 && AnsweredAt(s, before, lines[..|lines| - 1], k, answer) && before.log <= t.log
    ensures AnsweredAt(s, t, lines, k, answer)
  {
    assert lines[..|lines| - 1][..k] == lines[..k];
  }

}
