/** One round of `advance_awaiting_starts` over all parked starts. */
module StartRounds {
  import opened Wrappers
  import T = LaneTheorems
  import W = StartWrites
  import C = StartChecks
  import opened Starts
  import opened StartDesk
  import opened StartStories
  import opened StartRuns
  import opened StartFacts

  predicate GivenUp(s: Start, now: int) {
    Due(s, now) && Spent(s, now)
  }

  /** The starts that a round at `now` keeps. */
  function Kept(starts: seq<Start>, now: int): seq<Start> {
    if starts == [] then []
    else (if GivenUp(starts[0], now) then [] else [starts[0]]) + Kept(starts[1..], now)
  }

  /** `t` is `s` after its turn: a start that was due waits on a job now. */
  predicate Turned(s: Start, t: Start, now: int) {
    && t.ticket == s.ticket && t.pane == s.pane
    && (if Due(s, now) then t.job.Some? && !t.phase.Busy? && !t.phase.Settling? else t == s)
  }

  ghost predicate AllTurned(before: seq<Start>, after: seq<Start>, now: int) {
    |after| == |before| && forall k :: 0 <= k < |before| ==> Turned(before[k], after[k], now)
  }

  lemma KeptFrom(starts: seq<Start>, i: nat, now: int)
    requires i < |starts|
    ensures Kept(starts[i..], now) == (if GivenUp(starts[i], now) then [] else [starts[i]]) + Kept(starts[i + 1..], now)
  {
    assert starts[i..][1..] == starts[i + 1..];
  }

  /** The start at `i` has its turn, and the round goes on with what is left. */
  lemma OneTurn(f: Floor, i: nat, now: int, next: nat) returns (k: Floor, after: nat)
    requires i < |f.starts|
    ensures var s := f.starts[i];
            && AdvanceFrom(f, i, now, next) == AdvanceFrom(k, if GivenUp(s, now) then i else i + 1, now, after)
            && |k.starts| == |f.starts| - (if GivenUp(s, now) then 1 else 0) && k.starts[..i] == f.starts[..i]
            && k.starts[if GivenUp(s, now) then i else i + 1..] == f.starts[i + 1..]
            && (!GivenUp(s, now) ==> Turned(s, k.starts[i], now))
  {
    var e := AdvanceOne(f, i, now, next);
    TurnTells(f, i, now, next);
    k, after := e.floor, if e.submit.Some? then next + 1 else next;
    TurnLeft(f.starts, k.starts, i, TurnsInto(f.starts[i], now, next));
  }

  lemma TurnLeft(starts: seq<Start>, after: seq<Start>, i: nat, t: Option<Start>)
    requires i < |starts| && after == starts[..i] + (if t.Some? then [t.value] else []) + starts[i + 1..]
    ensures |after| == |starts| - (if t.None? then 1 else 0) && after[..i] == starts[..i]
    ensures after[if t.None? then i else i + 1..] == starts[i + 1..]
    ensures t.Some? ==> after[i] == t.value
  {
  }

  lemma SamePrefix(a: seq<Start>, b: seq<Start>, i: nat)
    requires i < |a| && i < |b| && a[..i + 1] == b[..i + 1]
    ensures a[i] == b[i] && a[..i] == b[..i]
  {
    assert a[i] == a[..i + 1][i] && b[i] == b[..i + 1][i];
    assert a[..i] == a[..i + 1][..i] && b[..i] == b[..i + 1][..i];
  }

  lemma TurnedFirst(starts: seq<Start>, after: seq<Start>, i: nat, now: int)
    requires i < |starts| && i < |after| && !GivenUp(starts[i], now) && Turned(starts[i], after[i], now)
    requires AllTurned(Kept(starts[i + 1..], now), after[i + 1..], now)
    ensures AllTurned(Kept(starts[i..], now), after[i..], now)
  {
    KeptFrom(starts, i, now);
    assert after[i..] == [after[i]] + after[i + 1..];
  }

  /** From place `i` on, `after` has what a round makes of `starts`; before it nothing changed. */
  ghost predicate RoundFrom(starts: seq<Start>, i: nat, after: seq<Start>, now: int) {
    && i <= |starts| && i <= |after| && after[..i] == starts[..i]
    && AllTurned(Kept(starts[i..], now), after[i..], now)
  }

  /** The start at `i` was given up, which left `turned`. */
  lemma RemovedNext(starts: seq<Start>, turned: seq<Start>, after: seq<Start>, i: nat, now: int)
    requires i < |starts| == |turned| + 1 && GivenUp(starts[i], now)
    requires turned[..i] == starts[..i] && turned[i..] == starts[i + 1..]
    requires RoundFrom(turned, i, after, now)
    ensures RoundFrom(starts, i, after, now)
  {
    KeptFrom(starts, i, now);
    assert [] + Kept(starts[i + 1..], now) == Kept(starts[i + 1..], now);
  }

  lemma TurnedNext(starts: seq<Start>, turned: seq<Start>, after: seq<Start>, i: nat, now: int)
    requires i < |starts| == |turned| && !GivenUp(starts[i], now) && Turned(starts[i], turned[i], now)
    requires turned[..i] == starts[..i] && turned[i + 1..] == starts[i + 1..]
    requires RoundFrom(turned, i + 1, after, now)
    ensures RoundFrom(starts, i, after, now)
  {
    SamePrefix(turned, after, i);
    TurnedFirst(starts, after, i, now);
  }

  lemma {:induction false} RoundTurns(f: Floor, i: nat, now: int, next: nat)
    requires i <= |f.starts|
    ensures RoundFrom(f.starts, i, AdvanceFrom(f, i, now, next).starts, now)
    decreases |f.starts| - i
  {
    if i < |f.starts| {
      var k, after := OneTurn(f, i, now, next);
      var g := AdvanceFrom(f, i, now, next).starts;
      if GivenUp(f.starts[i], now) {
        RoundTurns(k, i, now, after);
        RemovedNext(f.starts, k.starts, g, i, now);
      } else {
        RoundTurns(k, i + 1, now, after);
        TurnedNext(f.starts, k.starts, g, i, now);
      }
    }
  }

  /** A round gives every parked start its turn, also the one behind a start that it removes: the
      starts whose busy budget is over leave, all others stay in their order, and none of them is
      due any more. */
  lemma RoundLeavesNoneDue(f: Floor, now: int, next: nat)
    ensures var g := AdvanceFrom(f, 0, now, next);
            && AllTurned(Kept(f.starts, now), g.starts, now)
            && forall k :: 0 <= k < |g.starts| ==> !Due(g.starts[k], now)
  {
    var g, kept := AdvanceFrom(f, 0, now, next), Kept(f.starts, now);
    RoundTurns(f, 0, now, next);
    assert f.starts[0..] == f.starts && g.starts[0..] == g.starts;
    forall k | 0 <= k < |g.starts|
      ensures !Due(g.starts[k], now)
    {
      assert Turned(kept[k], g.starts[k], now);
    }
  }

  // ---- A round is a run of turns ----

  predicate TurnsAt(turns: seq<Move>, now: int) {
    forall k :: 0 <= k < |turns| ==> turns[k].Turn? && turns[k].now == now
  }

  lemma TurnIs(h: House, i: nat, now: int)
    requires T.Reachable(h.lanes) && i < |h.floor.starts|
    ensures var e, g := AdvanceOne(h.floor, i, now, h.lanes.next), Next(h, Turn(i, now));
            && g.floor == e.floor && g.lanes.exec == Issued(h.lanes.exec, e.submit)
            && g.lanes.next == if e.submit.Some? then h.lanes.next + 1 else h.lanes.next
  {
    W.TurnSubmits(h.floor, i, now, h.lanes.next);
    TurnCounts(h, i, now);
  }

  /** What a round that is at place `i` in `h` comes to is what it comes to from place `to` in `g`. */
  ghost predicate SameRound(h: House, i: nat, g: House, to: nat, now: int) {
    && AdvanceFrom(h.floor, i, now, h.lanes.next) == AdvanceFrom(g.floor, to, now, g.lanes.next)
    && AdvanceExec(h.lanes.exec, h.floor, i, now, h.lanes.next)
    == AdvanceExec(g.lanes.exec, g.floor, to, now, g.lanes.next)
  }

  ghost function Goes(h: House, turns: seq<Move>): House
    decreases |turns|
  {
    if turns == [] then h else Goes(Next(h, turns[0]), turns[1..])
  }

  lemma {:induction false} RunGoes(settle: nat, moves: seq<Move>, turns: seq<Move>)
    ensures Run(settle, moves + turns) == Goes(Run(settle, moves), turns)
    decreases |turns|
  {
    if turns == [] {
      assert moves + turns == moves;
    } else {
      C.OneMore(settle, moves, turns[0]);
      RunGoes(settle, moves + [turns[0]], turns[1..]);
      assert moves + turns == moves + [turns[0]] + turns[1..];
    }
  }

  lemma TurnRuns(h: House, g: House, i: nat, now: int) returns (to: nat)
    requires T.Reachable(h.lanes) && i < |h.floor.starts| && g == Next(h, Turn(i, now))
    ensures |g.floor.starts| - to < |h.floor.starts| - i && SameRound(h, i, g, to, now)
  {
    TurnIs(h, i, now);
    TurnTells(h.floor, i, now, h.lanes.next);
    to := if |g.floor.starts| < |h.floor.starts| then i else i + 1;
  }

  /** The first turn of a round, as a move to `k`. */
  lemma FirstTurn(h: House, i: nat, now: int) returns (k: House, to: nat)
    requires Linked(h) && i < |h.floor.starts|
    ensures Linked(k) && |k.floor.starts| - to < |h.floor.starts| - i && SameRound(h, i, k, to, now)
    ensures forall rest :: Goes(h, [Turn(i, now)] + rest) == Goes(k, rest)
  {
    var m := Turn(i, now);
    k := Next(h, m);
    NextLinked(h, m);
    to := TurnRuns(h, k, i, now);
    forall rest
      ensures Goes(h, [m] + rest) == Goes(k, rest)
    {
      assert ([m] + rest)[1..] == rest;
    }
  }

  /** The turns of a round from place `i` on, after which it is over. */
  lemma {:induction false} RoundGoes(h: House, i: nat, now: int) returns (turns: seq<Move>, end: nat)
    requires Linked(h)
    ensures TurnsAt(turns, now) && |Goes(h, turns).floor.starts| <= end
    ensures SameRound(h, i, Goes(h, turns), end, now)
    decreases |h.floor.starts| - i
  {
    if i >= |h.floor.starts| {
      turns, end := [], i;
    } else {
      var k, to := FirstTurn(h, i, now);
      var rest;
      rest, end := RoundGoes(k, to, now);
      turns := [Turn(i, now)] + rest;
    }
  }

  /** In every run the whole round, with the jobs it submits, is a sequence of turns, so all that is
      proved of runs holds of it. */
  lemma RoundIsARun(settle: nat, moves: seq<Move>, now: int)
    ensures var h := Run(settle, moves);
            exists turns :: TurnsAt(turns, now)
              && Run(settle, moves + turns).floor == AdvanceFrom(h.floor, 0, now, h.lanes.next)
              && Run(settle, moves + turns).lanes.exec == AdvanceExec(h.lanes.exec, h.floor, 0, now, h.lanes.next)
  {
    RunLinked(settle, moves);
    var turns, _ := RoundGoes(Run(settle, moves), 0, now);
    RunGoes(settle, moves, turns);
  }
}
