/** What the protocol means: intent before effect, fresh checks, one answer. */
module StartTheorems {
  import opened Wrappers
  import opened Starts
  import opened StartStories
  import R = StartRuns

  lemma {:induction false} TrailPrefix(story: seq<Entry>, n: nat, settle: nat)
    requires n <= |story| && Trail(story, settle).Some?
    ensures Trail(story[..n], settle).Some?
  {
    if n < |story| {
      TrailPrefix(story[..|story| - 1], n, settle);
      assert story[..|story| - 1][..n] == story[..n];
    } else {
      assert story[..n] == story;
    }
  }

  lemma TrailStep(story: seq<Entry>, i: nat, settle: nat)
    requires i < |story| && Trail(story, settle).Some?
    ensures Trail(story[..i], settle).Some?
    ensures Follow(Trail(story[..i], settle).value, story[i], settle) == Trail(story[..i + 1], settle)
    ensures Trail(story[..i + 1], settle).Some?
  {
    TrailPrefix(story, i, settle);
    TrailPrefix(story, i + 1, settle);
    assert story[..i + 1][..i] == story[..i];
  }

  /** What must come just before the effect at `i`, and that an answer is the last effect. */
  predicate InOrder(story: seq<Entry>, i: nat, settle: nat)
    requires i < |story|
  {
    match story[i]
    case StartSent(t, n) => i > 0 && story[i - 1] == StartIntent(t, n)
    case LeaseAsked(t, n, _) => i > 0 && if n == 1 then story[i - 1].Declared? else story[i - 1].Checked?
    case Checked(t, job) => i > 1 && story[i - 1] == Asked(story[i - 1].ticket, job) && story[i - 2].BusyAnswer?
    case MessageAsked(_, time, _) => i > 0 && story[i - 1].ReadyAt? && time >= story[i - 1].time + settle
    case MessageSent(_) => i > 0 && story[i - 1].MessageIntent?
    case MessageDone(_) => i > 0 && story[i - 1].MessageSent?
    case Answered(_) => i == |story| - 1
    case _ => true
  }

  predicate SameTicket(story: seq<Entry>) {
    forall i, j :: 0 <= i < |story| && 0 <= j < |story| ==> story[i].ticket == story[j].ticket
  }

  /** What two effects in a row, `a` and then `b` from `mark`, say of each other. */
  lemma PairOrders(mark: Mark, a: Entry, b: Entry, settle: nat)
    requires Follow(mark, a, settle).Some? && Follow(Follow(mark, a, settle).value, b, settle).Some?
    requires a.ticket == b.ticket
    ensures !a.Answered?
    ensures b.StartSent? ==> a == StartIntent(b.ticket, b.attempt)
    ensures b.LeaseAsked? ==> if b.attempt == 1 then a.Declared? else a.Checked?
    ensures b.Checked? ==> a == Asked(b.ticket, b.job) && mark.TurnedAway?
    ensures b.MessageAsked? ==> a.ReadyAt? && b.time >= a.time + settle
    ensures b.MessageSent? ==> a.MessageIntent?
    ensures b.MessageDone? ==> a.MessageSent?
  {
  }

  lemma TurnedAwayByBusy(mark: Mark, a: Entry, settle: nat)
    requires Follow(mark, a, settle).Some? && Follow(mark, a, settle).value.TurnedAway?
    ensures a.BusyAnswer?
  {
  }

  lemma FirstIsAsked(a: Entry, settle: nat)
    requires Follow(Nothing, a, settle).Some?
    ensures a.Asked?
  {
  }

  lemma TrailOrders(story: seq<Entry>, i: nat, settle: nat)
    requires i < |story| && Trail(story, settle).Some? && SameTicket(story)
    ensures InOrder(story, i, settle)
  {
    TrailStep(story, i, settle);
    assert Trail(story[..0], settle) == Some(Nothing);
    if i == 0 {
      FirstIsAsked(story[0], settle);
    } else {
      TrailStep(story, i - 1, settle);
      PairOrders(Trail(story[..i - 1], settle).value, story[i - 1], story[i], settle);
      if i > 1 {
        TrailStep(story, i - 2, settle);
        if story[i].Checked? {
          TurnedAwayByBusy(Trail(story[..i - 2], settle).value, story[i - 2], settle);
        }
      }
    }
    if i + 1 < |story| {
      TrailStep(story, i + 1, settle);
      PairOrders(Trail(story[..i], settle).value, story[i], story[i + 1], settle);
    }
  }

  /** The last attempt sent by a start at `mark` that may still send. */
  function LastSent(mark: Mark): Option<nat> {
    match mark
    case Nothing => Some(0)
    case Looking(n, _) => Some(n)
    case Cleared(n) => Some(n)
    case Leasing(n, _) => if n > 0 then Some(n - 1) else Some(0)
    case Intended(n) => if n > 0 then Some(n - 1) else Some(0)
    case InFlight(n) => Some(n)
    case TurnedAway(n) => Some(n)
    case _ => None
  }

  predicate Numbered(mark: Mark) {
    (mark.Leasing? || mark.Intended? ==> mark.attempt > 0)
  }

  /** Sends carry rising attempt numbers, none above the last. */
  ghost predicate Rising(story: seq<Entry>, mark: Mark) {
    && (forall i, j :: 0 <= i < j < |story| && story[i].StartSent? && story[j].StartSent? ==>
          story[i].attempt < story[j].attempt)
    && (forall i :: 0 <= i < |story| && story[i].StartSent? && LastSent(mark).Some? ==>
          story[i].attempt <= LastSent(mark).value)
  }

  /** One more effect keeps attempts rising. */
  lemma FollowRises(mark: Mark, e: Entry, settle: nat)
    requires Follow(mark, e, settle).Some? && Numbered(mark)
    ensures var m := Follow(mark, e, settle).value;
            Numbered(m)
            && (LastSent(m).Some? ==> LastSent(mark).Some? && LastSent(mark).value <= LastSent(m).value)
            && (e.StartSent? ==>
                  LastSent(mark).Some? && LastSent(mark).value < e.attempt && LastSent(m) == Some(e.attempt))
  {
  }

  lemma {:induction false} AttemptsRise(story: seq<Entry>, settle: nat)
    requires Trail(story, settle).Some?
    ensures Rising(story, Trail(story, settle).value) && Numbered(Trail(story, settle).value)
  {
    if story != [] {
      var n := |story| - 1;
      AttemptsRise(story[..n], settle);
      FollowRises(Trail(story[..n], settle).value, story[n], settle);
      ExtendRises(story, Trail(story[..n], settle).value, Trail(story, settle).value);
    }
  }

  lemma ExtendRises(story: seq<Entry>, before: Mark, after: Mark)
    requires story != [] && Rising(story[..|story| - 1], before)
    requires LastSent(after).Some? ==> LastSent(before).Some? && LastSent(before).value <= LastSent(after).value
    requires var e := story[|story| - 1];
             e.StartSent? ==>
               LastSent(before).Some? && LastSent(before).value < e.attempt && LastSent(after) == Some(e.attempt)
    ensures Rising(story, after)
  {
    assert forall i :: 0 <= i < |story| - 1 ==> story[i] == story[..|story| - 1][i];
  }

  lemma {:induction false} StoryTicket(log: seq<Entry>, ticket: nat)
    ensures forall k :: 0 <= k < |StoryOf(log, ticket)| ==> StoryOf(log, ticket)[k].ticket == ticket
  {
    if log != [] {
      StoryTicket(log[..|log| - 1], ticket);
    }
  }

  /** In every run each effect of a start comes in its order: `agent.start` directly after the
      commit of the intent for that attempt; a retry's pane check on a snapshot requested after
      the busy answer; the initial message's lease no sooner than the settle after readiness and
      its send after its own intent; and at most one answer, last. No attempt is sent twice. */
  lemma StartEffectsAreOrdered(settle: nat, moves: seq<R.Move>, ticket: nat)
    ensures var story := StoryOf(R.Run(settle, moves).floor.log, ticket);
            (forall i :: 0 <= i < |story| ==> InOrder(story, i, settle))
            && (forall i, j :: 0 <= i < j < |story| && story[i].StartSent? && story[j].StartSent? ==>
                  story[i].attempt < story[j].attempt)
  {
    R.RunLinked(settle, moves);
    var f := R.Run(settle, moves).floor;
    var story := StoryOf(f.log, ticket);
    StoryTicket(f.log, ticket);
    TrailExists(f, ticket, settle);
    forall i | 0 <= i < |story|
      ensures InOrder(story, i, settle)
    {
      TrailOrders(story, i, settle);
    }
    AttemptsRise(story, settle);
  }

  lemma TrailExists(f: Floor, ticket: nat, settle: nat)
    requires FloorOk(f, settle)
    ensures At(f, ticket, settle).Some?
  {
    if Parked(f, ticket) {
      var k :| 0 <= k < |f.starts| && f.starts[k].ticket == ticket;
      assert At(f, f.starts[k].ticket, settle) == Some(MarkOf(f.starts[k], settle));
    }
  }

  lemma TrailOfNothing(story: seq<Entry>, settle: nat)
    ensures Trail(story, settle) == Some(Nothing) ==> story == []
  {
  }

  /** In every run a start past its first snapshot is declared, so the handlers' branches for a
      missing declaration are dead, and a start that has left the desk has been answered. */
  lemma PhasesAreDeclared(settle: nat, moves: seq<R.Move>)
    ensures var h := R.Run(settle, moves);
            (forall k :: 0 <= k < |h.floor.starts| && !h.floor.starts[k].phase.Snapshot? ==> h.floor.starts[k].declared)
            && (forall ticket: nat :: ticket < h.tickets && !Parked(h.floor, ticket) ==>
                  At(h.floor, ticket, settle) == Some(Over))
  {
    R.RunLinked(settle, moves);
    var h := R.Run(settle, moves);
    forall ticket: nat | ticket < h.tickets
      ensures At(h.floor, ticket, settle) != Some(Nothing)
    {
      TrailOfNothing(StoryOf(h.floor.log, ticket), settle);
    }
  }

  /** In every run a turn of a parked start has no lease to drop, so the advance loop, which issues
      no lease command, loses none. */
  lemma TurnsDropNothing(settle: nat, moves: seq<R.Move>, i: nat, now: int)
    requires i < |R.Run(settle, moves).floor.starts|
    ensures var h := R.Run(settle, moves); AdvanceOne(h.floor, i, now, h.lanes.next).cmds == []
  {
    R.RunLinked(settle, moves);
    var h := R.Run(settle, moves);
    TurnDropsNothing(h.floor, i, now, h.lanes.next);
  }
}
