/** The log against the facts: what each event writes, in terms of what the store answered and what
    the lease was. */
module DeliveryFacts {
  import opened Lanes
  import opened Wrappers
  import L = LaneRuns
  import T = LaneTheorems
  import opened Delivery
  import opened DeliveryRuns
  import opened DeliveryStories
  import opened DeliveryRefusals
  import opened DeliveryRest

  // ---- What one event writes ----

  /** What is known of a prompt by its event: `alive` says whether its lease still listens. */
  function Told(p: Prompt, event: Event, alive: bool, w: World): seq<Entry> {
    var job := event.id;
    var outcome := [Completed(job, w.completeOk)] + ClientReply(p, job);
    match event
    case Opened(_) =>
      if !w.commitOk then [CommitRefused(job)] + ClientReply(p, job)
      else [Committed(job), SentTo(job)] + if alive then [] else outcome
    case Done(_, _) => outcome
    case Failed(_, _, _) =>
      if p.committed then outcome else if p.owner.ForSession? then [Rejected(job)] else ClientReply(p, job)
    case _ => []
  }

  lemma OpenedTells(d: Desk, job: nat, w: World)
    requires job in d.prompts && !d.prompts[job].committed
    ensures Adds(d, OnOpened(d, job, w), job, Told(d.prompts[job], Opened(job), w.leaseOpen, w))
  {
    var p := d.prompts[job];
    if !w.commitOk {
      RefusedAdds(d, job, w, p);
    } else {
      SendingAdds(d, job, w.leaseOpen);
      if w.leaseOpen {
        SendableIs(d, job, w);
        assert [Committed(job), SentTo(job)] + [] == [Committed(job), SentTo(job)];
      } else {
        var s := Sending(d, job, false);
        CompleteAdds(s, job, w.completeOk);
        UnsendableIs(d, job, w);
        AddsTwice(d, s, Fail(s, job, w.completeOk), job, [Committed(job), SentTo(job)],
                  [Completed(job, w.completeOk)] + ClientReply(p, job));
      }
    }
  }

  lemma SendingAdds(d: Desk, job: nat, lease: bool)
    requires job in d.prompts
    ensures Adds(d, Sending(d, job, lease), job, [Committed(job), SentTo(job)])
  {
    var e := Sending(d, job, lease);
    assert e.log == d.log + [Committed(job)] + [SentTo(job)];
    forall x
      ensures LogOf(e.log, x) == LogOf(d.log, x) + if x == job then [Committed(job), SentTo(job)] else []
    {
      SendingLog(d.log, job, x);
    }
  }

  lemma HandleTells(d: Desk, event: Event, w: World)
    requires Timely(d, event) && event.id in d.prompts && event.id in d.owned
    ensures Adds(d, Handle(d, event, w), event.id, Told(d.prompts[event.id], event, w.leaseOpen, w))
  {
    var job := event.id;
    match event
    case Opened(_) => OpenedTells(d, job, w);
    case Done(_, _) => CompleteAdds(d, job, w.completeOk);
    case Failed(_, _, _) => FailAdds(d, job, w.completeOk, d.prompts[job]);
    case Written(_) => assert LogOf(d.log, job) + [] == LogOf(d.log, job);
    case Dropped(_) => assert LogOf(d.log, job) + [] == LogOf(d.log, job);
  }

  // ---- Moves other than an event write nothing about a prompt ----

  /** No prompt's story has changed. */
  ghost predicate SameStories(h: House, g: House) {
    forall job :: LogOf(g.desk.log, job) == LogOf(h.desk.log, job)
  }

  lemma {:induction false} LodgeAllStories(h: House, key: SessionKey, notices: seq<Listed>)
    ensures LodgeAll(h, key, notices).desk.log == h.desk.log
  {
    if notices != [] {
      var n := |notices| - 1;
      LodgeAllStories(h, key, notices[..n]);
      if notices[n].0.Some? { MarkFace(LodgeAll(h, key, notices[..n]).desk, ForSession(key, notices[n].1)); }
    }
  }

  lemma QuietMove(h: House, m: Move)
    requires !m.Pump?
    ensures SameStories(h, Next(h, m))
  {
    match m
    case ParkOne(pane, owner) => MarkFace(h.desk, owner);
    case ParkMany(retire, notices) =>
      ConveneLog(h.desk, NextKey(h, retire), notices);
      LodgeAllStories(Convened(h, retire, notices), NextKey(h, retire), notices);
    case _ =>
  }

  // ---- In every run ----

  /** What the event at the head calls for, in job `x`'s story. */
  ghost function Added(h: House, w: World, x: nat): seq<Entry>
    requires T.Ready(h.lanes)
  {
    var event := NextEvent(h.lanes);
    if x == event.id && x in h.desk.prompts
    then Told(h.desk.prompts[x], event, Alive(L.Next(h.lanes, L.Recv), x), w)
    else []
  }

  /** The scheduler has an event of a prompt to hand over. */
  ghost predicate Calls(h: House) {
    T.Ready(h.lanes) && NextEvent(h.lanes).id in h.parked
  }

  /** From `h` to `g` the story of `x` has grown by what the event calls for. */
  ghost predicate Grew(h: House, g: House, w: World, x: nat)
    requires Calls(h)
  {
    LogOf(g.desk.log, x) == LogOf(h.desk.log, x) + Added(h, w, x)
  }

  ghost predicate Tells(h: House, g: House, w: World)
    requires Calls(h)
  {
    forall x :: Grew(h, g, w, x)
  }

  /** In every run an event of a prompt still parked adds to its story exactly what the store's
      answers and the lease call for, and to no other prompt's. */
  lemma EachEventTells(moves: seq<Move>, w: World)
    requires Calls(Run(moves))
    ensures Tells(Run(moves), Run(moves + [Pump(w)]), w)
  {
    RunLinked(moves);
    RunOwed(moves);
    OneMore(moves, Pump(w));
    PumpTellsAll(Run(moves), w);
  }

  lemma PumpTellsAll(h: House, w: World)
    requires Linked(h) && AllOwed(h) && Calls(h)
    ensures Tells(h, Next(h, Pump(w)), w)
  {
    forall x
      ensures Grew(h, Next(h, Pump(w)), w, x)
    {
      PumpTells(h, w, x);
    }
  }

  lemma PumpTells(h: House, w: World, x: nat)
    requires Linked(h) && AllOwed(h) && Calls(h)
    ensures Grew(h, Next(h, Pump(w)), w, x)
  {
    var event := T.RecvFace(h.lanes);
    var lanes := L.Next(h.lanes, L.Recv);
    HandedIs(h.lanes, event);
    HandedInTime(h, lanes, event);
    DrainTells(h, event, w.(leaseOpen := Alive(lanes, event.id)), x);
  }

  lemma OneMore(moves: seq<Move>, m: Move)
    ensures Run(moves + [m]) == Next(Run(moves), m)
  {
    assert (moves + [m])[..|moves|] == moves;
  }

  lemma DrainTells(h: House, event: Event, w: World, x: nat)
    requires AllOwed(h) && Timely(h.desk, event)
    ensures LogOf(Handle(h.desk, event, w).log, x) == LogOf(h.desk.log, x)
              + if x == event.id && x in h.desk.prompts then Told(h.desk.prompts[x], event, w.leaseOpen, w) else []
  {
    assert LogOf(h.desk.log, x) + [] == LogOf(h.desk.log, x);
    if event.id in h.desk.prompts {
      assert Owed(h, event.id);
      HandleTells(h.desk, event, w);
    } else {
      LateEventsAreIgnored(h.desk, event, w);
    }
  }

  /** Nothing else a run does adds to any prompt's story: not a worker, not another user of the
      scheduler, not a prompt or a session being parked, and no event of another job. */
  lemma NothingElseTells(moves: seq<Move>, m: Move, x: nat)
    requires m.Pump? ==> !Calls(Run(moves))
    ensures LogOf(Run(moves + [m]).desk.log, x) == LogOf(Run(moves).desk.log, x)
  {
    OneMore(moves, m);
    if !m.Pump? { QuietMove(Run(moves), m); }
  }

  /** What the store was asked and answered is what the log says: an outcome is recorded with the
      store's own answer, an intent only when the store accepted it, and a refusal only when it
      did not. */
  predicate True(e: Entry, m: Move) {
    match e
    case Committed(_) => m.Pump? && m.w.commitOk
    case SentTo(_) => m.Pump? && m.w.commitOk
    case CommitRefused(_) => m.Pump? && !m.w.commitOk
    case Completed(_, ok) => m.Pump? && ok == m.w.completeOk
    case _ => true
  }

  lemma ToldIsTrue(p: Prompt, event: Event, alive: bool, w: World, e: Entry)
    requires e in Told(p, event, alive, w)
    ensures True(e, Pump(w))
  {
  }

  lemma {:induction false} NewOnesTold(log: seq<Entry>, more: seq<Entry>, e: Entry, job: nat)
    requires log <= more && e in more[|log|..] && About(e, job)
    ensures |LogOf(log, job)| < |LogOf(more, job)| && LogOf(log, job) <= LogOf(more, job)
    ensures e in LogOf(more, job)[|LogOf(log, job)|..]
    decreases |more|
  {
    var n := |more| - 1;
    assert more == more[..n] + [more[n]];
    LogGrows(more[..n], more[n], job);
    PrefixTold(log, more[..n], job);
    var added := LogOf(more[..n], job)[|LogOf(log, job)|..];
    assert LogOf(more[..n], job) == LogOf(log, job) + added;
    var last := if About(more[n], job) then [more[n]] else [];
    assert LogOf(more, job)[|LogOf(log, job)|..] == added + last;
    if e == more[n] {
      assert e in last;
    } else {
      assert more[|log|..] == more[..n][|log|..] + [more[n]];
      NewOnesTold(log, more[..n], e, job);
    }
  }

  lemma {:induction false} PrefixTold(log: seq<Entry>, more: seq<Entry>, job: nat)
    requires log <= more
    ensures LogOf(log, job) <= LogOf(more, job)
    decreases |more|
  {
    if |log| < |more| {
      PrefixTold(log, more[..|more| - 1], job);
    } else {
      assert log == more;
    }
  }

  /** In every run every entry a move adds to the log is true of that move. */
  lemma TheLogIsTrue(moves: seq<Move>, m: Move, i: nat)
    requires |Run(moves).desk.log| <= i < |Run(moves + [m]).desk.log|
    ensures True(Run(moves + [m]).desk.log[i], m)
  {
    RunGrows(moves, [m]);
    RunLinked(moves);
    RunOwed(moves);
    OneMore(moves, m);
    MoveIsTrue(Run(moves), m, i);
  }

  lemma MoveIsTrue(h: House, m: Move, i: nat)
    requires Linked(h) && AllOwed(h) && h.desk.log <= Next(h, m).desk.log
    requires |h.desk.log| <= i < |Next(h, m).desk.log|
    ensures True(Next(h, m).desk.log[i], m)
  {
    var g := Next(h, m);
    var e := g.desk.log[i];
    assert g.desk.log[|h.desk.log|..][i - |h.desk.log|] == e;
    if !e.AnsweredSession? {
      NewOnesTold(h.desk.log, g.desk.log, e, e.job);
      if m.Pump? && Calls(h) {
        PumpTells(h, m.w, e.job);
        AddedIsTrue(h, m.w, e);
      } else {
        assert SameStories(h, g) by { if !m.Pump? { QuietMove(h, m); } }
      }
    }
  }

  lemma AddedIsTrue(h: House, w: World, e: Entry)
    requires T.Ready(h.lanes) && !e.AnsweredSession? && e in Added(h, w, e.job)
    ensures True(e, Pump(w))
  {
    ToldIsTrue(h.desk.prompts[e.job], NextEvent(h.lanes), Alive(L.Next(h.lanes, L.Recv), e.job), w, e);
  }

  // ---- A request goes out exactly when its intent is durable ----

  lemma CommandsAre(d: Desk, event: Event, w: World)
    ensures var cmds := Commands(d, event, w);
            if event.Opened? && event.id in d.owned && event.id in d.prompts && w.commitOk && w.leaseOpen
            then cmds == [L.Send] else L.Send !in cmds
  {
  }

  lemma PumpSends(h: House, lanes: L.Sys, event: Event, w: World)
    requires T.Reachable(lanes) && event.id in lanes.job && w.leaseOpen == Alive(lanes, event.id)
    requires event.id in h.desk.prompts ==> event.id in h.desk.owned
    ensures var id := event.id;
            id in Push(lanes, id, Commands(h.desk, event, w)).sent <==>
              id in lanes.sent || (event.Opened? && id in h.desk.prompts && w.commitOk && w.leaseOpen)
  {
    var cmds := Commands(h.desk, event, w);
    CommandsAre(h.desk, event, w);
    PushFace(lanes, event.id, cmds);
    if cmds == [L.Send] { SendIsRecorded(lanes, event.id); }
  }

  /** Its worker listens, so the Send reaches it. */
  lemma SendIsRecorded(lanes: L.Sys, id: nat)
    requires id in lanes.job && Alive(lanes, id)
    ensures id in Push(lanes, id, [L.Send]).sent
  {
    PushOne(lanes, id, L.Send);
    assert |lanes.work[id].inbox + [L.Send]| != |lanes.work[id].inbox|;
  }

  /** The lease of the event at the head has been sent to, exactly if it was before or is now. */
  ghost predicate HeadSent(h: House, g: House, w: World)
    requires Calls(h)
  {
    var event := NextEvent(h.lanes);
    event.id in g.lanes.sent <==>
      || event.id in h.lanes.sent
      || (event.Opened? && event.id in h.desk.prompts && w.commitOk && Alive(L.Next(h.lanes, L.Recv), event.id))
  }

  lemma ParkedHasJob(h: House, job: nat)
    requires Linked(h) && job in h.parked
    ensures job in h.lanes.job
  {
  }

  /** The event at the head, which is of a prompt, is handed over. */
  lemma HeadIs(h: House) returns (event: Event)
    requires Linked(h) && AllOwed(h) && Calls(h)
    ensures event == NextEvent(h.lanes) && event.id in h.lanes.job
    ensures event.id in h.desk.prompts ==> event.id in h.desk.owned
    ensures var lanes := L.Next(h.lanes, L.Recv);
            T.Reachable(lanes) && lanes.job == h.lanes.job && lanes.sent == h.lanes.sent
  {
    event := T.RecvFace(h.lanes);
    HandedIs(h.lanes, event);
    ParkedHasJob(h, event.id);
    assert event.id in h.desk.prompts ==> Owed(h, event.id);
  }

  lemma SentAtHead(h: House, lanes: L.Sys, event: Event, w: World)
    requires Calls(h) && event == NextEvent(h.lanes) && lanes == L.Next(h.lanes, L.Recv)
    requires T.Reachable(lanes) && event.id in lanes.job && lanes.sent == h.lanes.sent
    requires event.id in h.desk.prompts ==> event.id in h.desk.owned
    ensures HeadSent(h, Next(h, Pump(w)), w)
  {
    PumpSends(h, lanes, event, w.(leaseOpen := Alive(lanes, event.id)));
  }

  lemma HeadSends(h: House, w: World)
    requires Linked(h) && AllOwed(h) && Calls(h)
    ensures HeadSent(h, Next(h, Pump(w)), w)
  {
    var event := HeadIs(h);
    SentAtHead(h, L.Next(h.lanes, L.Recv), event, w);
  }

  /** In every run an event leaves a prompt's lease sent to exactly when it was before, or when the
      lease has just opened, still listens, and the store accepted the intent. */
  lemma SentWhenCommitted(moves: seq<Move>, w: World)
    requires Calls(Run(moves))
    ensures HeadSent(Run(moves), Run(moves + [Pump(w)]), w)
  {
    RunLinked(moves);
    RunOwed(moves);
    OneMore(moves, Pump(w));
    HeadSends(Run(moves), w);
  }

  // ---- What is asked for is parked ----

  /** A delivery is under way for this owner. */
  predicate Busy(d: Desk, owner: Owner) {
    (owner.Due? && owner.operation in d.due) || (owner.Reminder? && owner.ask in d.reminders)
  }

  /** In every run a prompt that is asked for, and not under way already, is parked with its own pane
      and owner under the next job, with nothing sent yet, and is then under way. */
  lemma AskedIsParked(moves: seq<Move>, pane: string, owner: Owner)
    requires !owner.ForSession?
    ensures var h, g := Run(moves), Run(moves + [ParkOne(pane, owner)]); var job := h.lanes.next;
            if Busy(h.desk, owner) then g == h
            else
              && g.desk.prompts == h.desk.prompts[job := Prompt(pane, owner, false, false)]
              && g.parked == h.parked[job := Prompt(pane, owner, false, false)]
              && g.lanes == L.Next(h.lanes, L.Submit(Open(job, pane, false)))
              && (owner.Client? || Busy(g.desk, owner)) && g.desk.log == h.desk.log
  {
    OneMore(moves, ParkOne(pane, owner));
    MarkFace(Run(moves).desk, owner);
  }
}
