/** Taking one event off the worker channel keeps the invariant. */
module LaneDeliver {
  import opened Lanes
  import opened Wrappers
  import opened LaneRuns
  import opened LaneInvariant
  import LaneSubmit

  /** The state once the event at the head of the channel has been fanned out. */
  function Absorbed(s: Sys): Sys
    requires s.events != []
  {
    var event := s.events[0];
    s.(exec := s.exec.(pending := s.exec.pending + Copies(s.exec, event),
                       coalesced := if Terminal(event) then s.exec.coalesced - {event.id} else s.exec.coalesced),
       events := s.events[1..],
       out := s.out + ([event] + Copies(s.exec, event)),
       handed := s.handed + 1)
  }

  /** The lane is freed and nothing waits on it. */
  function Freed(s: Sys, lane: Lane): Sys {
    s.(exec := s.exec.(inFlight := s.exec.inFlight - {lane}))
  }

  /** The lane is freed and the head of its queue is dispatched. */
  function Popped(s: Sys, lane: Lane): Sys
    requires lane in s.exec.queued && s.exec.queued[lane] != []
  {
    var queue := s.exec.queued[lane];
    s.(exec := s.exec.(queued := if |queue| == 1 then s.exec.queued - {lane} else s.exec.queued[lane := queue[1..]],
                       inFlight := s.exec.inFlight[lane := queue[0].id],
                       sent := s.exec.sent + [queue[0]]),
       work := s.work[queue[0].id := Waiting],
       disAt := s.disAt[queue[0].id := |s.trace|],
       trace := s.trace + [Dispatched(queue[0])])
  }

  /** The event is off the channel and copied, and the lanes are as they were. */
  function Received(s: Sys): Sys
    requires s.events != []
  {
    s.(events := s.events[1..], out := s.out + ([s.events[0]] + Copies(s.exec, s.events[0])), handed := s.handed + 1)
  }

  /** Installing a scheduler state touches neither what was heard nor what was submitted. */
  lemma LaunchFace(s: Sys, x: Exec)
    ensures var t := Launch(s, x);
            && t.handed == s.handed && t.out == s.out && t.events == s.events
            && t.sent == s.sent && t.resent == s.resent && t.job == s.job && t.next == s.next
            && t.leaderOf == s.leaderOf
  {
    if |x.sent| > |s.exec.sent| {
      var job := x.sent[|x.sent| - 1];
      var t := s.(exec := x, work := s.work[job.id := Waiting],
                  disAt := s.disAt[job.id := |s.trace|], trace := s.trace + [Dispatched(job)]);
      assert Launch(s, x) == t;
    }
  }

  lemma DeliverBase(s: Sys)
    requires s.events != []
    ensures var t, b := Deliver(s), Received(s);
            && t.handed == b.handed && t.out == b.out && t.events == b.events
            && t.sent == b.sent && t.job == b.job && t.next == b.next && t.leaderOf == b.leaderOf
  {
    LaunchFace(Received(s), Absorb(s.exec, s.events[0], LaneHolding(s.exec.inFlight, s.events[0].id)));
  }

  lemma AbsorbQuiet(s: Sys)
    requires s.events != []
    requires !Terminal(s.events[0]) || LaneHolding(s.exec.inFlight, s.events[0].id).None?
    ensures Deliver(s) == Absorbed(s)
  {
    assert s.exec.pending + [] == s.exec.pending;
  }

  lemma AbsorbFree(s: Sys, lane: Lane)
    requires s.events != [] && Terminal(s.events[0])
    requires LaneHolding(s.exec.inFlight, s.events[0].id) == Some(lane) && lane !in s.exec.queued
    ensures Deliver(s) == Freed(Absorbed(s), lane)
  {
  }

  lemma AbsorbPop(s: Sys, lane: Lane)
    requires s.events != [] && Terminal(s.events[0])
    requires LaneHolding(s.exec.inFlight, s.events[0].id) == Some(lane)
    requires lane in s.exec.queued && s.exec.queued[lane] != []
    ensures Deliver(s) == Popped(Absorbed(s), lane)
  {
    var n := s.exec.queued[lane][0].id;
    assert (s.exec.inFlight - {lane})[lane := n] == s.exec.inFlight[lane := n];
  }

  // ---- What the daemon has heard afterwards ----

  /** The head of the channel belongs to a dispatched job. */
  lemma HeadIsDispatched(s: Sys)
    requires s.events != [] && Silent(s.work.Keys, s.leaderOf, s.out, s.events)
    ensures s.events[0].id in s.work
  {
    assert Proj(s.events, s.events[0].id) != [];
  }

  ghost predicate Channelled(s: Sys) {
    && s.events != [] && s.events[0].id in s.work && s.work.Keys !! s.leaderOf.Keys
    && Leaders(s.exec.coalesced, s.job, s.leaderOf, s.out)
  }

  function Extra(s: Sys, x: nat): seq<Event>
    requires s.events != []
  {
    var event := s.events[0];
    if x == event.id then [event]
    else if FansOut(event) && x in FollowersOf(s.exec.coalesced, event.id) then [event.(id := x)]
    else []
  }

  lemma CopiesHeard(s: Sys, x: nat)
    requires Channelled(s)
    ensures var event := s.events[0];
            Proj(Copies(s.exec, event), x)
              == if FansOut(event) && x in FollowersOf(s.exec.coalesced, event.id) then [event.(id := x)] else []
  {
    FollowersApart(s);
    ProjFan(s.events[0], FollowersOf(s.exec.coalesced, s.events[0].id), x);
  }

  lemma HeardAfter(s: Sys, x: nat)
    requires Channelled(s)
    ensures Proj(Absorbed(s).out, x) == Proj(s.out, x) + Extra(s, x)
  {
    var event, copies := s.events[0], Copies(s.exec, s.events[0]);
    ProjAppend(s.out, [event] + copies, x);
    ProjAppend([event], copies, x);
    CopiesHeard(s, x);
    FollowersApart(s);
  }

  lemma FollowersApart(s: Sys)
    requires Channelled(s)
    ensures var fs := FollowersOf(s.exec.coalesced, s.events[0].id); Distinct(fs) && s.events[0].id !in fs
  {
    var event := s.events[0];
    if event.id in s.exec.coalesced {
      assert FollowersAre(FollowersOf(s.exec.coalesced, event.id), s.leaderOf, event.id);
    }
  }

  lemma OverAfter(s: Sys, x: nat)
    requires Channelled(s)
    ensures Over(Proj(Absorbed(s).out, x)) <==>
            Over(Proj(s.out, x)) || (Terminal(s.events[0]) && Extra(s, x) != [])
  {
    HeardAfter(s, x);
    OverAppend(Proj(s.out, x), Extra(s, x));
    if Extra(s, x) != [] {
      assert Over(Extra(s, x)) <==> Terminal(Extra(s, x)[0]);
    }
  }

  /** Followers are never dispatched, so only the event's own job hears through its worker. */
  lemma OnlyOwn(s: Sys, x: nat)
    requires Channelled(s) && x !in s.leaderOf && x != s.events[0].id
    ensures Extra(s, x) == []
  {
    var id := s.events[0].id;
    if id in s.exec.coalesced {
      assert FollowersAre(s.exec.coalesced[id], s.leaderOf, id);
    }
  }

  // ---- Fan-out ----

  lemma AbsorbLeaders(s: Sys)
    requires Channelled(s)
    ensures var t := Absorbed(s); Leaders(t.exec.coalesced, t.job, t.leaderOf, t.out)
  {
    var t := Absorbed(s);
    forall l | l in t.exec.coalesced
      ensures l in t.job && !Over(Proj(t.out, l)) && FollowersAre(t.exec.coalesced[l], t.leaderOf, l)
    {
      assert FollowersAre(s.exec.coalesced[l], s.leaderOf, l);
      OverAfter(s, l);
      if l != s.events[0].id {
        OnlyOwn(s, l);
      }
    }
  }

  lemma AbsorbLed(s: Sys)
    requires Channelled(s) && Led(s.exec.coalesced, s.job, s.leaderOf, s.out)
    ensures var t := Absorbed(s); Led(t.exec.coalesced, t.job, t.leaderOf, t.out)
  {
    var t := Absorbed(s);
    forall f | f in t.leaderOf
      ensures f in t.job && t.leaderOf[f] in t.job && t.leaderOf[f] !in t.leaderOf
              && SameRequest(t.job[t.leaderOf[f]], t.job[f])
              && (Over(Proj(t.out, t.leaderOf[f])) || f in FollowersOf(t.exec.coalesced, t.leaderOf[f]))
    {
      OverAfter(s, s.leaderOf[f]);
    }
  }

  /** A snapshot leader that is over has nothing left on the channel, and all it emits fans out. */
  lemma LeaderEvent(s: Sys)
    requires Channelled(s) && s.events[0].id in s.job && !s.job[s.events[0].id].Open?
    requires Words(s.work, s.job, s.out, s.events, s.answers)
    ensures !Over(Proj(s.out, s.events[0].id)) && FansOut(s.events[0])
  {
    var id := s.events[0].id;
    var word := Proj(s.out, id) + Proj(s.events, id);
    assert Proj(s.events, id)[0] == s.events[0];
    assert word[|Proj(s.out, id)|] == s.events[0];
    assert WordOk(s.work[id], s.job[id], word, s.answers);
    forall k | 0 <= k < |Proj(s.out, id)|
      ensures !Terminal(Proj(s.out, id)[k])
    {
      assert word[k] == Proj(s.out, id)[k];
    }
  }

  lemma AbsorbMirrored(s: Sys)
    requires Channelled(s) && Led(s.exec.coalesced, s.job, s.leaderOf, s.out)
    requires Mirrored(s.leaderOf, s.out) && Words(s.work, s.job, s.out, s.events, s.answers)
    ensures Mirrored(s.leaderOf, Absorbed(s).out)
  {
    forall f | f in s.leaderOf
      ensures Proj(Absorbed(s).out, f) == Renamed(Proj(Absorbed(s).out, s.leaderOf[f]), f)
    {
      FollowerHears(s, f);
      FollowerMirrors(s, f);
    }
  }

  lemma FollowerMirrors(s: Sys, f: nat)
    requires Channelled(s) && f in s.leaderOf && Extra(s, f) == Renamed(Extra(s, s.leaderOf[f]), f)
    requires Proj(s.out, f) == Renamed(Proj(s.out, s.leaderOf[f]), f)
    ensures Proj(Absorbed(s).out, f) == Renamed(Proj(Absorbed(s).out, s.leaderOf[f]), f)
  {
    HeardAfter(s, f);
    HeardAfter(s, s.leaderOf[f]);
  }

  lemma FollowerHears(s: Sys, f: nat)
    requires Channelled(s) && Led(s.exec.coalesced, s.job, s.leaderOf, s.out) && f in s.leaderOf
    requires Words(s.work, s.job, s.out, s.events, s.answers)
    ensures Extra(s, f) == Renamed(Extra(s, s.leaderOf[f]), f)
  {
    var l := s.leaderOf[f];
    if l == s.events[0].id {
      LeaderEvent(s);
    } else {
      OnlyOwn(s, l);
      var id := s.events[0].id;
      if id in s.exec.coalesced {
        assert FollowersAre(s.exec.coalesced[id], s.leaderOf, id);
      }
    }
  }

  /** Delivery moves an event from the channel to `out`; what was emitted for a job stays. */
  lemma AbsorbWord(s: Sys, x: nat)
    requires Channelled(s) && x !in s.leaderOf
    ensures Word(Absorbed(s), x) == Word(s, x)
  {
    var t := Absorbed(s);
    HeardAfter(s, x);
    if x == s.events[0].id {
      assert Proj(s.events, x) == [s.events[0]] + Proj(t.events, x);
    } else {
      OnlyOwn(s, x);
      assert Proj(s.events, x) == [] + Proj(t.events, x);
    }
  }

  lemma AbsorbWords(s: Sys)
    requires Channelled(s) && Words(s.work, s.job, s.out, s.events, s.answers)
    ensures var t := Absorbed(s); Words(t.work, t.job, t.out, t.events, t.answers)
  {
    var t := Absorbed(s);
    forall x | x in t.work && x in t.job
      ensures WordOk(t.work[x], t.job[x], Word(t, x), t.answers)
    {
      AbsorbWord(s, x);
    }
  }

  lemma AbsorbSilent(s: Sys)
    requires Channelled(s) && Silent(s.work.Keys, s.leaderOf, s.out, s.events)
    ensures var t := Absorbed(s); Silent(t.work.Keys, t.leaderOf, t.out, t.events)
  {
    var t := Absorbed(s);
    forall x | x !in t.work.Keys
      ensures Proj(t.events, x) == []
    {
      assert Proj(s.events, x) == [] + Proj(t.events, x);
    }
    forall x | x !in t.work.Keys && x !in t.leaderOf
      ensures Proj(t.out, x) == []
    {
      HeardAfter(s, x);
      OnlyOwn(s, x);
    }
  }

  lemma AbsorbFans(s: Sys)
    requires Ids(s.next, s.job, s.work.Keys, s.leaderOf) && FanInv(s) && s.events != [] && s.exec.pending == []
    ensures FanInv(Absorbed(s)) && Channelled(s)
  {
    HeadIsDispatched(s);
    AbsorbLeaders(s);
    AbsorbLed(s);
    AbsorbMirrored(s);
    AbsorbWords(s);
    AbsorbSilent(s);
    AbsorbHanding(s);
  }

  lemma AbsorbHanding(s: Sys)
    requires s.events != [] && s.exec.pending == [] && Handing(s.exec.pending, s.out, s.handed)
    ensures var t := Absorbed(s); Handing(t.exec.pending, t.out, t.handed)
  {
    var t := Absorbed(s);
    assert t.out[t.handed..] == t.exec.pending;
  }

  // ---- Lanes ----

  lemma AbsorbLanded(s: Sys)
    requires Channelled(s) && Landed(s.exec.inFlight, s.job, s.work.Keys, s.out)
    ensures Landed(s.exec.inFlight, s.job, s.work.Keys, Absorbed(s).out)
  {
    forall id | id in s.work.Keys && id in s.job && !Over(Proj(Absorbed(s).out, id))
      ensures LaneFor(s.job[id]) in s.exec.inFlight && s.exec.inFlight[LaneFor(s.job[id])] == id
    {
      OverAfter(s, id);
    }
  }

  /** Every lane but that of the event's job still flies. */
  lemma AbsorbFlying(s: Sys, lane: Lane)
    requires Channelled(s) && Flying(s.exec.inFlight, s.job, s.work.Keys, s.out)
    requires lane in s.exec.inFlight && (!Terminal(s.events[0]) || s.exec.inFlight[lane] != s.events[0].id)
    ensures !Over(Proj(Absorbed(s).out, s.exec.inFlight[lane]))
  {
    var x := s.exec.inFlight[lane];
    OverAfter(s, x);
    if x != s.events[0].id {
      OnlyOwn(s, x);
    }
  }

  /** No lane changes: the event is not terminal, or its job was over already. */
  lemma QuietKeeps(s: Sys)
    requires Inv(s) && s.events != [] && s.exec.pending == []
    requires !Terminal(s.events[0]) || LaneHolding(s.exec.inFlight, s.events[0].id).None?
    ensures Inv(Absorbed(s))
  {
    AbsorbFans(s);
    AbsorbLanded(s);
    QuietFlies(s);
  }

  lemma QuietFlies(s: Sys)
    requires Channelled(s) && Flying(s.exec.inFlight, s.job, s.work.Keys, s.out)
    requires !Terminal(s.events[0]) || LaneHolding(s.exec.inFlight, s.events[0].id).None?
    ensures Flying(s.exec.inFlight, s.job, s.work.Keys, Absorbed(s).out)
  {
    forall lane | lane in s.exec.inFlight
      ensures !Over(Proj(Absorbed(s).out, s.exec.inFlight[lane]))
    {
      AbsorbFlying(s, lane);
    }
  }

  /** What is left of `Flying` when the job holding `lane` has just ended. */
  ghost predicate FlyingBut(s: Sys, lane: Lane) {
    forall l :: l in s.exec.inFlight && l != lane ==>
      s.exec.inFlight[l] in s.work && s.exec.inFlight[l] in s.job && LaneFor(s.job[s.exec.inFlight[l]]) == l
      && !Over(Proj(s.out, s.exec.inFlight[l]))
  }

  /** Between the fan-out and the move of `lane`: its holder is over, everything else is in order. */
  ghost predicate Landing(s: Sys, lane: Lane) {
    && QueueInv(s) && FanInv(s) && HistoryInv(s)
    && Landed(s.exec.inFlight, s.job, s.work.Keys, s.out)
    && FlightOrder(s.exec.inFlight, s.job, s.work.Keys)
    && QueueOrder(s.exec.queued, s.job, s.work.Keys)
    && FlyingBut(s, lane)
    && lane in s.exec.inFlight && Over(Proj(s.out, s.exec.inFlight[lane]))
  }

  lemma TerminalLands(s: Sys, lane: Lane)
    requires Inv(s) && s.events != [] && s.exec.pending == [] && Terminal(s.events[0])
    requires LaneHolding(s.exec.inFlight, s.events[0].id) == Some(lane)
    ensures Landing(Absorbed(s), lane)
  {
    AbsorbFans(s);
    AbsorbLanded(s);
    var t := Absorbed(s);
    OverAfter(s, s.events[0].id);
    forall l | l in t.exec.inFlight && l != lane
      ensures !Over(Proj(t.out, t.exec.inFlight[l]))
    {
      AbsorbFlying(s, l);
    }
  }

  lemma FreeFlights(s: Sys, lane: Lane)
    requires FlyingBut(s, lane) && lane in s.exec.inFlight && Over(Proj(s.out, s.exec.inFlight[lane]))
    requires Landed(s.exec.inFlight, s.job, s.work.Keys, s.out)
    ensures var t := Freed(s, lane);
            Flying(t.exec.inFlight, t.job, t.work.Keys, t.out) && Landed(t.exec.inFlight, t.job, t.work.Keys, t.out)
  {
  }

  lemma FreeOrder(s: Sys, lane: Lane)
    requires FlightOrder(s.exec.inFlight, s.job, s.work.Keys)
    requires Backed(s.exec.queued, s.exec.inFlight) && lane !in s.exec.queued
    ensures FlightOrder(Freed(s, lane).exec.inFlight, s.job, s.work.Keys)
    ensures Backed(s.exec.queued, Freed(s, lane).exec.inFlight)
  {
  }

  lemma FreeKeeps(s: Sys, lane: Lane)
    requires Landing(s, lane) && lane !in s.exec.queued
    ensures Inv(Freed(s, lane))
  {
    FreeFlights(s, lane);
    FreeOrder(s, lane);
  }

  // ---- The next job of a queue starts ----

  ghost predicate HasNext(s: Sys, lane: Lane) {
    lane in s.exec.queued && s.exec.queued[lane] != []
  }

  function NextJob(s: Sys, lane: Lane): Job
    requires HasNext(s, lane)
  {
    s.exec.queued[lane][0]
  }

  lemma PopIds(s: Sys, lane: Lane)
    requires HasNext(s, lane) && Ids(s.next, s.job, s.work.Keys, s.leaderOf)
    requires Waiters(s.exec.queued, s.job, s.work.Keys, s.leaderOf)
    ensures var t := Popped(s, lane); Ids(t.next, t.job, t.work.Keys, t.leaderOf)
  {
    assert Waits(s.job, s.work.Keys, s.leaderOf, lane, NextJob(s, lane));
  }

  lemma PopWaiters(s: Sys, lane: Lane)
    requires HasNext(s, lane) && AllSorted(s.exec.queued)
    requires Waiters(s.exec.queued, s.job, s.work.Keys, s.leaderOf)
    ensures var t := Popped(s, lane); Waiters(t.exec.queued, t.job, t.work.Keys, t.leaderOf)
  {
    var t := Popped(s, lane);
    var n := NextJob(s, lane);
    assert Waits(s.job, s.work.Keys, s.leaderOf, lane, n) && Sorted(s.exec.queued[lane]);
    forall l, k | l in t.exec.queued && 0 <= k < |t.exec.queued[l]|
      ensures Waits(t.job, t.work.Keys, t.leaderOf, l, t.exec.queued[l][k])
    {
      var i := if l == lane then k + 1 else k;
      assert t.exec.queued[l][k] == s.exec.queued[l][i];
      assert Waits(s.job, s.work.Keys, s.leaderOf, l, s.exec.queued[l][i]);
    }
  }

  lemma PopKept(s: Sys, lane: Lane)
    requires HasNext(s, lane) && Kept(s.exec.queued, s.job, s.work.Keys, s.leaderOf)
    requires Ids(s.next, s.job, s.work.Keys, s.leaderOf)
    ensures var t := Popped(s, lane); Kept(t.exec.queued, t.job, t.work.Keys, t.leaderOf)
  {
    var t := Popped(s, lane);
    forall id | id in t.job && id !in t.work.Keys && id !in t.leaderOf
      ensures Queued(t.exec.queued, t.job[id])
    {
      var j := s.job[id];
      assert Queued(s.exec.queued, j) && j != NextJob(s, lane);
      if LaneFor(j) == lane {
        assert s.exec.queued[lane] == [NextJob(s, lane)] + s.exec.queued[lane][1..];
      }
    }
  }

  lemma PopSorted(s: Sys, lane: Lane)
    requires HasNext(s, lane) && AllSorted(s.exec.queued) && Backed(s.exec.queued, s.exec.inFlight)
    ensures var t := Popped(s, lane); AllSorted(t.exec.queued) && Backed(t.exec.queued, t.exec.inFlight)
  {
    assert Sorted(s.exec.queued[lane]);
  }

  lemma PopQueues(s: Sys, lane: Lane)
    requires QueueInv(s) && HasNext(s, lane)
    ensures QueueInv(Popped(s, lane))
  {
    PopIds(s, lane);
    PopWaiters(s, lane);
    PopKept(s, lane);
    PopSorted(s, lane);
  }

  lemma PopFlights(s: Sys, lane: Lane)
    requires HasNext(s, lane) && Waits(s.job, s.work.Keys, s.leaderOf, lane, NextJob(s, lane))
    requires FlyingBut(s, lane) && lane in s.exec.inFlight && Over(Proj(s.out, s.exec.inFlight[lane]))
    requires Landed(s.exec.inFlight, s.job, s.work.Keys, s.out)
    requires Silent(s.work.Keys, s.leaderOf, s.out, s.events)
    ensures var t := Popped(s, lane);
            Flying(t.exec.inFlight, t.job, t.work.Keys, t.out) && Landed(t.exec.inFlight, t.job, t.work.Keys, t.out)
  {
    assert Proj(s.out, NextJob(s, lane).id) == [];
  }

  lemma PopOrder(s: Sys, lane: Lane)
    requires HasNext(s, lane) && Waits(s.job, s.work.Keys, s.leaderOf, lane, NextJob(s, lane))
    requires AllSorted(s.exec.queued)
    requires FlightOrder(s.exec.inFlight, s.job, s.work.Keys)
    requires QueueOrder(s.exec.queued, s.job, s.work.Keys)
    ensures var t := Popped(s, lane);
            FlightOrder(t.exec.inFlight, t.job, t.work.Keys) && QueueOrder(t.exec.queued, t.job, t.work.Keys)
  {
    assert Sorted(s.exec.queued[lane]);
    var t := Popped(s, lane);
    forall id, k | id in t.work.Keys && id in t.job && LaneFor(t.job[id]) in t.exec.queued
                   && 0 <= k < |t.exec.queued[LaneFor(t.job[id])]|
      ensures id < t.exec.queued[LaneFor(t.job[id])][k].id
    {
      var l := LaneFor(t.job[id]);
      var i := if l == lane then k + 1 else k;
      assert t.exec.queued[l][k] == s.exec.queued[l][i];
    }
  }

  lemma PopFans(s: Sys, lane: Lane)
    requires HasNext(s, lane) && Waits(s.job, s.work.Keys, s.leaderOf, lane, NextJob(s, lane)) && FanInv(s)
    ensures FanInv(Popped(s, lane))
  {
    var n := NextJob(s, lane).id;
    var t := Popped(s, lane);
    assert Proj(s.out, n) == [] && Proj(s.events, n) == [];
    assert WordOk(t.work[n], t.job[n], Proj(t.out, n) + Proj(t.events, n), t.answers);
  }

  lemma PopHistory(s: Sys, lane: Lane)
    requires HasNext(s, lane) && HistoryInv(s) && Ids(s.next, s.job, s.work.Keys, s.leaderOf)
    requires Waits(s.job, s.work.Keys, s.leaderOf, lane, NextJob(s, lane))
    ensures HistoryInv(Popped(s, lane))
  {
    var t, n := Popped(s, lane), NextJob(s, lane);
    PopFace(s, lane);
    PopDispatch(s, n);
    PopFresh(s, n);
    PopStamped(s, n);
  }

  lemma PopFace(s: Sys, lane: Lane)
    requires HasNext(s, lane)
    ensures var t, n := Popped(s, lane), NextJob(s, lane);
            && t.work == s.work[n.id := Waiting] && t.work.Keys == s.work.Keys + {n.id} && t.job == s.job
            && t.leaderOf == s.leaderOf && t.trace == s.trace + [Dispatched(n)] && t.subAt == s.subAt
            && t.disAt == s.disAt[n.id := |s.trace|] && t.reqAt == s.reqAt && t.answers == s.answers
  {
  }

  lemma PopDispatch(s: Sys, n: Job)
    requires DisStamped(s.job, s.work.Keys, s.trace, s.disAt) && Writes(s.trace, s.disAt)
    requires ReqStamped(s.work.Keys, s.trace, s.reqAt) && n.id !in s.work && n.id in s.job && s.job[n.id] == n
    ensures var trace, disAt, launched := s.trace + [Dispatched(n)], s.disAt[n.id := |s.trace|], s.work.Keys + {n.id};
            DisStamped(s.job, launched, trace, disAt) && Writes(trace, disAt) && ReqStamped(launched, trace, s.reqAt)
  {
    LaneSubmit.DispatchGrows(s.job, s.work.Keys, s.trace, s.disAt, n);
    LaneSubmit.ReqGrows(s.work.Keys, s.work.Keys + {n.id}, s.trace, Dispatched(n), s.reqAt);
  }

  /** Whoever follows the dispatched job was submitted before. */
  lemma PopFresh(s: Sys, n: Job)
    requires Stamped(s.job, s.leaderOf, s.trace, s.subAt) && Fresh(s.leaderOf, s.subAt, s.disAt)
    requires n.id in s.job && s.leaderOf.Keys <= s.job.Keys
    ensures Fresh(s.leaderOf, s.subAt, s.disAt[n.id := |s.trace|])
  {
    LaneSubmit.DispatchFresh(s.leaderOf, s.subAt, s.disAt, n.id, |s.trace|);
  }

  lemma PopStamped(s: Sys, n: Job)
    requires Stamped(s.job, s.leaderOf, s.trace, s.subAt) && Asking(s.work, s.job, s.reqAt, s.answers)
    ensures Stamped(s.job, s.leaderOf, s.trace + [Dispatched(n)], s.subAt)
    ensures Asking(s.work[n.id := Waiting], s.job, s.reqAt, s.answers)
  {
  }

  lemma PopKeeps(s: Sys, lane: Lane)
    requires Landing(s, lane) && HasNext(s, lane)
    ensures Inv(Popped(s, lane))
  {
    assert Waits(s.job, s.work.Keys, s.leaderOf, lane, NextJob(s, lane));
    PopQueues(s, lane);
    PopFlights(s, lane);
    PopOrder(s, lane);
    PopFans(s, lane);
    PopHistory(s, lane);
  }

  lemma DeliverKeeps(s: Sys)
    requires Inv(s) && s.events != [] && s.exec.pending == []
    ensures Inv(Deliver(s))
  {
    var held := LaneHolding(s.exec.inFlight, s.events[0].id);
    if !Terminal(s.events[0]) || held.None? {
      AbsorbQuiet(s);
      QuietKeeps(s);
    } else if held.value in s.exec.queued {
      PopDelivers(s, held.value);
    } else {
      FreeDelivers(s, held.value);
    }
  }

  lemma PopDelivers(s: Sys, lane: Lane)
    requires Inv(s) && s.events != [] && s.exec.pending == [] && Terminal(s.events[0])
    requires LaneHolding(s.exec.inFlight, s.events[0].id) == Some(lane) && lane in s.exec.queued
    ensures Inv(Deliver(s))
  {
    TerminalLands(s, lane);
    AbsorbPop(s, lane);
    PopKeeps(Absorbed(s), lane);
  }

  lemma FreeDelivers(s: Sys, lane: Lane)
    requires Inv(s) && s.events != [] && s.exec.pending == [] && Terminal(s.events[0])
    requires LaneHolding(s.exec.inFlight, s.events[0].id) == Some(lane) && lane !in s.exec.queued
    ensures Inv(Deliver(s))
  {
    TerminalLands(s, lane);
    AbsorbFree(s, lane);
    FreeKeeps(Absorbed(s), lane);
  }
}
