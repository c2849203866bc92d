/** No work is stranded: what queues hold, and how every run comes to rest. */
module LaneDrain {
  import opened Lanes
  import opened Wrappers
  import opened LaneRuns
  import opened LaneInvariant
  import LaneLabour
  import opened LaneDeliver
  import opened LaneTheorems

  /** No lane waits without a job in flight, and a snapshot lane queues one request per kind. */
  ghost predicate NothingStranded(x: Exec) {
    && (forall lane :: lane in x.queued ==> lane in x.inFlight && x.queued[lane] != [])
    && (SnapshotLane in x.queued ==>
          |x.queued[SnapshotLane]| <= 2
          && forall i, j :: 0 <= i < j < |x.queued[SnapshotLane]| ==>
               !SameKind(x.queued[SnapshotLane][i], x.queued[SnapshotLane][j]))
  }

  lemma Unstranded(s: Sys)
    requires QueueInv(s)
    ensures NothingStranded(s.exec)
  {
    if SnapshotLane in s.exec.queued {
      var q := s.exec.queued[SnapshotLane];
      assert Sorted(q);
      forall k | 0 <= k < |q|
        ensures q[k].Snapshot? || q[k].Lifecycle?
      {
        assert Waits(s.job, s.work.Keys, s.leaderOf, SnapshotLane, q[k]);
      }
      if |q| > 2 {
        assert SameKind(q[0], q[1]) || SameKind(q[0], q[2]) || SameKind(q[1], q[2]);
      }
    }
  }

  /** In every run, a queue stands behind an in-flight job, and holds at most one Snapshot and
      one LifecycleSnapshot. */
  lemma NoStrandedWork(steps: seq<Step>)
    ensures NothingStranded(Run(steps).exec)
  {
    RunKeeps(steps);
    Unstranded(Run(steps));
  }

  /** Ids with a request of their own that the daemon has not heard the end of. */
  ghost function Unsettled(s: Sys): set<nat> {
    set id | id in s.job && id !in s.leaderOf && !Over(Proj(s.out, id))
  }

  /** A second terminal event for a job changes none of the scheduler's maps. */
  lemma LateTerminalIsHarmless(s: Sys)
    requires Silent(s.work.Keys, s.leaderOf, s.out, s.events)
    requires Leaders(s.exec.coalesced, s.job, s.leaderOf, s.out)
    requires Flying(s.exec.inFlight, s.job, s.work.Keys, s.out)
    requires s.exec.pending == [] && s.events != [] && Terminal(s.events[0])
    requires Over(Proj(s.out, s.events[0].id))
    ensures Deliver(s).exec == s.exec && Deliver(s).out == s.out + [s.events[0]]
  {
    var id := s.events[0].id;
    assert id !in s.exec.coalesced;
    assert LaneHolding(s.exec.inFlight, id).None?;
    AbsorbQuiet(s);
    assert Copies(s.exec, s.events[0]) == [];
    assert s.exec.coalesced - {id} == s.exec.coalesced;
  }

  // ---- The measure ----

  lemma AbsorbSettles(s: Sys)
    requires Channelled(s) && s.events[0].id !in s.leaderOf
    ensures Unsettled(Absorbed(s)) ==
              if Terminal(s.events[0]) then Unsettled(s) - {s.events[0].id} else Unsettled(s)
  {
    forall x | x in s.job && x !in s.leaderOf
      ensures Over(Proj(Absorbed(s).out, x)) <==>
              Over(Proj(s.out, x)) || (Terminal(s.events[0]) && x == s.events[0].id)
    {
      OverAfter(s, x);
      if x != s.events[0].id {
        OnlyOwn(s, x);
      }
    }
  }

  /** What is unsettled depends on what was submitted and what was heard. */
  lemma SameUnsettled(s: Sys, t: Sys)
    requires t.job == s.job && t.leaderOf == s.leaderOf && t.out == s.out
    ensures Unsettled(t) == Unsettled(s)
  {
  }

  /** A terminal event settles exactly its own job, and nothing else does. */
  lemma DeliverSettles(s: Sys)
    requires Inv(s) && s.events != [] && s.exec.pending == []
    ensures Unsettled(Deliver(s)) ==
              if Terminal(s.events[0]) then Unsettled(s) - {s.events[0].id} else Unsettled(s)
  {
    AbsorbFans(s);
    AbsorbSettles(s);
    DeliverBase(s);
    SameUnsettled(Absorbed(s), Deliver(s));
  }

  /** Without submissions the set of unsettled jobs only shrinks, by a first terminal event. */
  lemma OnlyTerminalsSettle(s: Sys, step: Step)
    requires Inv(s) && !step.Submit?
    ensures Unsettled(Next(s, step)) ==
              if step.Recv? && s.exec.pending == [] && s.events != [] && Terminal(s.events[0])
              then Unsettled(s) - {s.events[0].id} else Unsettled(s)
  {
    if step.Recv? && s.exec.pending == [] && s.events != [] {
      DeliverSettles(s);
    } else {
      QuietOut(s, step);
      SameUnsettled(s, Next(s, step));
    }
  }

  lemma QuietOut(s: Sys, step: Step)
    requires !step.Submit? && !(step.Recv? && s.exec.pending == [] && s.events != [])
    ensures var t := Next(s, step); t.job == s.job && t.leaderOf == s.leaderOf && t.out == s.out
  {
  }

  // ---- Coming to rest ----

  ghost predicate Rested(s: Sys) {
    Unsettled(s) == {} && s.events == [] && s.exec.pending == []
  }

  /** The lane of an unsettled job has a job in flight. */
  lemma LaneWorks(s: Sys, x: nat)
    requires QueueInv(s) && x in Unsettled(s)
    requires Flying(s.exec.inFlight, s.job, s.work.Keys, s.out) && Landed(s.exec.inFlight, s.job, s.work.Keys, s.out)
    ensures LaneFor(s.job[x]) in s.exec.inFlight
  {
    assert x !in s.work ==> Queued(s.exec.queued, s.job[x]);
  }

  /** Some job in flight is still being worked on. */
  lemma SomeoneWorks(s: Sys) returns (id: nat)
    requires QueueInv(s) && Words(s.work, s.job, s.out, s.events, s.answers)
    requires Flying(s.exec.inFlight, s.job, s.work.Keys, s.out) && Landed(s.exec.inFlight, s.job, s.work.Keys, s.out)
    requires Unsettled(s) != {} && s.events == []
    ensures id in s.work && id in s.job && !s.work[id].Ended?
    ensures WordOk(s.work[id], s.job[id], Word(s, id), s.answers)
  {
    var x :| x in Unsettled(s);
    LaneWorks(s, x);
    id := s.exec.inFlight[LaneFor(s.job[x])];
    assert Word(s, id) == Proj(s.out, id);
    EndedIsOver(s.work[id], s.job[id], Word(s, id), s.answers);
  }

  lemma EndedIsOver(w: Work, job: Job, word: seq<Event>, answers: map<nat, Reply>)
    requires WordOk(w, job, word, answers)
    ensures w.Ended? ==> Over(word)
  {
    assert w.Ended? ==> Terminal(word[|word| - 1]);
  }

  // ---- How much is left to do ----

  /** Actions a worker may still take, if nothing more is pushed to it. */
  function Rank(w: Work): nat {
    match w
    case Waiting => 3
    case Asked => 2
    case Replied => 1
    case Leased(inbox) => 1 + 2 * |inbox|
    case Reading(inbox) => 2 + 2 * |inbox|
    case Ended => 0
  }

  /** A job that still waits for its dispatch counts as its worker will. */
  function RankOf(s: Sys, id: nat): nat {
    if id in s.work then Rank(s.work[id]) else if id in s.job && id !in s.leaderOf then Rank(Waiting) else 0
  }

  /** What is left to the workers of the ids below `n`. */
  function Toil(s: Sys, n: nat): nat {
    if n == 0 then 0 else Toil(s, n - 1) + RankOf(s, n - 1)
  }

  function Weigh(toil: nat, events: nat, pending: nat, followers: nat): nat {
    toil * (followers + 3) + events * (followers + 2) + pending
  }

  /** A bound on the steps left: an action may emit an event, and an event may be copied to
      every follower. */
  function Left(s: Sys): nat {
    Weigh(Toil(s, s.next), |s.events|, |s.exec.pending|, |s.leaderOf.Keys|)
  }

  lemma WeighLess(toil: nat, fewer: nat, events: nat, pending: nat, followers: nat)
    requires fewer < toil
    ensures Weigh(fewer, events + 1, pending, followers) < Weigh(toil, events, pending, followers)
    ensures Weigh(fewer, events, pending, followers) < Weigh(toil, events, pending, followers)
  {
    assert fewer * (followers + 3) + (followers + 3) == (fewer + 1) * (followers + 3) <= toil * (followers + 3);
    assert (events + 1) * (followers + 2) == events * (followers + 2) + (followers + 2);
  }

  lemma WeighDelivered(toil: nat, events: nat, pending: nat, copies: nat, followers: nat)
    requires events > 0 && copies <= followers
    ensures Weigh(toil, events - 1, pending + copies, followers) < Weigh(toil, events, pending, followers)
  {
    assert events * (followers + 2) == (events - 1) * (followers + 2) + (followers + 2);
  }

  lemma {:induction false} ToilMoves(s: Sys, t: Sys, id: nat, n: nat)
    requires forall x :: x != id ==> RankOf(t, x) == RankOf(s, x)
    ensures Toil(t, n) == Toil(s, n) + if id < n then RankOf(t, id) - RankOf(s, id) else 0
  {
    if n > 0 {
      ToilMoves(s, t, id, n - 1);
    }
  }

  // ---- Every calm step that does anything lowers it ----

  /** A step that brings no new work: no submission and no lease command. */
  predicate Calm(step: Step) {
    !step.Submit? && (step.Work? ==> !step.action.Push?)
  }

  predicate AllCalm(steps: seq<Step>) {
    forall k :: 0 <= k < |steps| ==> Calm(steps[k])
  }

  lemma ActLowers(w: Work, job: Job, action: Action)
    requires !action.Push?
    ensures var o := Act(w, job, action);
            |o.events| <= 1 && (o == Outcome(w, [], false) || Rank(o.work) < Rank(w))
  {
  }

  lemma LabourIdle(s: Sys, id: nat, action: Action)
    requires id in s.work && id in s.job && !action.Push?
    requires Act(s.work[id], s.job[id], action) == Outcome(s.work[id], [], false)
    ensures Labour(s, id, action) == s
  {
    assert s.work[id := s.work[id]] == s.work;
    assert s.events + [] == s.events;
  }

  lemma LabourLowers(s: Sys, id: nat, action: Action)
    requires Ids(s.next, s.job, s.work.Keys, s.leaderOf) && id in s.work && id in s.job && !action.Push?
    ensures Labour(s, id, action) == s || Left(Labour(s, id, action)) < Left(s)
  {
    var o, t := Act(s.work[id], s.job[id], action), Labour(s, id, action);
    ActLowers(s.work[id], s.job[id], action);
    if o == Outcome(s.work[id], [], false) {
      LabourIdle(s, id, action);
    } else {
      LaneLabour.LabourFrame(s, id, action);
      assert t.work == s.work[id := o.work];
      ToilMoves(s, t, id, s.next);
      WeighLess(Toil(s, s.next), Toil(t, s.next), |s.events|, |s.exec.pending|, |s.leaderOf.Keys|);
    }
  }

  lemma {:induction false} DistinctFits(fs: seq<nat>, all: set<nat>)
    requires Distinct(fs) && forall f :: f in fs ==> f in all
    ensures |fs| <= |all|
  {
    if fs != [] {
      var rest := fs[1..];
      assert forall k :: 0 <= k < |rest| ==> rest[k] == fs[k + 1];
      assert fs[0] in fs && forall f :: f in rest ==> f in fs;
      DistinctFits(rest, all - {fs[0]});
    }
  }

  lemma CopiesFit(s: Sys)
    requires Leaders(s.exec.coalesced, s.job, s.leaderOf, s.out) && s.events != []
    ensures |Copies(s.exec, s.events[0])| <= |s.leaderOf.Keys|
  {
    var id := s.events[0].id;
    if id in s.exec.coalesced {
      assert FollowersAre(s.exec.coalesced[id], s.leaderOf, id);
      DistinctFits(s.exec.coalesced[id], s.leaderOf.Keys);
    }
  }

  /** From `s` to `t` one event was delivered with its copies, and no worker acted. */
  ghost predicate Delivered(s: Sys, t: Sys) {
    && s.events != [] && t.events == s.events[1..] && t.exec.pending == s.exec.pending + Copies(s.exec, s.events[0])
    && t.next == s.next && t.leaderOf == s.leaderOf && forall x :: RankOf(t, x) == RankOf(s, x)
  }

  lemma DeliveredLowers(s: Sys, t: Sys)
    requires Delivered(s, t) && Leaders(s.exec.coalesced, s.job, s.leaderOf, s.out)
    ensures Left(t) < Left(s)
  {
    CopiesFit(s);
    ToilMoves(s, t, s.next, s.next);
    WeighDelivered(Toil(s, s.next), |s.events|, |s.exec.pending|, |Copies(s.exec, s.events[0])|, |s.leaderOf.Keys|);
  }

  lemma DeliverLowers(s: Sys)
    requires Inv(s) && s.events != [] && s.exec.pending == []
    ensures Left(Deliver(s)) < Left(s)
  {
    DeliverDelivers(s);
    DeliveredLowers(s, Deliver(s));
  }

  lemma DeliverDelivers(s: Sys)
    requires s.events != [] && QueueInv(s)
    ensures Delivered(s, Deliver(s))
  {
    var held := LaneHolding(s.exec.inFlight, s.events[0].id);
    if !Terminal(s.events[0]) || held.None? {
      AbsorbQuiet(s);
      AbsorbedDelivers(s, None);
    } else if held.value in s.exec.queued {
      AbsorbPop(s, held.value);
      PopKeepsRanks(s, held.value);
    } else {
      AbsorbFree(s, held.value);
      AbsorbedDelivers(s, held);
    }
  }

  lemma AbsorbedDelivers(s: Sys, lane: Option<Lane>)
    requires s.events != []
    ensures Delivered(s, if lane.Some? then Freed(Absorbed(s), lane.value) else Absorbed(s))
  {
  }

  /** The job dispatched from the queue counted before as it counts now. */
  lemma PopKeepsRanks(s: Sys, lane: Lane)
    requires s.events != [] && HasNext(s, lane)
    requires Waiters(s.exec.queued, s.job, s.work.Keys, s.leaderOf)
    ensures Delivered(s, Popped(Absorbed(s), lane))
  {
    assert Waits(s.job, s.work.Keys, s.leaderOf, lane, NextJob(s, lane));
  }

  lemma HandLowers(s: Sys)
    requires s.exec.pending != []
    ensures Left(Hand(s)) < Left(s)
  {
    ToilMoves(s, Hand(s), s.next, s.next);
  }

  lemma CalmLowers(s: Sys, step: Step)
    requires Inv(s) && Calm(step)
    ensures Next(s, step) == s || Left(Next(s, step)) < Left(s)
  {
    if step.Work? {
      if step.id in s.work && step.id in s.job { LabourLowers(s, step.id, step.action); }
    } else if s.exec.pending != [] {
      HandLowers(s);
    } else if s.events != [] {
      DeliverLowers(s);
    }
  }

  // ---- And only rest stops them ----

  /** An action that brings a worker nearer its end. */
  function Finishing(w: Work, job: Job): Action {
    match w
    case Waiting => if job.Open? then Refuse(0) else Ask
    case Asked => Answer(Refused(0))
    case Replied => Release
    case Leased(inbox) => if inbox != [] && inbox[0].Send? then BudgetFail(0) else Hangup
    case Reading(_) => ReadFail(0)
    case Ended => Release
  }

  lemma FinishingMoves(s: Sys, id: nat)
    requires id in s.work && id in s.job && !s.work[id].Ended?
    requires WordOk(s.work[id], s.job[id], Word(s, id), s.answers)
    ensures var step := Work(id, Finishing(s.work[id], s.job[id])); Calm(step) && Next(s, step) != s
  {
    var t := Labour(s, id, Finishing(s.work[id], s.job[id]));
    assert t.work[id] != s.work[id];
  }

  /** Unless the scheduler is at rest some calm step changes it. */
  lemma Progress(s: Sys) returns (step: Step)
    requires Inv(s) && !Rested(s)
    ensures Calm(step) && Next(s, step) != s
  {
    if s.exec.pending != [] || s.events != [] {
      step := Recv;
      RecvMoves(s);
    } else {
      step := WorkMoves(s);
    }
  }

  lemma WorkMoves(s: Sys) returns (step: Step)
    requires QueueInv(s) && Words(s.work, s.job, s.out, s.events, s.answers)
    requires Flying(s.exec.inFlight, s.job, s.work.Keys, s.out) && Landed(s.exec.inFlight, s.job, s.work.Keys, s.out)
    requires Unsettled(s) != {} && s.events == []
    ensures Calm(step) && Next(s, step) != s
  {
    var id := SomeoneWorks(s);
    step := Work(id, Finishing(s.work[id], s.job[id]));
    FinishingMoves(s, id);
  }

  lemma RecvMoves(s: Sys)
    requires s.exec.pending != [] || s.events != []
    ensures Next(s, Recv) != s
  {
    if s.exec.pending == [] {
      DeliverBase(s);
      assert Deliver(s).handed == s.handed + 1;
    } else {
      assert Hand(s).handed == s.handed + 1;
    }
  }

  predicate NoSubmission(steps: seq<Step>) {
    forall k :: 0 <= k < |steps| ==> !steps[k].Submit?
  }

  lemma {:induction false} RunCons(s: Sys, step: Step, rest: seq<Step>)
    ensures RunFrom(s, [step] + rest) == RunFrom(Next(s, step), rest)
  {
    var all := [step] + rest;
    if rest == [] {
      assert all[..|all| - 1] == [];
    } else {
      var before := rest[..|rest| - 1];
      RunCons(s, step, before);
      assert all[..|all| - 1] == [step] + before;
    }
  }

  lemma ProgressLowers(s: Sys) returns (step: Step, t: Sys)
    requires Reachable(s) && !Rested(s)
    ensures Calm(step) && t == Next(s, step) && Reachable(t) && Left(t) < Left(s)
  {
    ReachableInv(s);
    step := Progress(s);
    t := Next(s, step);
    CalmLowers(s, step);
    NextReachable(s, step);
  }

  /** From every reachable state the scheduler can be brought to rest without a submission. */
  lemma {:induction false} Drains(s: Sys) returns (more: seq<Step>)
    requires Reachable(s)
    ensures NoSubmission(more) && Rested(RunFrom(s, more))
    decreases Left(s)
  {
    more := [];
    if !Rested(s) {
      var step, t := ProgressLowers(s);
      var rest := Drains(t);
      more := [step] + rest;
      RunCons(s, step, rest);
    }
  }

  /** How many of the steps change anything. */
  ghost function Changes(s: Sys, more: seq<Step>): nat {
    if more == [] then 0
    else
      var before := RunFrom(s, more[..|more| - 1]);
      Changes(s, more[..|more| - 1]) + if Next(before, more[|more| - 1]) == before then 0 else 1
  }

  lemma {:induction false} ChangesAreBounded(s: Sys, more: seq<Step>)
    requires Inv(s) && AllCalm(more)
    ensures Changes(s, more) + Left(RunFrom(s, more)) <= Left(s)
  {
    if more != [] {
      var before := more[..|more| - 1];
      ChangesAreBounded(s, before);
      RunFromKeeps(s, before);
      CalmLowers(RunFrom(s, before), more[|more| - 1]);
    }
  }

  /** No calm step changes anything. */
  ghost predicate Stuck(s: Sys) {
    forall step :: Calm(step) ==> Next(s, step) == s
  }

  // ---- At rest ----

  /** Every shared job has been handed its answer once and its release once. */
  ghost predicate Served(s: Sys, id: nat) {
    Source(s, id) in s.answers
    && Proj(Handed(s), id) == [Done(id, s.answers[Source(s, id)]), Dropped(id)]
  }

  lemma RestIsOver(s: Sys, id: nat)
    requires QueueInv(s) && Led(s.exec.coalesced, s.job, s.leaderOf, s.out) && Mirrored(s.leaderOf, s.out)
    requires Unsettled(s) == {} && id in s.job
    ensures Over(Proj(s.out, id))
  {
    var l := Source(s, id);
    assert l in s.job && l !in s.leaderOf;
    assert l !in Unsettled(s);
    OverRenamed(Proj(s.out, l), id);
  }

  lemma RestServes(s: Sys, id: nat)
    requires QueueInv(s) && FanInv(s) && Rested(s) && Shared(s, id)
    ensures Served(s, id)
  {
    RestIsOver(s, id);
    SharedHeard(s, id);
    assert s.handed == |s.out|;
    assert s.out[..|s.out|] == s.out;
  }

  lemma HeldIsUnsettled(s: Sys)
    requires Ids(s.next, s.job, s.work.Keys, s.leaderOf)
    requires Flying(s.exec.inFlight, s.job, s.work.Keys, s.out)
    requires Leaders(s.exec.coalesced, s.job, s.leaderOf, s.out)
    ensures forall lane :: lane in s.exec.inFlight ==> s.exec.inFlight[lane] in Unsettled(s)
    ensures forall l :: l in s.exec.coalesced ==> l in Unsettled(s)
  {
    forall l | l in s.exec.coalesced
      ensures l in Unsettled(s)
    {
      assert FollowersAre(s.exec.coalesced[l], s.leaderOf, l);
    }
  }

  lemma RestIsEmpty(s: Sys)
    requires Backed(s.exec.queued, s.exec.inFlight) && Flying(s.exec.inFlight, s.job, s.work.Keys, s.out)
    requires Ids(s.next, s.job, s.work.Keys, s.leaderOf)
    requires Leaders(s.exec.coalesced, s.job, s.leaderOf, s.out) && Unsettled(s) == {}
    ensures s.exec.queued == map[] && s.exec.inFlight == map[] && s.exec.coalesced == map[]
  {
    HeldIsUnsettled(s);
  }

  predicate Emptied(x: Exec) {
    x.queued == map[] && x.inFlight == map[] && x.coalesced == map[] && x.pending == []
  }

  /** Nothing is queued, in flight, joined or pending, and every shared job was served. */
  ghost predicate AllServed(s: Sys) {
    Emptied(s.exec) && forall id :: Shared(s, id) ==> Served(s, id)
  }

  lemma RestServesAll(s: Sys)
    requires Inv(s) && Rested(s)
    ensures AllServed(s)
  {
    RestIsEmpty(s);
    forall id | Shared(s, id)
      ensures Served(s, id)
    {
      RestServes(s, id);
    }
  }

  /** Conservation: every run extends, without a submission, to one in which all queues are
      empty and each snapshot, lifecycle or `agent.get` id, leader or follower, has been handed
      exactly one Done and then exactly one Dropped. */
  lemma EveryRunDrains(steps: seq<Step>) returns (more: seq<Step>)
    ensures NoSubmission(more)
    ensures AllServed(RunFrom(Run(steps), more))
  {
    RunKeeps(steps);
    more := Drains(Run(steps));
    RunFromKeeps(Run(steps), more);
    RestServesAll(RunFrom(Run(steps), more));
  }

  /** Whatever run comes to rest: all queues are empty, and every snapshot, lifecycle or
      `agent.get` id has been handed exactly one Done and then exactly one Dropped. */
  lemma RestMeansServed(steps: seq<Step>)
    requires Rested(Run(steps))
    ensures AllServed(Run(steps))
  {
    RunKeeps(steps);
    RestServesAll(Run(steps));
  }

  lemma StuckRests(s: Sys)
    requires Inv(s) && Stuck(s)
    ensures Rested(s)
  {
    if !Rested(s) {
      var step := Progress(s);
    }
  }

  lemma ContinuationEnds(s: Sys, more: seq<Step>)
    requires Inv(s) && AllCalm(more)
    ensures Changes(s, more) <= Left(s)
    ensures Stuck(RunFrom(s, more)) ==> AllServed(RunFrom(s, more))
  {
    ChangesAreBounded(s, more);
    RunFromKeeps(s, more);
    StuckServes(RunFrom(s, more));
  }

  /** Without new work every continuation of every run ends: at most `Left` of its steps change
      anything, and once none can, all queues are empty and every snapshot, lifecycle or
      `agent.get` id has been handed exactly one Done and then exactly one Dropped. */
  lemma EveryContinuationEnds(steps: seq<Step>, more: seq<Step>)
    requires AllCalm(more)
    ensures Changes(Run(steps), more) <= Left(Run(steps))
    ensures Stuck(RunFrom(Run(steps), more)) ==> AllServed(RunFrom(Run(steps), more))
  {
    RunKeeps(steps);
    ContinuationEnds(Run(steps), more);
  }

  lemma StuckServes(s: Sys)
    requires Inv(s)
    ensures Stuck(s) ==> AllServed(s)
  {
    if Stuck(s) {
      StuckRests(s);
      RestServesAll(s);
    }
  }
}
