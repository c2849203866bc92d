/** What becomes of the leases of a start: each is let go of when the start leaves it. */
module StartLeases {
  import opened Lanes
  import opened Wrappers
  import L = LaneRuns
  import T = LaneTheorems
  import Q = LaneSteps
  import D = DeliveryStories
  import DR = DeliveryRuns
  import K = DeliveryLeases
  import W = StartWrites
  import opened Starts
  import opened StartStories
  import opened StartRuns
  import opened StartFacts

  /** A start that has sent on its lease holds it. */
  ghost predicate AllHold(starts: seq<Start>) {
    forall k :: 0 <= k < |starts| && HasSent(starts[k]) ==> starts[k].lease
  }

  /** A lease of ours that no start waits on has ended, or has been told to. */
  ghost predicate Freed(h: House, job: nat) {
    job in h.mine && job in h.lanes.job && h.lanes.job[job].Open? && Unused(h.floor, job) ==> K.Released(h.lanes, job)
  }

  ghost predicate AllFreed(h: House) {
    AllHold(h.floor.starts) && forall job: nat :: Freed(h, job)
  }

  // ---- What a handler does with the lease ----

  lemma GrownHolds(f: Floor, g: Floor, i: nat, told: seq<Entry>, t: Option<Start>)
    requires i < |f.starts| && Grown(f, g, i, told, t) && AllHold(f.starts)
    requires t.Some? && HasSent(t.value) ==> t.value.lease
    ensures AllHold(g.starts)
  {
  }

  lemma BecomesHolds(s: Start, event: Event, told: seq<Entry>, w: Facts, settle: nat)
    requires HasSent(s) ==> s.lease
    ensures var t := Becomes(s, event, told, w, settle);
            t.Some? && HasSent(t.value) ==> t.value.lease
  {
  }

  lemma HandleHolds(f: Floor, event: Event, refused: bool, w: Facts, next: nat, i: nat)
    requires IndexOf(f.starts, event.id) == Some(i) && StartOk(f.starts[i]) && Timely(f.starts[i], event)
    requires AllHold(f.starts)
    ensures AllHold(Handle(f, event, refused, w, next).floor.starts)
  {
    var told := Told(f.starts[i], event, refused, w.leaseOpen, w, w.settle, next);
    HandleTells(f, event, refused, w, next, i);
    BecomesHolds(f.starts[i], event, told, w, w.settle);
    GrownHolds(f, Handle(f, event, refused, w, next).floor, i, told, Becomes(f.starts[i], event, told, w, w.settle));
  }

  /** The start still waits on the lease, or the lease is dropped, or it was gone already. */
  predicate LetsGo(s: Start, event: Event, w: Facts, e: Effect, i: nat) {
    || (i < |e.floor.starts| && e.floor.starts[i].job == Some(event.id))
    || L.Drop in e.cmds
    || (event.Failed? && Unopened(s))
    || (event.Opened? && !w.leaseOpen)
  }

  lemma HandleLetsGo(f: Floor, event: Event, refused: bool, w: Facts, next: nat, i: nat)
    requires IndexOf(f.starts, event.id) == Some(i) && StartOk(f.starts[i]) && Timely(f.starts[i], event)
    requires AllHold(f.starts) && OnLease(f.starts[i])
    ensures var e := Handle(f, event, refused, w, next);
            e.submit.None? && LetsGo(f.starts[i], event, w, e, i)
  {
    match event
    case Opened(_) => OpenedLetsGo(f, i, w, event);
    case Done(_, reply) => DoneLetsGo(f, i, reply, w, next, event);
    case Failed(_, _, error) =>
      if f.starts[i].phase.Sending? && refused {
        DoneLetsGo(f, i, Refused(error), w, next, Done(event.id, Refused(error)));
      }
    case _ =>
  }

  lemma OpenedLetsGo(f: Floor, i: nat, w: Facts, event: Event)
    requires i < |f.starts| && f.starts[i].job == Some(event.id) && Unopened(f.starts[i]) && event.Opened?
    ensures OnOpened(f, i, w).submit.None? && LetsGo(f.starts[i], event, w, OnOpened(f, i, w), i)
  {
  }

  lemma DoneLetsGo(f: Floor, i: nat, reply: Reply, w: Facts, next: nat, event: Event)
    requires i < |f.starts| && f.starts[i].lease && HasSent(f.starts[i])
    ensures var e := OnDone(f, i, event.id, reply, w, next); e.submit.None? && L.Drop in e.cmds
  {
  }

  /** What is submitted is waited on. */
  lemma SubmitsWaited(f: Floor, event: Event, refused: bool, w: Facts, next: nat)
    ensures var e := Handle(f, event, refused, w, next); e.submit.Some? ==> !Unused(e.floor, next)
  {
    var e, index := Handle(f, event, refused, w, next), IndexOf(f.starts, event.id);
    if e.submit.Some? { assert e.floor.starts[index.value].job == Some(next); }
  }

  lemma TurnSubmitsWaited(f: Floor, i: nat, now: int, next: nat)
    requires i < |f.starts|
    ensures var e := AdvanceOne(f, i, now, next); e.submit.Some? ==> !Unused(e.floor, next)
  {
    var e := AdvanceOne(f, i, now, next);
    if e.submit.Some? { assert e.floor.starts[i].job == Some(next); }
  }

  // ---- Other leases ----

  lemma StillUnused(f: Floor, g: Floor, i: nat, told: seq<Entry>, t: Option<Start>, x: nat)
    requires i < |f.starts| && Grown(f, g, i, told, t) && f.starts[i].job != Some(x) && Unused(g, x)
    ensures Unused(f, x)
  {
    forall k | 0 <= k < |f.starts|
      ensures f.starts[k].job != Some(x)
    {
      if k < i { assert g.starts[k] == f.starts[k]; }
      if k > i { assert g.starts[if t.Some? then k else k - 1] == f.starts[k]; }
    }
  }

  /** What was released stays so when an effect is carried out. */
  lemma ApplyReleases(lanes: L.Sys, id: nat, e: Effect, x: nat)
    requires T.Reachable(lanes) && K.Released(lanes, x) && (e.submit.Some? ==> e.submit.value.id == lanes.next)
    ensures K.Released(DR.Push(Issue(lanes, e.submit), id, e.cmds), x)
  {
    if e.submit.Some? {
      T.ReachableInv(lanes);
      Q.NextQuiet(lanes, L.Submit(e.submit.value));
      K.QuietReleases(lanes, Issue(lanes, e.submit), x);
    }
    K.PushReleases(Issue(lanes, e.submit), id, e.cmds, x);
  }

  /** The job `id`, which a start has left, is no lease or is released. */
  ghost predicate Settled(lanes: L.Sys, id: nat, e: Effect) {
    id !in lanes.job || !lanes.job[id].Open? || K.Released(DR.Push(Issue(lanes, e.submit), id, e.cmds), id)
  }

  lemma ApplyFreed(h: House, lanes: L.Sys, id: nat, e: Effect)
    requires T.Reachable(h.lanes) && T.Reachable(lanes) && AllFreed(h) && Q.Quiet(h.lanes, lanes)
    requires lanes.job == h.lanes.job && (e.submit.Some? ==> e.submit.value.id == lanes.next)
    requires e.cmds != [] && e.submit.Some? ==> id < lanes.next
    requires AllHold(e.floor.starts) && (e.submit.Some? ==> !Unused(e.floor, lanes.next))
    requires forall x: nat :: Unused(e.floor, x) ==> Unused(h.floor, x) || (x == id && Settled(lanes, id, e))
    ensures AllFreed(Apply(h, lanes, id, e))
  {
    var g := Apply(h, lanes, id, e);
    ApplyFace(lanes, id, e.submit, e.cmds);
    JobsBelow(lanes);
    forall x: nat | x in g.mine && x in g.lanes.job && g.lanes.job[x].Open? && Unused(g.floor, x)
      ensures K.Released(g.lanes, x)
    {
      if Unused(h.floor, x) {
        AppliedJobs(lanes, id, e, x);
        assert Freed(h, x);
        K.QuietReleases(h.lanes, lanes, x);
        ApplyReleases(lanes, id, e, x);
      } else {
        AppliedJobs(lanes, id, e, x);
      }
    }
  }

  /** Carrying out an effect adds no job but the one submitted. */
  lemma AppliedJobs(lanes: L.Sys, id: nat, e: Effect, x: nat)
    requires T.Reachable(lanes) && (e.submit.Some? ==> e.submit.value.id == lanes.next)
    requires x in DR.Push(Issue(lanes, e.submit), id, e.cmds).job && (e.submit.Some? ==> x != lanes.next)
    ensures x in lanes.job && DR.Push(Issue(lanes, e.submit), id, e.cmds).job[x] == lanes.job[x]
  {
    if e.submit.Some? { T.SubmitFace(lanes, e.submit.value); }
    D.PushFace(Issue(lanes, e.submit), id, e.cmds);
  }

  // ---- Every move ----

  /** The lease of the event is let go of unless its start still waits on it. */
  lemma OwnSettles(h: House, lanes: L.Sys, event: Event, refused: bool, w: Facts, i: nat)
    requires Linked(h) && AllHold(h.floor.starts) && IndexOf(h.floor.starts, event.id) == Some(i)
    requires StartOk(h.floor.starts[i]) && Timely(h.floor.starts[i], event)
    requires Stage(h.lanes, h.floor.starts[i], event.id)
    requires T.Reachable(lanes) && T.Handed(lanes) == T.Handed(h.lanes) + [event] && lanes.job == h.lanes.job
    requires w.leaseOpen == DR.Alive(lanes, event.id)
    ensures var e := Handle(h.floor, event, refused, w, lanes.next);
            Unused(e.floor, event.id) ==> Settled(lanes, event.id, e)
  {
    var s, e := h.floor.starts[i], Handle(h.floor, event, refused, w, lanes.next);
    if OnLease(s) {
      HandleLetsGo(h.floor, event, refused, w, lanes.next, i);
      LeaseSettles(h.lanes, lanes, s, event, w, e, i);
    }
  }

  lemma LeaseSettles(was: L.Sys, lanes: L.Sys, s: Start, event: Event, w: Facts, e: Effect, i: nat)
    requires OnLease(s) && Stage(was, s, event.id) && LetsGo(s, event, w, e, i) && e.submit.None?
    requires T.Reachable(lanes) && T.Handed(lanes) == T.Handed(was) + [event] && lanes.job == was.job
    requires w.leaseOpen == DR.Alive(lanes, event.id)
    ensures Unused(e.floor, event.id) ==> Settled(lanes, event.id, e)
  {
    D.ProjGrows(T.Handed(was), event, event.id);
    K.HeardIsOpened(lanes, event.id);
    if L.Drop in e.cmds {
      K.DropReleases(lanes, event.id, e.cmds);
    } else if Unused(e.floor, event.id) {
      assert ([] + [event])[0] == event;
      K.PushReleases(lanes, event.id, e.cmds, event.id);
    }
  }

  lemma OwnFrees(h: House, lanes: L.Sys, event: Event, refused: bool, w: Facts, i: nat)
    requires Linked(h) && AllFreed(h) && IndexOf(h.floor.starts, event.id) == Some(i)
    requires StartOk(h.floor.starts[i]) && Timely(h.floor.starts[i], event)
    requires Stage(h.lanes, h.floor.starts[i], event.id)
    requires T.Reachable(lanes) && T.Handed(lanes) == T.Handed(h.lanes) + [event] && Q.Quiet(h.lanes, lanes)
    requires lanes.job == h.lanes.job && event.id < lanes.next && w.leaseOpen == DR.Alive(lanes, event.id)
    ensures AllFreed(Apply(h, lanes, event.id, Handle(h.floor, event, refused, w, lanes.next)))
  {
    var f, e := h.floor, Handle(h.floor, event, refused, w, lanes.next);
    var told := Told(f.starts[i], event, refused, w.leaseOpen, w, w.settle, lanes.next);
    OwnSettles(h, lanes, event, refused, w, i);
    HandleHolds(f, event, refused, w, lanes.next, i);
    HandleTells(f, event, refused, w, lanes.next, i);
    W.EffectSubmits(f, event, refused, w, lanes.next);
    SubmitsWaited(f, event, refused, w, lanes.next);
    OthersUnused(f, e.floor, i, told, Becomes(f.starts[i], event, told, w, w.settle), event.id);
    ApplyFreed(h, lanes, event.id, e);
  }

  lemma OthersUnused(f: Floor, g: Floor, i: nat, told: seq<Entry>, t: Option<Start>, id: nat)
    requires i < |f.starts| && Grown(f, g, i, told, t) && f.starts[i].job == Some(id)
    ensures forall x: nat :: Unused(g, x) ==> Unused(f, x) || x == id
  {
    forall x: nat | Unused(g, x) && x != id
      ensures Unused(f, x)
    {
      StillUnused(f, g, i, told, t, x);
    }
  }

  lemma DrainFreed(h: House, refused: bool, w: Facts)
    requires Linked(h) && AllFreed(h)
    ensures AllFreed(Drain(h, refused, w))
  {
    if T.Ready(h.lanes) {
      var event := T.RecvFace(h.lanes);
      var lanes := L.Next(h.lanes, L.Recv);
      D.HandedIs(h.lanes, event);
      T.ReachableInv(h.lanes);
      Q.NextQuiet(h.lanes, L.Recv);
      if event.id in h.mine {
        PumpFreed(h, lanes, event, refused, w.(leaseOpen := DR.Alive(lanes, event.id), settle := h.settle));
      } else {
        QuietFreed(h, lanes);
      }
    }
  }

  lemma PumpFreed(h: House, lanes: L.Sys, event: Event, refused: bool, w: Facts)
    requires Linked(h) && AllFreed(h) && T.Reachable(lanes) && T.Handed(lanes) == T.Handed(h.lanes) + [event]
    requires Q.Quiet(h.lanes, lanes) && lanes.sent == h.lanes.sent
    requires lanes.job == h.lanes.job && lanes.next == h.lanes.next && event.id in h.mine
    requires w.leaseOpen == DR.Alive(lanes, event.id)
    ensures AllFreed(Apply(h, lanes, event.id, Handle(h.floor, event, refused, w, lanes.next)))
  {
    var index := IndexOf(h.floor.starts, event.id);
    if index.Some? {
      HandedInTime(h, lanes, event, index.value);
      assert Stage(h.lanes, h.floor.starts[index.value], event.id);
      OwnFrees(h, lanes, event, refused, w, index.value);
    } else {
      ApplyFreed(h, lanes, event.id, Handle(h.floor, event, refused, w, lanes.next));
    }
  }

  lemma QuietFreed(h: House, lanes: L.Sys)
    requires AllFreed(h) && Q.Quiet(h.lanes, lanes)
    requires forall x :: x in h.mine && x in lanes.job ==> x in h.lanes.job && lanes.job[x] == h.lanes.job[x]
    ensures AllFreed(h.(lanes := lanes))
  {
    forall x: nat | Freed(h, x)
      ensures Freed(h.(lanes := lanes), x)
    {
      if K.Released(h.lanes, x) { K.QuietReleases(h.lanes, lanes, x); }
    }
  }

  lemma WorkFreed(h: House, id: nat, action: L.Action)
    requires T.Reachable(h.lanes) && AllFreed(h)
    ensures AllFreed(h.(lanes := L.Next(h.lanes, L.Work(id, action))))
  {
    T.WorkFace(h.lanes, id, action);
    forall x: nat | Freed(h, x)
      ensures Freed(h.(lanes := L.Next(h.lanes, L.Work(id, action))), x)
    {
      if K.Released(h.lanes, x) { K.WorkReleases(h.lanes, id, action, x); }
    }
  }

  lemma SubmitFreed(h: House, job: Job)
    requires Linked(h) && AllFreed(h) && job.id == h.lanes.next
    ensures AllFreed(h.(lanes := L.Next(h.lanes, L.Submit(job))))
  {
    T.SubmitFace(h.lanes, job);
    SubmitQuiet(h.lanes, job);
    QuietFreed(h, L.Next(h.lanes, L.Submit(job)));
  }

  lemma SubmitQuiet(s: L.Sys, job: Job)
    requires T.Reachable(s)
    ensures Q.Quiet(s, L.Next(s, L.Submit(job)))
  {
    T.ReachableInv(s);
    Q.NextQuiet(s, L.Submit(job));
  }

  lemma SameIsQuiet(s: L.Sys)
    requires T.Reachable(s)
    ensures Q.Quiet(s, s)
  {
  }

  lemma BeginFreed(h: House, pane: string, deadline: int)
    requires Linked(h) && AllFreed(h)
    ensures AllFreed(Next(h, Begin(pane, deadline)))
  {
    var e := ParkStart(h.floor, h.tickets, pane, h.lanes.next, deadline);
    SameIsQuiet(h.lanes);
    assert e.floor.starts[|h.floor.starts|].job == Some(h.lanes.next);
    forall x: nat | Unused(e.floor, x)
      ensures Unused(h.floor, x)
    {
      assert forall k :: 0 <= k < |h.floor.starts| ==> e.floor.starts[k] == h.floor.starts[k];
    }
    ApplyFreed(h, h.lanes, 0, e);
    TicketsAside(Apply(h, h.lanes, 0, e), h.tickets + 1);
  }

  lemma TicketsAside(h: House, tickets: nat)
    requires AllFreed(h)
    ensures AllFreed(h.(tickets := tickets))
  {
    forall x: nat
      ensures Freed(h.(tickets := tickets), x)
    {
      assert Freed(h, x);
    }
  }

  lemma TurnFreed(h: House, i: nat, now: int)
    requires Linked(h) && AllFreed(h) && i < |h.floor.starts|
    ensures AllFreed(Apply(h, h.lanes, 0, AdvanceOne(h.floor, i, now, h.lanes.next).(cmds := [])))
  {
    var f, e, s := h.floor, AdvanceOne(h.floor, i, now, h.lanes.next), h.floor.starts[i];
    SameIsQuiet(h.lanes);
    TurnTells(f, i, now, h.lanes.next);
    W.TurnSubmits(f, i, now, h.lanes.next);
    TurnSubmitsWaited(f, i, now, h.lanes.next);
    GrownHolds(f, e.floor, i, TurnTold(s, now, h.lanes.next), TurnsInto(s, now, h.lanes.next));
    forall x: nat | Unused(e.floor, x)
      ensures Unused(f, x)
    {
      if s.job == Some(x) {
        assert e.floor.starts == f.starts;
      } else {
        StillUnused(f, e.floor, i, TurnTold(s, now, h.lanes.next), TurnsInto(s, now, h.lanes.next), x);
      }
    }
    ApplyFreed(h, h.lanes, 0, e.(cmds := []));
  }

  lemma NextFreed(h: House, m: Move)
    requires Linked(h) && AllFreed(h)
    ensures AllFreed(Next(h, m))
  {
    match m
    case Toil(id, action) => if !action.Push? { WorkFreed(h, id, action); }
    case OtherSubmit(job) => if job.id == h.lanes.next { SubmitFreed(h, job); }
    case OtherPush(id, cmd) => if id !in h.mine { WorkFreed(h, id, L.Push(cmd)); }
    case Begin(pane, deadline) => BeginFreed(h, pane, deadline);
    case Turn(index, now) => if index < |h.floor.starts| { TurnFreed(h, index, now); }
    case Pump(refused, w) => DrainFreed(h, refused, w);
  }

  lemma {:induction false} RunFreed(settle: nat, moves: seq<Move>)
    ensures AllFreed(Run(settle, moves))
  {
    if moves != [] {
      RunLinked(settle, moves[..|moves| - 1]);
      RunFreed(settle, moves[..|moves| - 1]);
      NextFreed(Run(settle, moves[..|moves| - 1]), moves[|moves| - 1]);
    }
  }

  /** In every run a start's lease, for `agent.start` or for the initial message, is held while the
      start waits on what it has sent, and once no start waits on it any more, however that came
      about, it has ended or has been told to. */
  lemma StartLeasesAreReleased(settle: nat, moves: seq<Move>, job: nat)
    requires var h := Run(settle, moves); job in h.mine && job in h.lanes.job && h.lanes.job[job].Open?
    ensures var h := Run(settle, moves);
            (exists k :: 0 <= k < |h.floor.starts| && h.floor.starts[k].job == Some(job)) || K.Released(h.lanes, job)
    ensures AllHold(Run(settle, moves).floor.starts)
  {
    RunFreed(settle, moves);
    assert Freed(Run(settle, moves), job);
  }
}
