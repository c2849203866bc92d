/** At rest no start waits for the scheduler: each is answered, or waits for its time only. */
module StartRest {
  import opened Lanes
  import opened Wrappers
  import L = LaneRuns
  import T = LaneTheorems
  import I = LaneInvariant
  import Drain = LaneDrain
  import D = DeliveryStories
  import DR = DeliveryRuns
  import R = DeliveryRest
  import S = StartTheorems
  import W = StartWrites
  import opened Starts
  import opened StartStories
  import opened StartRuns
  import opened StartFacts

  /** The worker of the lease that a start waits on owes it what the start waits for. */
  ghost predicate Owed(lanes: L.Sys, s: Start, job: nat) {
    OnLease(s) ==>
      R.Working(lanes, job, HasSent(s)) && (HasSent(s) ==> !R.Concluded(L.Proj(T.Handed(lanes), job)))
  }

  ghost predicate AllOwed(lanes: L.Sys, starts: seq<Start>) {
    forall k :: 0 <= k < |starts| && starts[k].job.Some? ==> Owed(lanes, starts[k], starts[k].job.value)
  }

  // ---- The event's own start ----

  /** A start that still waits on the event's job has been sent just now, or the event is only that
      bytes were written, or that the worker has gone. */
  predicate Remains(s: Start, event: Event, w: Facts, e: Effect) {
    && e.submit.None?
    && if event.Opened? then e.cmds == [L.Send] && w.leaseOpen && Unopened(s)
       else (event.Written? || event.Dropped?) && HasSent(s) && e.cmds == []
  }

  lemma HandleRemains(f: Floor, event: Event, refused: bool, w: Facts, next: nat, i: nat)
    requires IndexOf(f.starts, event.id) == Some(i) && StartOk(f.starts[i]) && Timely(f.starts[i], event)
    requires next != event.id
    ensures var e := Handle(f, event, refused, w, next);
            var told := Told(f.starts[i], event, refused, w.leaseOpen, w, w.settle, next);
            var t := Becomes(f.starts[i], event, told, w, w.settle);
            t.Some? && t.value.job == Some(event.id) ==> Remains(f.starts[i], event, w, e)
  {
    var told := Told(f.starts[i], event, refused, w.leaseOpen, w, w.settle, next);
    HandleTells(f, event, refused, w, next, i);
    if event.Done? { DoneMovesOn(f.starts[i], event, event.reply, w, next); }
  }

  /** When its job is done, a start waits on it no longer. */
  lemma DoneMovesOn(s: Start, event: Event, reply: Reply, w: Facts, next: nat)
    requires StartOk(s) && s.job == Some(event.id) && event.Done? && !Unopened(s) && next != event.id
    ensures var t := Becomes(s, event, DoneTold(s, event.id, reply, w, w.settle, next), w, w.settle);
            t.Some? ==> t.value.job != Some(event.id)
  {
  }

  /** The request has been handed to the lease that has just opened. */
  lemma SentOwed(was: L.Sys, lanes: L.Sys, t: Start, event: Event)
    requires T.Reachable(lanes) && T.Handed(lanes) == T.Handed(was) + [event] && event.Opened?
    requires L.Proj(T.Handed(was), event.id) == [] && event.id in lanes.job && lanes.job[event.id].Open?
    requires R.Working(lanes, event.id, false) && DR.Alive(lanes, event.id) && HasSent(t)
    ensures Owed(DR.Push(lanes, event.id, [L.Send]), t, event.id)
  {
    D.ProjGrows(T.Handed(was), event, event.id);
    assert [] + [event] == [event];
    R.PushSends(lanes, event.id);
    D.PushFace(lanes, event.id, [L.Send]);
  }

  /** Neither news leaves the start with less to wait for; the worker is not gone before its outcome
      was heard. */
  lemma StillOwed(was: L.Sys, lanes: L.Sys, s: Start, event: Event)
    requires T.Reachable(lanes) && T.Handed(lanes) == T.Handed(was) + [event] && (event.Written? || event.Dropped?)
    requires HasSent(s) && !R.Concluded(L.Proj(T.Handed(was), event.id)) && R.Working(lanes, event.id, true)
    ensures Owed(lanes, s, event.id)
  {
    var heard := L.Proj(T.Handed(was), event.id);
    D.ProjGrows(T.Handed(was), event, event.id);
    if event.Dropped? {
      R.HeardFirst(lanes, event.id);
      assert (heard + [event])[..|heard|] == heard;
      R.DroppedIsLate(lanes.work[event.id], event.id, I.Word(lanes, event.id), heard + [event]);
    } else {
      R.WrittenUnsettled(heard, event);
    }
  }

  lemma RemainingOwed(was: L.Sys, lanes: L.Sys, s: Start, t: Start, event: Event, w: Facts, e: Effect)
    requires T.Reachable(was) && T.Reachable(lanes) && T.Handed(lanes) == T.Handed(was) + [event]
    requires lanes.job == was.job && Stage(was, s, event.id) && Owed(was, s, event.id)
    requires OnLease(s) ==> R.Working(lanes, event.id, HasSent(s))
    requires Remains(s, event, w, e) && w.leaseOpen == DR.Alive(lanes, event.id) && HasSent(t)
    ensures Owed(DR.Push(Issue(lanes, e.submit), event.id, e.cmds), t, event.id)
  {
    if event.Opened? {
      SentOwed(was, lanes, t, event);
    } else {
      StillOwed(was, lanes, s, event);
      assert DR.Push(lanes, event.id, []) == lanes;
    }
  }

  // ---- Starts the event is not about ----

  /** Carrying out an effect on another job's lease. */
  lemma ElsewhereOwed(lanes: L.Sys, id: nat, e: Effect, s: Start, job: nat)
    requires T.Reachable(lanes) && Owed(lanes, s, job) && job != id && job in lanes.job
    requires e.submit.Some? ==> e.submit.value.id == lanes.next
    ensures Owed(DR.Push(Issue(lanes, e.submit), id, e.cmds), s, job)
  {
    if OnLease(s) {
      var b := Issue(lanes, e.submit);
      if e.submit.Some? {
        T.SubmitFace(lanes, e.submit.value);
        R.SubmitWorks(lanes, e.submit.value, job, HasSent(s));
      }
      D.PushFace(b, id, e.cmds);
      R.PushesElsewhere(b, id, e.cmds, job, HasSent(s));
    }
  }

  /** A start that has just asked for a lease. */
  lemma NewcomerOwed(lanes: L.Sys, id: nat, e: Effect, t: Start)
    requires T.Reachable(lanes) && e.submit.Some? && e.submit.value.id == lanes.next && id != lanes.next
    requires !HasSent(t)
    ensures Owed(DR.Push(Issue(lanes, e.submit), id, e.cmds), t, lanes.next)
  {
    T.SubmitFace(lanes, e.submit.value);
    R.NewcomerWorks(lanes, e.submit.value);
    R.PushesElsewhere(Issue(lanes, e.submit), id, e.cmds, lanes.next, false);
  }

  /** An event that is handed over leaves the worker of every job as it is. */
  lemma RecvOwed(was: L.Sys, lanes: L.Sys, event: Event, s: Start, job: nat)
    requires T.Reachable(was) && lanes == L.Next(was, L.Recv) && T.Handed(lanes) == T.Handed(was) + [event]
    requires Owed(was, s, job) && job in was.job && job != event.id
    ensures Owed(lanes, s, job)
  {
    if OnLease(s) {
      R.RecvWorks(was, job, HasSent(s));
      D.ProjGrows(T.Handed(was), event, job);
      assert L.Proj(T.Handed(was), job) + [] == L.Proj(T.Handed(was), job);
    }
  }

  // ---- Every move ----

  /** The start `t` that the event's start has become. */
  lemma OwnOwed(h: House, lanes: L.Sys, event: Event, refused: bool, w: Facts, i: nat, t: Start)
    requires T.Reachable(h.lanes) && T.Reachable(lanes) && lanes == L.Next(h.lanes, L.Recv)
    requires T.Handed(lanes) == T.Handed(h.lanes) + [event]
    requires lanes.job == h.lanes.job && event.id < lanes.next && w.leaseOpen == DR.Alive(lanes, event.id)
    requires IndexOf(h.floor.starts, event.id) == Some(i)
    requires StartOk(h.floor.starts[i]) && Timely(h.floor.starts[i], event)
    requires Stage(h.lanes, h.floor.starts[i], event.id) && Owed(h.lanes, h.floor.starts[i], event.id)
    requires var told := Told(h.floor.starts[i], event, refused, w.leaseOpen, w, w.settle, lanes.next);
             Becomes(h.floor.starts[i], event, told, w, w.settle) == Some(t)
    requires t.job.Some? && (t.job == Some(event.id) ==> HasSent(t))
    requires t.job != Some(event.id) ==> t.job == Some(lanes.next) && !HasSent(t)
    requires var e := Handle(h.floor, event, refused, w, lanes.next);
             t.job != Some(event.id) ==> e.submit.Some? && e.submit.value.id == lanes.next
    ensures var e := Handle(h.floor, event, refused, w, lanes.next);
            Owed(DR.Push(Issue(lanes, e.submit), event.id, e.cmds), t, t.job.value)
  {
    var s, e := h.floor.starts[i], Handle(h.floor, event, refused, w, lanes.next);
    if t.job == Some(event.id) {
      HandleRemains(h.floor, event, refused, w, lanes.next, i);
      if OnLease(s) { R.RecvWorks(h.lanes, event.id, HasSent(s)); }
      RemainingOwed(h.lanes, lanes, s, t, event, w, e);
    } else {
      NewcomerOwed(lanes, event.id, e, t);
    }
  }

  /** A start that an event leaves waiting waits on the same job, sent on by now, or on the job just
      submitted. */
  lemma BecomesWaiting(f: Floor, event: Event, refused: bool, w: Facts, next: nat, i: nat, t: Start)
    requires IndexOf(f.starts, event.id) == Some(i) && StartOk(f.starts[i]) && Timely(f.starts[i], event)
    requires Becomes(f.starts[i], event, Told(f.starts[i], event, refused, w.leaseOpen, w, w.settle, next), w, w.settle)
          == Some(t)
    requires t.job.Some? && next != event.id
    ensures t.job == Some(event.id) ==> HasSent(t)
    ensures var e := Handle(f, event, refused, w, next);
            t.job != Some(event.id) ==>
              t.job == Some(next) && !HasSent(t) && e.submit.Some? && e.submit.value.id == next
  {
    match event
    case Opened(_) =>
    case Done(job, reply) => DoneWaiting(f, i, job, reply, w, next, t);
    case Failed(_, _, _) =>
    case _ =>
  }

  lemma DoneWaiting(f: Floor, i: nat, job: nat, reply: Reply, w: Facts, next: nat, t: Start)
    requires i < |f.starts| && f.starts[i].job == Some(job) && StartOk(f.starts[i]) && !Unopened(f.starts[i])
    requires Becomes(f.starts[i], Done(job, reply), DoneTold(f.starts[i], job, reply, w, w.settle, next), w, w.settle)
          == Some(t)
    requires t.job.Some? && next != job
    ensures t.job == Some(next) && !HasSent(t)
    ensures var e := OnDone(f, i, job, reply, w, next); e.submit.Some? && e.submit.value.id == next
  {
  }

  /** Every start but the `i`th that waits on a job is owed. */
  ghost predicate OthersOwed(lanes: L.Sys, starts: seq<Start>, i: nat) {
    forall k :: 0 <= k < |starts| && k != i && starts[k].job.Some? ==> Owed(lanes, starts[k], starts[k].job.value)
  }

  lemma GrownOwed(lanes: L.Sys, f: Floor, g: Floor, i: nat, told: seq<Entry>, t: Option<Start>)
    requires i < |f.starts| && Grown(f, g, i, told, t) && OthersOwed(lanes, f.starts, i)
    requires t.Some? && t.value.job.Some? ==> Owed(lanes, t.value, t.value.job.value)
    ensures AllOwed(lanes, g.starts)
  {
    forall k | 0 <= k < |g.starts| && g.starts[k].job.Some?
      ensures Owed(lanes, g.starts[k], g.starts[k].job.value)
    {
      if k < i {
        assert g.starts[k] == f.starts[k];
      } else if t.Some? {
        assert k > i ==> g.starts[k] == f.starts[k];
      } else {
        assert g.starts[k] == f.starts[k + 1];
      }
    }
  }

  lemma EventOwed(h: House, lanes: L.Sys, event: Event, refused: bool, w: Facts, i: nat)
    requires Linked(h) && AllOwed(h.lanes, h.floor.starts) && T.Reachable(lanes) && lanes == L.Next(h.lanes, L.Recv)
    requires T.Handed(lanes) == T.Handed(h.lanes) + [event] && lanes.job == h.lanes.job && lanes.sent == h.lanes.sent
    requires event.id < lanes.next && w.leaseOpen == DR.Alive(lanes, event.id)
    requires IndexOf(h.floor.starts, event.id) == Some(i)
    ensures var e := Handle(h.floor, event, refused, w, lanes.next);
            AllOwed(DR.Push(Issue(lanes, e.submit), event.id, e.cmds), e.floor.starts)
  {
    var f, e := h.floor, Handle(h.floor, event, refused, w, lanes.next);
    var told := Told(f.starts[i], event, refused, w.leaseOpen, w, w.settle, lanes.next);
    var t := Becomes(f.starts[i], event, told, w, w.settle);
    HandedInTime(h, lanes, event, i);
    assert Stage(h.lanes, f.starts[i], event.id);
    HandleTells(f, event, refused, w, lanes.next, i);
    W.EffectSubmits(f, event, refused, w, lanes.next);
    if t.Some? && t.value.job.Some? {
      BecomesWaiting(f, event, refused, w, lanes.next, i, t.value);
      OwnOwed(h, lanes, event, refused, w, i, t.value);
    }
    OthersWait(h, lanes, event, e, i);
    GrownOwed(DR.Push(Issue(lanes, e.submit), event.id, e.cmds), f, e.floor, i, told, t);
  }

  lemma OthersWait(h: House, lanes: L.Sys, event: Event, e: Effect, i: nat)
    requires Linked(h) && AllOwed(h.lanes, h.floor.starts) && T.Reachable(lanes) && lanes == L.Next(h.lanes, L.Recv)
    requires T.Handed(lanes) == T.Handed(h.lanes) + [event] && lanes.job == h.lanes.job
    requires i < |h.floor.starts| && h.floor.starts[i].job == Some(event.id)
    requires e.submit.Some? ==> e.submit.value.id == lanes.next
    ensures OthersOwed(DR.Push(Issue(lanes, e.submit), event.id, e.cmds), h.floor.starts, i)
  {
    forall k | 0 <= k < |h.floor.starts| && k != i && h.floor.starts[k].job.Some?
      ensures Owed(DR.Push(Issue(lanes, e.submit), event.id, e.cmds), h.floor.starts[k], h.floor.starts[k].job.value)
    {
      WaitsElsewhere(h, lanes, event, e, k);
    }
  }

  lemma WaitsElsewhere(h: House, lanes: L.Sys, event: Event, e: Effect, k: nat)
    requires Linked(h) && AllOwed(h.lanes, h.floor.starts) && T.Reachable(lanes) && lanes == L.Next(h.lanes, L.Recv)
    requires T.Handed(lanes) == T.Handed(h.lanes) + [event] && lanes.job == h.lanes.job
    requires k < |h.floor.starts| && h.floor.starts[k].job.Some? && h.floor.starts[k].job != Some(event.id)
    requires e.submit.Some? ==> e.submit.value.id == lanes.next
    ensures Owed(DR.Push(Issue(lanes, e.submit), event.id, e.cmds), h.floor.starts[k], h.floor.starts[k].job.value)
  {
    var s, job := h.floor.starts[k], h.floor.starts[k].job.value;
    assert Stage(h.lanes, s, job) && Owed(h.lanes, s, job);
    RecvOwed(h.lanes, lanes, event, s, job);
    ElsewhereOwed(lanes, event.id, e, s, job);
  }

  lemma DrainOwed(h: House, refused: bool, w: Facts)
    requires Linked(h) && AllOwed(h.lanes, h.floor.starts)
    ensures var g := StartRuns.Drain(h, refused, w); AllOwed(g.lanes, g.floor.starts)
  {
    if T.Ready(h.lanes) {
      var event := T.RecvFace(h.lanes);
      var lanes := L.Next(h.lanes, L.Recv);
      D.HandedIs(h.lanes, event);
      var v := w.(leaseOpen := DR.Alive(lanes, event.id), settle := h.settle);
      if event.id in h.mine && IndexOf(h.floor.starts, event.id).Some? {
        EventOwed(h, lanes, event, refused, v, IndexOf(h.floor.starts, event.id).value);
      } else {
        var cmds := if event.id in h.mine && event.Opened? then [L.Drop] else [];
        ForeignOwed(h, lanes, event, cmds);
        assert DR.Push(lanes, event.id, []) == lanes;
      }
    }
  }

  /** An event that no start waits for. */
  lemma ForeignOwed(h: House, lanes: L.Sys, event: Event, cmds: seq<L.LeaseCmd>)
    requires Linked(h) && AllOwed(h.lanes, h.floor.starts) && T.Reachable(lanes) && lanes == L.Next(h.lanes, L.Recv)
    requires T.Handed(lanes) == T.Handed(h.lanes) + [event] && lanes.job == h.lanes.job
    requires event.id in h.mine ==> Unused(h.floor, event.id)
    ensures AllOwed(DR.Push(lanes, event.id, cmds), h.floor.starts)
  {
    var e := Effect(h.floor, None, cmds);
    forall k | 0 <= k < |h.floor.starts| && h.floor.starts[k].job.Some?
      ensures Owed(DR.Push(lanes, event.id, cmds), h.floor.starts[k], h.floor.starts[k].job.value)
    {
      assert h.floor.starts[k].job.value in h.mine;
      WaitsElsewhere(h, lanes, event, e, k);
    }
  }

  // ---- The other moves ----

  lemma ToilOwed(h: House, id: nat, action: L.Action)
    requires Linked(h) && AllOwed(h.lanes, h.floor.starts) && (action.Push? ==> id !in h.mine)
    ensures AllOwed(L.Next(h.lanes, L.Work(id, action)), h.floor.starts)
  {
    T.WorkFace(h.lanes, id, action);
    forall k | 0 <= k < |h.floor.starts| && h.floor.starts[k].job.Some?
      ensures Owed(L.Next(h.lanes, L.Work(id, action)), h.floor.starts[k], h.floor.starts[k].job.value)
    {
      var s, job := h.floor.starts[k], h.floor.starts[k].job.value;
      assert Stage(h.lanes, s, job) && Owed(h.lanes, s, job) && job in h.mine;
      if OnLease(s) { OneToils(h.lanes, id, action, job, HasSent(s)); }
    }
  }

  lemma OneToils(s: L.Sys, id: nat, action: L.Action, job: nat, sent: bool)
    requires T.Reachable(s) && job in s.job && s.job[job].Open? && R.Working(s, job, sent)
    requires action.Push? ==> id != job
    ensures R.Working(L.Next(s, L.Work(id, action)), job, sent)
  {
    if action.Push? { R.PushElsewhere(s, id, action.cmd, job, sent); } else { R.ToilWorks(s, id, action, job, sent); }
  }

  /** A submission, by another part of the daemon or with the effect of a turn or of a new start. */
  lemma SubmitOwed(h: House, submit: Option<Job>)
    requires Linked(h) && AllOwed(h.lanes, h.floor.starts) && (submit.Some? ==> submit.value.id == h.lanes.next)
    ensures AllOwed(Issue(h.lanes, submit), h.floor.starts)
  {
    var e := Effect(h.floor, submit, []);
    forall k | 0 <= k < |h.floor.starts| && h.floor.starts[k].job.Some?
      ensures Owed(Issue(h.lanes, submit), h.floor.starts[k], h.floor.starts[k].job.value)
    {
      var s, job := h.floor.starts[k], h.floor.starts[k].job.value;
      assert Stage(h.lanes, s, job) && Owed(h.lanes, s, job);
      ElsewhereOwed(h.lanes, h.lanes.next, e, s, job);
      assert DR.Push(Issue(h.lanes, submit), h.lanes.next, []) == Issue(h.lanes, submit);
    }
  }

  lemma IssuedOwed(lanes: L.Sys, submit: Job, t: Start)
    requires T.Reachable(lanes) && submit.id == lanes.next && !HasSent(t)
    ensures Owed(Issue(lanes, Some(submit)), t, lanes.next)
  {
    T.SubmitFace(lanes, submit);
    R.NewcomerWorks(lanes, submit);
  }

  lemma BeginOwed(h: House, pane: string, deadline: int)
    requires Linked(h) && AllOwed(h.lanes, h.floor.starts)
    ensures var g := Next(h, Begin(pane, deadline)); AllOwed(g.lanes, g.floor.starts)
  {
    var e := ParkStart(h.floor, h.tickets, pane, h.lanes.next, deadline);
    var g := Next(h, Begin(pane, deadline));
    SubmitOwed(h, e.submit);
    IssuedOwed(h.lanes, e.submit.value, e.floor.starts[|h.floor.starts|]);
    assert forall k :: 0 <= k < |h.floor.starts| ==> g.floor.starts[k] == h.floor.starts[k];
  }

  lemma TurnOwed(h: House, i: nat, now: int)
    requires Linked(h) && AllOwed(h.lanes, h.floor.starts) && i < |h.floor.starts|
    ensures var g := Next(h, Turn(i, now)); AllOwed(g.lanes, g.floor.starts)
  {
    var s, e, next := h.floor.starts[i], AdvanceOne(h.floor, i, now, h.lanes.next), h.lanes.next;
    TurnTells(h.floor, i, now, next);
    W.TurnSubmits(h.floor, i, now, next);
    SubmitOwed(h, e.submit);
    if Due(s, now) && !Spent(s, now) {
      TurnsUnsent(s, now, next);
      IssuedOwed(h.lanes, e.submit.value, TurnsInto(s, now, next).value);
    }
    GrownOwed(Issue(h.lanes, e.submit), h.floor, e.floor, i, TurnTold(s, now, next), TurnsInto(s, now, next));
  }

  lemma TurnsUnsent(s: Start, now: int, next: nat)
    requires StartOk(s) && Due(s, now) && !Spent(s, now)
    ensures var t := TurnsInto(s, now, next); t.Some? && t.value.job == Some(next) && !HasSent(t.value)
  {
  }

  lemma NextOwed(h: House, m: Move)
    requires Linked(h) && AllOwed(h.lanes, h.floor.starts)
    ensures AllOwed(Next(h, m).lanes, Next(h, m).floor.starts)
  {
    match m
    case Toil(id, action) => if !action.Push? { ToilOwed(h, id, action); }
    case OtherSubmit(job) => if job.id == h.lanes.next { SubmitOwed(h, Some(job)); }
    case OtherPush(id, cmd) => if id !in h.mine { ToilOwed(h, id, L.Push(cmd)); }
    case Begin(pane, deadline) => BeginOwed(h, pane, deadline);
    case Turn(index, now) => if index < |h.floor.starts| { TurnOwed(h, index, now); }
    case Pump(refused, w) => DrainOwed(h, refused, w);
  }

  lemma {:induction false} RunOwed(settle: nat, moves: seq<Move>)
    ensures AllOwed(Run(settle, moves).lanes, Run(settle, moves).floor.starts)
  {
    if moves != [] {
      RunLinked(settle, moves[..|moves| - 1]);
      RunOwed(settle, moves[..|moves| - 1]);
      NextOwed(Run(settle, moves[..|moves| - 1]), moves[|moves| - 1]);
    }
  }

  // ---- At rest ----

  lemma RestFrees(h: House, i: nat)
    requires Linked(h) && AllOwed(h.lanes, h.floor.starts) && Drain.Rested(h.lanes) && i < |h.floor.starts|
    ensures h.floor.starts[i].job.None?
  {
    var s := h.floor.starts[i];
    if s.job.Some? {
      assert Stage(h.lanes, s, s.job.value) && Owed(h.lanes, s, s.job.value);
      R.RestIsHeard(h.lanes, s.job.value);
    }
  }

  /** When a start that is due will be: a start that waits on no job waits for nothing else. */
  function DueFrom(s: Start): int {
    match s.phase
    case Busy(notBefore, _) => notBefore
    case Settling(until) => until
    case _ => 0
  }

  /** Whatever run comes to rest, no start waits on a job that nobody will answer: each start begun has
      been answered, or waits for its time only, after which a turn gives it its next job or answers
      its client. */
  lemma RestLeavesTurns(settle: nat, moves: seq<Move>)
    requires Drain.Rested(Run(settle, moves).lanes)
    ensures var h := Run(settle, moves);
            && (forall i :: 0 <= i < |h.floor.starts| ==>
                  h.floor.starts[i].job.None?
                  && forall now :: now >= DueFrom(h.floor.starts[i]) ==> Due(h.floor.starts[i], now))
            && (forall ticket: nat :: ticket < h.tickets ==>
                  Parked(h.floor, ticket) || At(h.floor, ticket, settle) == Some(Over))
  {
    var h := Run(settle, moves);
    RunLinked(settle, moves);
    RunOwed(settle, moves);
    S.PhasesAreDeclared(settle, moves);
    forall i | 0 <= i < |h.floor.starts|
      ensures h.floor.starts[i].job.None?
      ensures forall now :: now >= DueFrom(h.floor.starts[i]) ==> Due(h.floor.starts[i], now)
    {
      RestFrees(h, i);
      assert StartOk(h.floor.starts[i]);
    }
  }
}
