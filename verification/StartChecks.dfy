/** A busy start looks again before it tries again: what the pane check of a retry has seen. */
module StartChecks {
  import opened Lanes
  import L = LaneRuns
  import T = LaneTheorems
  import D = DeliveryStories
  import DR = DeliveryRuns
  import W = StartWrites
  import opened Starts
  import opened StartStories
  import opened StartRuns
  import opened StartTheorems

  // ---- A check was made on an accepted snapshot ----

  predicate IsCheck(e: Entry) {
    e.Checked? || e.Declared?
  }

  /** The daemon was handed an accepted snapshot for `job`. */
  ghost predicate Seen(lanes: L.Sys, job: nat) {
    job in lanes.job && !lanes.job[job].Open?
    && exists k :: 0 <= k < |T.Handed(lanes)| && AcceptedAt(T.Handed(lanes), k, job)
  }

  predicate AcceptedAt(handed: seq<Event>, k: nat, job: nat) {
    k < |handed| && handed[k].Done? && handed[k].id == job && handed[k].reply.Accepted?
  }

  ghost predicate ChecksSeen(h: House) {
    forall e :: e in h.floor.log && IsCheck(e) ==> Seen(h.lanes, e.job)
  }

  /** From `a` to `b` nothing handed over was taken back and no job changed. */
  ghost predicate Hears(a: L.Sys, b: L.Sys) {
    T.Handed(a) <= T.Handed(b) && forall j :: j in a.job ==> j in b.job && b.job[j] == a.job[j]
  }

  lemma SeenStays(a: L.Sys, b: L.Sys, job: nat)
    requires Hears(a, b) && Seen(a, job)
    ensures Seen(b, job)
  {
    var k :| 0 <= k < |T.Handed(a)| && AcceptedAt(T.Handed(a), k, job);
    assert AcceptedAt(T.Handed(b), k, job);
  }

  lemma StepSeen(h: House, lanes: L.Sys)
    requires ChecksSeen(h) && Hears(h.lanes, lanes)
    ensures ChecksSeen(h.(lanes := lanes))
  {
    forall e | e in h.floor.log && IsCheck(e)
      ensures Seen(lanes, e.job)
    {
      SeenStays(h.lanes, lanes, e.job);
    }
  }

  /** A check that is new in the log is on the accepted snapshot just handed over. */
  lemma HandleChecks(f: Floor, event: Event, refused: bool, w: Facts, next: nat, e: Entry)
    requires e in Handle(f, event, refused, w, next).floor.log && e !in f.log && IsCheck(e)
    ensures IndexOf(f.starts, event.id).Some? && f.starts[IndexOf(f.starts, event.id).value].phase.Snapshot?
    ensures event.Done? && event.reply.Accepted? && e.job == event.id
  {
    var i := IndexOf(f.starts, event.id).value;
    match event
    case Opened(_) => OpenedChecks(f, i, w, e);
    case Done(job, reply) => DoneChecks(f, i, job, reply, w, next, e);
    case Failed(job, _, error) => FailedChecks(f, i, job, error, refused, w, next, e);
    case _ =>
  }

  lemma OpenedChecks(f: Floor, i: nat, w: Facts, e: Entry)
    requires i < |f.starts| && e in OnOpened(f, i, w).floor.log && e !in f.log
    ensures !IsCheck(e)
  {
  }

  lemma DoneChecks(f: Floor, i: nat, job: nat, reply: Reply, w: Facts, next: nat, e: Entry)
    requires i < |f.starts| && e in OnDone(f, i, job, reply, w, next).floor.log && e !in f.log && IsCheck(e)
    ensures f.starts[i].phase.Snapshot? && reply.Accepted? && e.job == job
  {
    match f.starts[i].phase
    case Ready => ReadyChecks(f, i, reply, w, next, e);
    case _ =>
  }

  lemma ReadyChecks(f: Floor, i: nat, reply: Reply, w: Facts, next: nat, e: Entry)
    requires i < |f.starts| && e in OnReadyGet(f, i, reply, w, next).floor.log && e !in f.log
    ensures !IsCheck(e)
  {
  }

  lemma FailedChecks(f: Floor, i: nat, job: nat, error: int, refused: bool, w: Facts, next: nat, e: Entry)
    requires i < |f.starts| && e in OnFailed(f, i, job, error, refused, w, next).floor.log && e !in f.log
    ensures !IsCheck(e)
  {
  }

  lemma TurnChecks(f: Floor, i: nat, now: int, next: nat, e: Entry)
    requires i < |f.starts| && e in AdvanceOne(f, i, now, next).floor.log && e !in f.log
    ensures !IsCheck(e)
  {
  }

  /** Effects come and go: the log has the old entries and those of one handler. */
  lemma ApplySeen(h: House, lanes: L.Sys, id: nat, e: Effect)
    requires T.Reachable(lanes) && ChecksSeen(h) && Hears(h.lanes, lanes)
    requires (e.submit.Some? ==> e.submit.value.id == lanes.next)
    requires (e.cmds != [] && e.submit.Some? ==> id < lanes.next)
    requires forall x :: x in e.floor.log && x !in h.floor.log && IsCheck(x) ==> Seen(lanes, x.job)
    ensures ChecksSeen(Apply(h, lanes, id, e))
  {
    var g := Apply(h, lanes, id, e);
    ApplyFace(lanes, id, e.submit, e.cmds);
    JobsBelow(lanes);
    assert Hears(lanes, g.lanes);
    forall x | x in g.floor.log && IsCheck(x)
      ensures Seen(g.lanes, x.job)
    {
      if x in h.floor.log { SeenStays(h.lanes, lanes, x.job); }
      SeenStays(lanes, g.lanes, x.job);
    }
  }

  lemma OwnSeen(h: House, lanes: L.Sys, event: Event, refused: bool, w: Facts)
    requires Linked(h) && ChecksSeen(h) && T.Reachable(lanes) && T.Handed(lanes) == T.Handed(h.lanes) + [event]
    requires lanes.job == h.lanes.job && lanes.next == h.lanes.next && event.id in h.mine
    ensures ChecksSeen(Apply(h, lanes, event.id, Handle(h.floor, event, refused, w, lanes.next)))
  {
    var e := Handle(h.floor, event, refused, w, lanes.next);
    forall x | x in e.floor.log && x !in h.floor.log && IsCheck(x)
      ensures Seen(lanes, x.job)
    {
      HandleChecks(h.floor, event, refused, w, lanes.next, x);
      JustSeen(h, lanes, event);
    }
    W.EffectSubmits(h.floor, event, refused, w, lanes.next);
    ApplySeen(h, lanes, event.id, e);
  }

  lemma JustSeen(h: House, lanes: L.Sys, event: Event)
    requires Linked(h) && T.Handed(lanes) == T.Handed(h.lanes) + [event] && lanes.job == h.lanes.job
    requires event.Done? && event.reply.Accepted? && IndexOf(h.floor.starts, event.id).Some?
    requires h.floor.starts[IndexOf(h.floor.starts, event.id).value].phase.Snapshot?
    ensures Seen(lanes, event.id)
  {
    var s := h.floor.starts[IndexOf(h.floor.starts, event.id).value];
    assert Stage(h.lanes, s, event.id);
    assert AcceptedAt(T.Handed(lanes), |T.Handed(h.lanes)|, event.id);
  }

  lemma WorkHears(s: L.Sys, id: nat, action: L.Action)
    requires T.Reachable(s)
    ensures Hears(s, L.Next(s, L.Work(id, action)))
  {
    T.WorkFace(s, id, action);
  }

  lemma SubmitHears(s: L.Sys, job: Job)
    requires T.Reachable(s) && job.id == s.next
    ensures Hears(s, L.Next(s, L.Submit(job)))
  {
    T.SubmitFace(s, job);
    D.FreshIsUnsent(s, s.next);
  }

  lemma NextSeen(h: House, m: Move)
    requires Linked(h) && ChecksSeen(h)
    ensures ChecksSeen(Next(h, m))
  {
    match m
    case Toil(id, action) =>
      if !action.Push? {
        WorkHears(h.lanes, id, action);
        StepSeen(h, L.Next(h.lanes, L.Work(id, action)));
      }
    case OtherSubmit(job) =>
      if job.id == h.lanes.next {
        SubmitHears(h.lanes, job);
        StepSeen(h, L.Next(h.lanes, L.Submit(job)));
      }
    case OtherPush(id, cmd) =>
      if id !in h.mine {
        WorkHears(h.lanes, id, L.Push(cmd));
        StepSeen(h, L.Next(h.lanes, L.Work(id, L.Push(cmd))));
      }
    case Begin(pane, deadline) =>
      ApplySeen(h, h.lanes, 0, ParkStart(h.floor, h.tickets, pane, h.lanes.next, deadline));
    case Turn(index, now) => if index < |h.floor.starts| { TurnSeen(h, index, now); }
    case Pump(refused, w) => DrainSeen(h, refused, w);
  }

  lemma TurnSeen(h: House, i: nat, now: int)
    requires Linked(h) && ChecksSeen(h) && i < |h.floor.starts|
    ensures ChecksSeen(Apply(h, h.lanes, 0, AdvanceOne(h.floor, i, now, h.lanes.next).(cmds := [])))
  {
    var e := AdvanceOne(h.floor, i, now, h.lanes.next).(cmds := []);
    forall x | x in e.floor.log && x !in h.floor.log
      ensures !IsCheck(x)
    {
      TurnChecks(h.floor, i, now, h.lanes.next, x);
    }
    ApplySeen(h, h.lanes, 0, e);
  }

  lemma DrainSeen(h: House, refused: bool, w: Facts)
    requires Linked(h) && ChecksSeen(h)
    ensures ChecksSeen(Drain(h, refused, w))
  {
    if T.Ready(h.lanes) {
      var event := T.RecvFace(h.lanes);
      var lanes := L.Next(h.lanes, L.Recv);
      D.HandedIs(h.lanes, event);
      if event.id in h.mine {
        OwnSeen(h, lanes, event, refused, w.(leaseOpen := DR.Alive(lanes, event.id), settle := h.settle));
      } else {
        StepSeen(h, lanes);
      }
    }
  }

  lemma {:induction false} RunSeen(settle: nat, moves: seq<Move>)
    ensures ChecksSeen(Run(settle, moves))
  {
    if moves != [] {
      RunLinked(settle, moves[..|moves| - 1]);
      RunSeen(settle, moves[..|moves| - 1]);
      NextSeen(Run(settle, moves[..|moves| - 1]), moves[|moves| - 1]);
    }
  }

  // ---- What is asked later has a later job ----

  /** The log of `g` continues that of `h`, and the snapshots asked for since have jobs allocated
      since. */
  ghost predicate Since(h: House, g: House) {
    && T.Later(h.lanes, g.lanes) && h.floor.log <= g.floor.log
    && forall i :: |h.floor.log| <= i < |g.floor.log| && g.floor.log[i].Asked? ==> g.floor.log[i].job >= h.lanes.next
  }

  lemma LaterTwice(a: L.Sys, b: L.Sys, c: L.Sys)
    requires T.Later(a, b) && T.Later(b, c)
    ensures T.Later(a, c)
  {
  }

  lemma {:induction false} PushLater(s: L.Sys, id: nat, cmds: seq<L.LeaseCmd>)
    requires T.Reachable(s)
    ensures T.Later(s, DR.Push(s, id, cmds))
  {
    if cmds != [] {
      var n := |cmds| - 1;
      PushLater(s, id, cmds[..n]);
      D.PushFace(s, id, cmds[..n]);
      T.NextLater(DR.Push(s, id, cmds[..n]), L.Work(id, L.Push(cmds[n])));
    }
  }

  lemma ApplyLater(h: House, lanes: L.Sys, id: nat, e: Effect)
    requires T.Reachable(lanes) && (e.submit.Some? ==> e.submit.value.id == lanes.next)
    ensures T.Later(lanes, Apply(h, lanes, id, e).lanes)
  {
    if e.submit.Some? {
      T.NextLater(lanes, L.Submit(e.submit.value));
      T.NextReachable(lanes, L.Submit(e.submit.value));
    }
    PushLater(Issue(lanes, e.submit), id, e.cmds);
  }

  lemma NextSince(h: House, m: Move)
    requires Linked(h)
    ensures Since(h, Next(h, m))
  {
    match m
    case Toil(id, action) => T.NextLater(h.lanes, L.Work(id, action));
    case OtherSubmit(job) => T.NextLater(h.lanes, L.Submit(job));
    case OtherPush(id, cmd) => T.NextLater(h.lanes, L.Work(id, L.Push(cmd)));
    case Begin(pane, deadline) =>
      ApplyLater(h, h.lanes, 0, ParkStart(h.floor, h.tickets, pane, h.lanes.next, deadline));
    case Turn(index, now) =>
      if index < |h.floor.starts| {
        W.TurnSubmits(h.floor, index, now, h.lanes.next);
        W.TurnAdds(h.floor, index, now, h.lanes.next);
        ApplyLater(h, h.lanes, 0, AdvanceOne(h.floor, index, now, h.lanes.next).(cmds := []));
      }
    case Pump(refused, w) => DrainSince(h, refused, w);
  }

  lemma DrainSince(h: House, refused: bool, w: Facts)
    requires Linked(h)
    ensures Since(h, Drain(h, refused, w))
  {
    if T.Ready(h.lanes) {
      var event := T.RecvFace(h.lanes);
      var lanes := L.Next(h.lanes, L.Recv);
      D.HandedIs(h.lanes, event);
      T.NextLater(h.lanes, L.Recv);
      if event.id in h.mine {
        var v := w.(leaseOpen := DR.Alive(lanes, event.id), settle := h.settle);
        var e := Handle(h.floor, event, refused, v, lanes.next);
        W.EffectSubmits(h.floor, event, refused, v, lanes.next);
        W.HandleAdds(h.floor, event, refused, v, lanes.next);
        ApplyLater(h, lanes, event.id, e);
        LaterTwice(h.lanes, lanes, Apply(h, lanes, event.id, e).lanes);
      }
    }
  }

  lemma SinceTwice(h: House, g: House, k: House)
    requires Since(h, g) && Since(g, k)
    ensures Since(h, k)
  {
  }

  /** One more move. */
  lemma OneMore(settle: nat, moves: seq<Move>, m: Move)
    ensures Run(settle, moves + [m]) == Next(Run(settle, moves), m)
  {
    assert (moves + [m])[..|moves|] == moves;
  }

  lemma OneMoreSince(settle: nat, moves: seq<Move>, m: Move)
    ensures Since(Run(settle, moves), Run(settle, moves + [m]))
  {
    RunLinked(settle, moves);
    OneMore(settle, moves, m);
    NextSince(Run(settle, moves), m);
  }

  lemma {:induction false} RunSince(settle: nat, moves: seq<Move>, more: seq<Move>)
    ensures Since(Run(settle, moves), Run(settle, moves + more))
  {
    if more == [] {
      assert moves + more == moves;
    } else {
      var n := |more| - 1;
      RunSince(settle, moves, more[..n]);
      OneMoreSince(settle, moves + more[..n], more[n]);
      assert moves + more == moves + more[..n] + [more[n]];
      SinceTwice(Run(settle, moves), Run(settle, moves + more[..n]), Run(settle, moves + more));
    }
  }

  // ---- The retry's check ----

  lemma {:induction false} StoryAppendsAll(log: seq<Entry>, more: seq<Entry>, ticket: nat)
    ensures StoryOf(log + more, ticket) == StoryOf(log, ticket) + StoryOf(more, ticket)
  {
    if more == [] {
      assert log + more == log;
    } else {
      var n := |more| - 1;
      StoryAppendsAll(log, more[..n], ticket);
      StoryAppends(log + more[..n], more[n], ticket);
      StoryAppends(more[..n], more[n], ticket);
      EntriesRegroup(log, more[..n], [more[n]]);
      var last := if more[n].ticket == ticket then [more[n]] else [];
      EntriesRegroup(StoryOf(log, ticket), StoryOf(more[..n], ticket), last);
      assert more == more[..n] + [more[n]];
    }
  }

  lemma EntriesRegroup(a: seq<Entry>, b: seq<Entry>, c: seq<Entry>)
    ensures a + (b + c) == (a + b) + c
  {
  }

  /** The place in the story of the snapshot a retry asked for after it was turned away. */
  lemma AskedSince(h: House, g: House, ticket: nat, k: nat)
    requires Since(h, g) && |StoryOf(h.floor.log, ticket)| <= k < |StoryOf(g.floor.log, ticket)|
    requires StoryOf(g.floor.log, ticket)[k].Asked?
    ensures StoryOf(g.floor.log, ticket)[k].job >= h.lanes.next
  {
    var n := |h.floor.log|;
    var rest := g.floor.log[n..];
    assert g.floor.log == h.floor.log + rest;
    StoryAppendsAll(h.floor.log, rest, ticket);
    var at := k - |StoryOf(h.floor.log, ticket)|;
    W.StoryIn(rest, ticket, StoryOf(rest, ticket)[at]);
    var i :| 0 <= i < |rest| && rest[i] == StoryOf(rest, ticket)[at];
    assert g.floor.log[n + i] == rest[i];
  }

  /** The start has been turned away as busy, and has not looked again yet. */
  predicate JustBusy(log: seq<Entry>, ticket: nat) {
    var story := StoryOf(log, ticket); story != [] && story[|story| - 1].BusyAnswer?
  }

  lemma SameStart(h: House, g: House, ticket: nat)
    requires Since(h, g)
    ensures StoryOf(h.floor.log, ticket) <= StoryOf(g.floor.log, ticket)
  {
    var rest := g.floor.log[|h.floor.log|..];
    assert g.floor.log == h.floor.log + rest;
    StoryAppendsAll(h.floor.log, rest, ticket);
  }

  /** The check at place `k` of the story is on a snapshot asked for since the busy answer. */
  lemma RetryAsked(h: House, g: House, ticket: nat, k: nat, settle: nat)
    requires Since(h, g) && JustBusy(h.floor.log, ticket)
    requires |StoryOf(h.floor.log, ticket)| <= k < |StoryOf(g.floor.log, ticket)|
    requires StoryOf(g.floor.log, ticket)[k].Checked? && InOrder(StoryOf(g.floor.log, ticket), k, settle)
    ensures StoryOf(g.floor.log, ticket)[k].job >= h.lanes.next
  {
    SameStart(h, g, ticket);
    AskedSince(h, g, ticket, k - 1);
  }

  /** The snapshot `job` was accepted from a request put on the wire at or after place `since`. */
  ghost predicate ReadSince(lanes: L.Sys, job: nat, since: nat) {
    exists i: nat, l, w :: AcceptedAt(T.Handed(lanes), i, job) && T.WrittenFor(lanes, T.Handed(lanes)[i], l, w, since)
  }

  lemma SeenSince(a: L.Sys, b: L.Sys, job: nat)
    requires T.Reachable(a) && T.Reachable(b) && T.Later(a, b) && Seen(b, job) && job >= a.next
    ensures ReadSince(b, job, |a.trace|)
  {
    var i :| 0 <= i < |T.Handed(b)| && AcceptedAt(T.Handed(b), i, job);
    T.LaterAnswer(a, b, i);
    var l, w :| T.WrittenFor(b, T.Handed(b)[i], l, w, |a.trace|);
    assert AcceptedAt(T.Handed(b), i, job) && T.WrittenFor(b, T.Handed(b)[i], l, w, |a.trace|);
  }

  lemma CheckIsSeen(h: House, ticket: nat, k: nat)
    requires ChecksSeen(h) && k < |StoryOf(h.floor.log, ticket)| && StoryOf(h.floor.log, ticket)[k].Checked?
    ensures Seen(h.lanes, StoryOf(h.floor.log, ticket)[k].job)
  {
    W.StoryIn(h.floor.log, ticket, StoryOf(h.floor.log, ticket)[k]);
  }

  /** Once a start was turned away as busy, every pane check it makes later uses a snapshot whose
      request was put on the wire after the busy answer was dealt with, also when the snapshot is
      one that another job asked for. */
  lemma RetryChecksAreFresh(settle: nat, moves: seq<Move>, more: seq<Move>, ticket: nat, k: nat)
    requires JustBusy(Run(settle, moves).floor.log, ticket)
    requires var story := StoryOf(Run(settle, moves + more).floor.log, ticket);
             |StoryOf(Run(settle, moves).floor.log, ticket)| <= k < |story| && story[k].Checked?
    ensures var h, g := Run(settle, moves), Run(settle, moves + more);
            ReadSince(g.lanes, StoryOf(g.floor.log, ticket)[k].job, |h.lanes.trace|)
  {
    var h, g := Run(settle, moves), Run(settle, moves + more);
    RunSince(settle, moves, more);
    StartEffectsAreOrdered(settle, moves + more, ticket);
    RetryAsked(h, g, ticket, k, settle);
    RunSeen(settle, moves + more);
    CheckIsSeen(g, ticket, k);
    RunLinked(settle, moves);
    RunLinked(settle, moves + more);
    SeenSince(h.lanes, g.lanes, StoryOf(g.floor.log, ticket)[k].job);
  }
}
