/** What the leases of a start write: each is sent one request, after its intent is durable, and
    writes it at most once. */
module StartWrites {
  import opened Lanes
  import opened Wrappers
  import L = LaneRuns
  import T = LaneTheorems
  import D = DeliveryStories
  import W = DeliveryWrites
  import DR = DeliveryRuns
  import opened Starts
  import opened StartStories
  import opened StartRuns
  import opened StartTheorems

  ghost predicate Guarded(h: House) {
    forall j :: j in h.mine ==> j !in h.lanes.resent
  }

  lemma WorkGuarded(h: House, id: nat, action: L.Action)
    requires T.Reachable(h.lanes) && Guarded(h) && (action == L.Push(L.Send) ==> id !in h.mine)
    ensures Guarded(h.(lanes := L.Next(h.lanes, L.Work(id, action))))
  {
    T.ResentFace(h.lanes, L.Work(id, action));
  }

  lemma SubmitResent(s: L.Sys, submit: Option<Job>)
    requires T.Reachable(s) && (submit.Some? ==> submit.value.id == s.next)
    ensures T.Reachable(Issue(s, submit))
    ensures Issue(s, submit).resent <= s.resent && Issue(s, submit).sent <= s.sent
    ensures s.next !in s.sent
  {
    D.FreshIsUnsent(s, s.next);
    if submit.Some? {
      T.SubmitFace(s, submit.value);
      T.ResentFace(s, L.Submit(submit.value));
    }
  }

  /** Carrying out an effect whose Send, if any, is the first on that lease. */
  lemma ApplyGuarded(h: House, lanes: L.Sys, id: nat, e: Effect)
    requires T.Reachable(lanes) && Guarded(h) && lanes.resent <= h.lanes.resent
    requires e.submit.Some? ==> e.submit.value.id == lanes.next
    requires L.Send in e.cmds ==> e.cmds == [L.Send] && id !in lanes.sent
    ensures Guarded(Apply(h, lanes, id, e))
  {
    var b := Issue(lanes, e.submit);
    SubmitResent(lanes, e.submit);
    W.PushResent(b, id, e.cmds);
    T.ReachableSends(lanes);
  }

  lemma EffectSubmits(f: Floor, event: Event, refused: bool, w: Facts, next: nat)
    ensures var e := Handle(f, event, refused, w, next); e.submit.Some? ==> e.submit.value.id == next
  {
  }

  lemma TurnSubmits(f: Floor, i: nat, now: int, next: nat)
    requires i < |f.starts|
    ensures var e := AdvanceOne(f, i, now, next); e.submit.Some? ==> e.submit.value.id == next
  {
  }

  /** A Send goes out alone, and only when the lease has just opened. */
  lemma HandleSends(f: Floor, event: Event, refused: bool, w: Facts, next: nat)
    requires L.Send in Handle(f, event, refused, w, next).cmds
    ensures Handle(f, event, refused, w, next).cmds == [L.Send]
    ensures event.Opened? && IndexOf(f.starts, event.id).Some?
  {
  }

  lemma OwnGuarded(h: House, lanes: L.Sys, event: Event, refused: bool, w: Facts)
    requires Linked(h) && Guarded(h) && T.Reachable(lanes) && T.Handed(lanes) == T.Handed(h.lanes) + [event]
    requires lanes.sent == h.lanes.sent && lanes.job == h.lanes.job && lanes.next == h.lanes.next
    requires lanes.resent <= h.lanes.resent
    ensures Guarded(Apply(h, lanes, event.id, Handle(h.floor, event, refused, w, lanes.next)))
  {
    var e := Handle(h.floor, event, refused, w, lanes.next);
    EffectSubmits(h.floor, event, refused, w, lanes.next);
    if L.Send in e.cmds {
      HandleSends(h.floor, event, refused, w, lanes.next);
      OpenedUnsent(h, lanes, event, IndexOf(h.floor.starts, event.id).value);
    }
    ApplyGuarded(h, lanes, event.id, e);
  }

  lemma OpenedUnsent(h: House, lanes: L.Sys, event: Event, i: nat)
    requires Linked(h) && T.Reachable(lanes) && T.Handed(lanes) == T.Handed(h.lanes) + [event]
    requires lanes.sent == h.lanes.sent && lanes.job == h.lanes.job
    requires i < |h.floor.starts| && h.floor.starts[i].job == Some(event.id) && event.Opened?
    ensures event.id !in h.lanes.sent
  {
    HandedInTime(h, lanes, event, i);
    assert Stage(h.lanes, h.floor.starts[i], event.id);
  }

  lemma DrainGuarded(h: House, refused: bool, w: Facts)
    requires Linked(h) && Guarded(h)
    ensures Guarded(Drain(h, refused, w))
  {
    if T.Ready(h.lanes) {
      var event := T.RecvFace(h.lanes);
      var lanes := L.Next(h.lanes, L.Recv);
      D.HandedIs(h.lanes, event);
      T.ResentFace(h.lanes, L.Recv);
      if event.id in h.mine {
        OwnGuarded(h, lanes, event, refused, w.(leaseOpen := DR.Alive(lanes, event.id), settle := h.settle));
      }
    }
  }

  lemma NextGuarded(h: House, m: Move)
    requires Linked(h) && Guarded(h)
    ensures Guarded(Next(h, m))
  {
    match m
    case Toil(id, action) => if !action.Push? { WorkGuarded(h, id, action); }
    case OtherSubmit(job) => if job.id == h.lanes.next { T.ResentFace(h.lanes, L.Submit(job)); }
    case OtherPush(id, cmd) => if id !in h.mine { WorkGuarded(h, id, L.Push(cmd)); }
    case Begin(pane, deadline) =>
      ApplyGuarded(h, h.lanes, 0, ParkStart(h.floor, h.tickets, pane, h.lanes.next, deadline));
    case Turn(index, now) =>
      if index < |h.floor.starts| {
        TurnSubmits(h.floor, index, now, h.lanes.next);
        ApplyGuarded(h, h.lanes, 0, AdvanceOne(h.floor, index, now, h.lanes.next).(cmds := []));
      }
    case Pump(refused, w) => DrainGuarded(h, refused, w);
  }

  lemma {:induction false} RunGuarded(settle: nat, moves: seq<Move>)
    ensures Guarded(Run(settle, moves))
  {
    if moves != [] {
      RunLinked(settle, moves[..|moves| - 1]);
      RunGuarded(settle, moves[..|moves| - 1]);
      NextGuarded(Run(settle, moves[..|moves| - 1]), moves[|moves| - 1]);
    }
  }

  /** In every run a start's lease, for `agent.start` or for the initial message, writes its
      request at most once. */
  lemma StartWrittenOnce(settle: nat, moves: seq<Move>, i: nat, j: nat, job: nat)
    requires job in Run(settle, moves).mine
    requires W.WroteAt(Run(settle, moves).lanes, i, job) && W.WroteAt(Run(settle, moves).lanes, j, job)
    ensures i == j
  {
    var h := Run(settle, moves);
    RunLinked(settle, moves);
    RunGuarded(settle, moves);
    var steps :| h.lanes == L.Run(steps);
    if i < j { T.WrittenOnce(steps, i, j); }
    if j < i { T.WrittenOnce(steps, j, i); }
  }

  // ---- Write-ahead ----

  /** A lease was asked for, for one attempt of `agent.start` or for the initial message. */
  predicate IsLease(e: Entry) {
    e.LeaseAsked? || e.MessageAsked?
  }

  /** The intent behind what is sent on the lease is in the log. */
  predicate Intends(log: seq<Entry>, e: Entry)
    requires IsLease(e)
  {
    if e.LeaseAsked? then StartIntent(e.ticket, e.attempt) in log else MessageIntent(e.ticket) in log
  }

  predicate LeaseOf(e: Entry, job: nat) {
    IsLease(e) && e.job == job
  }

  ghost predicate Authorised(log: seq<Entry>, job: nat) {
    exists e :: e in log && LeaseOf(e, job) && Intends(log, e)
  }

  /** Every lease asked for has a job of its own. */
  ghost predicate LeaseJobs(log: seq<Entry>, next: nat) {
    && (forall i :: 0 <= i < |log| && IsLease(log[i]) ==> log[i].job < next)
    && (forall i, k :: 0 <= i < k < |log| && IsLease(log[i]) && IsLease(log[k]) ==> log[i].job != log[k].job)
  }

  ghost predicate WriteAhead(h: House) {
    && LeaseJobs(h.floor.log, h.lanes.next)
    && forall j :: j in h.mine && j in h.lanes.sent ==> Authorised(h.floor.log, j)
  }

  /** What the entries ask for, a snapshot or one lease, has the job id `next`. */
  predicate NewLease(entries: seq<Entry>, next: nat, submits: bool) {
    && (forall i :: 0 <= i < |entries| && (IsLease(entries[i]) || entries[i].Asked?) ==>
          submits && entries[i].job == next)
    && (forall i, k :: 0 <= i < k < |entries| ==> !(IsLease(entries[i]) && IsLease(entries[k])))
  }

  lemma AuthorisedGrows(log: seq<Entry>, more: seq<Entry>, job: nat)
    requires Authorised(log, job)
    ensures Authorised(log + more, job)
  {
    var e :| e in log && LeaseOf(e, job) && Intends(log, e);
    assert e in log + more && Intends(log + more, e);
  }

  lemma LeaseJobsGrow(log: seq<Entry>, entries: seq<Entry>, next: nat, submits: bool, after: nat)
    requires LeaseJobs(log, next) && NewLease(entries, next, submits)
    requires next <= after && (submits ==> next < after)
    ensures LeaseJobs(log + entries, after)
  {
  }

  /** What a handler adds to the log. */
  ghost predicate Adds(f: Floor, e: Effect, next: nat) {
    f.log <= e.floor.log && NewLease(e.floor.log[|f.log|..], next, e.submit.Some?)
  }

  lemma PutAdds(f: Floor, i: nat, s: Start, entries: seq<Entry>, next: nat, submits: bool)
    requires i < |f.starts| && NewLease(entries, next, submits)
    ensures var g := Put(f, i, s, entries); f.log <= g.log && NewLease(g.log[|f.log|..], next, submits)
    ensures var g := Close(f, i, entries); f.log <= g.log && NewLease(g.log[|f.log|..], next, submits)
  {
    var answer := [Answered(f.starts[i].ticket)];
    assert Put(f, i, s, entries).log[|f.log|..] == entries;
    assert Close(f, i, entries).log == f.log + (entries + answer);
    assert Close(f, i, entries).log[|f.log|..] == entries + answer;
  }

  lemma FailAdds(f: Floor, i: nat, next: nat)
    requires i < |f.starts|
    ensures Adds(f, FailAt(f, i), next)
  {
    PutAdds(f, i, f.starts[i], [], next, false);
  }

  lemma OpenedAdds(f: Floor, i: nat, w: Facts, next: nat)
    requires i < |f.starts|
    ensures Adds(f, OnOpened(f, i, w), next)
  {
    var s := f.starts[i];
    FailAdds(f, i, next);
    PutAdds(f, i, s, [StartIntent(s.ticket, AttemptOf(s)), StartSent(s.ticket, AttemptOf(s))], next, false);
    PutAdds(f, i, s, [MessageIntent(s.ticket), MessageSent(s.ticket)], next, false);
  }

  lemma SnapshotAdds(f: Floor, i: nat, job: nat, reply: Reply, w: Facts, next: nat)
    requires i < |f.starts|
    ensures Adds(f, OnSnapshot(f, i, job, reply, w, next), next)
  {
    FailAdds(f, i, next);
  }

  lemma SendAdds(f: Floor, i: nat, reply: Reply, w: Facts, next: nat)
    requires i < |f.starts|
    ensures Adds(f, OnSend(f, i, reply, w), next)
  {
    FailAdds(f, i, next);
  }

  lemma ReadyAdds(f: Floor, i: nat, reply: Reply, w: Facts, next: nat)
    requires i < |f.starts|
    ensures Adds(f, OnReadyGet(f, i, reply, w, next), next)
  {
    FailAdds(f, i, next);
  }

  lemma InitialDoneAdds(f: Floor, i: nat, next: nat)
    requires i < |f.starts|
    ensures Adds(f, OnInitialDone(f, i), next)
  {
    FailAdds(f, i, next);
    PutAdds(f, i, f.starts[i], [MessageDone(f.starts[i].ticket)], next, false);
  }

  lemma DoneAdds(f: Floor, i: nat, job: nat, reply: Reply, w: Facts, next: nat)
    requires i < |f.starts|
    ensures Adds(f, OnDone(f, i, job, reply, w, next), next)
  {
    match f.starts[i].phase
    case Snapshot => SnapshotAdds(f, i, job, reply, w, next);
    case Sending(_) => SendAdds(f, i, reply, w, next);
    case Ready => ReadyAdds(f, i, reply, w, next);
    case Initial => InitialDoneAdds(f, i, next);
    case _ =>
  }

  lemma HandleAdds(f: Floor, event: Event, refused: bool, w: Facts, next: nat)
    ensures Adds(f, Handle(f, event, refused, w, next), next)
  {
    var index := IndexOf(f.starts, event.id);
    if index.Some? {
      match event
      case Opened(_) => OpenedAdds(f, index.value, w, next);
      case Done(job, reply) => DoneAdds(f, index.value, job, reply, w, next);
      case Failed(job, _, error) =>
        DoneAdds(f, index.value, job, Refused(error), w, next);
        InitialDoneAdds(f, index.value, next);
        FailAdds(f, index.value, next);
      case _ =>
    }
  }

  lemma TurnAdds(f: Floor, i: nat, now: int, next: nat)
    requires i < |f.starts|
    ensures Adds(f, AdvanceOne(f, i, now, next), next)
  {
    FailAdds(f, i, next);
    assert f.log + [] == f.log;
  }

  // ---- A Send has its intent ----

  lemma {:induction false} StoryIn(log: seq<Entry>, ticket: nat, e: Entry)
    requires e in StoryOf(log, ticket)
    ensures e in log
  {
    var n := |log| - 1;
    if e != log[n] { StoryIn(log[..n], ticket, e); }
  }

  /** A start that waits for a lease has asked for it, under the job it waits on. */
  lemma LeasingAsked(log: seq<Entry>, ticket: nat, settle: nat) returns (e: Entry)
    requires Trail(StoryOf(log, ticket), settle).Some?
    requires var m := Trail(StoryOf(log, ticket), settle).value; m.Leasing? || m.MessageLeasing?
    ensures e in log && e.ticket == ticket
    ensures var m := Trail(StoryOf(log, ticket), settle).value;
            if m.Leasing? then e == LeaseAsked(ticket, m.attempt, m.job) else e.MessageAsked? && e.job == m.job
  {
    var story := StoryOf(log, ticket);
    e := story[|story| - 1];
    StoryTicket(log, ticket);
    StoryIn(log, ticket, e);
  }

  /** When the lease of a start opens and is sent its request, the intent is in the log. */
  lemma SendIntends(f: Floor, event: Event, refused: bool, w: Facts, next: nat, i: nat)
    requires FloorOk(f, w.settle) && IndexOf(f.starts, event.id) == Some(i) && Timely(f.starts[i], event)
    requires L.Send in Handle(f, event, refused, w, next).cmds
    ensures Authorised(Handle(f, event, refused, w, next).floor.log, event.id)
  {
    HandleSends(f, event, refused, w, next);
    var s, log := f.starts[i], Handle(f, event, refused, w, next).floor.log;
    var e := LeasingAsked(f.log, s.ticket, w.settle);
    if s.phase.Initial? {
      assert log == f.log + [MessageIntent(s.ticket), MessageSent(s.ticket)];
      assert log[|f.log|] == MessageIntent(s.ticket);
    } else {
      assert log == f.log + [StartIntent(s.ticket, AttemptOf(s)), StartSent(s.ticket, AttemptOf(s))];
      assert log[|f.log|] == StartIntent(s.ticket, AttemptOf(s));
    }
    assert e in log && LeaseOf(e, event.id) && Intends(log, e);
  }

  // ---- Every run ----

  /** Carrying out an effect: what it sends is authorised by the log it leaves. */
  lemma ApplyAhead(h: House, lanes: L.Sys, id: nat, e: Effect)
    requires T.Reachable(lanes) && WriteAhead(h) && lanes.sent == h.lanes.sent && lanes.next == h.lanes.next
    requires e.submit.Some? ==> e.submit.value.id == lanes.next
    requires Adds(h.floor, e, lanes.next) && (e.cmds != [] && e.submit.Some? ==> id < lanes.next)
    requires L.Send in e.cmds ==> Authorised(e.floor.log, id)
    ensures WriteAhead(Apply(h, lanes, id, e))
  {
    var g, added := Apply(h, lanes, id, e), e.floor.log[|h.floor.log|..];
    ApplyFace(lanes, id, e.submit, e.cmds);
    assert e.floor.log == h.floor.log + added;
    LeaseJobsGrow(h.floor.log, added, lanes.next, e.submit.Some?, g.lanes.next);
    forall j | j in g.mine && j in g.lanes.sent
      ensures Authorised(g.floor.log, j)
    {
      if !(j == id && L.Send in e.cmds) {
        assert j in h.mine && j in h.lanes.sent;
        AuthorisedGrows(h.floor.log, added, j);
      }
    }
  }

  lemma StepAhead(h: House, lanes: L.Sys)
    requires WriteAhead(h) && h.lanes.next <= lanes.next
    requires forall j :: j in h.mine && j in lanes.sent ==> j in h.lanes.sent
    ensures WriteAhead(h.(lanes := lanes))
  {
  }

  lemma OwnAhead(h: House, lanes: L.Sys, event: Event, refused: bool, w: Facts)
    requires Linked(h) && WriteAhead(h) && T.Reachable(lanes) && T.Handed(lanes) == T.Handed(h.lanes) + [event]
    requires lanes.sent == h.lanes.sent && lanes.job == h.lanes.job && lanes.next == h.lanes.next
    requires event.id in h.mine && w.settle == h.settle
    ensures WriteAhead(Apply(h, lanes, event.id, Handle(h.floor, event, refused, w, lanes.next)))
  {
    var e := Handle(h.floor, event, refused, w, lanes.next);
    EffectSubmits(h.floor, event, refused, w, lanes.next);
    HandleAdds(h.floor, event, refused, w, lanes.next);
    if L.Send in e.cmds {
      HandleSends(h.floor, event, refused, w, lanes.next);
      var i := IndexOf(h.floor.starts, event.id).value;
      HandedInTime(h, lanes, event, i);
      SendIntends(h.floor, event, refused, w, lanes.next, i);
    }
    ApplyAhead(h, lanes, event.id, e);
  }

  lemma DrainAhead(h: House, refused: bool, w: Facts)
    requires Linked(h) && WriteAhead(h)
    ensures WriteAhead(Drain(h, refused, w))
  {
    if T.Ready(h.lanes) {
      var event := T.RecvFace(h.lanes);
      var lanes := L.Next(h.lanes, L.Recv);
      D.HandedIs(h.lanes, event);
      if event.id in h.mine {
        OwnAhead(h, lanes, event, refused, w.(leaseOpen := DR.Alive(lanes, event.id), settle := h.settle));
      } else {
        StepAhead(h, lanes);
      }
    }
  }

  lemma WorkAhead(h: House, id: nat, action: L.Action)
    requires T.Reachable(h.lanes) && WriteAhead(h) && (action == L.Push(L.Send) ==> id !in h.mine)
    ensures WriteAhead(h.(lanes := L.Next(h.lanes, L.Work(id, action))))
  {
    T.WorkFace(h.lanes, id, action);
    StepAhead(h, L.Next(h.lanes, L.Work(id, action)));
  }

  lemma NextAhead(h: House, m: Move)
    requires Linked(h) && WriteAhead(h)
    ensures WriteAhead(Next(h, m))
  {
    match m
    case Toil(id, action) => if !action.Push? { WorkAhead(h, id, action); }
    case OtherSubmit(job) =>
      if job.id == h.lanes.next {
        T.SubmitFace(h.lanes, job);
        StepAhead(h, L.Next(h.lanes, L.Submit(job)));
      }
    case OtherPush(id, cmd) => if id !in h.mine { WorkAhead(h, id, L.Push(cmd)); }
    case Begin(pane, deadline) => BeginAhead(h, pane, deadline);
    case Turn(index, now) => if index < |h.floor.starts| { TurnAhead(h, index, now); }
    case Pump(refused, w) => DrainAhead(h, refused, w);
  }

  lemma BeginAhead(h: House, pane: string, deadline: int)
    requires Linked(h) && WriteAhead(h)
    ensures WriteAhead(Next(h, Begin(pane, deadline)))
  {
    var e := ParkStart(h.floor, h.tickets, pane, h.lanes.next, deadline);
    assert e.floor.log[|h.floor.log|..] == [Asked(h.tickets, h.lanes.next)];
    ApplyAhead(h, h.lanes, 0, e);
  }

  lemma TurnAhead(h: House, i: nat, now: int)
    requires Linked(h) && WriteAhead(h) && i < |h.floor.starts|
    ensures WriteAhead(Apply(h, h.lanes, 0, AdvanceOne(h.floor, i, now, h.lanes.next).(cmds := [])))
  {
    TurnSubmits(h.floor, i, now, h.lanes.next);
    TurnAdds(h.floor, i, now, h.lanes.next);
    ApplyAhead(h, h.lanes, 0, AdvanceOne(h.floor, i, now, h.lanes.next).(cmds := []));
  }

  lemma {:induction false} RunAhead(settle: nat, moves: seq<Move>)
    ensures WriteAhead(Run(settle, moves))
  {
    if moves != [] {
      RunLinked(settle, moves[..|moves| - 1]);
      RunAhead(settle, moves[..|moves| - 1]);
      NextAhead(Run(settle, moves[..|moves| - 1]), moves[|moves| - 1]);
    }
  }

  /** Durable intent precedes the external effect: in every run, a lease of a start on which a
      request was written was asked for once, by one attempt or by the initial message, and the
      intent of that attempt, or of the message, is in the log. */
  lemma StartIntentPrecedesWrite(settle: nat, moves: seq<Move>, i: nat, job: nat)
    requires var h := Run(settle, moves);
             job in h.mine && W.WroteAt(h.lanes, i, job) && job in h.lanes.job && h.lanes.job[job].Open?
    ensures var log := Run(settle, moves).floor.log;
            && (exists e :: e in log && LeaseOf(e, job))
            && (forall e :: e in log && LeaseOf(e, job) ==> Intends(log, e))
  {
    var h := Run(settle, moves);
    RunLinked(settle, moves);
    RunAhead(settle, moves);
    var steps :| h.lanes == L.Run(steps);
    T.WritesWereSent(steps, i);
    OneLease(h.floor.log, h.lanes.next, job);
  }

  lemma OneLease(log: seq<Entry>, next: nat, job: nat)
    requires LeaseJobs(log, next) && Authorised(log, job)
    ensures forall e :: e in log && LeaseOf(e, job) ==> Intends(log, e)
  {
    var known :| known in log && LeaseOf(known, job) && Intends(log, known);
    var i :| 0 <= i < |log| && log[i] == known;
    forall e | e in log && LeaseOf(e, job)
      ensures e == known
    {
      var k :| 0 <= k < |log| && log[k] == e;
    }
  }
}
