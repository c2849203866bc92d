/** The log of the starts against the facts: what each event and each turn writes, in terms of what
    the store answered, what Herdr answered, the clock and the lease. */
module StartFacts {
  import opened Lanes
  import opened Wrappers
  import L = LaneRuns
  import T = LaneTheorems
  import D = DeliveryStories
  import DR = DeliveryRuns
  import W = StartWrites
  import C = StartChecks
  import opened Starts
  import opened StartStories
  import opened StartRuns

  // ---- What one event writes ----

  /** A lease has opened: `alive` says whether it still listens. */
  function OpenedTold(s: Start, alive: bool, w: Facts): seq<Entry> {
    var over := [Answered(s.ticket)];
    if !w.ok then over
    else
      match s.phase
      case Opening(n) => [StartIntent(s.ticket, n), StartSent(s.ticket, n)] + if alive then [] else over
      case Initial => [MessageIntent(s.ticket), MessageSent(s.ticket)] + if alive then [] else over
      case _ => []
  }

  function DoneTold(s: Start, job: nat, reply: Reply, w: Facts, settle: nat, next: nat): seq<Entry> {
    var over := [Answered(s.ticket)];
    match s.phase
    case Snapshot =>
      if !(reply.Accepted? && w.shaped && w.ok) then over
      else if s.declared then [Checked(s.ticket, job), LeaseAsked(s.ticket, s.attempt + 1, next)]
      else [Declared(s.ticket, job), LeaseAsked(s.ticket, 1, next)]
    case Sending(_) =>
      if reply.Accepted? && w.shaped && w.busy.Went? then [Entry.Submitted(s.ticket)]
      else if reply.Refused? && w.busy.Retry? then [BusyAnswer(s.ticket)]
      else over
    case Ready =>
      if w.ok && !w.ready then []
      else if !(w.ok && w.begun) then over
      else [ReadyAt(s.ticket, w.now)] + if settle == 0 then [MessageAsked(s.ticket, w.now, next)] else []
    case Initial => [MessageDone(s.ticket), Answered(s.ticket)]
    case _ => []
  }

  /** What an event of the job that `s` waits on adds to the log. */
  function Told(s: Start, event: Event, refused: bool, alive: bool, w: Facts, settle: nat, next: nat): seq<Entry> {
    match event
    case Opened(_) => OpenedTold(s, alive, w)
    case Done(job, reply) => DoneTold(s, job, reply, w, settle, next)
    case Failed(_, _, _) =>
      if s.phase.Sending? && refused && w.busy.Retry? then [BusyAnswer(s.ticket)]
      else if s.phase.Initial? && s.committed then [MessageDone(s.ticket), Answered(s.ticket)]
      else [Answered(s.ticket)]
    case _ => []
  }

  /** What becomes of `s`, by the last effect recorded; nothing if its client was answered. */
  function Becomes(s: Start, event: Event, told: seq<Entry>, w: Facts, settle: nat): Option<Start> {
    if told == [] then Some(if event.Done? && s.phase.Ready? then s.(job := None) else s)
    else
      match told[|told| - 1]
      case LeaseAsked(_, n, job) =>
        Some(s.(phase := Opening(n), job := Some(job), declared := true,
                budget := if s.declared then s.budget else w.budget,
                attempt := if s.declared then s.attempt else 1))
      case StartSent(_, n) => Some(s.(phase := Sending(n), lease := true, committed := true))
      case MessageSent(_) => Some(s.(lease := true, committed := true))
      case Submitted(_) => Some(s.(phase := Ready, lease := false, job := None))
      case BusyAnswer(_) =>
        var notBefore := if w.busy.Retry? then w.busy.notBefore else 0;
        Some(s.(phase := Busy(notBefore, s.budget), lease := false, job := None,
                attempt := if s.phase.Sending? then s.phase.attempt else 1))
      case ReadyAt(_, time) => Some(s.(phase := Settling(time + settle), job := None, committed := false))
      case MessageAsked(_, _, job) => Some(s.(phase := Initial, job := Some(job), committed := false))
      case _ => None
  }

  /** From `f` to `g` the log has grown by `told`, start `i` has become `t` or is gone, and every
      other start is where it was. */
  predicate Grown(f: Floor, g: Floor, i: nat, told: seq<Entry>, t: Option<Start>)
    requires i < |f.starts|
  {
    && g.log == f.log + told
    && g.starts == f.starts[..i] + (if t.Some? then [t.value] else []) + f.starts[i + 1..]
  }

  lemma PutGrows(f: Floor, i: nat, s: Start, told: seq<Entry>)
    requires i < |f.starts|
    ensures Grown(f, Put(f, i, s, told), i, told, Some(s))
  {
  }

  lemma CloseGrows(f: Floor, i: nat, told: seq<Entry>)
    requires i < |f.starts|
    ensures Grown(f, Close(f, i, told), i, told + [Answered(f.starts[i].ticket)], None)
  {
    assert f.starts[..i] + [] + f.starts[i + 1..] == f.starts[..i] + f.starts[i + 1..];
  }

  lemma FailGrows(f: Floor, i: nat)
    requires i < |f.starts|
    ensures Grown(f, FailAt(f, i).floor, i, [Answered(f.starts[i].ticket)], None)
  {
    CloseGrows(f, i, []);
    assert [] + [Answered(f.starts[i].ticket)] == [Answered(f.starts[i].ticket)];
  }

  lemma StillGrows(f: Floor, i: nat)
    requires i < |f.starts|
    ensures Grown(f, f, i, [], Some(f.starts[i]))
  {
    assert f.log + [] == f.log;
    assert f.starts == f.starts[..i] + [f.starts[i]] + f.starts[i + 1..];
  }

  lemma OpenedTells(f: Floor, i: nat, w: Facts, event: Event)
    requires i < |f.starts| && StartOk(f.starts[i]) && Timely(f.starts[i], event) && event.Opened?
    ensures var s := f.starts[i]; var told := OpenedTold(s, w.leaseOpen, w);
            Grown(f, OnOpened(f, i, w).floor, i, told, Becomes(s, event, told, w, w.settle))
  {
    var s := f.starts[i];
    var told := if s.phase.Opening? then [StartIntent(s.ticket, s.phase.attempt), StartSent(s.ticket, s.phase.attempt)]
                else [MessageIntent(s.ticket), MessageSent(s.ticket)];
    if !w.ok {
      FailGrows(f, i);
    } else if !w.leaseOpen {
      CloseGrows(f, i, told);
    } else {
      assert told + [] == told;
      PutGrows(f, i, if s.phase.Opening? then s.(committed := true, lease := true, phase := Sending(s.phase.attempt))
                     else s.(committed := true, lease := true), told);
    }
  }

  lemma SnapshotTells(f: Floor, i: nat, job: nat, reply: Reply, w: Facts, next: nat)
    requires i < |f.starts| && f.starts[i].phase.Snapshot?
    ensures var s := f.starts[i]; var told := DoneTold(s, job, reply, w, w.settle, next);
            Grown(f, OnSnapshot(f, i, job, reply, w, next).floor, i, told,
                  Becomes(s, Done(job, reply), told, w, w.settle))
  {
    FailGrows(f, i);
  }

  lemma SendTells(f: Floor, i: nat, job: nat, reply: Reply, w: Facts, next: nat)
    requires i < |f.starts| && f.starts[i].phase.Sending? && f.starts[i].declared
    ensures var s := f.starts[i]; var told := DoneTold(s, job, reply, w, w.settle, next);
            Grown(f, OnSend(f, i, reply, w).floor, i, told, Becomes(s, Done(job, reply), told, w, w.settle))
  {
    FailGrows(f, i);
  }

  lemma ReadyTells(f: Floor, i: nat, job: nat, reply: Reply, w: Facts, next: nat)
    requires i < |f.starts| && f.starts[i].phase.Ready? && f.starts[i].declared
    ensures var s := f.starts[i]; var told := DoneTold(s, job, reply, w, w.settle, next);
            Grown(f, OnReadyGet(f, i, reply, w, next).floor, i, told, Becomes(s, Done(job, reply), told, w, w.settle))
  {
    FailGrows(f, i);
    if w.ok && w.ready && w.begun {
      ReadyGetIs(f, i, reply, w, next);
      assert [ReadyAt(f.starts[i].ticket, w.now)] + [] == [ReadyAt(f.starts[i].ticket, w.now)];
    }
  }

  lemma InitialTells(f: Floor, i: nat)
    requires i < |f.starts| && f.starts[i].declared
    ensures var s := f.starts[i];
            Grown(f, OnInitialDone(f, i).floor, i, [MessageDone(s.ticket), Answered(s.ticket)], None)
  {
    CloseGrows(f, i, [MessageDone(f.starts[i].ticket)]);
  }

  lemma DoneTells(f: Floor, i: nat, job: nat, reply: Reply, w: Facts, next: nat)
    requires i < |f.starts| && StartOk(f.starts[i])
    ensures var s := f.starts[i]; var told := DoneTold(s, job, reply, w, w.settle, next);
            Grown(f, OnDone(f, i, job, reply, w, next).floor, i, told, Becomes(s, Done(job, reply), told, w, w.settle))
  {
    StillGrows(f, i);
    match f.starts[i].phase
    case Snapshot => SnapshotTells(f, i, job, reply, w, next);
    case Sending(_) => SendTells(f, i, job, reply, w, next);
    case Ready => ReadyTells(f, i, job, reply, w, next);
    case Initial => InitialTells(f, i);
    case _ =>
  }

  lemma FailedTells(f: Floor, i: nat, job: nat, stage: FailPhase, error: int, refused: bool, w: Facts, next: nat)
    requires i < |f.starts| && StartOk(f.starts[i])
    ensures var s, event := f.starts[i], Failed(job, stage, error);
            var told := Told(s, event, refused, w.leaseOpen, w, w.settle, next);
            Grown(f, OnFailed(f, i, job, error, refused, w, next).floor, i, told, Becomes(s, event, told, w, w.settle))
  {
    var s := f.starts[i];
    if refused && s.phase.Sending? {
      SendTells(f, i, job, Refused(error), w, next);
    } else if s.phase.Initial? && s.committed {
      InitialTells(f, i);
    } else {
      FailGrows(f, i);
    }
  }

  lemma HandleTells(f: Floor, event: Event, refused: bool, w: Facts, next: nat, i: nat)
    requires IndexOf(f.starts, event.id) == Some(i) && StartOk(f.starts[i]) && Timely(f.starts[i], event)
    ensures var told := Told(f.starts[i], event, refused, w.leaseOpen, w, w.settle, next);
            Grown(f, Handle(f, event, refused, w, next).floor, i, told,
                  Becomes(f.starts[i], event, told, w, w.settle))
  {
    match event
    case Opened(_) => OpenedTells(f, i, w, event);
    case Done(job, reply) => DoneTells(f, i, job, reply, w, next);
    case Failed(job, stage, error) => FailedTells(f, i, job, stage, error, refused, w, next);
    case _ => StillGrows(f, i);
  }

  // ---- What one turn writes ----

  /** What a turn at `now` adds for `s`: a busy start looks again within its budget and not before
      its time, and is given up when the budget is over; a settled one asks for its message's
      lease. */
  function TurnTold(s: Start, now: int, next: nat): seq<Entry> {
    if s.job.Some? then []
    else
      match s.phase
      case Busy(notBefore, budget) =>
        if now < notBefore then [] else if now < budget then [Asked(s.ticket, next)] else [Answered(s.ticket)]
      case Settling(until) => if now < until then [] else [MessageAsked(s.ticket, now, next)]
      case _ => []
  }

  /** A turn waits for nothing else: a start that is due is given a job or leaves. */
  predicate Due(s: Start, now: int) {
    s.job.None?
    && match s.phase
       case Busy(notBefore, _) => notBefore <= now
       case Settling(until) => until <= now
       case Ready => s.declared
       case _ => false
  }

  predicate Spent(s: Start, now: int) {
    s.phase.Busy? && s.phase.budget <= now
  }

  /** What a start becomes by a turn: nothing if it is given up, and otherwise, when it is due, it
      waits on the job `next`. */
  function TurnsInto(s: Start, now: int, next: nat): Option<Start> {
    if !Due(s, now) then Some(s)
    else if Spent(s, now) then None
    else Some(s.(job := Some(next),
                 phase := if s.phase.Busy? then Phase.Snapshot else if s.phase.Settling? then Initial else s.phase))
  }

  lemma TurnTells(f: Floor, i: nat, now: int, next: nat)
    requires i < |f.starts|
    ensures var s, e := f.starts[i], AdvanceOne(f, i, now, next);
            Grown(f, e.floor, i, TurnTold(s, now, next), TurnsInto(s, now, next))
            && (e.submit.Some? <==> Due(s, now) && !Spent(s, now))
  {
    FailGrows(f, i);
    StillGrows(f, i);
    if f.starts[i].phase.Settling? && f.starts[i].job.None? { SettledIs(f, i, now, next); }
  }

  // ---- In every run ----

  /** The scheduler has an event of the job that start `i` waits on to hand over. */
  ghost predicate Calls(h: House, i: nat) {
    T.Ready(h.lanes) && i < |h.floor.starts| && h.floor.starts[i].job == Some(DR.NextEvent(h.lanes).id)
  }

  /** The lease the event is of still listens. */
  ghost predicate Listens(h: House)
    requires T.Ready(h.lanes)
  {
    DR.Alive(L.Next(h.lanes, L.Recv), DR.NextEvent(h.lanes).id)
  }

  ghost predicate Tells(h: House, g: House, i: nat, refused: bool, w: Facts)
    requires Calls(h, i)
  {
    var s, event := h.floor.starts[i], DR.NextEvent(h.lanes);
    var told := Told(s, event, refused, Listens(h), w, h.settle, h.lanes.next);
    Grown(h.floor, g.floor, i, told, Becomes(s, event, told, w, h.settle))
  }

  lemma IndexIs(starts: seq<Start>, i: nat, job: nat)
    requires Apart(starts) && i < |starts| && starts[i].job == Some(job)
    ensures IndexOf(starts, job) == Some(i)
  {
  }

  lemma WaiterIsOurs(h: House, i: nat)
    requires Linked(h) && i < |h.floor.starts| && h.floor.starts[i].job.Some?
    ensures h.floor.starts[i].job.value in h.mine && StartOk(h.floor.starts[i])
    ensures IndexOf(h.floor.starts, h.floor.starts[i].job.value) == Some(i)
  {
    IndexIs(h.floor.starts, i, h.floor.starts[i].job.value);
  }

  lemma ToldIgnores(s: Start, event: Event, refused: bool, w: Facts, alive: bool, settle: nat, next: nat)
    ensures var v, told := w.(leaseOpen := alive, settle := settle), Told(s, event, refused, alive, w, settle, next);
            Told(s, event, refused, alive, v, settle, next) == told
            && Becomes(s, event, told, v, settle) == Becomes(s, event, told, w, settle)
  {
  }

  /** The event at the head, which is ours, has been handed over. */
  ghost predicate Received(h: House, event: Event) {
    var lanes := L.Next(h.lanes, L.Recv);
    && T.Ready(h.lanes) && event == DR.NextEvent(h.lanes) && event.id in h.mine
    && T.Reachable(lanes) && lanes.next == h.lanes.next && lanes.sent == h.lanes.sent
    && event.id in lanes.job && event.id < lanes.next
  }

  /** The event reaches the start that waits on its job, in time. */
  lemma Reaches(h: House, i: nat) returns (event: Event)
    requires Linked(h) && Calls(h, i)
    ensures event == DR.NextEvent(h.lanes) && event.id in h.mine && IndexOf(h.floor.starts, event.id) == Some(i)
    ensures StartOk(h.floor.starts[i]) && Timely(h.floor.starts[i], event) && Received(h, event)
  {
    event := T.RecvFace(h.lanes);
    D.HandedIs(h.lanes, event);
    WaiterIsOurs(h, i);
    HandedInTime(h, L.Next(h.lanes, L.Recv), event, i);
    assert Stage(h.lanes, h.floor.starts[i], event.id);
  }

  lemma PumpTells(h: House, i: nat, refused: bool, w: Facts)
    requires Linked(h) && Calls(h, i)
    ensures Tells(h, Next(h, Pump(refused, w)), i, refused, w)
  {
    var event := Reaches(h, i);
    ReceivedTells(h, event, i, refused, w);
  }

  lemma ReceivedTells(h: House, event: Event, i: nat, refused: bool, w: Facts)
    requires Calls(h, i) && Received(h, event) && IndexOf(h.floor.starts, event.id) == Some(i)
    requires StartOk(h.floor.starts[i]) && Timely(h.floor.starts[i], event)
    ensures Tells(h, Next(h, Pump(refused, w)), i, refused, w)
  {
    var next, alive := h.lanes.next, Listens(h);
    HandleTells(h.floor, event, refused, w.(leaseOpen := alive, settle := h.settle), next, i);
    ToldIgnores(h.floor.starts[i], event, refused, w, alive, h.settle, next);
  }

  /** In every run an event of the job a start waits on writes exactly what the store's and Herdr's
      answers and the lease call for, changes that start accordingly, and no other. */
  lemma EachEventTells(settle: nat, moves: seq<Move>, i: nat, refused: bool, w: Facts)
    requires Calls(Run(settle, moves), i)
    ensures Tells(Run(settle, moves), Run(settle, moves + [Pump(refused, w)]), i, refused, w)
  {
    RunLinked(settle, moves);
    C.OneMore(settle, moves, Pump(refused, w));
    PumpTells(Run(settle, moves), i, refused, w);
  }

  /** In every run a turn gives a start that is due a job, or answers its client when the busy
      budget is over, and leaves alone one that is not due. */
  lemma EachTurnTells(settle: nat, moves: seq<Move>, i: nat, now: int)
    requires i < |Run(settle, moves).floor.starts|
    ensures var h, g := Run(settle, moves), Run(settle, moves + [Turn(i, now)]);
            var s, next := h.floor.starts[i], h.lanes.next;
            && Grown(h.floor, g.floor, i, TurnTold(s, now, next), TurnsInto(s, now, next))
            && g.lanes.next == next + if Due(s, now) && !Spent(s, now) then 1 else 0
  {
    C.OneMore(settle, moves, Turn(i, now));
    RunLinked(settle, moves);
    TurnTells(Run(settle, moves).floor, i, now, Run(settle, moves).lanes.next);
    TurnCounts(Run(settle, moves), i, now);
  }

  lemma TurnCounts(h: House, i: nat, now: int)
    requires T.Reachable(h.lanes) && i < |h.floor.starts|
    ensures var e := AdvanceOne(h.floor, i, now, h.lanes.next);
            Next(h, Turn(i, now)).lanes.next == h.lanes.next + if e.submit.Some? then 1 else 0
  {
    var e := AdvanceOne(h.floor, i, now, h.lanes.next);
    W.TurnSubmits(h.floor, i, now, h.lanes.next);
    if e.submit.Some? { T.SubmitFace(h.lanes, e.submit.value); }
  }

  /** A new start asks for a snapshot; nothing but an event of its job and its turns changes a
      start or the log. */
  lemma NothingElseTells(settle: nat, moves: seq<Move>, m: Move)
    requires var h := Run(settle, moves);
             && (m.Turn? ==> m.index >= |h.floor.starts|)
             && (m.Pump? ==> forall i :: 0 <= i < |h.floor.starts| ==> !Calls(h, i))
    ensures var h, g := Run(settle, moves), Run(settle, moves + [m]);
            if m.Begin? then
              && g.floor.log == h.floor.log + [Asked(h.tickets, h.lanes.next)]
              && g.floor.starts
              == h.floor.starts + [Start(h.tickets, m.pane, false, Phase.Snapshot, Some(h.lanes.next), false, false, 1,
                                         m.deadline)]
            else g.floor == h.floor
  {
    C.OneMore(settle, moves, m);
    var h := Run(settle, moves);
    if m.Pump? && T.Ready(h.lanes) {
      var index := IndexOf(h.floor.starts, DR.NextEvent(h.lanes).id);
      if index.Some? { assert Calls(h, index.value); }
    }
  }

  /** In every run the job a start waits on is the start's own: its kind, pane and purpose are
      those of the start's phase. */
  lemma StartsWaitOnTheirJobs(settle: nat, moves: seq<Move>, i: nat)
    requires i < |Run(settle, moves).floor.starts| && Run(settle, moves).floor.starts[i].job.Some?
    ensures var h := Run(settle, moves); var s, job := h.floor.starts[i], h.floor.starts[i].job.value;
            job in h.mine && job in h.lanes.job && Awaits(s, job, h.lanes.job[job])
  {
    RunLinked(settle, moves);
    var h := Run(settle, moves);
    assert Stage(h.lanes, h.floor.starts[i], h.floor.starts[i].job.value);
  }

  // ---- The log is true ----

  /** What each entry says of the move that writes it. */
  predicate True(e: Entry, m: Move) {
    match e
    case Asked(_, _) => m.Begin? || m.Turn?
    case Declared(_, _) => m.Pump? && m.w.ok && m.w.shaped
    case Checked(_, _) => m.Pump? && m.w.ok && m.w.shaped
    case LeaseAsked(_, _, _) => m.Pump? && m.w.ok && m.w.shaped
    case StartIntent(_, _) => m.Pump? && m.w.ok
    case StartSent(_, _) => m.Pump? && m.w.ok
    case BusyAnswer(_) => m.Pump? && m.w.busy.Retry?
    case Submitted(_) => m.Pump? && m.w.busy.Went? && m.w.shaped
    case ReadyAt(_, time) => m.Pump? && m.w.ok && m.w.ready && m.w.begun && time == m.w.now
    case MessageAsked(_, time, _) =>
      if m.Pump? then m.w.ok && m.w.ready && m.w.begun && time == m.w.now else m.Turn? && time == m.now
    case MessageIntent(_) => m.Pump? && m.w.ok
    case MessageSent(_) => m.Pump? && m.w.ok
    case MessageDone(_) => m.Pump?
    case Answered(_) => m.Pump? || m.Turn?
  }

  lemma ToldIsTrue(s: Start, event: Event, refused: bool, alive: bool, w: Facts, settle: nat, next: nat, e: Entry)
    requires e in Told(s, event, refused, alive, w, settle, next)
    ensures True(e, Pump(refused, w))
  {
  }

  lemma MoveIsTrue(h: House, m: Move, k: nat)
    requires Linked(h) && |h.floor.log| <= k < |Next(h, m).floor.log|
    ensures True(Next(h, m).floor.log[k], m)
  {
    match m
    case Turn(index, now) => if index < |h.floor.starts| { TurnTells(h.floor, index, now, h.lanes.next); }
    case Pump(refused, w) =>
      var index := if T.Ready(h.lanes) then IndexOf(h.floor.starts, DR.NextEvent(h.lanes).id) else None;
      if index.Some? {
        var s, event := h.floor.starts[index.value], DR.NextEvent(h.lanes);
        PumpTells(h, index.value, refused, w);
        ToldIsTrue(s, event, refused, Listens(h), w, h.settle, h.lanes.next, Next(h, m).floor.log[k]);
      }
    case _ =>
  }

  /** In every run every entry a move adds to the log is true of that move: an intent and what is
      sent after it have the store's word, a declaration and a check also an answer of the right
      shape, a busy answer and an accepted one Herdr's, a readiness its own time. */
  lemma TheLogIsTrue(settle: nat, moves: seq<Move>, m: Move, k: nat)
    requires |Run(settle, moves).floor.log| <= k < |Run(settle, moves + [m]).floor.log|
    ensures True(Run(settle, moves + [m]).floor.log[k], m)
  {
    RunLinked(settle, moves);
    C.OneMore(settle, moves, m);
    MoveIsTrue(Run(settle, moves), m, k);
  }

  // ---- The lease is sent its request exactly when the intent is durable ----

  /** In every run an event leaves its lease sent to exactly when it was before, or when the lease
      has just opened, still listens, and the store accepted the intent. */
  lemma SentWhenCommitted(settle: nat, moves: seq<Move>, i: nat, refused: bool, w: Facts)
    requires Calls(Run(settle, moves), i)
    ensures var h, g := Run(settle, moves), Run(settle, moves + [Pump(refused, w)]);
            var event := DR.NextEvent(h.lanes);
            event.id in g.lanes.sent <==> event.id in h.lanes.sent || (event.Opened? && w.ok && Listens(h))
  {
    RunLinked(settle, moves);
    C.OneMore(settle, moves, Pump(refused, w));
    PumpSends(Run(settle, moves), i, refused, w);
  }

  lemma PumpSends(h: House, i: nat, refused: bool, w: Facts)
    requires Linked(h) && Calls(h, i)
    ensures var g, event := Next(h, Pump(refused, w)), DR.NextEvent(h.lanes);
            event.id in g.lanes.sent <==> event.id in h.lanes.sent || (event.Opened? && w.ok && Listens(h))
  {
    var event := Reaches(h, i);
    ReceivedSends(h, event, i, refused, w);
  }

  lemma ReceivedSends(h: House, event: Event, i: nat, refused: bool, w: Facts)
    requires Calls(h, i) && Received(h, event) && IndexOf(h.floor.starts, event.id) == Some(i)
    requires StartOk(h.floor.starts[i]) && Timely(h.floor.starts[i], event)
    ensures var g := Next(h, Pump(refused, w));
            event.id in g.lanes.sent <==> event.id in h.lanes.sent || (event.Opened? && w.ok && Listens(h))
  {
    OwnSends(h, L.Next(h.lanes, L.Recv), event, refused, w.(leaseOpen := Listens(h), settle := h.settle), i);
  }

  lemma OwnSends(h: House, lanes: L.Sys, event: Event, refused: bool, w: Facts, i: nat)
    requires IndexOf(h.floor.starts, event.id) == Some(i)
    requires StartOk(h.floor.starts[i]) && Timely(h.floor.starts[i], event)
    requires T.Reachable(lanes) && event.id < lanes.next && event.id in lanes.job
    requires w.leaseOpen == DR.Alive(lanes, event.id)
    ensures var g := Apply(h, lanes, event.id, Handle(h.floor, event, refused, w, lanes.next));
            event.id in g.lanes.sent <==> event.id in lanes.sent || (event.Opened? && w.ok && w.leaseOpen)
  {
    HandleSent(h.floor, event, refused, w, lanes.next, i);
    W.EffectSubmits(h.floor, event, refused, w, lanes.next);
    EffectSends(lanes, event.id, Handle(h.floor, event, refused, w, lanes.next));
  }

  lemma HandleSent(f: Floor, event: Event, refused: bool, w: Facts, next: nat, i: nat)
    requires IndexOf(f.starts, event.id) == Some(i) && StartOk(f.starts[i]) && Timely(f.starts[i], event)
    ensures var e := Handle(f, event, refused, w, next);
            if event.Opened? && w.ok && w.leaseOpen then e.cmds == [L.Send] && e.submit.None? else L.Send !in e.cmds
  {
    if L.Send in Handle(f, event, refused, w, next).cmds { W.HandleSends(f, event, refused, w, next); }
  }

  lemma EffectSends(lanes: L.Sys, id: nat, e: Effect)
    requires T.Reachable(lanes) && id < lanes.next && id in lanes.job
    requires e.submit.Some? ==> e.submit.value.id == lanes.next
    requires L.Send in e.cmds ==> e.cmds == [L.Send] && e.submit.None? && DR.Alive(lanes, id)
    ensures var b := DR.Push(Issue(lanes, e.submit), id, e.cmds);
            id in b.sent <==> id in lanes.sent || L.Send in e.cmds
  {
    ApplyFace(lanes, id, e.submit, e.cmds);
    if L.Send in e.cmds { SendOnce(lanes, id); }
  }

  lemma SendOnce(lanes: L.Sys, id: nat)
    requires id in lanes.job && DR.Alive(lanes, id)
    ensures id in DR.Push(lanes, id, [L.Send]).sent
  {
    assert [L.Send][..0] == [];
    assert DR.Push(lanes, id, []) == lanes;
    assert (lanes.work[id].inbox + [L.Send])[|lanes.work[id].inbox|] == L.Send;
    assert |lanes.work[id].inbox + [L.Send]| != |lanes.work[id].inbox|;
  }
}
