/** The start machine running on the scheduler, and what holds of every run. */
module StartRuns {
  import opened Lanes
  import opened Wrappers
  import L = LaneRuns
  import T = LaneTheorems
  import S = LaneSends
  import D = DeliveryStories
  import DR = DeliveryRuns
  import opened Starts
  import opened StartStories

  /** `mine` holds the jobs submitted for starts; `settle` is INITIAL_MESSAGE_SETTLE. */
  datatype House = House(lanes: L.Sys, floor: Floor, mine: set<nat>, tickets: nat, settle: nat)

  datatype Move =
    | Toil(id: nat, action: L.Action)
    | OtherSubmit(job: Job)
    | OtherPush(id: nat, cmd: L.LeaseCmd)
    | Begin(pane: string, deadline: int)
    | Turn(index: nat, now: int)
    | Pump(refused: bool, w: Facts)

  function Opening0(settle: nat): House {
    House(L.Init(), Floor([], []), {}, 0, settle)
  }

  ghost function Issue(lanes: L.Sys, submit: Option<Job>): L.Sys {
    if submit.Some? then L.Next(lanes, L.Submit(submit.value)) else lanes
  }

  /** Carry out one handler's effect: its submission, then its commands on lease `id`. */
  ghost function Apply(h: House, lanes: L.Sys, id: nat, e: Effect): House {
    h.(lanes := DR.Push(Issue(lanes, e.submit), id, e.cmds),
       floor := e.floor,
       mine := if e.submit.Some? then h.mine + {e.submit.value.id} else h.mine)
  }

  ghost function Drain(h: House, refused: bool, w: Facts): House {
    if !T.Ready(h.lanes) then h
    else
      var event := DR.NextEvent(h.lanes);
      var lanes := L.Next(h.lanes, L.Recv);
      if event.id !in h.mine then h.(lanes := lanes)
      else
        Apply(h, lanes, event.id,
              Handle(h.floor, event, refused, w.(leaseOpen := DR.Alive(lanes, event.id), settle := h.settle),
                     lanes.next))
  }

  ghost function Next(h: House, m: Move): House {
    match m
    case Toil(id, action) => if action.Push? then h else h.(lanes := L.Next(h.lanes, L.Work(id, action)))
    case OtherSubmit(job) => if job.id != h.lanes.next then h else h.(lanes := L.Next(h.lanes, L.Submit(job)))
    case OtherPush(id, cmd) => if id in h.mine then h else h.(lanes := L.Next(h.lanes, L.Work(id, L.Push(cmd))))
    case Begin(pane, deadline) =>
      Apply(h, h.lanes, 0, ParkStart(h.floor, h.tickets, pane, h.lanes.next, deadline)).(tickets := h.tickets + 1)
    case Turn(index, now) =>
      if index >= |h.floor.starts| then h
      else Apply(h, h.lanes, 0, AdvanceOne(h.floor, index, now, h.lanes.next).(cmds := []))
    case Pump(refused, w) => Drain(h, refused, w)
  }

  ghost function Run(settle: nat, moves: seq<Move>): House {
    if moves == [] then Opening0(settle) else Next(Run(settle, moves[..|moves| - 1]), moves[|moves| - 1])
  }

  // ---- Leases ----

  /** The job that a start's phase waits on: the first look negotiates, a later one does not. */
  predicate Awaits(s: Start, id: nat, job: Job) {
    match s.phase
    case Snapshot => job == Job.Snapshot(id, !s.declared)
    case Ready => job == AgentGet(id, "kelpie:start-ready", s.pane)
    case Opening(_) => job == Open(id, s.pane, false)
    case Sending(_) => job == Open(id, s.pane, false)
    case Initial => job == Open(id, s.pane, false)
    case _ => true
  }

  /** How the job a start waits on stands with the scheduler. */
  ghost predicate Stage(lanes: L.Sys, s: Start, job: nat) {
    job in lanes.job && job < lanes.next && Awaits(s, job, lanes.job[job])
    && (Unopened(s) ==> job !in lanes.sent)
    && (HasSent(s) <==> L.Proj(T.Handed(lanes), job) != [])
  }

  /** The start waits for what it has sent on its lease to come back. */
  predicate HasSent(s: Start) {
    OnLease(s) && !Unopened(s)
  }

  /** Nothing was sent on the job, and nothing heard of it. */
  ghost predicate Unheard(lanes: L.Sys, job: nat) {
    job !in lanes.sent && L.Proj(T.Handed(lanes), job) == []
  }

  ghost predicate Staged(lanes: L.Sys, starts: seq<Start>, mine: set<nat>) {
    forall k :: 0 <= k < |starts| && starts[k].job.Some? ==>
      starts[k].job.value in mine && Stage(lanes, starts[k], starts[k].job.value)
  }

  ghost predicate Linked(h: House) {
    && T.Reachable(h.lanes) && FloorOk(h.floor, h.settle) && Staged(h.lanes, h.floor.starts, h.mine)
    && (forall j :: j in h.mine ==> j < h.lanes.next)
    && (forall ticket :: ticket >= h.tickets ==> At(h.floor, ticket, h.settle) == Some(Nothing))
    && (forall ticket: nat :: ticket < h.tickets ==> StoryOf(h.floor.log, ticket) != [])
    && (forall k :: 0 <= k < |h.floor.starts| ==> h.floor.starts[k].ticket < h.tickets)
  }

  /** The scheduler hands events in time. */
  lemma HandedInTime(h: House, t: L.Sys, event: Event, i: nat)
    requires Staged(h.lanes, h.floor.starts, h.mine) && i < |h.floor.starts| && h.floor.starts[i].job == Some(event.id)
    requires T.Reachable(t) && T.Handed(t) == T.Handed(h.lanes) + [event] && t.sent == h.lanes.sent
    requires t.job == h.lanes.job
    requires StartOk(h.floor.starts[i])
    ensures Timely(h.floor.starts[i], event)
  {
    var j := event.id;
    D.ProjGrows(T.Handed(h.lanes), event, j);
    var word := L.Proj(T.Handed(t), j);
    assert word[|word| - 1] == event;
    assert !HasSent(h.floor.starts[i]) ==> word == [event];
    if t.job[j].Open? {
      T.LeaseFace(t, j);
      D.LastNotOpened(word);
      if event.Done? {
        assert S.Answering(word[|word| - 1]);
      }
    } else {
      T.PlainFace(t, j);
    }
  }

  // ---- What an effect does to the starts ----

  /** The start `t` an event on `job` leaves behind: it waits for nothing, or for the job just
      submitted, or it has just been sent on `job`, or it is `s` unchanged. */
  predicate Successor(s: Start, t: Start, job: Option<nat>, e: Effect, next: nat) {
    || t == s
    || t.job.None?
    || (&& t.job == Some(next) && e.submit.Some? && e.submit.value.id == next && Awaits(t, next, e.submit.value)
        && (t.phase.Snapshot? || t.phase.Ready? || t.phase.Opening? || (t.phase.Initial? && !t.committed)))
    || (t.job.Some? && t.job == job && (t.phase.Sending? || (t.phase.Initial? && t.committed)))
  }

  predicate Replaced(f: Floor, g: Floor, i: nat, t: Start) {
    i < |f.starts| && g.starts == f.starts[i := t]
  }

  predicate Removed(f: Floor, g: Floor, i: nat) {
    i < |f.starts| && g.starts == f.starts[..i] + f.starts[i + 1..]
  }

  /** Commands are for the event's job, and a Send goes with a start that is now sending. */
  predicate Commands(e: Effect, t: Start, job: Option<nat>) {
    L.Send in e.cmds ==> t.job.Some? && t.job == job && (t.phase.Sending? || (t.phase.Initial? && t.committed))
  }

  /** Only the effects of start `i` are recorded. */
  ghost predicate Records(f: Floor, e: Effect, i: nat) {
    i < |f.starts| && f.log <= e.floor.log && OnlyOf(e.floor.log[|f.log|..], f.starts[i].ticket)
  }

  ghost predicate Shaped(f: Floor, e: Effect, i: nat, job: Option<nat>, next: nat) {
    (e.submit.Some? ==> e.submit.value.id == next)
    && ((Removed(f, e.floor, i) && L.Send !in e.cmds && e.submit.None?)
        || (i < |f.starts| && i < |e.floor.starts| && Replaced(f, e.floor, i, e.floor.starts[i])
            && e.floor.starts[i].ticket == f.starts[i].ticket
            && Successor(f.starts[i], e.floor.starts[i], job, e, next) && Commands(e, e.floor.starts[i], job)))
  }

  lemma OpenedShape(f: Floor, i: nat, w: Facts, job: nat, next: nat)
    requires i < |f.starts| && f.starts[i].job == Some(job)
    ensures Shaped(f, OnOpened(f, i, w), i, Some(job), next)
  {
  }

  lemma StillShape(f: Floor, i: nat, job: Option<nat>, next: nat)
    requires i < |f.starts|
    ensures Shaped(f, Still(f), i, job, next)
  {
    assert f.starts[i := f.starts[i]] == f.starts;
  }

  lemma DoneShape(f: Floor, i: nat, job: nat, reply: Reply, w: Facts, next: nat)
    requires i < |f.starts| && f.starts[i].job == Some(job)
    ensures Shaped(f, OnDone(f, i, job, reply, w, next), i, Some(job), next)
  {
    match f.starts[i].phase
    case Snapshot => SnapshotShape(f, i, job, reply, w, next);
    case Sending(_) => SendShape(f, i, reply, w, job, next);
    case Ready => ReadyGetShape(f, i, reply, w, job, next);
    case Initial => InitialDoneShape(f, i, job, next);
    case _ => StillShape(f, i, Some(job), next);
  }

  lemma SnapshotShape(f: Floor, i: nat, job: nat, reply: Reply, w: Facts, next: nat)
    requires i < |f.starts|
    ensures Shaped(f, OnSnapshot(f, i, job, reply, w, next), i, Some(job), next)
  {
  }

  lemma SendShape(f: Floor, i: nat, reply: Reply, w: Facts, job: nat, next: nat)
    requires i < |f.starts|
    ensures Shaped(f, OnSend(f, i, reply, w), i, Some(job), next)
  {
  }

  lemma ReadyGetShape(f: Floor, i: nat, reply: Reply, w: Facts, job: nat, next: nat)
    requires i < |f.starts|
    ensures Shaped(f, OnReadyGet(f, i, reply, w, next), i, Some(job), next)
  {
  }

  lemma InitialDoneShape(f: Floor, i: nat, job: nat, next: nat)
    requires i < |f.starts|
    ensures Shaped(f, OnInitialDone(f, i), i, Some(job), next)
  {
  }

  lemma HandleShape(f: Floor, event: Event, refused: bool, w: Facts, next: nat, i: nat)
    requires IndexOf(f.starts, event.id) == Some(i)
    ensures Shaped(f, Handle(f, event, refused, w, next), i, Some(event.id), next)
  {
    StillShape(f, i, Some(event.id), next);
    match event
    case Opened(job) => OpenedShape(f, i, w, job, next);
    case Done(job, reply) => DoneShape(f, i, job, reply, w, next);
    case Failed(job, _, error) =>
      DoneShape(f, i, job, Refused(error), w, next);
    case _ =>
  }

  lemma AdvanceShape(f: Floor, i: nat, now: int, next: nat)
    requires i < |f.starts| && StartOk(f.starts[i])
    ensures Shaped(f, AdvanceOne(f, i, now, next).(cmds := []), i, None, next)
  {
    StillShape(f, i, None, next);
  }

  lemma PutRecords(f: Floor, i: nat, s: Start, entries: seq<Entry>)
    requires i < |f.starts| && OnlyOf(entries, f.starts[i].ticket)
    ensures Put(f, i, s, entries).log[|f.log|..] == entries
    ensures Close(f, i, entries).log[|f.log|..] == entries + [Answered(f.starts[i].ticket)]
    ensures f.log <= Put(f, i, s, entries).log && f.log <= Close(f, i, entries).log
  {
    assert Close(f, i, entries).log == f.log + (entries + [Answered(f.starts[i].ticket)]);
  }

  lemma HandleRecords(f: Floor, event: Event, refused: bool, w: Facts, next: nat, i: nat)
    requires IndexOf(f.starts, event.id) == Some(i)
    ensures Records(f, Handle(f, event, refused, w, next), i)
  {
    match event
    case Opened(job) => OpenedRecords(f, i, w);
    case Done(job, reply) => DoneRecords(f, i, job, reply, w, next);
    case Failed(job, _, error) =>
      DoneRecords(f, i, job, Refused(error), w, next);
      FailRecords(f, i);
      InitialDoneRecords(f, i);
    case _ =>
  }

  lemma FailRecords(f: Floor, i: nat)
    requires i < |f.starts|
    ensures Records(f, FailAt(f, i), i)
  {
    PutRecords(f, i, f.starts[i], []);
  }

  lemma InitialDoneRecords(f: Floor, i: nat)
    requires i < |f.starts|
    ensures Records(f, OnInitialDone(f, i), i)
  {
    FailRecords(f, i);
    PutRecords(f, i, f.starts[i], [MessageDone(f.starts[i].ticket)]);
  }

  lemma OpenedRecords(f: Floor, i: nat, w: Facts)
    requires i < |f.starts|
    ensures Records(f, OnOpened(f, i, w), i)
  {
    var s := f.starts[i];
    FailRecords(f, i);
    PutRecords(f, i, s, [StartIntent(s.ticket, AttemptOf(s)), StartSent(s.ticket, AttemptOf(s))]);
    PutRecords(f, i, s, [MessageIntent(s.ticket), MessageSent(s.ticket)]);
  }

  lemma DoneRecords(f: Floor, i: nat, job: nat, reply: Reply, w: Facts, next: nat)
    requires i < |f.starts|
    ensures Records(f, OnDone(f, i, job, reply, w, next), i)
  {
    var s := f.starts[i];
    FailRecords(f, i);
    InitialDoneRecords(f, i);
    match s.phase
    case Ready => ReadyRecords(f, i, reply, w, next);
    case _ =>
  }

  lemma ReadyRecords(f: Floor, i: nat, reply: Reply, w: Facts, next: nat)
    requires i < |f.starts|
    ensures Records(f, OnReadyGet(f, i, reply, w, next), i)
  {
    FailRecords(f, i);
    assert f.log + [] == f.log;
  }

  lemma AdvanceRecords(f: Floor, i: nat, now: int, next: nat)
    requires i < |f.starts|
    ensures Records(f, AdvanceOne(f, i, now, next), i)
  {
    FailRecords(f, i);
    assert f.log + [] == f.log;
  }

  // ---- Stages follow ----

  /** From `a` to `b` the scheduler has moved on: at most `job` was sent and at most `job` heard. */
  ghost predicate Moved(a: L.Sys, b: L.Sys, job: Option<nat>) {
    && a.next <= b.next
    && (forall j :: j in a.job ==> j in b.job && b.job[j] == a.job[j])
    && (forall j :: Some(j) != job ==> (j in b.sent ==> j in a.sent))
    && (forall j: nat :: Some(j) != job ==> L.Proj(T.Handed(b), j) == L.Proj(T.Handed(a), j))
  }

  lemma OthersStaged(a: L.Sys, b: L.Sys, s: Start, job: Option<nat>)
    requires Moved(a, b, job) && s.job.Some? && s.job != job && Stage(a, s, s.job.value)
    ensures Stage(b, s, s.job.value)
  {
  }

  /** A start that the effect leaves waiting on the same job has sent on it. */
  predicate StaysOnLease(f: Floor, e: Effect, i: nat, job: Option<nat>, lanes: L.Sys) {
    (&& i < |e.floor.starts| && Replaced(f, e.floor, i, e.floor.starts[i])
     && job.Some? && e.floor.starts[i].job == job)
    ==> job.value in lanes.job && Awaits(e.floor.starts[i], job.value, lanes.job[job.value])
        && HasSent(e.floor.starts[i])
  }

  lemma ShapedStaged(f: Floor, e: Effect, i: nat, job: Option<nat>, a: L.Sys, b: L.Sys, mine: set<nat>)
    requires Shaped(f, e, i, job, a.next) && Apart(f.starts) && Staged(a, f.starts, mine) && Moved(a, b, job)
    requires i < |f.starts| && forall j :: j in a.job ==> j in b.job && b.job[j] == a.job[j]
    requires job.Some? ==> f.starts[i].job == job
    requires job.Some? ==> L.Proj(T.Handed(b), job.value) != []
    requires job.Some? && job.value in b.sent && job.value !in a.sent ==> L.Send in e.cmds
    requires e.submit.Some? ==>
               a.next in b.job && b.job[a.next] == e.submit.value && a.next < b.next && Unheard(b, a.next)
    requires StaysOnLease(f, e, i, job, a)
    ensures Staged(b, e.floor.starts, if e.submit.Some? then mine + {e.submit.value.id} else mine)
  {
    var g := e.floor.starts;
    var ours := if e.submit.Some? then mine + {e.submit.value.id} else mine;
    forall k | 0 <= k < |g| && g[k].job.Some?
      ensures g[k].job.value in ours && Stage(b, g[k], g[k].job.value)
    {
      if Removed(f, e.floor, i) && (L.Send !in e.cmds && e.submit.None?) {
        var m := if k < i then k else k + 1;
        assert g[k] == f.starts[m];
        assert f.starts[m].job != job;
        OthersStaged(a, b, f.starts[m], job);
      } else if k != i {
        assert g[k] == f.starts[k];
        OthersStaged(a, b, f.starts[k], job);
      }
    }
  }

  lemma RecordsElsewhere(f: Floor, e: Effect, i: nat, settle: nat)
    requires Records(f, e, i)
    ensures forall x :: x != f.starts[i].ticket ==> At(e.floor, x, settle) == At(f, x, settle)
    ensures forall x :: StoryOf(f.log, x) != [] ==> StoryOf(e.floor.log, x) != []
  {
    var entries := e.floor.log[|f.log|..];
    assert e.floor.log == f.log + entries;
    forall x
      ensures StoryOf(e.floor.log, x) == StoryOf(f.log, x) + if x == f.starts[i].ticket then entries else []
    {
      StoryGrows(f.log, entries, f.starts[i].ticket, x);
    }
    assert forall x :: StoryOf(f.log, x) + [] == StoryOf(f.log, x);
  }

  // ---- Every move ----

  lemma ApplyFace(lanes: L.Sys, id: nat, submit: Option<Job>, cmds: seq<L.LeaseCmd>)
    requires T.Reachable(lanes) && (submit.Some? ==> submit.value.id == lanes.next)
    requires cmds != [] && submit.Some? ==> id < lanes.next
    ensures var b := DR.Push(Issue(lanes, submit), id, cmds);
            T.Reachable(b) && T.Handed(b) == T.Handed(lanes) && lanes.next <= b.next
            && (forall j :: j in lanes.job ==> j in b.job && (j < lanes.next ==> b.job[j] == lanes.job[j]))
            && lanes.sent <= b.sent && b.sent <= (if L.Send in cmds then lanes.sent + {id} else lanes.sent)
            && (submit.Some? ==> lanes.next in b.job && b.job[lanes.next] == submit.value
                                 && lanes.next < b.next && Unheard(b, lanes.next))
  {
    D.FreshIsUnsent(lanes, lanes.next);
    D.FreshIsUnheard(lanes, lanes.next);
    if submit.Some? {
      T.SubmitFace(lanes, submit.value);
    }
    D.PushFace(Issue(lanes, submit), id, cmds);
  }

  lemma JobsBelow(s: L.Sys)
    requires T.Reachable(s)
    ensures forall j :: j in s.job ==> j < s.next
  {
    T.ReachableInv(s);
  }

  /** The scheduler moves on, at most for `job`, while no start changes. */
  lemma StepLinked(h: House, b: L.Sys, job: Option<nat>)
    requires Linked(h) && T.Reachable(b) && Moved(h.lanes, b, job)
    requires job.Some? ==> job.value !in h.mine || Unused(h.floor, job.value)
    ensures Linked(h.(lanes := b))
  {
    forall k | 0 <= k < |h.floor.starts| && h.floor.starts[k].job.Some?
      ensures Stage(b, h.floor.starts[k], h.floor.starts[k].job.value)
    {
      OthersStaged(h.lanes, b, h.floor.starts[k], job);
    }
  }

  lemma ToilMoves(s: L.Sys, id: nat, action: L.Action)
    requires T.Reachable(s)
    ensures Moved(s, L.Next(s, L.Work(id, action)), if action == L.Push(L.Send) then Some(id) else None)
    ensures T.Reachable(L.Next(s, L.Work(id, action)))
  {
    T.WorkFace(s, id, action);
  }

  lemma SubmitMoves(s: L.Sys, job: Job)
    requires T.Reachable(s) && job.id == s.next
    ensures Moved(s, L.Next(s, L.Submit(job)), None) && T.Reachable(L.Next(s, L.Submit(job)))
  {
    T.SubmitFace(s, job);
    D.FreshIsUnsent(s, s.next);
  }

  lemma RecvMoves(s: L.Sys, b: L.Sys, event: Event)
    requires T.Handed(b) == T.Handed(s) + [event] && b.sent == s.sent && b.job == s.job && b.next == s.next
    ensures Moved(s, b, Some(event.id))
  {
    forall j: nat | j != event.id
      ensures L.Proj(T.Handed(b), j) == L.Proj(T.Handed(s), j)
    {
      D.ProjGrows(T.Handed(s), event, j);
    }
  }

  lemma UnusedNext(h: House)
    requires Linked(h)
    ensures Unused(h.floor, h.lanes.next)
  {
  }

  ghost predicate Ticketed(starts: seq<Start>, tickets: nat) {
    forall k :: 0 <= k < |starts| ==> starts[k].ticket < tickets
  }

  lemma ShapedTickets(f: Floor, e: Effect, i: nat, tickets: nat)
    requires || Removed(f, e.floor, i)
             || (&& i < |e.floor.starts| && Replaced(f, e.floor, i, e.floor.starts[i])
                 && e.floor.starts[i].ticket == f.starts[i].ticket)
    requires Ticketed(f.starts, tickets)
    ensures Ticketed(e.floor.starts, tickets)
  {
    if Removed(f, e.floor, i) {
      forall k | 0 <= k < |e.floor.starts|
        ensures e.floor.starts[k].ticket < tickets
      {
        assert e.floor.starts[k] == f.starts[if k < i then k else k + 1];
      }
    }
  }

  /** An effect of start `i` carried out on `lanes`, the scheduler as it stands after the event. */
  lemma EffectLinked(h: House, lanes: L.Sys, e: Effect, i: nat, job: Option<nat>, id: nat)
    requires Linked(h) && T.Reachable(lanes) && Moved(h.lanes, lanes, job) && lanes.next == h.lanes.next
    requires lanes.job == h.lanes.job && lanes.sent == h.lanes.sent
    requires Shaped(h.floor, e, i, job, lanes.next) && Records(h.floor, e, i) && FloorOk(e.floor, h.settle)
    requires i < |h.floor.starts|
    requires job.Some? ==> h.floor.starts[i].job == job && job.value == id && L.Proj(T.Handed(lanes), id) != []
    requires job.None? ==> e.cmds == []
    requires StaysOnLease(h.floor, e, i, job, h.lanes)
    ensures Linked(Apply(h, lanes, id, e))
  {
    EffectStaged(h, lanes, e, i, job, id);
    RecordsElsewhere(h.floor, e, i, h.settle);
    ShapedTickets(h.floor, e, i, h.tickets);
  }

  /** The scheduler's side of it: the jobs the starts wait on stand as they should. */
  lemma EffectStaged(h: House, lanes: L.Sys, e: Effect, i: nat, job: Option<nat>, id: nat)
    requires T.Reachable(h.lanes) && Apart(h.floor.starts) && Staged(h.lanes, h.floor.starts, h.mine)
    requires forall j :: j in h.mine ==> j < h.lanes.next
    requires T.Reachable(lanes) && Moved(h.lanes, lanes, job) && lanes.next == h.lanes.next
    requires lanes.job == h.lanes.job && lanes.sent == h.lanes.sent
    requires Shaped(h.floor, e, i, job, lanes.next) && i < |h.floor.starts|
    requires job.Some? ==> h.floor.starts[i].job == job && job.value == id && L.Proj(T.Handed(lanes), id) != []
    requires job.None? ==> e.cmds == []
    requires StaysOnLease(h.floor, e, i, job, h.lanes)
    ensures var g := Apply(h, lanes, id, e);
            && T.Reachable(g.lanes) && Staged(g.lanes, g.floor.starts, g.mine)
            && forall j :: j in g.mine ==> j < g.lanes.next
  {
    var g := Apply(h, lanes, id, e);
    ApplyFace(lanes, id, e.submit, e.cmds);
    JobsBelow(h.lanes);
    assert Moved(h.lanes, g.lanes, job);
    ShapedStaged(h.floor, e, i, job, h.lanes, g.lanes, h.mine);
  }

  lemma TurnLinked(h: House, i: nat, now: int)
    requires Linked(h) && i < |h.floor.starts|
    ensures Linked(Apply(h, h.lanes, 0, AdvanceOne(h.floor, i, now, h.lanes.next).(cmds := [])))
  {
    var e := AdvanceOne(h.floor, i, now, h.lanes.next).(cmds := []);
    UnusedNext(h);
    AdvanceOk(h.floor, i, now, h.lanes.next, h.settle);
    AdvanceShape(h.floor, i, now, h.lanes.next);
    AdvanceRecords(h.floor, i, now, h.lanes.next);
    EffectLinked(h, h.lanes, e, i, None, 0);
  }

  /** A start that the event leaves waiting on its lease was waiting on it before. */
  lemma SendsOnLease(h: House, event: Event, refused: bool, w: Facts, next: nat, i: nat)
    requires Staged(h.lanes, h.floor.starts, h.mine) && IndexOf(h.floor.starts, event.id) == Some(i)
    requires StartOk(h.floor.starts[i]) && Timely(h.floor.starts[i], event) && next != event.id
    ensures StaysOnLease(h.floor, Handle(h.floor, event, refused, w, next), i, Some(event.id), h.lanes)
  {
    var s := h.floor.starts[i];
    assert Stage(h.lanes, s, event.id);
  }

  lemma DrainOwn(h: House, lanes: L.Sys, event: Event, refused: bool, w: Facts)
    requires Linked(h) && T.Reachable(lanes) && T.Handed(lanes) == T.Handed(h.lanes) + [event]
    requires lanes.sent == h.lanes.sent && lanes.job == h.lanes.job && lanes.next == h.lanes.next
    requires event.id in h.mine && w.settle == h.settle
    ensures Linked(Apply(h, lanes, event.id, Handle(h.floor, event, refused, w, lanes.next)))
  {
    var e := Handle(h.floor, event, refused, w, lanes.next);
    var index := IndexOf(h.floor.starts, event.id);
    RecvMoves(h.lanes, lanes, event);
    if index.None? {
      ApplyFace(lanes, event.id, None, e.cmds);
      StepLinked(h, DR.Push(lanes, event.id, e.cmds), Some(event.id));
    } else {
      forall i | 0 <= i < |h.floor.starts| && h.floor.starts[i].job == Some(event.id)
        ensures Timely(h.floor.starts[i], event)
      {
        HandedInTime(h, lanes, event, i);
      }
      UnusedNext(h);
      HandleOk(h.floor, event, refused, w, lanes.next);
      HandleShape(h.floor, event, refused, w, lanes.next, index.value);
      HandleRecords(h.floor, event, refused, w, lanes.next, index.value);
      SendsOnLease(h, event, refused, w, lanes.next, index.value);
      D.ProjGrows(T.Handed(h.lanes), event, event.id);
      EffectLinked(h, lanes, e, index.value, Some(event.id), event.id);
    }
  }

  lemma DrainLinked(h: House, refused: bool, w: Facts)
    requires Linked(h)
    ensures Linked(Drain(h, refused, w))
  {
    if T.Ready(h.lanes) {
      var event := T.RecvFace(h.lanes);
      var lanes := L.Next(h.lanes, L.Recv);
      D.HandedIs(h.lanes, event);
      if event.id in h.mine {
        DrainOwn(h, lanes, event, refused, w.(leaseOpen := DR.Alive(lanes, event.id), settle := h.settle));
      } else {
        RecvMoves(h.lanes, lanes, event);
        StepLinked(h, lanes, Some(event.id));
      }
    }
  }

  lemma BeginLinked(h: House, pane: string, deadline: int)
    requires Linked(h)
    ensures Linked(Next(h, Begin(pane, deadline)))
  {
    UnusedNext(h);
    NotParked(h);
    ParkOk(h.floor, h.tickets, pane, h.lanes.next, deadline, h.settle);
    BeginStaged(h, pane, deadline);
    BeginTickets(h, pane, deadline);
  }

  lemma BeginStaged(h: House, pane: string, deadline: int)
    requires T.Reachable(h.lanes) && Staged(h.lanes, h.floor.starts, h.mine)
    requires forall j :: j in h.mine ==> j < h.lanes.next
    ensures var g := Next(h, Begin(pane, deadline));
            && T.Reachable(g.lanes) && Staged(g.lanes, g.floor.starts, g.mine)
            && forall j :: j in g.mine ==> j < g.lanes.next
  {
    var e := ParkStart(h.floor, h.tickets, pane, h.lanes.next, deadline);
    var g := Next(h, Begin(pane, deadline));
    ApplyFace(h.lanes, 0, e.submit, []);
    JobsBelow(h.lanes);
    assert Moved(h.lanes, g.lanes, None);
    forall k | 0 <= k < |g.floor.starts| && g.floor.starts[k].job.Some?
      ensures g.floor.starts[k].job.value in g.mine && Stage(g.lanes, g.floor.starts[k], g.floor.starts[k].job.value)
    {
      if k < |h.floor.starts| {
        assert g.floor.starts[k] == h.floor.starts[k];
        OthersStaged(h.lanes, g.lanes, h.floor.starts[k], None);
      }
    }
  }

  lemma NotParked(h: House)
    requires Linked(h)
    ensures !Parked(h.floor, h.tickets)
  {
  }

  lemma BeginTickets(h: House, pane: string, deadline: int)
    requires Linked(h)
    ensures var e := ParkStart(h.floor, h.tickets, pane, h.lanes.next, deadline);
            Ticketed(e.floor.starts, h.tickets + 1)
            && (forall x :: x > h.tickets ==> At(e.floor, x, h.settle) == Some(Nothing))
            && (forall x: nat :: x <= h.tickets ==> StoryOf(e.floor.log, x) != [])
  {
    var e := ParkStart(h.floor, h.tickets, pane, h.lanes.next, deadline);
    forall x: nat | x <= h.tickets
      ensures StoryOf(e.floor.log, x) != []
    {
      StoryGrows(h.floor.log, [Asked(h.tickets, h.lanes.next)], h.tickets, x);
    }
    LogMoves(h.floor, e.floor, h.tickets, [Asked(h.tickets, h.lanes.next)], h.settle);
  }

  lemma NextLinked(h: House, m: Move)
    requires Linked(h)
    ensures Linked(Next(h, m))
  {
    match m
    case Toil(id, action) =>
      if !action.Push? {
        ToilMoves(h.lanes, id, action);
        StepLinked(h, L.Next(h.lanes, L.Work(id, action)), None);
      }
    case OtherSubmit(job) =>
      if job.id == h.lanes.next {
        SubmitMoves(h.lanes, job);
        StepLinked(h, L.Next(h.lanes, L.Submit(job)), None);
      }
    case OtherPush(id, cmd) =>
      if id !in h.mine {
        ToilMoves(h.lanes, id, L.Push(cmd));
        StepLinked(h, L.Next(h.lanes, L.Work(id, L.Push(cmd))), if cmd.Send? then Some(id) else None);
      }
    case Begin(pane, deadline) => BeginLinked(h, pane, deadline);
    case Turn(index, now) =>
      if index < |h.floor.starts| { TurnLinked(h, index, now); }
    case Pump(refused, w) => DrainLinked(h, refused, w);
  }

  lemma {:induction false} RunLinked(settle: nat, moves: seq<Move>)
    ensures Linked(Run(settle, moves)) && Run(settle, moves).settle == settle
  {
    if moves == [] {
      assert L.Init() == L.Run([]);
    } else {
      RunLinked(settle, moves[..|moves| - 1]);
      NextLinked(Run(settle, moves[..|moves| - 1]), moves[|moves| - 1]);
    }
  }
}
