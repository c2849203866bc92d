/** Runs of the scheduler together with its workers (`src/herdr_exec.rs`, `worker_loop`,
    `run_lease`).

    A run is any sequence of steps: a submission, one `try_recv`, or one action of a worker
    or of the daemon on a lease. A step that is not enabled changes nothing, so every
    sequence of steps is a run and every interleaving is covered. Job pick-up is not
    ordered and the pool is not bounded here; the real pool allows fewer interleavings. */
module LaneRuns {
  import opened Lanes
  import opened Wrappers

  datatype LeaseCmd = Send | Drop

  /** Where the worker serving a dispatched job stands. */
  datatype Work =
    | Waiting                      // on the job channel, or taken and not yet on the wire
    | Asked                        // request written, answer not read
    | Replied                      // Done emitted, Dropped not yet
    | Leased(inbox: seq<LeaseCmd>) // socket open, waiting for lease commands
    | Reading(inbox: seq<LeaseCmd>)
    | Ended

  datatype Action =
    | Ask | Miss(error: int) | Answer(reply: Reply) | Release
    | Accept | Refuse(error: int)
    | Push(cmd: LeaseCmd)
    | BudgetFail(error: int) | WriteFail(error: int) | Wrote
    | ReadFail(error: int)
    | Hangup | Expire(error: int)

  datatype Outcome = Outcome(work: Work, events: seq<Event>, asks: bool)

  /** One action on the worker of `job`, following the branches of the two worker loops. `Miss`
      is a snapshot or `agent.get` that fails before its request is written: Herdr cannot be
      reached, or the negotiation before it fails. */
  function Act(w: Work, job: Job, action: Action): Outcome {
    var id := job.id;
    match action
    case Ask =>
      if !job.Open? && w.Waiting? then Outcome(Asked, [], true) else Outcome(w, [], false)
    case Miss(error) =>
      if !job.Open? && w.Waiting? then Outcome(Replied, [Done(id, Refused(error))], false)
      else Outcome(w, [], false)
    case Answer(reply) =>
      if w.Asked? then Outcome(Replied, [Done(id, reply)], false)
      else if w.Reading? then Outcome(Leased(w.inbox), [Done(id, reply)], false)
      else Outcome(w, [], false)
    case Release =>
      if w.Replied? then Outcome(Ended, [Dropped(id)], false) else Outcome(w, [], false)
    case Accept =>
      if job.Open? && w.Waiting? then Outcome(Leased([]), [Opened(id)], false) else Outcome(w, [], false)
    case Refuse(error) =>
      if job.Open? && w.Waiting? then Outcome(Ended, [Failed(id, Connect, error)], false)
      else Outcome(w, [], false)
    case Push(cmd) =>
      if w.Leased? || w.Reading? then Outcome(w.(inbox := w.inbox + [cmd]), [], false)
      else Outcome(w, [], false)
    case BudgetFail(error) =>
      if w.Leased? && w.inbox != [] && w.inbox[0].Send? then Outcome(Ended, [Failed(id, Connect, error)], false)
      else Outcome(w, [], false)
    case WriteFail(error) =>
      if w.Leased? && w.inbox != [] && w.inbox[0].Send? then
        Outcome(Leased(w.inbox[1..]), [Failed(id, Write, error)], true)
      else Outcome(w, [], false)
    case Wrote =>
      if w.Leased? && w.inbox != [] && w.inbox[0].Send? then
        Outcome(Reading(w.inbox[1..]), [Written(id)], true)
      else Outcome(w, [], false)
    case ReadFail(error) =>
      if w.Reading? then Outcome(Leased(w.inbox), [Failed(id, Read, error)], false) else Outcome(w, [], false)
    case Hangup =>
      if w.Leased? && (w.inbox == [] || w.inbox[0].Drop?) then Outcome(Ended, [Dropped(id)], false)
      else Outcome(w, [], false)
    case Expire(error) =>
      if w.Leased? && w.inbox == [] then Outcome(Ended, [Failed(id, Lease, error)], false)
      else Outcome(w, [], false)
  }

  /** The answers workers have given, after one more action. */
  function Learned(w: Work, job: Job, action: Action, answers: map<nat, Reply>): map<nat, Reply> {
    if action.Answer? && w.Asked? then answers[job.id := action.reply]
    else if action.Miss? && w.Waiting? && !job.Open? then answers[job.id := Refused(action.error)]
    else answers
  }

  datatype Entry =
    | Submitted(job: Job, leader: Option<nat>) // `leader`: the queued job it joined
    | Dispatched(job: Job)
    | Requested(id: nat)                       // request bytes written for job `id`

  /** The scheduler, its workers and channels, and the history of the run.

      `out` is everything handed to the daemon or already waiting in `pending_events`; its
      first `handed` events have been handed over. `subAt`, `disAt` and `reqAt` index `trace`. */
  datatype Sys = Sys(
    exec: Exec,
    work: map<nat, Work>,
    events: seq<Event>,
    out: seq<Event>,
    handed: nat,
    next: nat,           // ids below it have been allocated
    job: map<nat, Job>,
    leaderOf: map<nat, nat>,
    trace: seq<Entry>,
    subAt: map<nat, nat>,
    disAt: map<nat, nat>,
    reqAt: map<nat, nat>,
    answers: map<nat, Reply>,
    sent: set<nat>,      // leases given a Send
    resent: set<nat>)    // leases given a second Send

  datatype Step = Submit(job: Job) | Recv | Work(id: nat, action: Action)

  function Init(): Sys {
    Sys(Idle(), map[], [], [], 0, 0, map[], map[], [], map[], map[], map[], map[], {}, {})
  }

  /** Install the scheduler state `x`; a job it put on the channel gets a worker. */
  function Launch(s: Sys, x: Exec): Sys {
    if |x.sent| > |s.exec.sent| then
      var job := x.sent[|x.sent| - 1];
      s.(exec := x, work := s.work[job.id := Waiting],
         disAt := s.disAt[job.id := |s.trace|], trace := s.trace + [Dispatched(job)])
    else s.(exec := x)
  }

  function Record(s: Sys, job: Job): Sys {
    var leader := JoinTarget(s.exec, job);
    s.(next := job.id + 1,
       job := s.job[job.id := job],
       leaderOf := if leader.Some? then s.leaderOf[job.id := leader.value] else s.leaderOf,
       subAt := s.subAt[job.id := |s.trace|],
       trace := s.trace + [Submitted(job, leader)])
  }

  function Admit(s: Sys, job: Job): Sys {
    Launch(Record(s, job), Enqueue(s.exec, job))
  }

  function Copies(x: Exec, event: Event): seq<Event> {
    if FansOut(event) then Fan(event, FollowersOf(x.coalesced, event.id)) else []
  }

  function Hand(s: Sys): Sys
    requires s.exec.pending != []
  {
    s.(exec := s.exec.(pending := s.exec.pending[1..]), handed := s.handed + 1)
  }

  ghost function Deliver(s: Sys): Sys
    requires s.events != []
  {
    var event := s.events[0];
    Launch(s.(events := s.events[1..], out := s.out + ([event] + Copies(s.exec, event)), handed := s.handed + 1),
           Absorb(s.exec, event, LaneHolding(s.exec.inFlight, event.id)))
  }

  function Labour(s: Sys, id: nat, action: Action): Sys
    requires id in s.work && id in s.job
  {
    var o := Act(s.work[id], s.job[id], action);
    var sends := action == Push(Send) && o.work != s.work[id];
    s.(work := s.work[id := o.work],
       events := s.events + o.events,
       trace := if o.asks then s.trace + [Requested(id)] else s.trace,
       reqAt := if o.asks then s.reqAt[id := |s.trace|] else s.reqAt,
       answers := Learned(s.work[id], s.job[id], action, s.answers),
       sent := if sends then s.sent + {id} else s.sent,
       resent := if sends && id in s.sent then s.resent + {id} else s.resent)
  }

  /** Ids come from a counter: a submission carries an id larger than every earlier one. */
  ghost function Next(s: Sys, step: Step): Sys {
    match step
    case Submit(job) =>
      if job.id < s.next then s else Admit(s, job)
    case Recv =>
      if s.exec.pending != [] then Hand(s)
      else if s.events == [] then s
      else Deliver(s)
    case Work(id, action) =>
      if id in s.work && id in s.job then Labour(s, id, action) else s
  }

  ghost function RunFrom(s: Sys, steps: seq<Step>): Sys {
    if steps == [] then s else Next(RunFrom(s, steps[..|steps| - 1]), steps[|steps| - 1])
  }

  ghost function Run(steps: seq<Step>): Sys {
    RunFrom(Init(), steps)
  }

  // ---- Projections ----

  /** The events of `es` that carry `id`, in order. */
  function Proj(es: seq<Event>, id: nat): seq<Event> {
    if es == [] then []
    else (if es[0].id == id then [es[0]] else []) + Proj(es[1..], id)
  }

  /** Everything delivered, or waiting to be handed over, for `id`. */
  function Heard(s: Sys, id: nat): seq<Event> { Proj(s.out, id) }

  function Renamed(es: seq<Event>, id: nat): seq<Event> {
    seq(|es|, i requires 0 <= i < |es| => es[i].(id := id))
  }

  ghost predicate Over(word: seq<Event>) {
    exists k :: 0 <= k < |word| && Terminal(word[k])
  }

  ghost predicate Distinct(ids: seq<nat>) {
    forall i, j :: 0 <= i < j < |ids| ==> ids[i] != ids[j]
  }

  lemma {:induction false} ProjAppend(a: seq<Event>, b: seq<Event>, id: nat)
    ensures Proj(a + b, id) == Proj(a, id) + Proj(b, id)
  {
    if a == [] {
      assert a + b == b;
    } else {
      assert (a + b)[0] == a[0] && (a + b)[1..] == a[1..] + b;
      ProjAppend(a[1..], b, id);
      var head := if a[0].id == id then [a[0]] else [];
      assert head + (Proj(a[1..], id) + Proj(b, id)) == (head + Proj(a[1..], id)) + Proj(b, id);
    }
  }

  lemma {:induction false} ProjFan(event: Event, followers: seq<nat>, id: nat)
    requires Distinct(followers)
    ensures Proj(Fan(event, followers), id) == if id in followers then [event.(id := id)] else []
  {
    if followers != [] {
      var rest := followers[1..];
      ProjFan(event, rest, id);
      assert Fan(event, followers)[1..] == Fan(event, rest);
      assert forall k :: 0 < k < |followers| ==> followers[k] == rest[k - 1];
      if id == followers[0] {
        assert id !in rest;
      }
    }
  }

  lemma OverAppend(a: seq<Event>, b: seq<Event>)
    ensures Over(a + b) <==> Over(a) || Over(b)
  {
    if Over(a) {
      var k :| 0 <= k < |a| && Terminal(a[k]);
      assert Terminal((a + b)[k]);
    }
    if Over(b) {
      var k :| 0 <= k < |b| && Terminal(b[k]);
      assert Terminal((a + b)[|a| + k]);
    }
  }

  lemma OverRenamed(a: seq<Event>, id: nat)
    ensures Over(Renamed(a, id)) <==> Over(a)
  {
    if Over(a) {
      var k :| 0 <= k < |a| && Terminal(a[k]);
      assert Terminal(Renamed(a, id)[k]);
    }
  }
}
