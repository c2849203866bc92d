/** The Herdr lane scheduler (`src/herdr_exec.rs`): job queues, coalescing and fan-out.

    The functions over `Exec` say what one call does to the scheduler's maps; the class
    `HerdrExec` does the same work in place and is proved to compute those functions. */
module Lanes {
  import opened Wrappers

  /** What a finished Herdr request carries back. */
  datatype Reply = Accepted(payload: int) | Refused(error: int)

  datatype Job =
    | Snapshot(id: nat, negotiate: bool)
    | Lifecycle(id: nat)
    | Open(id: nat, pane: string, negotiate: bool)
    | AgentGet(id: nat, request: string, target: string)

  datatype Lane = SnapshotLane | PaneLane(pane: string)

  datatype FailPhase = Connect | Write | Read | Lease

  datatype Event =
    | Opened(id: nat)
    | Written(id: nat)
    | Done(id: nat, reply: Reply)
    | Failed(id: nat, phase: FailPhase, error: int)
    | Dropped(id: nat)

  function LaneFor(job: Job): Lane {
    match job
    case Snapshot(_, _) => SnapshotLane
    case Lifecycle(_) => SnapshotLane
    case Open(_, pane, _) => PaneLane(pane)
    case AgentGet(_, _, target) => PaneLane(target)
  }

  /** Two snapshots of the same kind may share one request; the negotiate flag is ignored. */
  predicate SameRequest(a: Job, b: Job) {
    (a.Snapshot? && b.Snapshot?) || (a.Lifecycle? && b.Lifecycle?)
  }

  /** The first queued job whose request `job` may share. */
  function CoalescingLeader(queue: seq<Job>, job: Job): (leader: Option<nat>)
    ensures leader.None? <==> forall k :: 0 <= k < |queue| ==> !SameRequest(queue[k], job)
    ensures leader.Some? ==>
              exists k :: 0 <= k < |queue| && SameRequest(queue[k], job) && queue[k].id == leader.value
                          && forall i :: 0 <= i < k ==> !SameRequest(queue[i], job)
  {
    if queue == [] then None
    else if SameRequest(queue[0], job) then Some(queue[0].id)
    else
      var rest := CoalescingLeader(queue[1..], job);
      assert forall k :: 0 < k < |queue| ==> queue[k] == queue[1..][k - 1];
      rest
  }

  predicate Terminal(event: Event) {
    event.Dropped? || event.Failed?
  }

  /** Completion events are the only ones copied to followers. */
  predicate FansOut(event: Event) {
    event.Done? || Terminal(event)
  }

  /** The copies of `event` handed to `followers`, in order. */
  function Fan(event: Event, followers: seq<nat>): seq<Event> {
    seq(|followers|, i requires 0 <= i < |followers| => event.(id := followers[i]))
  }

  /** The scheduler's fields. `sent` lists everything ever put on the job channel. */
  datatype Exec = Exec(
    queued: map<Lane, seq<Job>>,
    inFlight: map<Lane, nat>,
    coalesced: map<nat, seq<nat>>,
    pending: seq<Event>,
    sent: seq<Job>)

  function Idle(): Exec {
    Exec(map[], map[], map[], [], [])
  }

  function FollowersOf(coalesced: map<nat, seq<nat>>, leader: nat): seq<nat> {
    if leader in coalesced then coalesced[leader] else []
  }

  function Dispatch(x: Exec, lane: Lane, job: Job): Exec {
    x.(inFlight := x.inFlight[lane := job.id], sent := x.sent + [job])
  }

  /** The queued job that `job` would join, if any. */
  function JoinTarget(x: Exec, job: Job): Option<nat> {
    var lane := LaneFor(job);
    if lane in x.queued then CoalescingLeader(x.queued[lane], job) else None
  }

  function Enqueue(x: Exec, job: Job): Exec {
    var lane := LaneFor(job);
    var leader := JoinTarget(x, job);
    if leader.Some? then
      x.(coalesced := x.coalesced[leader.value := FollowersOf(x.coalesced, leader.value) + [job.id]])
    else if lane in x.queued then x.(queued := x.queued[lane := x.queued[lane] + [job]])
    else if lane in x.inFlight then x.(queued := x.queued[lane := [job]])
    else Dispatch(x, lane, job)
  }

  /** `lane` is a lane whose in-flight job is `id`; `None` says there is none. */
  predicate Holds(inFlight: map<Lane, nat>, id: nat, lane: Option<Lane>) {
    match lane
    case Some(l) => l in inFlight && inFlight[l] == id
    case None => forall l :: l in inFlight ==> inFlight[l] != id
  }

  ghost function LaneHolding(inFlight: map<Lane, nat>, id: nat): (lane: Option<Lane>)
    ensures Holds(inFlight, id, lane)
  {
    if l :| l in inFlight && inFlight[l] == id then Some(l) else None
  }

  /** Free `lane` and start the next job of its queue, if there is one. */
  function Advance(x: Exec, lane: Lane): Exec {
    var x := x.(inFlight := x.inFlight - {lane});
    if lane in x.queued && x.queued[lane] != [] then
      var queue := x.queued[lane];
      var rest := if |queue| == 1 then x.queued - {lane} else x.queued[lane := queue[1..]];
      Dispatch(x.(queued := rest), lane, queue[0])
    else x
  }

  /** What taking `event` off the worker channel does; `lane` is the lane its job holds. */
  function Absorb(x: Exec, event: Event, lane: Option<Lane>): Exec {
    var followers := FollowersOf(x.coalesced, event.id);
    var x := if FansOut(event) then x.(pending := x.pending + Fan(event, followers)) else x;
    if !Terminal(event) then x
    else
      var x := x.(coalesced := x.coalesced - {event.id});
      if lane.Some? then Advance(x, lane.value) else x
  }

  class HerdrExec {
    var queued: map<Lane, seq<Job>>
    var inFlight: map<Lane, nat>
    var coalesced: map<nat, seq<nat>>
    var pendingEvents: seq<Event>
    var jobTx: seq<Job>

    ghost function Value(): Exec
      reads this
    {
      Exec(queued, inFlight, coalesced, pendingEvents, jobTx)
    }

    constructor ()
      ensures Value() == Idle()
    {
      queued, inFlight, coalesced := map[], map[], map[];
      pendingEvents, jobTx := [], [];
    }

    /** The source repeats the coalescing test after finding no queue for the lane. With no
        queue there is nothing to join, so that second test is left out. */
    method Submit(job: Job)
      modifies this
      ensures Value() == Enqueue(old(Value()), job)
    {
      var lane := LaneFor(job);
      if lane in queued {
        var leader := CoalescingLeader(queued[lane], job);
        if leader.Some? {
          var joined := FollowersOf(coalesced, leader.value);
          coalesced := coalesced[leader.value := joined + [job.id]];
          return;
        }
        queued := queued[lane := queued[lane] + [job]];
        return;
      }
      if lane in inFlight {
        queued := queued[lane := [job]];
        return;
      }
      DispatchNow(lane, job);
    }

    method DispatchNow(lane: Lane, job: Job)
      modifies this
      ensures Value() == Dispatch(old(Value()), lane, job)
    {
      inFlight := inFlight[lane := job.id];
      jobTx := jobTx + [job];
    }

    /** One event for the daemon: a pending copy first, else `channel`, the next worker event. */
    method TryRecv(channel: Option<Event>) returns (event: Option<Event>, ghost lane: Option<Lane>)
      modifies this
      ensures old(pendingEvents) != [] ==>
                event == Some(old(pendingEvents)[0])
                && Value() == old(Value()).(pending := old(pendingEvents)[1..])
      ensures old(pendingEvents) == [] ==> event == channel
      ensures old(pendingEvents) == [] && channel.None? ==> Value() == old(Value())
      ensures old(pendingEvents) == [] && channel.Some? ==>
                Holds(old(inFlight), channel.value.id, lane)
                && Value() == Absorb(old(Value()), channel.value, lane)
    {
      event, lane := channel, None;
      if pendingEvents != [] {
        event := Some(pendingEvents[0]);
        pendingEvents := pendingEvents[1..];
        return;
      }
      if channel.None? {
        return;
      }
      var incoming := channel.value;
      lane := LaneHolding(inFlight, incoming.id);
      if incoming.Done? {
        FanOut(incoming);
      }
      if Terminal(incoming) {
        FanOut(incoming);
        coalesced := coalesced - {incoming.id};
        if held :| held in inFlight && inFlight[held] == incoming.id {
          lane := Some(held);
          inFlight := inFlight - {held};
          if held in queued && queued[held] != [] {
            var next := queued[held][0];
            queued := if |queued[held]| == 1 then queued - {held} else queued[held := queued[held][1..]];
            DispatchNow(held, next);
          }
        }
      }
    }

    method FanOut(event: Event)
      modifies this`pendingEvents
      ensures pendingEvents == old(pendingEvents) + Fan(event, FollowersOf(coalesced, event.id))
    {
      var followers := FollowersOf(coalesced, event.id);
      for i := 0 to |followers|
        invariant pendingEvents == old(pendingEvents) + Fan(event, followers)[..i]
      {
        pendingEvents := pendingEvents + [event.(id := followers[i])];
      }
    }
  }
}
