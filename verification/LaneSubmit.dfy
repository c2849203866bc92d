/** A submission keeps the invariant, in each of its three cases. */
module LaneSubmit {
  import opened Lanes
  import opened Wrappers
  import opened LaneRuns
  import opened LaneInvariant

  /** A job may join a queued leader: it is neither dispatched nor a follower itself. */
  lemma JoinsQueued(s: Sys, job: Job) returns (leader: Job)
    requires Waiters(s.exec.queued, s.job, s.work.Keys, s.leaderOf) && JoinTarget(s.exec, job).Some?
    ensures leader.id == JoinTarget(s.exec, job).value && SameRequest(leader, job)
    ensures Waits(s.job, s.work.Keys, s.leaderOf, LaneFor(job), leader)
  {
    var q := s.exec.queued[LaneFor(job)];
    var k :| 0 <= k < |q| && SameRequest(q[k], job) && q[k].id == JoinTarget(s.exec, job).value;
    leader := q[k];
  }

  // ---- Case 1: the job joins a queued leader ----

  function Joined(s: Sys, job: Job, l: nat): Sys {
    s.(exec := s.exec.(coalesced := s.exec.coalesced[l := FollowersOf(s.exec.coalesced, l) + [job.id]]),
       next := job.id + 1,
       job := s.job[job.id := job],
       leaderOf := s.leaderOf[job.id := l],
       subAt := s.subAt[job.id := |s.trace|],
       trace := s.trace + [Submitted(job, Some(l))])
  }

  lemma JoinQueues(s: Sys, job: Job, l: nat)
    requires QueueInv(s) && job.id >= s.next
    ensures QueueInv(Joined(s, job, l))
  {
    var t := Joined(s, job, l);
    assert Kept(t.exec.queued, t.job, t.work.Keys, t.leaderOf);
  }

  lemma JoinFlights(s: Sys, job: Job, l: nat)
    requires QueueInv(s) && FlightInv(s) && job.id >= s.next
    ensures FlightInv(Joined(s, job, l))
  {
  }

  lemma JoinLeaders(s: Sys, job: Job, l: nat)
    requires Ids(s.next, s.job, s.work.Keys, s.leaderOf) && job.id >= s.next
    requires l in s.job && l !in s.leaderOf && Proj(s.out, l) == []
    requires Leaders(s.exec.coalesced, s.job, s.leaderOf, s.out)
    ensures var t := Joined(s, job, l); Leaders(t.exec.coalesced, t.job, t.leaderOf, t.out)
  {
    var t := Joined(s, job, l);
    forall x | x in t.exec.coalesced
      ensures x in t.job && !Over(Proj(t.out, x)) && FollowersAre(t.exec.coalesced[x], t.leaderOf, x)
    {
      var fs := FollowersOf(s.exec.coalesced, x);
      assert FollowersAre(fs, s.leaderOf, x);
      assert job.id !in fs;
    }
  }

  lemma JoinLed(s: Sys, job: Job, l: nat)
    requires Ids(s.next, s.job, s.work.Keys, s.leaderOf) && job.id >= s.next
    requires l in s.job && l !in s.leaderOf && SameRequest(s.job[l], job)
    requires Led(s.exec.coalesced, s.job, s.leaderOf, s.out)
    ensures var t := Joined(s, job, l); Led(t.exec.coalesced, t.job, t.leaderOf, t.out)
  {
    var t := Joined(s, job, l);
    assert forall f, x :: f in FollowersOf(s.exec.coalesced, x) ==> f in FollowersOf(t.exec.coalesced, x);
    assert job.id in FollowersOf(t.exec.coalesced, l) by {
      assert FollowersOf(t.exec.coalesced, l) == FollowersOf(s.exec.coalesced, l) + [job.id];
    }
  }

  lemma JoinFans(s: Sys, job: Job, l: Job)
    requires Ids(s.next, s.job, s.work.Keys, s.leaderOf) && FanInv(s) && job.id >= s.next
    requires Waits(s.job, s.work.Keys, s.leaderOf, LaneFor(job), l) && SameRequest(l, job)
    ensures FanInv(Joined(s, job, l.id))
  {
    assert Proj(s.out, l.id) == [] && Proj(s.out, job.id) == [];
    JoinLeaders(s, job, l.id);
    JoinLed(s, job, l.id);
  }

  lemma JoinHistory(s: Sys, job: Job, l: Job)
    requires Ids(s.next, s.job, s.work.Keys, s.leaderOf) && HistoryInv(s) && job.id >= s.next
    requires Waits(s.job, s.work.Keys, s.leaderOf, LaneFor(job), l)
    ensures HistoryInv(Joined(s, job, l.id))
  {
    Unwritten(s, job);
    JoinStamped(s, job, l.id);
    ReqGrows(s.work.Keys, s.work.Keys, s.trace, Submitted(job, Some(l.id)), s.reqAt);
    DisGrows(s.job, s.work.Keys, s.trace, s.disAt, job, Submitted(job, Some(l.id)));
    AskingGrows(s.work, s.job, s.reqAt, s.answers, job);
    JoinFresh(s, job, l.id);
  }

  lemma JoinStamped(s: Sys, job: Job, l: nat)
    requires Ids(s.next, s.job, s.work.Keys, s.leaderOf) && job.id >= s.next
    requires Stamped(s.job, s.leaderOf, s.trace, s.subAt)
    ensures var t := Joined(s, job, l); Stamped(t.job, t.leaderOf, t.trace, t.subAt)
  {
  }

  /** A job that still waits was not dispatched. */
  lemma JoinFresh(s: Sys, job: Job, l: nat)
    requires Ids(s.next, s.job, s.work.Keys, s.leaderOf) && job.id >= s.next && l !in s.work
    requires DisStamped(s.job, s.work.Keys, s.trace, s.disAt) && Fresh(s.leaderOf, s.subAt, s.disAt)
    ensures var t := Joined(s, job, l); Fresh(t.leaderOf, t.subAt, t.disAt)
  {
    assert l !in s.disAt && job.id !in s.disAt;
    NewcomerFresh(s.leaderOf, s.subAt, s.disAt, job.id, l, |s.trace|);
  }

  lemma NewcomerFresh(leaderOf: map<nat, nat>, subAt: map<nat, nat>, disAt: map<nat, nat>, id: nat, l: nat, now: nat)
    requires Fresh(leaderOf, subAt, disAt) && l !in disAt && id !in disAt && id !in leaderOf
    ensures Fresh(leaderOf[id := l], subAt[id := now], disAt)
  {
  }

  // ---- Case 2: the job waits behind its lane's in-flight job ----

  function Parked(s: Sys, job: Job): Sys {
    var lane := LaneFor(job);
    var queue := (if lane in s.exec.queued then s.exec.queued[lane] else []) + [job];
    s.(exec := s.exec.(queued := s.exec.queued[lane := queue]),
       next := job.id + 1,
       job := s.job[job.id := job],
       subAt := s.subAt[job.id := |s.trace|],
       trace := s.trace + [Submitted(job, None)])
  }

  lemma ParkQueues(s: Sys, job: Job)
    requires QueueInv(s) && job.id >= s.next && JoinTarget(s.exec, job).None? && LaneFor(job) in s.exec.inFlight
    ensures QueueInv(Parked(s, job))
  {
    ParkWaiters(s, job);
    ParkKept(s, job);
    ParkSorted(s, job);
  }

  lemma ParkWaiters(s: Sys, job: Job)
    requires Waiters(s.exec.queued, s.job, s.work.Keys, s.leaderOf)
    requires Ids(s.next, s.job, s.work.Keys, s.leaderOf) && job.id >= s.next
    ensures var t := Parked(s, job); Waiters(t.exec.queued, t.job, t.work.Keys, t.leaderOf)
  {
    var t := Parked(s, job);
    forall lane, k | lane in t.exec.queued && 0 <= k < |t.exec.queued[lane]|
      ensures Waits(t.job, t.work.Keys, t.leaderOf, lane, t.exec.queued[lane][k])
    {
      if lane in s.exec.queued && k < |s.exec.queued[lane]| {
        assert Waits(s.job, s.work.Keys, s.leaderOf, lane, s.exec.queued[lane][k]);
      }
    }
  }

  lemma ParkSorted(s: Sys, job: Job)
    requires Waiters(s.exec.queued, s.job, s.work.Keys, s.leaderOf) && AllSorted(s.exec.queued)
    requires Ids(s.next, s.job, s.work.Keys, s.leaderOf) && job.id >= s.next && JoinTarget(s.exec, job).None?
    ensures AllSorted(Parked(s, job).exec.queued)
  {
    var lane := LaneFor(job);
    if lane in s.exec.queued {
      var queue := s.exec.queued[lane];
      assert Sorted(queue);
      forall k | 0 <= k < |queue|
        ensures queue[k].id < job.id
      {
        assert Waits(s.job, s.work.Keys, s.leaderOf, lane, queue[k]);
      }
    }
  }

  lemma ParkKept(s: Sys, job: Job)
    requires Kept(s.exec.queued, s.job, s.work.Keys, s.leaderOf)
    ensures var t := Parked(s, job); Kept(t.exec.queued, t.job, t.work.Keys, t.leaderOf)
  {
    var t := Parked(s, job);
    forall id | id in t.job && id !in t.work.Keys && id !in t.leaderOf
      ensures Queued(t.exec.queued, t.job[id])
    {
      if id != job.id {
        assert Queued(s.exec.queued, s.job[id]);
      }
    }
  }

  lemma ParkFlights(s: Sys, job: Job)
    requires QueueInv(s) && FlightInv(s) && job.id >= s.next
    ensures FlightInv(Parked(s, job))
  {
    ParkLanes(s, job);
    ParkOrders(s, job);
  }

  lemma ParkLanes(s: Sys, job: Job)
    requires Ids(s.next, s.job, s.work.Keys, s.leaderOf) && job.id >= s.next
    requires Flying(s.exec.inFlight, s.job, s.work.Keys, s.out) && Landed(s.exec.inFlight, s.job, s.work.Keys, s.out)
    ensures var t := Parked(s, job);
            && Flying(t.exec.inFlight, t.job, t.work.Keys, t.out)
            && Landed(t.exec.inFlight, t.job, t.work.Keys, t.out)
  {
  }

  lemma ParkOrders(s: Sys, job: Job)
    requires QueueInv(s) && job.id >= s.next
    requires FlightOrder(s.exec.inFlight, s.job, s.work.Keys) && QueueOrder(s.exec.queued, s.job, s.work.Keys)
    ensures var t := Parked(s, job);
            && FlightOrder(t.exec.inFlight, t.job, t.work.Keys)
            && QueueOrder(t.exec.queued, t.job, t.work.Keys)
  {
  }

  lemma ParkFans(s: Sys, job: Job)
    requires Ids(s.next, s.job, s.work.Keys, s.leaderOf) && FanInv(s) && job.id >= s.next
    ensures FanInv(Parked(s, job))
  {
  }

  lemma ParkHistory(s: Sys, job: Job)
    requires Ids(s.next, s.job, s.work.Keys, s.leaderOf) && HistoryInv(s) && job.id >= s.next
    ensures HistoryInv(Parked(s, job))
  {
    ParkStamped(s, job);
    Unwritten(s, job);
    ReqGrows(s.work.Keys, s.work.Keys, s.trace, Submitted(job, None), s.reqAt);
    DisGrows(s.job, s.work.Keys, s.trace, s.disAt, job, Submitted(job, None));
    AskingGrows(s.work, s.job, s.reqAt, s.answers, job);
    StampKeepsFresh(s.leaderOf, s.subAt, s.disAt, job.id, |s.trace|);
  }

  /** Nothing is known of an id that was not allocated. */
  lemma Unwritten(s: Sys, job: Job)
    requires Ids(s.next, s.job, s.work.Keys, s.leaderOf) && job.id >= s.next
    requires ReqStamped(s.work.Keys, s.trace, s.reqAt) && DisStamped(s.job, s.work.Keys, s.trace, s.disAt)
    ensures job.id !in s.reqAt && job.id !in s.disAt && job.id !in s.leaderOf && job.id !in s.work
  {
  }

  lemma ReqGrows(launched: set<nat>, more: set<nat>, trace: seq<Entry>, e: Entry, reqAt: map<nat, nat>)
    requires ReqStamped(launched, trace, reqAt) && launched <= more
    ensures ReqStamped(more, trace + [e], reqAt)
  {
  }

  /** A submission leaves the dispatches recorded where they are. */
  lemma DisGrows(job: map<nat, Job>, launched: set<nat>, trace: seq<Entry>, disAt: map<nat, nat>, j: Job, e: Entry)
    requires DisStamped(job, launched, trace, disAt) && Writes(trace, disAt) && j.id !in launched && !e.Requested?
    ensures DisStamped(job[j.id := j], launched, trace + [e], disAt) && Writes(trace + [e], disAt)
  {
  }

  lemma AskingGrows(work: map<nat, Work>, job: map<nat, Job>, reqAt: map<nat, nat>, answers: map<nat, Reply>, j: Job)
    requires Asking(work, job, reqAt, answers) && j.id !in work
    ensures Asking(work, job[j.id := j], reqAt, answers)
    ensures Asking(work[j.id := Waiting], job[j.id := j], reqAt, answers)
  {
  }

  lemma StampKeepsFresh(leaderOf: map<nat, nat>, subAt: map<nat, nat>, disAt: map<nat, nat>, id: nat, now: nat)
    requires Fresh(leaderOf, subAt, disAt) && id !in disAt && id !in leaderOf
    ensures Fresh(leaderOf, subAt[id := now], disAt)
  {
  }

  /** A dispatch recorded now: everything it serves was recorded before it. */
  lemma DispatchGrows(job: map<nat, Job>, launched: set<nat>, trace: seq<Entry>, disAt: map<nat, nat>, j: Job)
    requires DisStamped(job, launched, trace, disAt) && Writes(trace, disAt)
    requires j.id !in launched && j.id in job && job[j.id] == j
    ensures DisStamped(job, launched + {j.id}, trace + [Dispatched(j)], disAt[j.id := |trace|])
    ensures Writes(trace + [Dispatched(j)], disAt[j.id := |trace|])
  {
  }

  lemma DispatchFresh(leaderOf: map<nat, nat>, subAt: map<nat, nat>, disAt: map<nat, nat>, id: nat, now: nat)
    requires Fresh(leaderOf, subAt, disAt) && id in subAt && subAt[id] < now
    requires forall f :: f in leaderOf && leaderOf[f] == id ==> f in subAt && subAt[f] < now
    ensures Fresh(leaderOf, subAt, disAt[id := now])
  {
  }

  lemma ParkStamped(s: Sys, job: Job)
    requires Ids(s.next, s.job, s.work.Keys, s.leaderOf) && job.id >= s.next
    requires Stamped(s.job, s.leaderOf, s.trace, s.subAt)
    ensures var t := Parked(s, job); Stamped(t.job, t.leaderOf, t.trace, t.subAt)
  {
  }

  // ---- Case 3: the lane is free ----

  function Started(s: Sys, job: Job): Sys {
    s.(exec := Dispatch(s.exec, LaneFor(job), job),
       work := s.work[job.id := Waiting],
       next := job.id + 1,
       job := s.job[job.id := job],
       subAt := s.subAt[job.id := |s.trace|],
       disAt := s.disAt[job.id := |s.trace| + 1],
       trace := s.trace + [Submitted(job, None)] + [Dispatched(job)])
  }

  lemma StartQueues(s: Sys, job: Job)
    requires QueueInv(s) && job.id >= s.next
    ensures QueueInv(Started(s, job))
  {
    var t := Started(s, job);
    assert Kept(t.exec.queued, t.job, t.work.Keys, t.leaderOf);
  }

  lemma StartFlying(s: Sys, job: Job)
    requires Ids(s.next, s.job, s.work.Keys, s.leaderOf) && job.id >= s.next
    requires Flying(s.exec.inFlight, s.job, s.work.Keys, s.out) && Landed(s.exec.inFlight, s.job, s.work.Keys, s.out)
    requires LaneFor(job) !in s.exec.inFlight && Proj(s.out, job.id) == []
    ensures var t := Started(s, job);
            Flying(t.exec.inFlight, t.job, t.work.Keys, t.out) && Landed(t.exec.inFlight, t.job, t.work.Keys, t.out)
  {
  }

  lemma StartOrder(s: Sys, job: Job)
    requires Ids(s.next, s.job, s.work.Keys, s.leaderOf) && job.id >= s.next
    requires FlightOrder(s.exec.inFlight, s.job, s.work.Keys) && QueueOrder(s.exec.queued, s.job, s.work.Keys)
    requires LaneFor(job) !in s.exec.queued
    ensures var t := Started(s, job);
            FlightOrder(t.exec.inFlight, t.job, t.work.Keys) && QueueOrder(t.exec.queued, t.job, t.work.Keys)
  {
  }

  lemma StartFlights(s: Sys, job: Job)
    requires QueueInv(s) && FlightInv(s) && job.id >= s.next && LaneFor(job) !in s.exec.inFlight
    requires Silent(s.work.Keys, s.leaderOf, s.out, s.events)
    ensures FlightInv(Started(s, job))
  {
    StartFlying(s, job);
    StartOrder(s, job);
  }

  lemma StartWords(s: Sys, job: Job)
    requires Ids(s.next, s.job, s.work.Keys, s.leaderOf) && job.id >= s.next
    requires Words(s.work, s.job, s.out, s.events, s.answers)
    requires Proj(s.out, job.id) == [] && Proj(s.events, job.id) == []
    ensures var t := Started(s, job); Words(t.work, t.job, t.out, t.events, t.answers)
  {
    var nothing: seq<Event> := [];
    assert nothing + nothing == nothing;
  }

  lemma StartFans(s: Sys, job: Job)
    requires Ids(s.next, s.job, s.work.Keys, s.leaderOf) && FanInv(s) && job.id >= s.next
    ensures FanInv(Started(s, job))
  {
    NewcomerUnheard(s, job);
    StartWords(s, job);
  }

  lemma NewcomerUnheard(s: Sys, job: Job)
    requires Ids(s.next, s.job, s.work.Keys, s.leaderOf) && job.id >= s.next
    requires Silent(s.work.Keys, s.leaderOf, s.out, s.events)
    ensures Proj(s.out, job.id) == [] && Proj(s.events, job.id) == []
  {
  }

  lemma StartHistory(s: Sys, job: Job)
    requires Ids(s.next, s.job, s.work.Keys, s.leaderOf) && HistoryInv(s) && job.id >= s.next
    requires Led(s.exec.coalesced, s.job, s.leaderOf, s.out)
    ensures HistoryInv(Started(s, job))
  {
    Unwritten(s, job);
    StartDispatch(s, job);
    AskingGrows(s.work, s.job, s.reqAt, s.answers, job);
    StartFresh(s, job);
    StartStamped(s, job);
  }

  lemma StartDispatch(s: Sys, job: Job)
    requires DisStamped(s.job, s.work.Keys, s.trace, s.disAt) && Writes(s.trace, s.disAt)
    requires ReqStamped(s.work.Keys, s.trace, s.reqAt) && job.id !in s.work
    ensures var t := Started(s, job);
            && DisStamped(t.job, t.work.Keys, t.trace, t.disAt) && Writes(t.trace, t.disAt)
            && ReqStamped(t.work.Keys, t.trace, t.reqAt)
  {
    var t, e := Started(s, job), Submitted(job, None);
    DisGrows(s.job, s.work.Keys, s.trace, s.disAt, job, e);
    DispatchGrows(t.job, s.work.Keys, s.trace + [e], s.disAt, job);
    ReqGrows(s.work.Keys, s.work.Keys, s.trace, e, s.reqAt);
    ReqGrows(s.work.Keys, s.work.Keys + {job.id}, s.trace + [e], Dispatched(job), s.reqAt);
    assert t.work.Keys == s.work.Keys + {job.id};
  }

  /** Nobody follows a job that was only now submitted. */
  lemma StartFresh(s: Sys, job: Job)
    requires Ids(s.next, s.job, s.work.Keys, s.leaderOf) && job.id >= s.next && job.id !in s.disAt
    requires Led(s.exec.coalesced, s.job, s.leaderOf, s.out) && Fresh(s.leaderOf, s.subAt, s.disAt)
    ensures var t := Started(s, job); Fresh(t.leaderOf, t.subAt, t.disAt)
  {
    var t := Started(s, job);
    StampKeepsFresh(s.leaderOf, s.subAt, s.disAt, job.id, |s.trace|);
    DispatchFresh(s.leaderOf, t.subAt, s.disAt, job.id, |s.trace| + 1);
  }

  lemma StartStamped(s: Sys, job: Job)
    requires Ids(s.next, s.job, s.work.Keys, s.leaderOf) && job.id >= s.next
    requires Stamped(s.job, s.leaderOf, s.trace, s.subAt)
    ensures var t := Started(s, job); Stamped(t.job, t.leaderOf, t.trace, t.subAt)
  {
  }

  lemma AdmitCases(s: Sys, job: Job)
    requires Backed(s.exec.queued, s.exec.inFlight)
    ensures JoinTarget(s.exec, job).Some? ==> Admit(s, job) == Joined(s, job, JoinTarget(s.exec, job).value)
    ensures JoinTarget(s.exec, job).None? && LaneFor(job) in s.exec.inFlight ==> Admit(s, job) == Parked(s, job)
    ensures LaneFor(job) !in s.exec.inFlight ==> Admit(s, job) == Started(s, job)
  {
    assert [] + [job] == [job];
  }

  lemma JoinKeeps(s: Sys, job: Job)
    requires Inv(s) && job.id >= s.next && JoinTarget(s.exec, job).Some?
    ensures Inv(Joined(s, job, JoinTarget(s.exec, job).value))
  {
    var l := JoinsQueued(s, job);
    JoinQueues(s, job, l.id);
    JoinFlights(s, job, l.id);
    JoinFans(s, job, l);
    JoinHistory(s, job, l);
  }

  lemma ParkKeeps(s: Sys, job: Job)
    requires Inv(s) && job.id >= s.next && JoinTarget(s.exec, job).None? && LaneFor(job) in s.exec.inFlight
    ensures Inv(Parked(s, job))
  {
    ParkQueues(s, job);
    ParkFlights(s, job);
    ParkFans(s, job);
    ParkHistory(s, job);
  }

  lemma StartKeeps(s: Sys, job: Job)
    requires Inv(s) && job.id >= s.next && LaneFor(job) !in s.exec.inFlight
    ensures Inv(Started(s, job))
  {
    StartQueues(s, job);
    StartFlights(s, job);
    StartFans(s, job);
    StartHistory(s, job);
  }

  lemma AdmitKeeps(s: Sys, job: Job)
    requires Inv(s) && job.id >= s.next
    ensures Inv(Admit(s, job))
  {
    AdmitCases(s, job);
    if JoinTarget(s.exec, job).Some? {
      JoinKeeps(s, job);
    } else if LaneFor(job) in s.exec.inFlight {
      ParkKeeps(s, job);
    } else {
      StartKeeps(s, job);
    }
  }
}
