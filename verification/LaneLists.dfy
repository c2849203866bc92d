/** The order of submission and of dispatch, as lists read off the history. */
module LaneLists {
  import opened Lanes
  import opened Wrappers
  import opened LaneRuns
  import opened LaneInvariant
  import LaneSubmit
  import opened LaneDeliver

  /** Ids submitted on `lane` that did not join another job, in order. */
  function OwnOn(trace: seq<Entry>, lane: Lane): seq<nat> {
    if trace == [] then []
    else
      var last := trace[|trace| - 1];
      OwnOn(trace[..|trace| - 1], lane)
      + if last.Submitted? && last.leader.None? && LaneFor(last.job) == lane then [last.job.id] else []
  }

  /** Ids dispatched on `lane`, in order. */
  function SentOn(trace: seq<Entry>, lane: Lane): seq<nat> {
    if trace == [] then []
    else
      var last := trace[|trace| - 1];
      SentOn(trace[..|trace| - 1], lane)
      + if last.Dispatched? && LaneFor(last.job) == lane then [last.job.id] else []
  }

  function IdsOf(queue: seq<Job>): seq<nat> {
    seq(|queue|, i requires 0 <= i < |queue| => queue[i].id)
  }

  function QueueAt(queued: map<Lane, seq<Job>>, lane: Lane): seq<Job> {
    if lane in queued then queued[lane] else []
  }

  ghost predicate Listed(trace: seq<Entry>, queued: map<Lane, seq<Job>>) {
    forall lane :: OwnOn(trace, lane) == SentOn(trace, lane) + IdsOf(QueueAt(queued, lane))
  }

  lemma Grow(trace: seq<Entry>, entry: Entry, lane: Lane)
    ensures OwnOn(trace + [entry], lane) == OwnOn(trace, lane)
              + if entry.Submitted? && entry.leader.None? && LaneFor(entry.job) == lane then [entry.job.id] else []
    ensures SentOn(trace + [entry], lane) == SentOn(trace, lane)
              + if entry.Dispatched? && LaneFor(entry.job) == lane then [entry.job.id] else []
  {
    assert (trace + [entry])[..|trace|] == trace;
  }

  lemma ParkListed(s: Sys, job: Job)
    requires Listed(s.trace, s.exec.queued)
    ensures var t := LaneSubmit.Parked(s, job); Listed(t.trace, t.exec.queued)
  {
    var t := LaneSubmit.Parked(s, job);
    forall lane
      ensures OwnOn(t.trace, lane) == SentOn(t.trace, lane) + IdsOf(QueueAt(t.exec.queued, lane))
    {
      Grow(s.trace, Submitted(job, None), lane);
      if lane == LaneFor(job) {
        assert IdsOf(QueueAt(t.exec.queued, lane)) == IdsOf(QueueAt(s.exec.queued, lane)) + [job.id];
      }
    }
  }

  lemma StartListed(s: Sys, job: Job)
    requires Listed(s.trace, s.exec.queued) && LaneFor(job) !in s.exec.queued
    ensures var t := LaneSubmit.Started(s, job); Listed(t.trace, t.exec.queued)
  {
    var t := LaneSubmit.Started(s, job);
    forall lane
      ensures OwnOn(t.trace, lane) == SentOn(t.trace, lane) + IdsOf(QueueAt(t.exec.queued, lane))
    {
      Grow(s.trace, Submitted(job, None), lane);
      Grow(s.trace + [Submitted(job, None)], Dispatched(job), lane);
    }
  }

  lemma PlainListed(s: Sys, t: Sys, entry: Entry)
    requires Listed(s.trace, s.exec.queued) && t.exec.queued == s.exec.queued && t.trace == s.trace + [entry]
    requires entry.Requested? || (entry.Submitted? && entry.leader.Some?)
    ensures Listed(t.trace, t.exec.queued)
  {
    forall lane
      ensures OwnOn(t.trace, lane) == SentOn(t.trace, lane) + IdsOf(QueueAt(t.exec.queued, lane))
    {
      Grow(s.trace, entry, lane);
    }
  }

  lemma PopListed(s: Sys, lane: Lane)
    requires Listed(s.trace, s.exec.queued) && HasNext(s, lane) && LaneFor(NextJob(s, lane)) == lane
    ensures var t := Popped(s, lane); Listed(t.trace, t.exec.queued)
  {
    var t := Popped(s, lane);
    forall l
      ensures OwnOn(t.trace, l) == SentOn(t.trace, l) + IdsOf(QueueAt(t.exec.queued, l))
    {
      Grow(s.trace, Dispatched(NextJob(s, lane)), l);
      if l == lane { PopIds(s, lane); }
    }
  }

  lemma PopIds(s: Sys, lane: Lane)
    requires HasNext(s, lane)
    ensures IdsOf(QueueAt(s.exec.queued, lane))
         == [NextJob(s, lane).id] + IdsOf(QueueAt(Popped(s, lane).exec.queued, lane))
  {
  }

  lemma AdmitListed(s: Sys, job: Job)
    requires Backed(s.exec.queued, s.exec.inFlight) && Listed(s.trace, s.exec.queued)
    ensures var t := Admit(s, job); Listed(t.trace, t.exec.queued)
  {
    LaneSubmit.AdmitCases(s, job);
    if JoinTarget(s.exec, job).Some? {
      PlainListed(s, Admit(s, job), Submitted(job, JoinTarget(s.exec, job)));
    } else if LaneFor(job) in s.exec.inFlight {
      ParkListed(s, job);
    } else {
      StartListed(s, job);
    }
  }

  lemma DeliverListed(s: Sys)
    requires s.events != [] && QueueInv(s) && Listed(s.trace, s.exec.queued)
    ensures var t := Deliver(s); Listed(t.trace, t.exec.queued)
  {
    var held := LaneHolding(s.exec.inFlight, s.events[0].id);
    if Terminal(s.events[0]) && held.Some? && held.value in s.exec.queued {
      DeliverPopListed(s, held.value);
    } else {
      DeliverStill(s);
    }
  }

  lemma DeliverPopListed(s: Sys, lane: Lane)
    requires s.events != [] && QueueInv(s) && Listed(s.trace, s.exec.queued) && Terminal(s.events[0])
    requires LaneHolding(s.exec.inFlight, s.events[0].id) == Some(lane) && lane in s.exec.queued
    ensures var t := Deliver(s); Listed(t.trace, t.exec.queued)
  {
    AbsorbPop(s, lane);
    NextOfLane(s, lane);
    PopListed(Absorbed(s), lane);
  }

  /** A delivery that starts no queued job changes neither the queues nor the history. */
  lemma DeliverStill(s: Sys)
    requires s.events != []
    requires var held := LaneHolding(s.exec.inFlight, s.events[0].id);
             !Terminal(s.events[0]) || held.None? || held.value !in s.exec.queued
    ensures var t := Deliver(s); t.trace == s.trace && t.exec.queued == s.exec.queued
  {
    var held := LaneHolding(s.exec.inFlight, s.events[0].id);
    if !Terminal(s.events[0]) || held.None? {
      AbsorbQuiet(s);
      AbsorbedStill(s, Deliver(s));
    } else {
      AbsorbFree(s, held.value);
      FreedStill(s, Deliver(s), held.value);
    }
  }

  lemma AbsorbedStill(s: Sys, t: Sys)
    requires s.events != [] && t == Absorbed(s)
    ensures t.trace == s.trace && t.exec.queued == s.exec.queued
  {
  }

  lemma FreedStill(s: Sys, t: Sys, lane: Lane)
    requires s.events != [] && t == Freed(Absorbed(s), lane)
    ensures t.trace == s.trace && t.exec.queued == s.exec.queued
  {
  }

  lemma NextOfLane(s: Sys, lane: Lane)
    requires s.events != [] && QueueInv(s) && lane in s.exec.queued
    ensures HasNext(Absorbed(s), lane) && LaneFor(NextJob(Absorbed(s), lane)) == lane
  {
    assert Waits(s.job, s.work.Keys, s.leaderOf, lane, NextJob(s, lane));
  }

  lemma NextListed(s: Sys, step: Step)
    requires QueueInv(s) && Listed(s.trace, s.exec.queued)
    ensures var t := Next(s, step); Listed(t.trace, t.exec.queued)
  {
    match step
    case Submit(job) =>
      if job.id >= s.next { AdmitListed(s, job); }
    case Recv =>
      if s.exec.pending == [] && s.events != [] { DeliverListed(s); }
    case Work(id, action) =>
      if id in s.work && id in s.job && Act(s.work[id], s.job[id], action).asks {
        PlainListed(s, Labour(s, id, action), Requested(id));
      }
  }

  /** Submissions are recorded with rising ids, all of them allocated. */
  ghost predicate Rising(trace: seq<Entry>, next: nat) {
    && (forall i :: 0 <= i < |trace| && trace[i].Submitted? ==> trace[i].job.id < next)
    && (forall i, j :: 0 <= i < j < |trace| && trace[i].Submitted? && trace[j].Submitted? ==>
          trace[i].job.id < trace[j].job.id)
  }

  lemma AppendRising(trace: seq<Entry>, next: nat, entry: Entry)
    requires Rising(trace, next)
    ensures !entry.Submitted? ==> Rising(trace + [entry], next)
    ensures entry.Submitted? && entry.job.id >= next ==> Rising(trace + [entry], entry.job.id + 1)
  {
  }

  lemma AdmitRising(s: Sys, job: Job)
    requires Backed(s.exec.queued, s.exec.inFlight) && Rising(s.trace, s.next) && job.id >= s.next
    ensures var t := Admit(s, job); Rising(t.trace, t.next)
  {
    LaneSubmit.AdmitCases(s, job);
    var entry := Submitted(job, JoinTarget(s.exec, job));
    AppendRising(s.trace, s.next, entry);
    AppendRising(s.trace + [entry], job.id + 1, Dispatched(job));
  }

  lemma DeliverRising(s: Sys)
    requires s.events != [] && QueueInv(s) && Rising(s.trace, s.next)
    ensures var t := Deliver(s); Rising(t.trace, t.next)
  {
    var held := LaneHolding(s.exec.inFlight, s.events[0].id);
    DeliverBase(s);
    if Terminal(s.events[0]) && held.Some? && held.value in s.exec.queued {
      AbsorbPop(s, held.value);
      AppendRising(s.trace, s.next, Dispatched(NextJob(s, held.value)));
    } else {
      DeliverStill(s);
    }
  }

  lemma NextRising(s: Sys, step: Step)
    requires QueueInv(s) && Rising(s.trace, s.next)
    ensures var t := Next(s, step); Rising(t.trace, t.next)
  {
    match step
    case Submit(job) =>
      if job.id >= s.next { AdmitRising(s, job); }
    case Recv =>
      if s.exec.pending == [] && s.events != [] { DeliverRising(s); }
    case Work(id, action) =>
      AppendRising(s.trace, s.next, Requested(id));
  }
}
