/** Which jobs keep each other waiting, said of the jobs' own fields. */
module LaneExclusion {
  import opened Lanes
  import opened LaneRuns
  import opened LaneInvariant
  import opened LaneTheorems
  import opened Wrappers

  /** The job talks to this pane. */
  predicate OnPane(job: Job, pane: string) {
    (job.Open? && job.pane == pane) || (job.AgentGet? && job.target == pane)
  }

  /** The job reads the whole session. */
  predicate ReadsAll(job: Job) {
    job.Snapshot? || job.Lifecycle?
  }

  /** The two jobs may not run at once: they name one pane, or both read the whole session. */
  predicate Rivals(a: Job, b: Job) {
    || (ReadsAll(a) && ReadsAll(b))
    || (a.Open? && OnPane(b, a.pane))
    || (a.AgentGet? && OnPane(b, a.target))
  }

  /** The daemon has heard that the job failed, or that it was released. */
  ghost predicate Finished(word: seq<Event>) {
    exists k :: 0 <= k < |word| && (word[k].Failed? || word[k].Dropped?)
  }

  lemma FinishedIsOver(word: seq<Event>)
    ensures Finished(word) <==> Over(word)
  {
    if Finished(word) {
      var k :| 0 <= k < |word| && (word[k].Failed? || word[k].Dropped?);
      assert Terminal(word[k]);
    }
    if Over(word) {
      var k :| 0 <= k < |word| && Terminal(word[k]);
      assert word[k].Failed? || word[k].Dropped?;
    }
  }

  /** Handed to a worker, and not yet heard to be over. */
  ghost predicate Running(s: Sys, id: nat) {
    id in s.work && id in s.job && !Finished(Heard(s, id))
  }

  lemma RivalsShareALane(a: Job, b: Job)
    ensures Rivals(a, b) <==> LaneFor(a) == LaneFor(b)
  {
  }

  /** In every run two jobs that name one pane, whether to open it or to ask for its agent, are
      never with workers at once and both unfinished; nor are two snapshots of any kind. */
  lemma RivalsNeverRunTogether(steps: seq<Step>, a: nat, b: nat)
    requires Running(Run(steps), a) && Running(Run(steps), b) && Rivals(Run(steps).job[a], Run(steps).job[b])
    ensures a == b
  {
    RivalsShareALane(Run(steps).job[a], Run(steps).job[b]);
    FinishedIsOver(Heard(Run(steps), a));
    FinishedIsOver(Heard(Run(steps), b));
    OneJobPerLane(steps, a, b);
  }

  /** The job was submitted, joined no other, and was not handed to a worker. */
  ghost predicate Queuing(s: Sys, id: nat) {
    id in s.job && id !in s.leaderOf && id !in s.work
  }

  lemma QueuedBehind(s: Sys, id: nat) returns (holder: nat)
    requires QueueInv(s) && Flying(s.exec.inFlight, s.job, s.work.Keys, s.out) && Queuing(s, id)
    ensures Running(s, holder) && LaneFor(s.job[holder]) == LaneFor(s.job[id])
  {
    assert Queued(s.exec.queued, s.job[id]);
    holder := s.exec.inFlight[LaneFor(s.job[id])];
    FinishedIsOver(Heard(s, holder));
  }

  /** And a job is kept waiting only by a rival: while it is queued, one of its own pane, or of
      the snapshots if it is one, is running. */
  lemma QueuedOnlyBehindARival(steps: seq<Step>, id: nat) returns (holder: nat)
    requires Queuing(Run(steps), id)
    ensures Running(Run(steps), holder) && Rivals(Run(steps).job[holder], Run(steps).job[id])
  {
    RunInv(steps);
    holder := QueuedBehind(Run(steps), id);
    RivalsShareALane(Run(steps).job[holder], Run(steps).job[id]);
  }

  lemma FollowsItsKind(s: Sys, id: nat)
    requires Led(s.exec.coalesced, s.job, s.leaderOf, s.out) && id in s.leaderOf
    ensures id in s.job && s.leaderOf[id] in s.job && SameKind(s.job[s.leaderOf[id]], s.job[id])
  {
  }

  lemma TwinsAreOne(s: Sys, a: nat, b: nat)
    requires QueueInv(s) && Queuing(s, a) && Queuing(s, b) && SameKind(s.job[a], s.job[b])
    ensures a == b
  {
    var i := PlaceOf(s, a);
    var j := PlaceOf(s, b);
    var queue := s.exec.queued[LaneFor(s.job[a])];
    assert Sorted(queue);
  }

  lemma PlaceOf(s: Sys, id: nat) returns (i: nat)
    requires QueueInv(s) && Queuing(s, id)
    ensures LaneFor(s.job[id]) in s.exec.queued
    ensures var queue := s.exec.queued[LaneFor(s.job[id])]; i < |queue| && queue[i] == s.job[id]
  {
    assert Queued(s.exec.queued, s.job[id]);
    i :| 0 <= i < |s.exec.queued[LaneFor(s.job[id])]| && s.exec.queued[LaneFor(s.job[id])][i] == s.job[id];
  }

  /** Requests are shared within a kind, and always: a job that joined another takes the same kind
      of snapshot, an `agent.get` or an open joins nothing, and no two queued jobs take the same
      kind of snapshot, for the second would have joined the first. */
  lemma SnapshotsAreShared(steps: seq<Step>, a: nat, b: nat)
    ensures var s := Run(steps);
            && (a in s.leaderOf ==> a in s.job && s.leaderOf[a] in s.job && SameKind(s.job[s.leaderOf[a]], s.job[a]))
            && (Queuing(s, a) && Queuing(s, b) && SameKind(s.job[a], s.job[b]) ==> a == b)
  {
    RunInv(steps);
    var s := Run(steps);
    if a in s.leaderOf { FollowsItsKind(s, a); }
    if Queuing(s, a) && Queuing(s, b) && SameKind(s.job[a], s.job[b]) { TwinsAreOne(s, a, b); }
  }

  // ---- Copies ----

  predicate Rising(ids: seq<nat>) {
    forall i, j :: 0 <= i < j < |ids| ==> ids[i] < ids[j]
  }

  ghost predicate Ascending(coalesced: map<nat, seq<nat>>, next: nat) {
    forall l :: l in coalesced ==> Rising(coalesced[l]) && forall f :: f in coalesced[l] ==> f < next
  }

  lemma JoinAscends(followers: seq<nat>, id: nat)
    requires Rising(followers) && forall f :: f in followers ==> f < id
    ensures Rising(followers + [id]) && forall f :: f in followers + [id] ==> f < id + 1
  {
    assert forall i :: 0 <= i < |followers| ==> followers[i] in followers;
  }

  lemma EnqueueAscends(x: Exec, job: Job, next: nat)
    requires Ascending(x.coalesced, next) && job.id >= next
    ensures Ascending(Enqueue(x, job).coalesced, job.id + 1)
  {
    var leader := JoinTarget(x, job);
    if leader.Some? { JoinAscends(FollowersOf(x.coalesced, leader.value), job.id); }
  }

  lemma AbsorbAscends(x: Exec, event: Event, lane: Option<Lane>, next: nat)
    requires Ascending(x.coalesced, next) && (lane.Some? ==> lane.value in x.inFlight)
    ensures Ascending(Absorb(x, event, lane).coalesced, next)
  {
  }

  lemma SubmitAscends(s: Sys, job: Job)
    requires Ascending(s.exec.coalesced, s.next) && job.id >= s.next
    ensures Ascending(Admit(s, job).exec.coalesced, Admit(s, job).next)
  {
    EnqueueAscends(s.exec, job, s.next);
  }

  lemma DeliverAscends(s: Sys)
    requires Ascending(s.exec.coalesced, s.next) && s.events != []
    ensures Ascending(Deliver(s).exec.coalesced, Deliver(s).next)
  {
    AbsorbAscends(s.exec, s.events[0], LaneHolding(s.exec.inFlight, s.events[0].id), s.next);
  }

  lemma NextAscends(s: Sys, step: Step)
    requires Ascending(s.exec.coalesced, s.next)
    ensures Ascending(Next(s, step).exec.coalesced, Next(s, step).next)
  {
    match step
    case Submit(job) => if job.id >= s.next { SubmitAscends(s, job); }
    case Recv => if s.exec.pending == [] && s.events != [] { DeliverAscends(s); }
    case Work(_, _) =>
  }

  lemma {:induction false} RunAscends(steps: seq<Step>)
    ensures Ascending(Run(steps).exec.coalesced, Run(steps).next)
  {
    if steps != [] {
      RunAscends(steps[..|steps| - 1]);
      NextAscends(Run(steps[..|steps| - 1]), steps[|steps| - 1]);
    }
  }

  /** In every run the copies of an event go to the jobs that joined its own, each under its own id,
      the one that was submitted first before the others. */
  lemma CopiesFollowSubmission(steps: seq<Step>, event: Event)
    ensures var followers := FollowersOf(Run(steps).exec.coalesced, event.id);
            var copies := Fan(event, followers);
            && |copies| == |followers| && Rising(followers)
            && (forall k :: 0 <= k < |copies| ==> copies[k] == event.(id := followers[k]))
  {
    RunAscends(steps);
  }
}
