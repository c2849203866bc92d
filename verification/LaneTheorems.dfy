/** What holds of every run of the scheduler and its workers. */
module LaneTheorems {
  import opened Lanes
  import opened Wrappers
  import opened LaneRuns
  import opened LaneInvariant
  import LaneSubmit
  import LaneLabour
  import opened LaneDeliver
  import opened LaneSteps
  import opened LaneSends
  import opened LaneLists

  lemma HandKeeps(s: Sys)
    requires Inv(s) && s.exec.pending != []
    ensures Inv(Hand(s))
  {
    HandFans(s);
  }

  lemma HandFans(s: Sys)
    requires FanInv(s) && s.exec.pending != []
    ensures FanInv(Hand(s))
  {
    assert Handing(Hand(s).exec.pending, s.out, s.handed + 1);
  }

  lemma NextKeeps(s: Sys, step: Step)
    requires Inv(s)
    ensures Inv(Next(s, step))
  {
    match step
    case Submit(job) => SubmitKeeps(s, job);
    case Recv => RecvKeeps(s);
    case Work(id, action) => WorkKeeps(s, id, action);
  }

  lemma SubmitKeeps(s: Sys, job: Job)
    requires Inv(s)
    ensures Inv(Next(s, Submit(job)))
  {
    if job.id >= s.next { LaneSubmit.AdmitKeeps(s, job); }
  }

  lemma RecvKeeps(s: Sys)
    requires Inv(s)
    ensures Inv(Next(s, Recv))
  {
    if s.exec.pending != [] { HandKeeps(s); }
    else if s.events != [] { LaneDeliver.DeliverKeeps(s); }
  }

  lemma WorkKeeps(s: Sys, id: nat, action: Action)
    requires Inv(s)
    ensures Inv(Next(s, Work(id, action)))
  {
    if id in s.work && id in s.job { LaneLabour.LabourKeeps(s, id, action); }
  }

  lemma KeysNested(s: Sys)
    requires Inv(s)
    ensures s.work.Keys <= s.job.Keys
  {
  }

  lemma NextSends(s: Sys, step: Step)
    requires Inv(s) && Sends(s)
    ensures Sends(Next(s, step))
  {
    if step.Work? {
      if step.id in s.work && step.id in s.job { LabourSends(s, step.id, step.action); }
    } else {
      NextQuiet(s, step);
      NextKeeps(s, step);
      KeysNested(Next(s, step));
      QuietSends(s, Next(s, step));
    }
  }

  lemma NextWritten(s: Sys, step: Step)
    requires Inv(s) && Sends(s) && SentFirst(s)
    ensures SentFirst(Next(s, step))
  {
    if step.Work? {
      if step.id in s.work && step.id in s.job { LabourWritten(s, step.id, step.action); }
    } else {
      NextQuiet(s, step);
      QuietWritten(s, Next(s, step));
    }
  }

  lemma NextOrdered(s: Sys, step: Step, lane: Lane)
    requires Inv(s) && Sends(s) && SentFirst(s) && Ordered(s, lane) && Steady(Next(s, step), lane)
    ensures Ordered(Next(s, step), lane)
  {
    if step.Work? {
      if step.id in s.work && step.id in s.job { LabourOrdered(s, step.id, step.action, lane); }
    } else {
      NextQuiet(s, step);
      QuietOrdered(s, Next(s, step), lane);
    }
  }

  /** A second Send is never taken back. */
  lemma NextSteady(s: Sys, step: Step, lane: Lane)
    requires Inv(s) && Steady(Next(s, step), lane)
    ensures Steady(s, lane)
  {
    ResentStays(s, step);
    var t := Next(s, step);
    forall id | id in s.resent && id in s.job
      ensures LaneFor(s.job[id]) != lane
    {
      assert id in t.resent && t.job[id] == s.job[id];
    }
  }

  lemma ResentStays(s: Sys, step: Step)
    requires Inv(s)
    ensures s.resent <= Next(s, step).resent
    ensures forall id :: id in s.job ==> id in Next(s, step).job && Next(s, step).job[id] == s.job[id]
  {
    if step.Work? {
      WorkResent(s, step.id, step.action);
    } else {
      NextQuiet(s, step);
      QuietResent(s, Next(s, step));
    }
  }

  lemma WorkResent(s: Sys, id: nat, action: Action)
    ensures var t := Next(s, Work(id, action)); s.resent <= t.resent && t.job == s.job
  {
  }

  lemma QuietResent(s: Sys, t: Sys)
    requires Quiet(s, t)
    ensures s.resent <= t.resent && forall id :: id in s.job ==> id in t.job && t.job[id] == s.job[id]
  {
  }

  lemma {:induction false} RunInv(steps: seq<Step>)
    ensures Inv(Run(steps))
  {
    if steps != [] {
      RunInv(steps[..|steps| - 1]);
      NextKeeps(Run(steps[..|steps| - 1]), steps[|steps| - 1]);
    }
  }

  lemma {:induction false} RunSends(steps: seq<Step>)
    ensures Sends(Run(steps))
  {
    if steps != [] {
      RunInv(steps[..|steps| - 1]);
      RunSends(steps[..|steps| - 1]);
      NextSends(Run(steps[..|steps| - 1]), steps[|steps| - 1]);
    }
  }

  lemma {:induction false} RunListed(steps: seq<Step>)
    ensures Listed(Run(steps).trace, Run(steps).exec.queued)
  {
    if steps != [] {
      RunInv(steps[..|steps| - 1]);
      RunListed(steps[..|steps| - 1]);
      NextListed(Run(steps[..|steps| - 1]), steps[|steps| - 1]);
    }
  }

  lemma RunKeeps(steps: seq<Step>)
    ensures Inv(Run(steps)) && Sends(Run(steps)) && Listed(Run(steps).trace, Run(steps).exec.queued)
  {
    RunInv(steps);
    RunSends(steps);
    RunListed(steps);
  }

  lemma {:induction false} RunFromKeeps(s: Sys, more: seq<Step>)
    requires Inv(s)
    ensures Inv(RunFrom(s, more))
  {
    if more != [] {
      RunFromKeeps(s, more[..|more| - 1]);
      NextKeeps(RunFrom(s, more[..|more| - 1]), more[|more| - 1]);
    }
  }

  ghost predicate Reachable(s: Sys) {
    exists steps :: s == Run(steps)
  }

  lemma ReachableInv(s: Sys)
    requires Reachable(s)
    ensures Inv(s)
  {
    var steps :| s == Run(steps);
    RunKeeps(steps);
  }

  lemma NextReachable(s: Sys, step: Step)
    requires Reachable(s)
    ensures Reachable(Next(s, step))
  {
    var steps :| s == Run(steps);
    assert (steps + [step])[..|steps|] == steps;
    assert Next(s, step) == Run(steps + [step]);
  }

  // ---- Exactly once ----

  /** What the daemon has been handed, in order. */
  function Handed(s: Sys): seq<Event> {
    if s.handed <= |s.out| then s.out[..s.handed] else s.out
  }

  /** The job whose request serves `id`. */
  function Source(s: Sys, id: nat): nat {
    if id in s.leaderOf then s.leaderOf[id] else id
  }

  ghost predicate Shared(s: Sys, id: nat) {
    id in s.job && !s.job[id].Open?
  }

  lemma LaunchedHeard(s: Sys, id: nat)
    requires Words(s.work, s.job, s.out, s.events, s.answers) && Shared(s, id) && id in s.work && s.job[id].id == id
    ensures Heard(s, id) == [] || (id in s.answers && Heard(s, id) <= [Done(id, s.answers[id]), Dropped(id)])
    ensures Over(Heard(s, id)) ==> id in s.answers && Heard(s, id) == [Done(id, s.answers[id]), Dropped(id)]
  {
    assert WordOk(s.work[id], s.job[id], Word(s, id), s.answers);
    assert Heard(s, id) <= Word(s, id);
  }

  /** A snapshot, lifecycle or `agent.get` id hears nothing, or its answer, or that and the release. */
  lemma SharedHeard(s: Sys, id: nat)
    requires Ids(s.next, s.job, s.work.Keys, s.leaderOf) && FanInv(s) && Shared(s, id)
    ensures var l := Source(s, id);
            Heard(s, id) == [] || (l in s.answers && Heard(s, id) <= [Done(id, s.answers[l]), Dropped(id)])
    ensures Over(Heard(s, id)) ==>
              Source(s, id) in s.answers && Heard(s, id) == [Done(id, s.answers[Source(s, id)]), Dropped(id)]
  {
    var l := Source(s, id);
    if l in s.work {
      LaunchedHeard(s, l);
      if id in s.leaderOf {
        RenamedHeard(s, l, id);
      }
    } else {
      assert Heard(s, l) == [];
    }
  }

  /** A follower hears what its leader hears, under its own id. */
  lemma RenamedHeard(s: Sys, l: nat, id: nat)
    requires Mirrored(s.leaderOf, s.out) && id in s.leaderOf && s.leaderOf[id] == l
    requires Heard(s, l) == [] || (l in s.answers && Heard(s, l) <= [Done(l, s.answers[l]), Dropped(l)])
    ensures Heard(s, id) == [] || (l in s.answers && Heard(s, id) <= [Done(id, s.answers[l]), Dropped(id)])
    ensures Over(Heard(s, id)) <==> Over(Heard(s, l))
  {
    OverRenamed(Heard(s, l), id);
  }

  lemma ProjTake(es: seq<Event>, n: nat, id: nat)
    requires n <= |es|
    ensures Proj(es[..n], id) <= Proj(es, id)
  {
    ProjAppend(es[..n], es[n..], id);
    assert es[..n] + es[n..] == es;
  }

  /** A shared id has been handed a prefix of its answer and its release, an unknown id nothing. */
  ghost predicate HandedWell(s: Sys, id: nat) {
    if id !in s.job then Proj(Handed(s), id) == []
    else s.job[id].Open? || Proj(Handed(s), id) == []
         || (Source(s, id) in s.answers
             && Proj(Handed(s), id) <= [Done(id, s.answers[Source(s, id)]), Dropped(id)])
  }

  lemma HandedWord(s: Sys, id: nat)
    requires Ids(s.next, s.job, s.work.Keys, s.leaderOf) && FanInv(s)
    ensures HandedWell(s, id)
  {
    ProjTake(s.out, s.handed, id);
    if id in s.job && !s.job[id].Open? {
      SharedHeard(s, id);
    } else if id !in s.job {
      assert Heard(s, id) == [];
    }
  }

  /** In every run each snapshot, lifecycle or `agent.get` id, leader or follower, is handed at
      most one Done and after it at most one Dropped, with the answer to its source's request;
      an id never submitted is handed nothing. */
  lemma HandedAtMostOnce(steps: seq<Step>, id: nat)
    ensures HandedWell(Run(steps), id)
  {
    RunKeeps(steps);
    HandedWord(Run(steps), id);
  }

  // ---- Freshness ----

  /** Job `l`, dispatched at `d`, writes only after that; if its answer is no refusal it has
      written. */
  ghost predicate Freshly(s: Sys, l: nat, d: nat, reply: Reply) {
    && (forall w :: 0 <= w < |s.trace| && s.trace[w] == Requested(l) ==> d < w)
    && (reply.Accepted? ==> Requested(l) in s.trace)
  }

  /** Both take a snapshot, or both a lifecycle snapshot. */
  predicate SameKind(a: Job, b: Job) {
    (a.Snapshot? && b.Snapshot?) || (a.Lifecycle? && b.Lifecycle?)
  }

  /** Job `l` serves the answered job: it was dispatched at `d`, after that job was submitted
      at `a`. */
  ghost predicate Serves(s: Sys, event: Event, l: nat, a: nat, d: nat) {
    && event.Done? && event.id in s.job && l in s.job && a < d < |s.trace|
    && s.trace[a].Submitted? && s.trace[a].job == s.job[event.id]
    && s.trace[d] == Dispatched(s.job[l])
    && (l == event.id || SameKind(s.job[l], s.job[event.id]))
    && l in s.answers && s.answers[l] == event.reply
    && Freshly(s, l, d, event.reply)
  }

  lemma {:induction false} InOut(es: seq<Event>, k: nat)
    requires k < |es|
    ensures es[k] in Proj(es, es[k].id)
  {
    if k == 0 {
      assert Proj(es, es[0].id)[0] == es[0];
    } else {
      InOut(es[1..], k - 1);
    }
  }

  /** The answer heard is the source's. */
  lemma AnswerIsSource(s: Sys, k: nat)
    requires Ids(s.next, s.job, s.work.Keys, s.leaderOf) && FanInv(s)
    requires k < |s.out| && s.out[k].Done? && Shared(s, s.out[k].id)
    ensures var l := Source(s, s.out[k].id);
            Heard(s, s.out[k].id) != [] && l in s.answers && s.answers[l] == s.out[k].reply
  {
    InOut(s.out, k);
    SharedHeard(s, s.out[k].id);
  }

  lemma AnswerIsFresh(s: Sys, k: nat)
    requires Ids(s.next, s.job, s.work.Keys, s.leaderOf) && FanInv(s) && HistoryInv(s)
    requires k < |s.out| && s.out[k].Done? && Shared(s, s.out[k].id)
    ensures exists l, a, d :: Serves(s, s.out[k], l, a, d)
  {
    var event := s.out[k];
    AnswerIsSource(s, k);
    SourceDispatched(s, event.id);
    var l := Source(s, event.id);
    SourceStamps(s, event.id);
    SourceWrites(s, l);
    assert Serves(s, event, l, s.subAt[event.id], s.disAt[l]);
  }

  /** The job whose answer a job receives was dispatched after that job was submitted, and its
      request, if it is written, later still; only a refusal comes without a request. */
  lemma AnswersAreFresh(steps: seq<Step>, k: nat)
    requires k < |Handed(Run(steps))| && Handed(Run(steps))[k].Done?
    requires Shared(Run(steps), Handed(Run(steps))[k].id)
    ensures exists l, a, d :: Serves(Run(steps), Handed(Run(steps))[k], l, a, d)
  {
    RunKeeps(steps);
    AnswerIsFresh(Run(steps), k);
  }

  /** A source that was heard of was dispatched, and has its answer. */
  lemma SourceDispatched(s: Sys, id: nat)
    requires Ids(s.next, s.job, s.work.Keys, s.leaderOf) && FanInv(s) && Shared(s, id) && Heard(s, id) != []
    ensures var l := Source(s, id);
            l in s.job && l in s.work && (l == id || SameKind(s.job[l], s.job[id]))
            && !s.job[l].Open? && !s.work[l].Waiting? && !s.work[l].Asked?
  {
    var l := Source(s, id);
    assert Heard(s, l) != [];
    assert l in s.work;
    assert WordOk(s.work[l], s.job[l], Word(s, l), s.answers);
  }

  lemma SourceStamps(s: Sys, id: nat)
    requires HistoryInv(s) && id in s.job && Source(s, id) in s.work && Source(s, id) in s.job
    ensures var l := Source(s, id);
            id in s.subAt && l in s.disAt && s.subAt[id] < s.disAt[l] < |s.trace|
            && s.trace[s.disAt[l]] == Dispatched(s.job[l])
            && s.trace[s.subAt[id]].Submitted? && s.trace[s.subAt[id]].job == s.job[id]
  {
  }

  lemma SourceWrites(s: Sys, l: nat)
    requires HistoryInv(s) && l in s.work && l in s.job && !s.job[l].Open?
    requires !s.work[l].Waiting? && !s.work[l].Asked?
    ensures l in s.answers && Freshly(s, l, s.disAt[l], s.answers[l])
  {
    assert AskedFirst(s.work[l], l, s.reqAt, s.answers);
    if s.answers[l].Accepted? { assert s.trace[s.reqAt[l]] == Requested(l); }
  }

  // ---- Followers ----

  ghost function FollowerSet(s: Sys, l: nat): set<nat> {
    set f | f in s.leaderOf && s.leaderOf[f] == l
  }

  lemma StepFreezesFollowers(s: Sys, step: Step, l: nat)
    requires Inv(s) && l in s.work
    ensures FollowerSet(Next(s, step), l) == FollowerSet(s, l) && l in Next(s, step).work
  {
    if step.Work? {
      WorkFreezes(s, step.id, step.action, l);
    } else {
      NextQuiet(s, step);
      QuietFreezes(s, Next(s, step), l);
    }
  }

  lemma WorkFreezes(s: Sys, id: nat, action: Action, l: nat)
    requires l in s.work
    ensures var t := Next(s, Work(id, action)); FollowerSet(t, l) == FollowerSet(s, l) && l in t.work
  {
    if id in s.work && id in s.job { LaneLabour.LabourFrame(s, id, action); }
  }

  lemma QuietFreezes(s: Sys, t: Sys, l: nat)
    requires Quiet(s, t) && l in s.work
    ensures FollowerSet(t, l) == FollowerSet(s, l) && l in t.work
  {
  }

  /** Once a job is dispatched no further job ever joins it. */
  lemma {:induction false} DispatchFreezesFollowers(s: Sys, more: seq<Step>, l: nat)
    requires Inv(s) && l in s.work
    ensures FollowerSet(RunFrom(s, more), l) == FollowerSet(s, l) && l in RunFrom(s, more).work
  {
    if more != [] {
      DispatchFreezesFollowers(s, more[..|more| - 1], l);
      LastFreezes(s, more, l);
    }
  }

  lemma LastFreezes(s: Sys, more: seq<Step>, l: nat)
    requires Inv(s) && more != [] && l in RunFrom(s, more[..|more| - 1]).work
    ensures var before := RunFrom(s, more[..|more| - 1]);
            FollowerSet(RunFrom(s, more), l) == FollowerSet(before, l) && l in RunFrom(s, more).work
  {
    RunFromKeeps(s, more[..|more| - 1]);
    StepFreezesFollowers(RunFrom(s, more[..|more| - 1]), more[|more| - 1], l);
  }

  // ---- Lanes ----

  /** Two dispatched jobs of one lane are never both unfinished. */
  lemma OneJobPerLane(steps: seq<Step>, a: nat, b: nat)
    ensures var s := Run(steps);
            (a in s.work && b in s.work && a in s.job && b in s.job && LaneFor(s.job[a]) == LaneFor(s.job[b])
             && !Over(Heard(s, a)) && !Over(Heard(s, b))) ==> a == b
  {
    RunKeeps(steps);
  }

  /** The ids dispatched on a lane, followed by those queued there, are exactly the ids
      submitted on it that did not join another job, in submission order. */
  lemma DispatchInSubmissionOrder(steps: seq<Step>, lane: Lane)
    ensures var s := Run(steps);
            OwnOn(s.trace, lane) == SentOn(s.trace, lane) + IdsOf(QueueAt(s.exec.queued, lane))
  {
    RunKeeps(steps);
  }

  lemma {:induction false} RunWritten(steps: seq<Step>)
    ensures SentFirst(Run(steps))
  {
    if steps != [] {
      var before := steps[..|steps| - 1];
      RunKeeps(before);
      RunWritten(before);
      NextWritten(Run(before), steps[|steps| - 1]);
    }
  }

  lemma NextOnce(s: Sys, step: Step)
    requires Inv(s) && Sends(s) && SentFirst(s) && Once(s)
    ensures Once(Next(s, step))
  {
    if step.Work? {
      if step.id in s.work && step.id in s.job { LabourOnce(s, step.id, step.action); }
    } else {
      NextQuiet(s, step);
      QuietOnce(s, Next(s, step));
    }
  }

  lemma {:induction false} RunOnce(steps: seq<Step>)
    ensures Once(Run(steps))
  {
    if steps != [] {
      var before := steps[..|steps| - 1];
      RunKeeps(before);
      RunWritten(before);
      RunOnce(before);
      NextOnce(Run(before), steps[|steps| - 1]);
    }
  }

  lemma {:induction false} RunOrdered(steps: seq<Step>, lane: Lane)
    requires Steady(Run(steps), lane)
    ensures Ordered(Run(steps), lane)
  {
    if steps != [] {
      var before := steps[..|steps| - 1];
      RunKeeps(before);
      RunWritten(before);
      NextSteady(Run(before), steps[|steps| - 1], lane);
      RunOrdered(before, lane);
      NextOrdered(Run(before), steps[|steps| - 1], lane);
    }
  }

  lemma {:induction false} RunRising(steps: seq<Step>)
    ensures Rising(Run(steps).trace, Run(steps).next)
  {
    if steps != [] {
      var before := steps[..|steps| - 1];
      RunKeeps(before);
      RunRising(before);
      NextRising(Run(before), steps[|steps| - 1]);
    }
  }

  /** Ids are ordered as their submissions are. */
  lemma IdsFollowSubmissions(s: Sys, a: nat, b: nat)
    requires Stamped(s.job, s.leaderOf, s.trace, s.subAt) && Rising(s.trace, s.next)
    requires a in s.job && b in s.job && s.job[a].id == a && s.job[b].id == b && a < b
    ensures a in s.subAt && b in s.subAt && s.subAt[a] < s.subAt[b]
  {
  }

  /** The lane of the request at place `i` of the history, if there is one. */
  function LaneAt(s: Sys, i: nat): Option<Lane>
    requires i < |s.trace|
  {
    if s.trace[i].Requested? && s.trace[i].id in s.job then Some(LaneFor(s.job[s.trace[i].id])) else None
  }

  lemma OrderedWrites(s: Sys, i: nat, j: nat, lane: Lane)
    requires Ids(s.next, s.job, s.work.Keys, s.leaderOf) && Stamped(s.job, s.leaderOf, s.trace, s.subAt)
    requires Rising(s.trace, s.next) && Ordered(s, lane)
    requires i < j < |s.trace| && LaneAt(s, i) == Some(lane) && LaneAt(s, j) == Some(lane)
    ensures var a, b := s.trace[i].id, s.trace[j].id; a in s.subAt && b in s.subAt && s.subAt[a] < s.subAt[b]
  {
    assert PairOrdered(s.trace, s.job, lane, i, j);
    IdsFollowSubmissions(s, s.trace[i].id, s.trace[j].id);
  }

  /** On a lane none of whose leases got a second Send, requests are written once per job and in
      submission order, although a failed lease keeps its worker while the next job runs. */
  lemma WritesInSubmissionOrder(steps: seq<Step>, i: nat, j: nat, lane: Lane)
    requires Steady(Run(steps), lane) && i < j < |Run(steps).trace|
    requires LaneAt(Run(steps), i) == Some(lane) && LaneAt(Run(steps), j) == Some(lane)
    ensures var s := Run(steps);
            var a, b := s.trace[i].id, s.trace[j].id;
            a in s.subAt && b in s.subAt && s.subAt[a] < s.subAt[b]
  {
    RunKeeps(steps);
    RunOrdered(steps, lane);
    RunRising(steps);
    OrderedWrites(Run(steps), i, j, lane);
  }

  /** A job given no second Send writes its request at most once. */
  lemma WrittenOnce(steps: seq<Step>, i: nat, j: nat)
    requires i < j < |Run(steps).trace| && Run(steps).trace[i].Requested?
    requires Run(steps).trace[i].id !in Run(steps).resent
    ensures Run(steps).trace[i] != Run(steps).trace[j]
  {
    RunOnce(steps);
    assert PairOnce(Run(steps).trace, Run(steps).resent, i, j);
  }

  /** Every request written belongs to a submitted job, and a lease writes only after a Send. */
  lemma WritesWereSent(steps: seq<Step>, i: nat)
    requires i < |Run(steps).trace| && Run(steps).trace[i].Requested?
    ensures var s := Run(steps);
            var a := s.trace[i].id;
            LaneAt(s, i).Some? && (s.job[a].Open? ==> a in s.sent)
  {
    RunWritten(steps);
    var s := Run(steps);
    assert s.trace[i] == Requested(s.trace[i].id);
  }

  /** An open job's handed events start with its only Opened, or with a failure to open, and
      answer only what was sent. */
  ghost predicate LeasedWell(s: Sys, id: nat) {
    var word := Proj(Handed(s), id);
    && (word == [] || ((word[0].Opened? || word[0].Failed?) && NoOpened(word[1..])))
    && (Answered(word) ==> id in s.sent)
  }

  lemma LeaseHanded(s: Sys, id: nat)
    requires Words(s.work, s.job, s.out, s.events, s.answers) && AllPermitted(s) && s.handed <= |s.out|
    requires id in s.job && s.job[id].Open? && id in s.work
    ensures LeasedWell(s, id)
  {
    ProjTake(s.out, s.handed, id);
    var word := Proj(Handed(s), id);
    assert WordOk(s.work[id], s.job[id], Word(s, id), s.answers);
    assert word <= Word(s, id);
    if word != [] {
      assert word[0] == Word(s, id)[0] && word[1..] <= Word(s, id)[1..];
    }
    if Answered(word) {
      var k :| 0 <= k < |word| && Answering(word[k]);
      assert Answering(Word(s, id)[k]);
    }
  }

  lemma OpenNeverFollows(s: Sys, id: nat)
    requires Led(s.exec.coalesced, s.job, s.leaderOf, s.out) && Silent(s.work.Keys, s.leaderOf, s.out, s.events)
    requires id in s.job && s.job[id].Open? && id !in s.work
    ensures Proj(Handed(s), id) == []
  {
    assert Heard(s, id) == [];
    ProjTake(s.out, if s.handed <= |s.out| then s.handed else |s.out|, id);
    assert s.out[..|s.out|] == s.out;
  }

  /** An open job is handed at most one Opened, before anything else unless it failed to open,
      and an answer only after its lease was sent a request. */
  lemma LeaseProtocol(steps: seq<Step>, id: nat)
    requires id in Run(steps).job && Run(steps).job[id].Open?
    ensures LeasedWell(Run(steps), id)
  {
    RunKeeps(steps);
    if id in Run(steps).work {
      LeaseHanded(Run(steps), id);
    } else {
      OpenNeverFollows(Run(steps), id);
    }
  }

  // ---- What the daemon may rely on ----

  /** The lane found by searching `in_flight` is the only one there could be. */
  lemma HolderIsUnique(s: Sys, id: nat, lane: Option<Lane>)
    requires Reachable(s) && Holds(s.exec.inFlight, id, lane)
    ensures lane == LaneHolding(s.exec.inFlight, id)
  {
    ReachableInv(s);
  }

  lemma LeaseFace(s: Sys, id: nat)
    requires Reachable(s) && id in s.job && s.job[id].Open?
    ensures LeasedWell(s, id)
  {
    var steps :| s == Run(steps);
    LeaseProtocol(steps, id);
  }

  /** Whether `try_recv` has an event to return. */
  ghost predicate Ready(s: Sys) {
    s.exec.pending != [] || s.events != []
  }

  /** A receive hands over one event and touches neither jobs nor leases. */
  lemma RecvFace(s: Sys) returns (event: Event)
    requires Reachable(s) && Ready(s)
    ensures var t := Next(s, Recv);
            Reachable(t) && Handed(t) == Handed(s) + [event]
            && t.sent == s.sent && t.job == s.job && t.next == s.next
  {
    ReachableInv(s);
    NextReachable(s, Recv);
    event := if s.exec.pending != [] then s.exec.pending[0] else s.events[0];
    RecvHands(s);
    if s.exec.pending == [] { DeliverFace(s); }
  }

  /** Which event that is. */
  lemma RecvHands(s: Sys)
    requires Reachable(s) && Ready(s)
    ensures Handed(Next(s, Recv)) == Handed(s) + [if s.exec.pending != [] then s.exec.pending[0] else s.events[0]]
  {
    OutWaits(s);
    if s.exec.pending == [] { DeliverHands(s); } else { HandHands(s); }
  }

  lemma OutWaits(s: Sys)
    requires Reachable(s)
    ensures s.handed <= |s.out| && s.out[s.handed..] == s.exec.pending
  {
    ReachableInv(s);
  }

  lemma HandHands(s: Sys)
    requires s.handed <= |s.out| && s.out[s.handed..] == s.exec.pending != []
    ensures Handed(Hand(s)) == Handed(s) + [s.exec.pending[0]]
  {
    PrefixGrows(s.out, s.out, s.handed, s.exec.pending[0]);
  }

  lemma DeliverHands(s: Sys)
    requires s.handed <= |s.out| && s.out[s.handed..] == s.exec.pending == [] && s.events != []
    ensures Handed(Deliver(s)) == Handed(s) + [s.events[0]]
  {
    DeliverFace(s);
    PrefixGrows(s.out, Deliver(s).out, s.handed, s.events[0]);
  }

  lemma PrefixGrows(a: seq<Event>, b: seq<Event>, k: nat, event: Event)
    requires k <= |a| && a <= b && k < |b| && b[k] == event
    ensures b[..k + 1] == a[..k] + [event]
  {
  }

  lemma DeliverFace(s: Sys)
    requires s.events != []
    ensures var t := Deliver(s);
            t.handed == s.handed + 1 && s.out + [s.events[0]] <= t.out
            && t.sent == s.sent && t.job == s.job && t.next == s.next
  {
    DeliverBase(s);
    assert Received(s).out == (s.out + [s.events[0]]) + Copies(s.exec, s.events[0]);
  }

  lemma SubmitFace(s: Sys, job: Job)
    requires Reachable(s) && job.id >= s.next
    ensures var t := Next(s, Submit(job));
            Reachable(t) && Handed(t) == Handed(s) && t.sent == s.sent
            && t.job == s.job[job.id := job] && t.next == job.id + 1
  {
    NextReachable(s, Submit(job));
    assert Admit(s, job).out == s.out && Admit(s, job).handed == s.handed;
  }

  lemma WorkFace(s: Sys, id: nat, action: Action)
    requires Reachable(s)
    ensures var t := Next(s, Work(id, action));
            Reachable(t) && Handed(t) == Handed(s) && t.job == s.job && t.next == s.next
            && s.sent <= t.sent && t.sent <= (if action == Push(Send) then s.sent + {id} else s.sent)
  {
    NextReachable(s, Work(id, action));
  }

  /** Only a second Send to a lease makes it one that was sent twice. */
  lemma ResentFace(s: Sys, step: Step)
    requires Reachable(s)
    ensures Next(s, step).resent
         <= s.resent + (if step.Work? && step.action == Push(Send) && step.id in s.sent then {step.id} else {})
    ensures s.resent <= s.sent
  {
    ReachableSends(s);
    NextResent(s, step);
  }

  lemma ReachableSends(s: Sys)
    requires Reachable(s)
    ensures Inv(s) && s.resent <= s.sent
  {
    var steps :| s == Run(steps);
    RunKeeps(steps);
  }

  lemma NextResent(s: Sys, step: Step)
    requires Inv(s)
    ensures Next(s, step).resent
         <= s.resent + (if step.Work? && step.action == Push(Send) && step.id in s.sent then {step.id} else {})
  {
    if !step.Work? { NextQuiet(s, step); }
  }

  /** A job that opens no lease is handed its Done before anything else, and never an Opened. */
  lemma PlainFace(s: Sys, id: nat)
    requires Reachable(s) && id in s.job && !s.job[id].Open?
    ensures NoOpened(Proj(Handed(s), id))
    ensures Proj(Handed(s), id) != [] ==> Proj(Handed(s), id)[0].Done?
  {
    var steps :| s == Run(steps);
    HandedAtMostOnce(steps, id);
  }

  // ---- What was done before and after ----

  /** From `a` to `b` the history has only grown. */
  ghost predicate Later(a: Sys, b: Sys) {
    a.trace <= b.trace && a.next <= b.next
  }

  lemma NextLater(s: Sys, step: Step)
    requires Reachable(s)
    ensures Later(s, Next(s, step))
  {
    NextExtends(s, step);
    NextCounts(s, step);
  }

  lemma NextExtends(s: Sys, step: Step)
    requires Reachable(s)
    ensures s.trace <= Next(s, step).trace
  {
    if step.Work? {
      WorkExtends(s, step.id, step.action);
    } else {
      ReachableInv(s);
      NextQuiet(s, step);
      QuietExtends(s, Next(s, step));
    }
  }

  lemma QuietExtends(s: Sys, t: Sys)
    requires Quiet(s, t)
    ensures s.trace <= t.trace
  {
  }

  lemma WorkExtends(s: Sys, id: nat, action: Action)
    ensures s.trace <= Next(s, Work(id, action)).trace
  {
  }

  /** The counter of ids never goes back. */
  lemma NextCounts(s: Sys, step: Step)
    ensures s.next <= Next(s, step).next
  {
    if step.Recv? && s.exec.pending == [] && s.events != [] { DeliverBase(s); }
  }

  /** A job that was allocated later was submitted later. */
  lemma LaterSubmission(a: Sys, b: Sys, i: nat)
    requires Reachable(a) && Later(a, b) && i < |b.trace| && b.trace[i].Submitted? && b.trace[i].job.id >= a.next
    ensures i >= |a.trace|
  {
    var steps :| a == Run(steps);
    RunRising(steps);
  }

  /** A snapshot submitted after `a` and accepted was read from a request written after `a`. */
  lemma LaterAnswer(a: Sys, b: Sys, k: nat)
    requires Reachable(a) && Reachable(b) && Later(a, b)
    requires k < |Handed(b)| && Handed(b)[k].Done? && Handed(b)[k].reply.Accepted?
    requires Shared(b, Handed(b)[k].id) && Handed(b)[k].id >= a.next
    ensures exists l, w :: WrittenFor(b, Handed(b)[k], l, w, |a.trace|)
  {
    var steps :| b == Run(steps);
    AnswersAreFresh(steps, k);
    var l, x, d :| Serves(b, Handed(b)[k], l, x, d);
    JobIdIs(b, Handed(b)[k].id);
    LaterSubmission(a, b, x);
    var w :| 0 <= w < |b.trace| && b.trace[w] == Requested(l);
    assert WrittenFor(b, Handed(b)[k], l, w, |a.trace|);
  }

  lemma JobIdIs(s: Sys, id: nat)
    requires Reachable(s) && id in s.job
    ensures s.job[id].id == id
  {
    ReachableInv(s);
  }

  /** The answer is that of the request written for job `l` at `w`, not before `since`. */
  ghost predicate WrittenFor(s: Sys, event: Event, l: nat, w: nat, since: nat) {
    && event.Done? && event.id in s.job && l in s.job && since <= w < |s.trace| && s.trace[w] == Requested(l)
    && (l == event.id || SameKind(s.job[l], s.job[event.id]))
    && l in s.answers && s.answers[l] == event.reply
  }
}
