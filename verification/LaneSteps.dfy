/** What one submission or one delivery leaves alone. */
module LaneSteps {
  import opened Lanes
  import opened LaneRuns
  import opened LaneInvariant
  import LaneSubmit
  import opened LaneDeliver

  /** `after` extends `before` and records no further request. */
  ghost predicate NoRequest(before: seq<Entry>, after: seq<Entry>) {
    before <= after && forall k :: |before| <= k < |after| ==> !after[k].Requested?
  }

  /** Workers keep their place and what they have emitted; only fresh workers appear, and new
      followers have leaders that are not dispatched. */
  ghost predicate Quiet(s: Sys, t: Sys) {
    && (forall x :: x in s.work ==> x in t.work && t.work[x] == s.work[x] && Word(t, x) == Word(s, x))
    && (forall x :: x in t.work && x !in s.work ==> t.work[x] == Waiting && Word(t, x) == [])
    && (forall x :: x in s.job ==> x in t.job && t.job[x] == s.job[x])
    && (forall x :: x in t.job && x !in s.job ==> x !in s.work)
    && t.sent == s.sent && t.resent == s.resent && t.reqAt == s.reqAt && t.answers == s.answers
    && NoRequest(s.trace, t.trace)
    && (forall f :: f in s.leaderOf ==> f in t.leaderOf && t.leaderOf[f] == s.leaderOf[f])
    && (forall f :: f in t.leaderOf && f !in s.leaderOf ==> t.leaderOf[f] !in s.work)
  }

  lemma JoinQuiet(s: Sys, job: Job, l: nat)
    requires Ids(s.next, s.job, s.work.Keys, s.leaderOf) && job.id >= s.next && l !in s.work
    ensures Quiet(s, LaneSubmit.Joined(s, job, l))
  {
    var t := LaneSubmit.Joined(s, job, l);
    assert forall x :: Word(t, x) == Word(s, x);
  }

  lemma ParkQuiet(s: Sys, job: Job)
    requires Ids(s.next, s.job, s.work.Keys, s.leaderOf) && job.id >= s.next
    ensures Quiet(s, LaneSubmit.Parked(s, job))
  {
    var t := LaneSubmit.Parked(s, job);
    assert forall x :: Word(t, x) == Word(s, x);
  }

  lemma StartQuiet(s: Sys, job: Job)
    requires Ids(s.next, s.job, s.work.Keys, s.leaderOf) && job.id >= s.next
    requires Silent(s.work.Keys, s.leaderOf, s.out, s.events)
    ensures Quiet(s, LaneSubmit.Started(s, job))
  {
    var t := LaneSubmit.Started(s, job);
    assert forall x :: Word(t, x) == Word(s, x);
    assert Word(s, job.id) == [];
  }

  lemma AdmitQuiet(s: Sys, job: Job)
    requires Inv(s) && job.id >= s.next
    ensures Quiet(s, Admit(s, job))
  {
    LaneSubmit.AdmitCases(s, job);
    if JoinTarget(s.exec, job).Some? {
      var l := LaneSubmit.JoinsQueued(s, job);
      JoinQuiet(s, job, l.id);
    } else if LaneFor(job) in s.exec.inFlight {
      ParkQuiet(s, job);
    } else {
      StartQuiet(s, job);
    }
  }

  lemma AbsorbIsQuiet(s: Sys)
    requires Channelled(s)
    ensures Quiet(s, Absorbed(s))
  {
    forall x | x in s.work
      ensures Word(Absorbed(s), x) == Word(s, x)
    {
      AbsorbWord(s, x);
    }
  }

  lemma FreeQuiet(s: Sys, t: Sys, lane: Lane)
    requires Quiet(s, t)
    ensures Quiet(s, Freed(t, lane))
  {
    var u := Freed(t, lane);
    assert forall x :: Word(u, x) == Word(t, x);
  }

  lemma PopQuiet(s: Sys, t: Sys, lane: Lane)
    requires Quiet(s, t) && HasNext(t, lane) && NextJob(t, lane).id !in s.work
    requires Word(t, NextJob(t, lane).id) == []
    ensures Quiet(s, Popped(t, lane))
  {
    var u := Popped(t, lane);
    assert forall x :: Word(u, x) == Word(t, x);
  }

  lemma DeliverQuiet(s: Sys)
    requires Inv(s) && s.events != [] && s.exec.pending == []
    ensures Quiet(s, Deliver(s))
  {
    AbsorbFans(s);
    AbsorbIsQuiet(s);
    var held := LaneHolding(s.exec.inFlight, s.events[0].id);
    if !Terminal(s.events[0]) || held.None? {
      AbsorbQuiet(s);
    } else if held.value in s.exec.queued {
      AbsorbPop(s, held.value);
      NextIsUnheard(s, held.value);
      PopQuiet(s, Absorbed(s), held.value);
    } else {
      AbsorbFree(s, held.value);
      FreeQuiet(s, Absorbed(s), held.value);
    }
  }

  lemma NextIsUnheard(s: Sys, lane: Lane)
    requires Channelled(s) && HasNext(s, lane)
    requires Waiters(s.exec.queued, s.job, s.work.Keys, s.leaderOf)
    requires Silent(s.work.Keys, s.leaderOf, s.out, s.events)
    ensures NextJob(s, lane).id !in s.work && Word(Absorbed(s), NextJob(s, lane).id) == []
  {
    assert Waits(s.job, s.work.Keys, s.leaderOf, lane, NextJob(s, lane));
    AbsorbWord(s, NextJob(s, lane).id);
  }

  lemma HandQuiet(s: Sys)
    requires s.exec.pending != [] && s.work.Keys <= s.job.Keys
    ensures Quiet(s, Hand(s))
  {
    var t := Hand(s);
    assert forall x :: Word(t, x) == Word(s, x);
  }

  lemma SelfQuiet(s: Sys)
    requires s.work.Keys <= s.job.Keys
    ensures Quiet(s, s)
  {
  }

  lemma RecvQuiet(s: Sys)
    requires Inv(s)
    ensures Quiet(s, Next(s, Recv))
  {
    if s.exec.pending != [] {
      HandQuiet(s);
    } else if s.events != [] {
      DeliverQuiet(s);
    } else {
      SelfQuiet(s);
    }
  }

  /** A submission or a delivery is quiet. */
  lemma NextQuiet(s: Sys, step: Step)
    requires Inv(s) && !step.Work?
    ensures Quiet(s, Next(s, step))
  {
    if step.Recv? {
      RecvQuiet(s);
    } else if step.job.id >= s.next {
      AdmitQuiet(s, step.job);
    } else {
      SelfQuiet(s);
    }
  }
}
