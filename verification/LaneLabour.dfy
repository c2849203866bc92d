/** An action of a worker, or of the daemon on a lease, keeps the invariant. */
module LaneLabour {
  import opened Lanes
  import opened LaneRuns
  import opened LaneInvariant

  lemma ActWordPlain(w: Work, job: Job, action: Action, word: seq<Event>, answers: map<nat, Reply>)
    requires !job.Open? && WordOk(w, job, word, answers)
    ensures WordOk(Act(w, job, action).work, job, word + Act(w, job, action).events, Learned(w, job, action, answers))
  {
    assert word + [] == word;
  }

  lemma ActWordOpen(w: Work, job: Job, action: Action, word: seq<Event>, answers: map<nat, Reply>)
    requires job.Open? && WordOk(w, job, word, answers)
    ensures WordOk(Act(w, job, action).work, job, word + Act(w, job, action).events, Learned(w, job, action, answers))
  {
    var o := Act(w, job, action);
    assert word + [] == word;
    if word != [] {
      assert (word + o.events)[1..] == word[1..] + o.events;
    } else {
      assert word + o.events == o.events;
    }
  }

  /** A worker emits at most one event, and only for its own job. */
  lemma ActEmits(w: Work, job: Job, action: Action, x: nat)
    ensures Proj(Act(w, job, action).events, x) == if x == job.id then Act(w, job, action).events else []
  {
    var es := Act(w, job, action).events;
    assert |es| <= 1;
    if |es| == 1 {
      assert es == [es[0]] && es[1..] == [];
    }
  }

  lemma LabourComing(s: Sys, id: nat, action: Action, x: nat)
    requires id in s.work && id in s.job && s.job[id].id == id
    ensures Proj(Labour(s, id, action).events, x)
         == Proj(s.events, x) + if x == id then Act(s.work[id], s.job[id], action).events else []
  {
    var es := Act(s.work[id], s.job[id], action).events;
    ProjAppend(s.events, es, x);
    ActEmits(s.work[id], s.job[id], action, x);
  }

  lemma LabourWords(s: Sys, id: nat, action: Action)
    requires Ids(s.next, s.job, s.work.Keys, s.leaderOf) && id in s.work && id in s.job
    requires Words(s.work, s.job, s.out, s.events, s.answers)
    ensures var t := Labour(s, id, action); Words(t.work, t.job, t.out, t.events, t.answers)
  {
    var t := Labour(s, id, action);
    forall x | x in t.work && x in t.job
      ensures WordOk(t.work[x], t.job[x], Proj(t.out, x) + Proj(t.events, x), t.answers)
    {
      LabourWord(s, id, action, x);
    }
  }

  lemma LabourWord(s: Sys, id: nat, action: Action, x: nat)
    requires id in s.work && id in s.job && s.job[id].id == id && x in s.work && x in s.job && s.job[x].id == x
    requires WordOk(s.work[x], s.job[x], Proj(s.out, x) + Proj(s.events, x), s.answers)
    ensures var t := Labour(s, id, action);
            WordOk(t.work[x], t.job[x], Proj(t.out, x) + Proj(t.events, x), t.answers)
  {
    LabourComing(s, id, action, x);
    var t := Labour(s, id, action);
    if x == id {
      OwnWord(s, id, action);
    } else {
      assert Proj(t.out, x) + Proj(t.events, x) == Proj(s.out, x) + Proj(s.events, x);
    }
  }

  lemma OwnWord(s: Sys, id: nat, action: Action)
    requires id in s.work && id in s.job && s.job[id].id == id
    requires WordOk(s.work[id], s.job[id], Proj(s.out, id) + Proj(s.events, id), s.answers)
    ensures var t := Labour(s, id, action);
            WordOk(t.work[id], t.job[id], Proj(t.out, id) + Proj(t.events, id), t.answers)
  {
    var word, es := Proj(s.out, id) + Proj(s.events, id), Act(s.work[id], s.job[id], action).events;
    LabourComing(s, id, action, id);
    EventsAssociate(Proj(s.out, id), Proj(s.events, id), es);
    if s.job[id].Open? {
      ActWordOpen(s.work[id], s.job[id], action, word, s.answers);
    } else {
      ActWordPlain(s.work[id], s.job[id], action, word, s.answers);
    }
  }

  lemma EventsAssociate(a: seq<Event>, b: seq<Event>, c: seq<Event>)
    ensures a + (b + c) == (a + b) + c
  {
  }

  lemma LabourFrame(s: Sys, id: nat, action: Action)
    requires id in s.work && id in s.job
    ensures var t := Labour(s, id, action);
            t.work.Keys == s.work.Keys && t.exec == s.exec && t.job == s.job && t.leaderOf == s.leaderOf
            && t.out == s.out && t.handed == s.handed && t.next == s.next && t.subAt == s.subAt && t.disAt == s.disAt
  {
  }

  lemma LabourFans(s: Sys, id: nat, action: Action)
    requires Ids(s.next, s.job, s.work.Keys, s.leaderOf) && FanInv(s) && id in s.work && id in s.job
    ensures FanInv(Labour(s, id, action))
  {
    var t := Labour(s, id, action);
    LabourFrame(s, id, action);
    LabourWords(s, id, action);
    forall x | x !in t.work.Keys
      ensures Proj(t.events, x) == []
    {
      LabourComing(s, id, action, x);
    }
  }

  /** An action of the worker keeps its order of asking and answering. */
  lemma ActAsks(w: Work, job: Job, action: Action, reqAt: map<nat, nat>, answers: map<nat, Reply>, now: nat)
    requires !job.Open? && AskedFirst(w, job.id, reqAt, answers)
    ensures var o := Act(w, job, action);
            AskedFirst(o.work, job.id, if o.asks then reqAt[job.id := now] else reqAt, Learned(w, job, action, answers))
  {
  }

  lemma LabourAsking(s: Sys, id: nat, action: Action)
    requires id in s.work && id in s.job && Ids(s.next, s.job, s.work.Keys, s.leaderOf)
    requires Asking(s.work, s.job, s.reqAt, s.answers)
    ensures var t := Labour(s, id, action); Asking(t.work, t.job, t.reqAt, t.answers)
  {
    var t := Labour(s, id, action);
    if !s.job[id].Open? { ActAsks(s.work[id], s.job[id], action, s.reqAt, s.answers, |s.trace|); }
    forall x | x in t.work && x in t.job && !t.job[x].Open?
      ensures AskedFirst(t.work[x], x, t.reqAt, t.answers)
    {
      assert AskedFirst(s.work[x], x, s.reqAt, s.answers);
    }
  }

  lemma LabourStamps(s: Sys, id: nat, action: Action)
    requires id in s.work && id in s.job && Stamped(s.job, s.leaderOf, s.trace, s.subAt)
    requires DisStamped(s.job, s.work.Keys, s.trace, s.disAt) && ReqStamped(s.work.Keys, s.trace, s.reqAt)
    ensures var t := Labour(s, id, action);
            && Stamped(s.job, s.leaderOf, t.trace, s.subAt)
            && DisStamped(s.job, s.work.Keys, t.trace, s.disAt)
            && ReqStamped(s.work.Keys, t.trace, t.reqAt)
  {
  }

  lemma LabourWrites(s: Sys, id: nat, action: Action)
    requires id in s.work && id in s.job && DisStamped(s.job, s.work.Keys, s.trace, s.disAt)
    requires Writes(s.trace, s.disAt)
    ensures Writes(Labour(s, id, action).trace, s.disAt)
  {
  }

  lemma LabourHistory(s: Sys, id: nat, action: Action)
    requires Ids(s.next, s.job, s.work.Keys, s.leaderOf) && HistoryInv(s) && id in s.work && id in s.job
    ensures HistoryInv(Labour(s, id, action))
  {
    LabourFrame(s, id, action);
    LabourStamps(s, id, action);
    LabourAsking(s, id, action);
    LabourWrites(s, id, action);
  }

  lemma LabourKeeps(s: Sys, id: nat, action: Action)
    requires Inv(s) && id in s.work && id in s.job
    ensures Inv(Labour(s, id, action))
  {
    LabourFrame(s, id, action);
    LabourFans(s, id, action);
    LabourHistory(s, id, action);
  }
}
