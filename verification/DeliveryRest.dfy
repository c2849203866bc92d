/** At rest nothing is owed: once the scheduler has nothing left to do, every prompt has settled. */
module DeliveryRest {
  import opened Lanes
  import L = LaneRuns
  import T = LaneTheorems
  import I = LaneInvariant
  import Q = LaneSteps
  import S = LaneSends
  import Drain = LaneDrain
  import opened Delivery
  import opened DeliveryRuns
  import opened DeliveryStories
  import opened DeliverySessions
  import opened DeliveryMarks

  // ---- What the worker of a parked prompt owes ----

  /** The job's outcome is among the events. */
  ghost predicate Concluded(word: seq<Event>) {
    exists k :: 0 <= k < |word| && (word[k].Done? || word[k].Failed?)
  }

  predicate Unfinished(word: seq<Event>) {
    forall k :: 0 <= k < |word| ==> word[k].Opened? || word[k].Written?
  }

  /** A Dropped is the last word of a worker that has ended. */
  predicate DroppedLast(w: L.Work, word: seq<Event>) {
    forall k :: 0 <= k < |word| && word[k].Dropped? ==> k == |word| - 1 && w.Ended?
  }

  /** Where the worker of a prompt that is still parked stands: before its intent is committed
      it was told nothing; afterwards it is about to send, or waits for the answer, or its
      outcome is on the way. */
  ghost predicate Owes(w: L.Work, committed: bool, id: nat, word: seq<Event>) {
    if committed then
      DroppedLast(w, word)
      && (Concluded(word) || (Unfinished(word) && (w == L.Leased([L.Send]) || w == L.Reading([]))))
    else match w
      case Waiting => word == []
      case Leased(inbox) => inbox == [] && word == [Opened(id)]
      case Ended => true
      case _ => false
  }

  lemma ConcludedGrows(word: seq<Event>, more: seq<Event>)
    requires Concluded(word)
    ensures Concluded(word + more)
  {
    var k :| 0 <= k < |word| && (word[k].Done? || word[k].Failed?);
    assert (word + more)[k] == word[k];
  }

  lemma OutcomeConcludes(word: seq<Event>, e: Event)
    requires e.Done? || e.Failed?
    ensures Concluded(word + [e])
  {
    assert (word + [e])[|word|] == e;
  }

  /** Whatever the worker does next, it owes no less. */
  lemma ActOwes(w: L.Work, job: Job, action: L.Action, committed: bool, word: seq<Event>)
    requires job.Open? && !action.Push? && Owes(w, committed, job.id, word)
    ensures var o := L.Act(w, job, action); Owes(o.work, committed, job.id, word + o.events)
  {
    var o := L.Act(w, job, action);
    assert word + [] == word;
    if committed { ActOwesOutcome(w, job, action, word); }
  }

  lemma ActOwesOutcome(w: L.Work, job: Job, action: L.Action, word: seq<Event>)
    requires job.Open? && !action.Push? && Owes(w, true, job.id, word)
    ensures var o := L.Act(w, job, action); Owes(o.work, true, job.id, word + o.events)
  {
    var o := L.Act(w, job, action);
    assert word + [] == word;
    if Concluded(word) { ConcludedGrows(word, o.events); }
    if o.events != [] {
      assert o.events == [o.events[0]];
      if o.events[0].Done? || o.events[0].Failed? { OutcomeConcludes(word, o.events[0]); }
    }
  }

  /** The Send that follows the commit. */
  lemma SendOwes(w: L.Work, job: Job, word: seq<Event>)
    requires job.Open? && Owes(w, false, job.id, word) && (w.Leased? || w.Reading?)
    ensures Owes(L.Act(w, job, L.Push(L.Send)).work, true, job.id, word)
  {
    assert [] + [L.Send] == [L.Send];
  }

  // ---- The desk and the scheduler ----

  /** The worker of `job`, a prompt still parked. */
  ghost predicate Working(s: L.Sys, job: nat, committed: bool) {
    && (committed ==> job in s.work)
    && (job in s.work ==> Owes(s.work[job], committed, job, I.Word(s, job)))
  }

  /** What the daemon has been handed for a prompt still parked. */
  ghost predicate Unsettled(word: seq<Event>, committed: bool) {
    if committed then !Concluded(word) else word == []
  }

  ghost predicate Owed(h: House, job: nat) {
    && job in h.desk.prompts && job in h.desk.owned
    && Working(h.lanes, job, h.desk.prompts[job].committed)
    && Unsettled(Proj(T.Handed(h.lanes), job), h.desk.prompts[job].committed)
  }

  ghost predicate AllOwed(h: House) {
    forall job :: job in h.desk.prompts ==> Owed(h, job)
  }

  lemma QuietWorks(s: L.Sys, t: L.Sys, job: nat, committed: bool)
    requires Q.Quiet(s, t) && job in s.job && Working(s, job, committed)
    ensures Working(t, job, committed)
  {
  }

  /** An action on one job's worker leaves every other worker alone. */
  lemma WorkElsewhere(s: L.Sys, id: nat, action: L.Action, job: nat)
    requires id in s.work && id in s.job && s.job[id].id == id && id != job
    ensures var t := L.Labour(s, id, action);
            I.Word(t, job) == I.Word(s, job) && (job in t.work <==> job in s.work)
            && (job in s.work ==> t.work[job] == s.work[job])
  {
    S.LabourWordIs(s, id, action, job);
    assert I.Word(s, job) + [] == I.Word(s, job);
  }

  lemma ToilWorks(s: L.Sys, id: nat, action: L.Action, job: nat, committed: bool)
    requires T.Reachable(s) && !action.Push? && job in s.job && s.job[job].Open? && Working(s, job, committed)
    ensures Working(L.Next(s, L.Work(id, action)), job, committed)
  {
    if id in s.work && id in s.job {
      T.JobIdIs(s, id);
      if id == job {
        S.LabourWordIs(s, id, action, job);
        ActOwes(s.work[id], s.job[id], action, committed, I.Word(s, id));
      } else {
        WorkElsewhere(s, id, action, job);
      }
    }
  }

  /** Commands for one job's lease leave every other worker alone. */
  lemma PushElsewhere(s: L.Sys, id: nat, cmd: L.LeaseCmd, job: nat, committed: bool)
    requires T.Reachable(s) && id != job && Working(s, job, committed)
    ensures Working(L.Next(s, L.Work(id, L.Push(cmd))), job, committed)
  {
    if id in s.work && id in s.job {
      T.JobIdIs(s, id);
      WorkElsewhere(s, id, L.Push(cmd), job);
    }
  }

  lemma {:induction false} PushesElsewhere(s: L.Sys, id: nat, cmds: seq<L.LeaseCmd>, job: nat, committed: bool)
    requires T.Reachable(s) && id != job && Working(s, job, committed)
    ensures Working(Push(s, id, cmds), job, committed)
  {
    if cmds != [] {
      var n := |cmds| - 1;
      PushesElsewhere(s, id, cmds[..n], job, committed);
      PushFace(s, id, cmds[..n]);
      PushElsewhere(Push(s, id, cmds[..n]), id, cmds[n], job, committed);
    }
  }

  lemma PushSends(s: L.Sys, job: nat)
    requires T.Reachable(s) && job in s.job && s.job[job].Open? && Alive(s, job) && Working(s, job, false)
    ensures Working(Push(s, job, [L.Send]), job, true)
  {
    T.JobIdIs(s, job);
    PushOne(s, job, L.Send);
    SendOwes(s.work[job], s.job[job], I.Word(s, job));
    S.LabourWordIs(s, job, L.Push(L.Send), job);
    assert I.Word(s, job) + [] == I.Word(s, job);
  }

  lemma PushOne(s: L.Sys, job: nat, cmd: L.LeaseCmd)
    ensures Push(s, job, [cmd]) == L.Next(s, L.Work(job, L.Push(cmd)))
  {
    assert [cmd][..0] == [];
    assert Push(s, job, []) == s;
  }

  // ---- An event arrives ----

  /** A committed prompt hears no Dropped before its outcome. */
  lemma DroppedIsLate(w: L.Work, id: nat, word: seq<Event>, heard: seq<Event>)
    requires Owes(w, true, id, word) && heard <= word && heard != [] && heard[|heard| - 1].Dropped?
    ensures Concluded(heard[..|heard| - 1])
  {
    var n := |heard| - 1;
    assert word[n] == heard[n];
    assert n == |word| - 1;
    assert Concluded(word);
    var k :| 0 <= k < |word| && (word[k].Done? || word[k].Failed?);
    assert heard[..n][k] == word[k];
  }

  /** The handed events of a job are the first its worker emitted. */
  lemma HeardFirst(s: L.Sys, job: nat)
    requires T.Reachable(s)
    ensures Proj(T.Handed(s), job) <= I.Word(s, job)
  {
    T.OutWaits(s);
    T.ProjTake(s.out, s.handed, job);
  }

  /** An event for a parked prompt either settles it, or commits it, or says that bytes were
      written. */
  lemma EventIsOne(h: House, lanes: L.Sys, event: Event)
    requires Linked(h) && T.Reachable(lanes) && T.Handed(lanes) == T.Handed(h.lanes) + [event]
    requires event.id in h.desk.prompts && event.id in lanes.job && lanes.job[event.id].Open?
    requires Unsettled(Proj(T.Handed(h.lanes), event.id), h.desk.prompts[event.id].committed)
    requires Working(lanes, event.id, h.desk.prompts[event.id].committed)
    ensures !event.Dropped?
    ensures event.Written? ==> h.desk.prompts[event.id].committed
  {
    var job, before := event.id, Proj(T.Handed(h.lanes), event.id);
    T.LeaseFace(lanes, job);
    ProjGrows(T.Handed(h.lanes), event, job);
    assert Proj(T.Handed(lanes), job) == before + [event];
    if h.desk.prompts[job].committed {
      HeardFirst(lanes, job);
      assert (before + [event])[..|before|] == before;
      if event.Dropped? { DroppedIsLate(lanes.work[job], job, I.Word(lanes, job), before + [event]); }
    } else {
      assert before + [event] == [event];
    }
  }

  lemma WrittenUnsettled(heard: seq<Event>, event: Event)
    requires !Concluded(heard) && (event.Opened? || event.Written?)
    ensures !Concluded(heard + [event])
  {
    forall k | 0 <= k < |heard| + 1
      ensures var e := (heard + [event])[k]; !e.Done? && !e.Failed?
    {
      if k < |heard| { assert (heard + [event])[k] == heard[k]; }
    }
  }

  /** The event's own prompt, if it is still parked afterwards. */
  lemma OwnOwed(h: House, lanes: L.Sys, event: Event, w: World)
    requires Linked(h) && T.Reachable(lanes) && T.Handed(lanes) == T.Handed(h.lanes) + [event]
    requires lanes.job == h.lanes.job && event.id in h.parked && Timely(h.desk, event) && event.id in h.desk.prompts
    requires Owed(h, event.id) && Working(lanes, event.id, h.desk.prompts[event.id].committed)
    requires w.leaseOpen == Alive(lanes, event.id)
    ensures var g := h.(lanes := Push(lanes, event.id, Commands(h.desk, event, w)), desk := Handle(h.desk, event, w));
            event.id in g.desk.prompts ==> Owed(g, event.id)
  {
    var job, cmds := event.id, Commands(h.desk, event, w);
    var g := h.(lanes := Push(lanes, job, cmds), desk := Handle(h.desk, event, w));
    EventIsOne(h, lanes, event);
    ProjGrows(T.Handed(h.lanes), event, job);
    PushFace(lanes, job, cmds);
    if event.Opened? {
      OpenedOwed(h, lanes, event, w);
    } else if event.Written? {
      WrittenUnsettled(Proj(T.Handed(h.lanes), job), event);
      assert cmds == [] && g.lanes == lanes;
    } else {
      SettlesOwn(h.desk, job, w.completeOk);
    }
  }

  /** Recording an outcome, or giving up, removes the prompt. */
  lemma SettlesOwn(d: Desk, job: nat, ok: bool)
    requires job in d.prompts
    ensures job !in Fail(d, job, ok).prompts && job !in Finish(d, job, ok).prompts
  {
    CompleteAdds(d, job, ok);
    AbandonAdds(d, job);
  }

  lemma OpenedOwed(h: House, lanes: L.Sys, event: Event, w: World)
    requires Linked(h) && T.Reachable(lanes) && T.Handed(lanes) == T.Handed(h.lanes) + [event]
    requires lanes.job == h.lanes.job && event.id in h.parked && event.Opened? && event.id in h.desk.prompts
    requires Owed(h, event.id) && !h.desk.prompts[event.id].committed && Working(lanes, event.id, false)
    requires w.leaseOpen == Alive(lanes, event.id)
    ensures var g := h.(lanes := Push(lanes, event.id, Commands(h.desk, event, w)), desk := Handle(h.desk, event, w));
            event.id in g.desk.prompts ==> Owed(g, event.id)
  {
    if w.commitOk && w.leaseOpen {
      SentOwed(h, lanes, event, w);
    } else {
      OpenedSettles(h.desk, event.id, w);
    }
  }

  lemma SentOwed(h: House, lanes: L.Sys, event: Event, w: World)
    requires Linked(h) && T.Reachable(lanes) && T.Handed(lanes) == T.Handed(h.lanes) + [event]
    requires lanes.job == h.lanes.job && event.id in h.parked && event.Opened? && event.id in h.desk.prompts
    requires Owed(h, event.id) && !h.desk.prompts[event.id].committed && Working(lanes, event.id, false)
    requires w.commitOk && w.leaseOpen && Alive(lanes, event.id)
    ensures Owed(h.(lanes := Push(lanes, event.id, [L.Send]), desk := OnOpened(h.desk, event.id, w)), event.id)
  {
    var job, t := event.id, Push(lanes, event.id, [L.Send]);
    PushSends(lanes, job);
    PushFace(lanes, job, [L.Send]);
    OpenedIsFirst(h, lanes, event);
    SendableIs(h.desk, job, w);
    SendingOwed(h, t, Sending(h.desk, job, true), job);
  }

  lemma OpenedIsFirst(h: House, lanes: L.Sys, event: Event)
    requires T.Handed(lanes) == T.Handed(h.lanes) + [event] && event.Opened?
    requires Proj(T.Handed(h.lanes), event.id) == []
    ensures !Concluded(Proj(T.Handed(lanes), event.id))
  {
    ProjGrows(T.Handed(h.lanes), event, event.id);
    assert [] + [event] == [event];
  }

  lemma SendingOwed(h: House, t: L.Sys, e: Desk, job: nat)
    requires job in e.prompts && e.prompts[job].committed && job in e.owned
    requires Working(t, job, true) && !Concluded(Proj(T.Handed(t), job))
    ensures Owed(h.(lanes := t, desk := e), job)
  {
  }

  lemma OpenedSettles(d: Desk, job: nat, w: World)
    requires job in d.prompts && !(w.commitOk && w.leaseOpen)
    ensures job !in OnOpened(d, job, w).prompts
  {
    if w.commitOk {
      SettlesOwn(Sending(d, job, false), job, w.completeOk);
      UnsendableIs(d, job, w);
    } else {
      SettlesOwn(Noted(d, CommitRefused(job)), job, w.completeOk);
      ForgetFace(Noted(d, CommitRefused(job)), job);
    }
  }

  /** Another prompt, which the event is not about. */
  lemma OtherOwed(h: House, lanes: L.Sys, event: Event, cmds: seq<L.LeaseCmd>, e: Desk, job: nat)
    requires T.Reachable(lanes) && T.Handed(lanes) == T.Handed(h.lanes) + [event]
    requires job in h.desk.prompts && job != event.id && Owed(h, job)
    requires Working(lanes, job, h.desk.prompts[job].committed)
    requires job in e.prompts && e.prompts[job] == h.desk.prompts[job] && job in e.owned
    ensures Owed(h.(lanes := Push(lanes, event.id, cmds), desk := e), job)
  {
    PushFace(lanes, event.id, cmds);
    PushesElsewhere(lanes, event.id, cmds, job, h.desk.prompts[job].committed);
    ProjGrows(T.Handed(h.lanes), event, job);
    assert Proj(T.Handed(h.lanes), job) + [] == Proj(T.Handed(h.lanes), job);
  }

  lemma HandleOwns(d: Desk, event: Event, w: World, job: nat)
    requires job in d.owned && job != event.id
    ensures job in Handle(d, event, w).owned
  {
    match event
    case Opened(id) => if id in d.prompts { OpenedOwns(d, id, w); }
    case Done(id, _) => if id in d.prompts { SettleOwns(d, id, w.completeOk); }
    case Failed(id, _, _) => if id in d.prompts { SettleOwns(d, id, w.completeOk); }
    case _ =>
  }

  lemma OpenedOwns(d: Desk, id: nat, w: World)
    requires id in d.prompts
    ensures OnOpened(d, id, w).owned == d.owned
  {
    if w.commitOk {
      if w.leaseOpen { SendableIs(d, id, w); } else { UnsendableIs(d, id, w); }
      SettleOwns(Sending(d, id, false), id, w.completeOk);
    } else {
      SettleOwns(Noted(d, CommitRefused(id)), id, w.completeOk);
      ForgetFace(Noted(d, CommitRefused(id)), id);
    }
  }

  lemma SettleOwns(d: Desk, id: nat, ok: bool)
    requires id in d.prompts
    ensures Fail(d, id, ok).owned == d.owned && Complete(d, id, ok).owned == d.owned
  {
    ForgetFace(d, id);
  }

  lemma RecvWorks(s: L.Sys, job: nat, committed: bool)
    requires T.Reachable(s) && job in s.job && Working(s, job, committed)
    ensures Working(L.Next(s, L.Recv), job, committed)
  {
    T.ReachableInv(s);
    Q.NextQuiet(s, L.Recv);
    QuietWorks(s, L.Next(s, L.Recv), job, committed);
  }

  lemma DrainOwed(h: House, w: World)
    requires Linked(h) && AllOwed(h)
    ensures AllOwed(DeliveryRuns.Drain(h, w))
  {
    if T.Ready(h.lanes) {
      var event := T.RecvFace(h.lanes);
      var lanes := L.Next(h.lanes, L.Recv);
      HandedIs(h.lanes, event);
      forall job | job in h.desk.prompts
        ensures Working(lanes, job, h.desk.prompts[job].committed)
      {
        assert Owed(h, job);
        RecvWorks(h.lanes, job, h.desk.prompts[job].committed);
      }
      if event.id in h.parked {
        HandedInTime(h, lanes, event);
        EventOwed(h, lanes, event, w.(leaseOpen := Alive(lanes, event.id)));
      } else {
        ForeignOwed(h, lanes, event);
      }
    }
  }

  lemma ForeignOwed(h: House, lanes: L.Sys, event: Event)
    requires Linked(h) && AllOwed(h) && T.Reachable(lanes) && T.Handed(lanes) == T.Handed(h.lanes) + [event]
    requires event.id !in h.parked
    requires forall job :: job in h.desk.prompts ==> Working(lanes, job, h.desk.prompts[job].committed)
    ensures AllOwed(h.(lanes := lanes))
  {
    forall job | job in h.desk.prompts
      ensures Owed(h.(lanes := lanes), job)
    {
      assert Owed(h, job);
      OtherOwed(h, lanes, event, [], h.desk, job);
      assert Push(lanes, event.id, []) == lanes;
    }
  }

  lemma EventOwed(h: House, lanes: L.Sys, event: Event, w: World)
    requires Linked(h) && AllOwed(h) && T.Reachable(lanes) && T.Handed(lanes) == T.Handed(h.lanes) + [event]
    requires lanes.job == h.lanes.job && event.id in h.parked && Timely(h.desk, event)
    requires w.leaseOpen == Alive(lanes, event.id)
    requires forall job :: job in h.desk.prompts ==> Working(lanes, job, h.desk.prompts[job].committed)
    ensures AllOwed(h.(lanes := Push(lanes, event.id, Commands(h.desk, event, w)), desk := Handle(h.desk, event, w)))
  {
    var cmds, e := Commands(h.desk, event, w), Handle(h.desk, event, w);
    HandleCommits(h.desk, event, w);
    forall job | job in e.prompts
      ensures Owed(h.(lanes := Push(lanes, event.id, cmds), desk := e), job)
    {
      assert Owed(h, job);
      if job == event.id {
        OwnOwed(h, lanes, event, w);
      } else {
        HandleOwns(h.desk, event, w, job);
        OtherOwed(h, lanes, event, cmds, e, job);
      }
    }
  }

  // ---- Every move ----

  /** The scheduler moves without handing anything over; the desk stands. */
  lemma StepOwed(h: House, lanes: L.Sys)
    requires AllOwed(h) && T.Handed(lanes) == T.Handed(h.lanes)
    requires forall job :: job in h.desk.prompts ==> Working(lanes, job, h.desk.prompts[job].committed)
    ensures AllOwed(h.(lanes := lanes))
  {
    forall job | job in h.desk.prompts
      ensures Owed(h.(lanes := lanes), job)
    {
      assert Owed(h, job);
    }
  }

  lemma SubmitWorks(s: L.Sys, submit: Job, job: nat, committed: bool)
    requires T.Reachable(s) && submit.id >= s.next && job in s.job && Working(s, job, committed)
    ensures Working(L.Next(s, L.Submit(submit)), job, committed)
  {
    T.ReachableInv(s);
    Q.NextQuiet(s, L.Submit(submit));
    QuietWorks(s, L.Next(s, L.Submit(submit)), job, committed);
  }

  /** A job just submitted has no worker, or one that has done nothing. */
  lemma NewcomerWorks(s: L.Sys, submit: Job)
    requires T.Reachable(s) && submit.id >= s.next
    ensures Working(L.Next(s, L.Submit(submit)), submit.id, false)
    ensures Proj(T.Handed(s), submit.id) == []
  {
    T.ReachableInv(s);
    Q.NextQuiet(s, L.Submit(submit));
    FreshIsUnheard(s, submit.id);
  }

  lemma LodgeOwed(h: House, prompt: Prompt)
    requires Linked(h) && AllOwed(h) && !prompt.committed
    ensures AllOwed(Lodge(h, prompt))
  {
    var submit := Open(h.lanes.next, prompt.pane, false);
    var lanes := L.Next(h.lanes, L.Submit(submit));
    T.SubmitFace(h.lanes, submit);
    NewcomerWorks(h.lanes, submit);
    MarkFace(h.desk, prompt.owner);
    forall job | job in h.desk.prompts
      ensures Working(lanes, job, h.desk.prompts[job].committed)
    {
      assert Owed(h, job);
      SubmitWorks(h.lanes, submit, job, h.desk.prompts[job].committed);
    }
    StepOwed(h, lanes);
    LodgedOwed(h, Lodge(h, prompt), prompt);
  }

  lemma LodgedOwed(h: House, g: House, prompt: Prompt)
    requires AllOwed(h.(lanes := g.lanes)) && !prompt.committed
    requires g.desk.prompts == h.desk.prompts[h.lanes.next := prompt]
    requires g.desk.owned == h.desk.owned + {h.lanes.next}
    requires Working(g.lanes, h.lanes.next, false) && Proj(T.Handed(g.lanes), h.lanes.next) == []
    ensures AllOwed(g)
  {
    forall job | job in g.desk.prompts
      ensures Owed(g, job)
    {
      if job != h.lanes.next { assert Owed(h.(lanes := g.lanes), job); }
    }
  }

  lemma {:induction false} LodgeAllOwed(h: House, key: SessionKey, notices: seq<Listed>)
    requires Linked(h) && AllOwed(h)
    ensures AllOwed(LodgeAll(h, key, notices))
  {
    if notices != [] {
      var n := |notices| - 1;
      LodgeAllOwed(h, key, notices[..n]);
      LodgeAllLinked(h, key, notices[..n]);
      if notices[n].0.Some? {
        LodgeOwed(LodgeAll(h, key, notices[..n]), Fresh(notices[n].0.value, ForSession(key, notices[n].1)));
      }
    }
  }

  lemma MeetOwed(h: House, retire: bool, notices: seq<Listed>)
    requires Linked(h) && AllOwed(h)
    ensures AllOwed(Meet(h, retire, notices))
  {
    var c, key := Convened(h, retire, notices), NextKey(h, retire);
    ConveneLinked(h, c, key, notices);
    forall job | job in c.desk.prompts
      ensures Owed(c, job)
    {
      assert Owed(h, job);
    }
    LodgeAllOwed(c, key, notices);
  }

  lemma ToilOwed(h: House, id: nat, action: L.Action)
    requires Linked(h) && AllOwed(h) && !action.Push?
    ensures AllOwed(h.(lanes := L.Next(h.lanes, L.Work(id, action))))
  {
    var lanes := L.Next(h.lanes, L.Work(id, action));
    T.WorkFace(h.lanes, id, action);
    forall job | job in h.desk.prompts
      ensures Working(lanes, job, h.desk.prompts[job].committed)
    {
      assert Owed(h, job);
      ToilWorks(h.lanes, id, action, job, h.desk.prompts[job].committed);
    }
    StepOwed(h, lanes);
  }

  lemma OtherPushOwed(h: House, id: nat, cmd: L.LeaseCmd)
    requires Linked(h) && AllOwed(h) && id !in h.parked
    ensures AllOwed(h.(lanes := L.Next(h.lanes, L.Work(id, L.Push(cmd)))))
  {
    var lanes := L.Next(h.lanes, L.Work(id, L.Push(cmd)));
    T.WorkFace(h.lanes, id, L.Push(cmd));
    forall job | job in h.desk.prompts
      ensures Working(lanes, job, h.desk.prompts[job].committed)
    {
      assert Owed(h, job);
      PushElsewhere(h.lanes, id, cmd, job, h.desk.prompts[job].committed);
    }
    StepOwed(h, lanes);
  }

  lemma OtherSubmitOwed(h: House, submit: Job)
    requires Linked(h) && AllOwed(h) && submit.id == h.lanes.next
    ensures AllOwed(h.(lanes := L.Next(h.lanes, L.Submit(submit))))
  {
    var lanes := L.Next(h.lanes, L.Submit(submit));
    T.SubmitFace(h.lanes, submit);
    forall job | job in h.desk.prompts
      ensures Working(lanes, job, h.desk.prompts[job].committed)
    {
      assert Owed(h, job);
      SubmitWorks(h.lanes, submit, job, h.desk.prompts[job].committed);
    }
    StepOwed(h, lanes);
  }

  lemma NextOwed(h: House, m: Move)
    requires Linked(h) && AllOwed(h)
    ensures AllOwed(Next(h, m))
  {
    match m
    case Toil(id, action) => if !action.Push? { ToilOwed(h, id, action); }
    case OtherSubmit(job) => if job.id == h.lanes.next { OtherSubmitOwed(h, job); }
    case OtherPush(id, cmd) => if id !in h.parked { OtherPushOwed(h, id, cmd); }
    case ParkOne(pane, owner) => if Welcome(h.desk, owner) { LodgeOwed(h, Fresh(pane, owner)); }
    case ParkMany(retire, notices) => if DistinctNotices(notices) { MeetOwed(h, retire, notices); }
    case Pump(w) => DrainOwed(h, w);
  }

  lemma {:induction false} RunOwed(moves: seq<Move>)
    ensures AllOwed(Run(moves))
  {
    if moves != [] {
      RunLinked(moves[..|moves| - 1]);
      RunOwed(moves[..|moves| - 1]);
      NextOwed(Run(moves[..|moves| - 1]), moves[|moves| - 1]);
    }
  }

  // ---- At rest ----

  /** At rest the daemon has been handed the end of every job. */
  lemma RestIsHeard(s: L.Sys, job: nat)
    requires T.Reachable(s) && Drain.Rested(s) && job in s.job
    ensures L.Over(Proj(T.Handed(s), job)) && I.Word(s, job) == Proj(T.Handed(s), job)
  {
    RestHasEnded(s, job);
    T.OutWaits(s);
    assert s.out[..|s.out|] == s.out;
    assert Proj(s.out, job) + [] == Proj(s.out, job);
  }

  lemma RestHasEnded(s: L.Sys, job: nat)
    requires T.Reachable(s) && Drain.Rested(s) && job in s.job
    ensures L.Over(Proj(s.out, job))
  {
    T.ReachableInv(s);
    Drain.RestIsOver(s, job);
  }

  lemma RestSettles(h: House, job: nat)
    requires Linked(h) && AllOwed(h) && Drain.Rested(h.lanes)
    ensures job !in h.desk.prompts
  {
    if job in h.desk.prompts {
      assert Owed(h, job);
      RestIsHeard(h.lanes, job);
    }
  }

  /** The story of a client's prompt ends with its answer, and has no other. */
  ghost predicate AnsweredOnce(story: seq<Entry>, job: nat) {
    story != [] && story[|story| - 1] == AnsweredClient(job) && AnsweredClient(job) !in story[..|story| - 1]
  }

  lemma ClosedIsAnswered(p: Prompt, job: nat, story: seq<Entry>)
    requires ClosedStory(p, job, story) && p.owner.Client?
    ensures AnsweredOnce(story, job)
  {
  }

  /** Whatever run comes to rest, no prompt is parked: every client that asked for one has been
      answered exactly once, no due delivery or reminder is marked as under way, and the only
      sessions unanswered are those one of whose intents the store refused. */
  lemma RestOwesNothing(moves: seq<Move>)
    requires Drain.Rested(Run(moves).lanes)
    ensures var h := Run(moves);
            && h.desk.prompts == map[] && h.desk.due == {} && h.desk.reminders == {}
            && (forall job :: job in h.parked && h.parked[job].owner.Client? ==>
                  AnsweredOnce(LogOf(h.desk.log, job), job))
            && (forall key :: key in h.desk.sessions ==>
                  exists job :: job in h.parked && Member(h.parked[job], key) && Stuck(h.desk, job))
  {
    var h := Run(moves);
    RunLinked(moves);
    RunOwed(moves);
    UnderWayIsParked(moves);
    forall job
      ensures job !in h.desk.prompts
    {
      RestSettles(h, job);
    }
    NothingMarked(h.desk);
    forall job | job in h.parked && h.parked[job].owner.Client?
      ensures AnsweredOnce(LogOf(h.desk.log, job), job)
    {
      assert Story(h.desk, job, h.parked[job]);
      ClosedIsAnswered(h.parked[job], job, LogOf(h.desk.log, job));
    }
    forall key | key in h.desk.sessions
      ensures exists job :: job in h.parked && Member(h.parked[job], key) && Stuck(h.desk, job)
    {
      RunCounts(moves, key);
      var job :| job in Owing(h.desk, h.parked, key);
    }
  }

  lemma NothingMarked(d: Desk)
    requires Marked(d) && d.prompts == map[]
    ensures d.due == {} && d.reminders == {}
  {
    forall operation
      ensures operation !in d.due
    {
      assert UnderWay(d, Due(operation)) <==> ParkedFor(d.prompts, Due(operation));
    }
    forall ask
      ensures ask !in d.reminders
    {
      assert UnderWay(d, Reminder(ask)) <==> ParkedFor(d.prompts, Reminder(ask));
    }
  }
}
