/** What becomes of the lease of a prompt: it is its pane's, and it is let go. */
module DeliveryLeases {
  import opened Lanes
  import L = LaneRuns
  import T = LaneTheorems
  import I = LaneInvariant
  import Q = LaneSteps
  import opened Delivery
  import opened DeliveryRuns
  import opened DeliveryStories
  import opened DeliveryRest

  /** The worker of the job has ended, or has been told to. */
  predicate Released(s: L.Sys, job: nat) {
    job in s.work
    && (s.work[job].Ended? || ((s.work[job].Leased? || s.work[job].Reading?) && L.Drop in s.work[job].inbox))
  }

  /** A prompt that was sent holds its lease; one that has settled has let go of it. */
  ghost predicate Keeps(h: House, job: nat) {
    if job in h.desk.prompts then h.desk.prompts[job].committed ==> h.desk.prompts[job].lease
    else Released(h.lanes, job)
  }

  ghost predicate AllKeep(h: House) {
    forall job :: job in h.parked ==> Keeps(h, job)
  }

  lemma WorkReleases(s: L.Sys, id: nat, action: L.Action, job: nat)
    requires Released(s, job)
    ensures Released(L.Next(s, L.Work(id, action)), job)
  {
    if id == job && id in s.work && id in s.job { ActReleases(s.work[id], s.job[id], action); }
  }

  lemma ActReleases(w: L.Work, job: Job, action: L.Action)
    requires w.Ended? || ((w.Leased? || w.Reading?) && L.Drop in w.inbox)
    ensures var v := L.Act(w, job, action).work;
            v.Ended? || ((v.Leased? || v.Reading?) && L.Drop in v.inbox)
  {
    if w.Leased? && w.inbox != [] {
      assert w.inbox == [w.inbox[0]] + w.inbox[1..];
    }
    if action.Push? && !w.Ended? {
      assert forall c :: c in w.inbox ==> c in w.inbox + [action.cmd];
    }
  }

  lemma QuietReleases(s: L.Sys, t: L.Sys, job: nat)
    requires Q.Quiet(s, t) && Released(s, job)
    ensures Released(t, job)
  {
  }

  lemma {:induction false} PushReleases(s: L.Sys, id: nat, cmds: seq<L.LeaseCmd>, job: nat)
    requires Released(s, job)
    ensures Released(Push(s, id, cmds), job)
  {
    if cmds != [] {
      var n := |cmds| - 1;
      PushReleases(s, id, cmds[..n], job);
      WorkReleases(Push(s, id, cmds[..n]), id, L.Push(cmds[n]), job);
    }
  }

  /** The worker serving a lease job that has been heard of. */
  predicate Served(s: L.Sys, job: nat) {
    job in s.work && job in s.job && (s.work[job].Leased? || s.work[job].Reading? || s.work[job].Ended?)
  }

  lemma {:induction false} DropReleases(s: L.Sys, job: nat, cmds: seq<L.LeaseCmd>)
    requires Served(s, job) && L.Drop in cmds
    ensures Released(Push(s, job, cmds), job)
  {
    var n := |cmds| - 1;
    PushOpened(s, job, cmds[..n]);
    var t := Push(s, job, cmds[..n]);
    if cmds[n] == L.Drop {
      OneDrop(t, job);
    } else {
      assert cmds == cmds[..n] + [cmds[n]];
      DropReleases(s, job, cmds[..n]);
      WorkReleases(t, job, L.Push(cmds[n]), job);
    }
  }

  lemma OneDrop(s: L.Sys, job: nat)
    requires Served(s, job)
    ensures Released(L.Next(s, L.Work(job, L.Push(L.Drop))), job)
  {
    var w := s.work[job];
    if !w.Ended? { assert (w.inbox + [L.Drop])[|w.inbox|] == L.Drop; }
  }

  lemma {:induction false} PushOpened(s: L.Sys, job: nat, cmds: seq<L.LeaseCmd>)
    requires Served(s, job)
    ensures Served(Push(s, job, cmds), job)
  {
    if cmds != [] {
      PushOpened(s, job, cmds[..|cmds| - 1]);
    }
  }

  /** A lease job of which something was heard has a worker, past its waiting; one that failed to
      open has ended. */
  lemma HeardIsOpened(s: L.Sys, job: nat)
    requires T.Reachable(s) && job in s.job && s.job[job].Open? && Proj(T.Handed(s), job) != []
    ensures Served(s, job)
    ensures Proj(T.Handed(s), job)[0].Failed? ==> s.work[job].Ended?
  {
    HeardFirst(s, job);
    WordOfOpen(s, job);
  }

  lemma WordOfOpen(s: L.Sys, job: nat)
    requires T.Reachable(s) && job in s.job && s.job[job].Open? && I.Word(s, job) != []
    ensures Served(s, job)
    ensures I.Word(s, job)[0].Failed? ==> s.work[job].Ended?
  {
    T.ReachableInv(s);
    OpenWorks(s, job);
  }

  lemma OpenWorks(s: L.Sys, job: nat)
    requires I.Words(s.work, s.job, s.out, s.events, s.answers) && I.Silent(s.work.Keys, s.leaderOf, s.out, s.events)
    requires I.Led(s.exec.coalesced, s.job, s.leaderOf, s.out)
    requires job in s.job && s.job[job].Open? && I.Word(s, job) != []
    ensures Served(s, job)
    ensures I.Word(s, job)[0].Failed? ==> s.work[job].Ended?
  {
    assert job in s.work;
    assert I.WordOk(s.work[job], s.job[job], I.Word(s, job), s.answers);
  }

  // ---- The event's own lease ----

  lemma OwnKeeps(h: House, lanes: L.Sys, event: Event, w: World)
    requires Linked(h) && T.Reachable(lanes) && T.Handed(lanes) == T.Handed(h.lanes) + [event]
    requires lanes.job == h.lanes.job && event.id in h.parked && Timely(h.desk, event)
    requires event.id in h.desk.prompts && Owed(h, event.id) && Keeps(h, event.id)
    requires w.leaseOpen == Alive(lanes, event.id)
    ensures Keeps(h.(lanes := Push(lanes, event.id, Commands(h.desk, event, w)), desk := Handle(h.desk, event, w)),
                  event.id)
  {
    FirstHeard(h, lanes, event);
    match event
    case Opened(_) => OpenedKeeps(h, lanes, event, w);
    case Done(_, _) => SettledKeeps(h, lanes, event, w);
    case Failed(_, _, _) =>
      if h.desk.prompts[event.id].committed {
        SettledKeeps(h, lanes, event, w);
      } else {
        FailedKeeps(h, lanes, event, w);
      }
    case Written(_) =>
    case Dropped(_) =>
  }

  lemma FirstHeard(h: House, lanes: L.Sys, event: Event)
    requires Linked(h) && T.Reachable(lanes) && T.Handed(lanes) == T.Handed(h.lanes) + [event]
    requires lanes.job == h.lanes.job && event.id in h.parked
    ensures Served(lanes, event.id)
    ensures Proj(T.Handed(h.lanes), event.id) == [] && event.Failed? ==> lanes.work[event.id].Ended?
  {
    ProjGrows(T.Handed(h.lanes), event, event.id);
    HeardIsOpened(lanes, event.id);
    assert ([] + [event])[0] == event;
  }

  lemma SettledKeeps(h: House, lanes: L.Sys, event: Event, w: World)
    requires event.id in h.desk.prompts && event.id in h.desk.owned && (event.Done? || event.Failed?)
    requires h.desk.prompts[event.id].committed && h.desk.prompts[event.id].lease && Served(lanes, event.id)
    ensures Keeps(h.(lanes := Push(lanes, event.id, Commands(h.desk, event, w)), desk := Handle(h.desk, event, w)),
                  event.id)
  {
    SettlesOwn(h.desk, event.id, w.completeOk);
    DropReleases(lanes, event.id, Commands(h.desk, event, w));
  }

  lemma FailedKeeps(h: House, lanes: L.Sys, event: Event, w: World)
    requires event.id in h.desk.prompts && event.id in h.desk.owned && event.Failed?
    requires Served(lanes, event.id) && lanes.work[event.id].Ended?
    ensures Keeps(h.(lanes := Push(lanes, event.id, Commands(h.desk, event, w)), desk := Handle(h.desk, event, w)),
                  event.id)
  {
    SettlesOwn(h.desk, event.id, w.completeOk);
    PushReleases(lanes, event.id, Commands(h.desk, event, w), event.id);
  }

  lemma OpenedKeeps(h: House, lanes: L.Sys, event: Event, w: World)
    requires event.Opened? && event.id in h.desk.prompts && event.id in h.desk.owned
    requires !h.desk.prompts[event.id].committed && Served(lanes, event.id) && w.leaseOpen == Alive(lanes, event.id)
    ensures Keeps(h.(lanes := Push(lanes, event.id, Commands(h.desk, event, w)), desk := Handle(h.desk, event, w)),
                  event.id)
  {
    var job, cmds := event.id, Commands(h.desk, event, w);
    if w.commitOk && w.leaseOpen {
      SendableIs(h.desk, job, w);
    } else {
      OpenedSettles(h.desk, job, w);
      if w.commitOk {
        PushReleases(lanes, job, cmds, job);
      } else {
        DropReleases(lanes, job, cmds);
      }
    }
  }

  // ---- Every move ----

  lemma DrainKeeps(h: House, w: World)
    requires Linked(h) && AllOwed(h) && AllKeep(h)
    ensures AllKeep(DeliveryRuns.Drain(h, w))
  {
    if T.Ready(h.lanes) {
      var event := T.RecvFace(h.lanes);
      var lanes := L.Next(h.lanes, L.Recv);
      HandedIs(h.lanes, event);
      T.ReachableInv(h.lanes);
      Q.NextQuiet(h.lanes, L.Recv);
      if event.id in h.parked {
        HandedInTime(h, lanes, event);
        EventKeeps(h, lanes, event, w.(leaseOpen := Alive(lanes, event.id)));
      } else {
        QuietKeeps(h, lanes);
      }
    }
  }

  lemma QuietKeeps(h: House, lanes: L.Sys)
    requires AllKeep(h) && Q.Quiet(h.lanes, lanes)
    ensures AllKeep(h.(lanes := lanes))
  {
    forall job | job in h.parked
      ensures Keeps(h.(lanes := lanes), job)
    {
      assert Keeps(h, job);
    }
  }

  lemma EventKeeps(h: House, lanes: L.Sys, event: Event, w: World)
    requires Linked(h) && AllOwed(h) && AllKeep(h) && Q.Quiet(h.lanes, lanes)
    requires T.Reachable(lanes) && T.Handed(lanes) == T.Handed(h.lanes) + [event]
    requires lanes.job == h.lanes.job && event.id in h.parked && Timely(h.desk, event)
    requires w.leaseOpen == Alive(lanes, event.id)
    ensures AllKeep(h.(lanes := Push(lanes, event.id, Commands(h.desk, event, w)), desk := Handle(h.desk, event, w)))
  {
    var cmds, e := Commands(h.desk, event, w), Handle(h.desk, event, w);
    forall job | job in h.parked
      ensures Keeps(h.(lanes := Push(lanes, event.id, cmds), desk := e), job)
    {
      assert Keeps(h, job);
      if job == event.id && job in h.desk.prompts {
        assert Owed(h, job);
        OwnKeeps(h, lanes, event, w);
      } else {
        OtherKeeps(h, lanes, event, w, job);
      }
    }
  }

  lemma OtherKeeps(h: House, lanes: L.Sys, event: Event, w: World, job: nat)
    requires Keeps(h, job) && Q.Quiet(h.lanes, lanes) && (job == event.id ==> job !in h.desk.prompts)
    ensures Keeps(h.(lanes := Push(lanes, event.id, Commands(h.desk, event, w)), desk := Handle(h.desk, event, w)), job)
  {
    NoteKeepsPrompts(h.desk, event, w);
    if job !in h.desk.prompts {
      QuietReleases(h.lanes, lanes, job);
      PushReleases(lanes, event.id, Commands(h.desk, event, w), job);
    }
  }

  /** The scheduler moves and no prompt does. */
  lemma StepKeeps(h: House, lanes: L.Sys)
    requires AllKeep(h)
    requires forall job :: job in h.parked && Released(h.lanes, job) ==> Released(lanes, job)
    ensures AllKeep(h.(lanes := lanes))
  {
    forall job | job in h.parked
      ensures Keeps(h.(lanes := lanes), job)
    {
      assert Keeps(h, job);
    }
  }

  lemma LodgeKeeps(h: House, prompt: Prompt)
    requires Linked(h) && AllKeep(h) && !prompt.committed
    ensures AllKeep(Lodge(h, prompt))
  {
    var submit := Open(h.lanes.next, prompt.pane, false);
    T.ReachableInv(h.lanes);
    Q.NextQuiet(h.lanes, L.Submit(submit));
    MarkFace(h.desk, prompt.owner);
    QuietKeeps(h, L.Next(h.lanes, L.Submit(submit)));
    LodgedKeeps(h, Lodge(h, prompt), prompt);
  }

  lemma LodgedKeeps(h: House, g: House, prompt: Prompt)
    requires AllKeep(h.(lanes := g.lanes)) && !prompt.committed
    requires g.parked == h.parked[h.lanes.next := prompt] && g.desk.prompts == h.desk.prompts[h.lanes.next := prompt]
    ensures AllKeep(g)
  {
    forall job | job in g.parked
      ensures Keeps(g, job)
    {
      if job != h.lanes.next { assert Keeps(h.(lanes := g.lanes), job); }
    }
  }

  lemma {:induction false} LodgeAllKeeps(h: House, key: SessionKey, notices: seq<Listed>)
    requires Linked(h) && AllKeep(h)
    ensures AllKeep(LodgeAll(h, key, notices))
  {
    if notices != [] {
      var n := |notices| - 1;
      LodgeAllKeeps(h, key, notices[..n]);
      LodgeAllLinked(h, key, notices[..n]);
      if notices[n].0.Some? {
        LodgeKeeps(LodgeAll(h, key, notices[..n]), Fresh(notices[n].0.value, ForSession(key, notices[n].1)));
      }
    }
  }

  lemma MeetKeeps(h: House, retire: bool, notices: seq<Listed>)
    requires Linked(h) && AllKeep(h)
    ensures AllKeep(Meet(h, retire, notices))
  {
    var c, key := Convened(h, retire, notices), NextKey(h, retire);
    ConveneLinked(h, c, key, notices);
    forall job | job in c.parked
      ensures Keeps(c, job)
    {
      assert Keeps(h, job);
    }
    LodgeAllKeeps(c, key, notices);
  }

  lemma WorkKeeps(h: House, id: nat, action: L.Action)
    requires AllKeep(h)
    ensures AllKeep(h.(lanes := L.Next(h.lanes, L.Work(id, action))))
  {
    forall job | job in h.parked && Released(h.lanes, job)
      ensures Released(L.Next(h.lanes, L.Work(id, action)), job)
    {
      WorkReleases(h.lanes, id, action, job);
    }
    StepKeeps(h, L.Next(h.lanes, L.Work(id, action)));
  }

  lemma SubmitKeeps(h: House, submit: Job)
    requires Linked(h) && AllKeep(h)
    ensures AllKeep(h.(lanes := L.Next(h.lanes, L.Submit(submit))))
  {
    T.ReachableInv(h.lanes);
    Q.NextQuiet(h.lanes, L.Submit(submit));
    QuietKeeps(h, L.Next(h.lanes, L.Submit(submit)));
  }

  lemma NextKeeps(h: House, m: Move)
    requires Linked(h) && AllOwed(h) && AllKeep(h)
    ensures AllKeep(Next(h, m))
  {
    match m
    case Toil(id, action) => if !action.Push? { WorkKeeps(h, id, action); }
    case OtherSubmit(job) => if job.id == h.lanes.next { SubmitKeeps(h, job); }
    case OtherPush(id, cmd) => if id !in h.parked { WorkKeeps(h, id, L.Push(cmd)); }
    case ParkOne(pane, owner) => if Welcome(h.desk, owner) { LodgeKeeps(h, Fresh(pane, owner)); }
    case ParkMany(retire, notices) => if DistinctNotices(notices) { MeetKeeps(h, retire, notices); }
    case Pump(w) => DrainKeeps(h, w);
  }

  lemma {:induction false} RunKeeps(moves: seq<Move>)
    ensures AllKeep(Run(moves))
  {
    if moves != [] {
      RunLinked(moves[..|moves| - 1]);
      RunOwed(moves[..|moves| - 1]);
      RunKeeps(moves[..|moves| - 1]);
      NextKeeps(Run(moves[..|moves| - 1]), moves[|moves| - 1]);
    }
  }

  /** In every run each prompt's job opens a lease on the prompt's own pane, and once the prompt
      has settled, however it did, the lease has ended or has been told to. */
  lemma LeasesAreReleased(moves: seq<Move>, job: nat)
    requires job in Run(moves).parked
    ensures var h := Run(moves);
            && job in h.lanes.job && h.lanes.job[job] == Open(job, h.parked[job].pane, false)
            && (job !in h.desk.prompts ==> Released(h.lanes, job))
  {
    RunLinked(moves);
    RunKeeps(moves);
    assert Keeps(Run(moves), job);
  }
}
