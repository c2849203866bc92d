/** A refused intent commit strands its session for good: the run that does it, and why no later
    step helps. */
module DeliveryRefusals {
  import opened Lanes
  import opened Wrappers
  import L = LaneRuns
  import T = LaneTheorems
  import opened Delivery
  import opened DeliveryRuns
  import opened DeliveryStories
  import opened DeliverySessions

  // ---- The log only grows ----

  lemma NoteExtends(d: Desk, key: SessionKey, notice: Notice, ok: bool)
    ensures d.log <= Note(d, key, notice, ok).log
  {
  }

  lemma CompleteExtends(d: Desk, job: nat, ok: bool)
    requires job in d.prompts
    ensures d.log <= Complete(d, job, ok).log
  {
    var p := d.prompts[job];
    var e := Noted(Forget(d, job), Completed(job, ok));
    if p.owner.ForSession? { NoteExtends(e, p.owner.key, p.owner.notice, ok); }
  }

  lemma AbandonExtends(d: Desk, job: nat)
    requires job in d.prompts
    ensures d.log <= Abandon(d, job).log
  {
    var p := d.prompts[job];
    var e := Noted(Forget(d, job), Rejected(job));
    if p.owner.ForSession? { NoteExtends(e, p.owner.key, p.owner.notice, false); }
  }

  lemma FailExtends(d: Desk, job: nat, ok: bool)
    ensures d.log <= Fail(d, job, ok).log
  {
    if job in d.prompts {
      CompleteExtends(d, job, ok);
      AbandonExtends(d, job);
    }
  }

  lemma OpenedExtends(d: Desk, job: nat, w: World)
    ensures d.log <= OnOpened(d, job, w).log
  {
    if job in d.prompts {
      var sent := d.(prompts := d.prompts[job := d.prompts[job].(committed := true)],
                     log := d.log + [Committed(job), SentTo(job)]);
      FailExtends(sent, job, w.completeOk);
      FailExtends(Noted(d, CommitRefused(job)), job, w.completeOk);
    }
  }

  lemma HandleExtends(d: Desk, event: Event, w: World)
    ensures d.log <= Handle(d, event, w).log
  {
    match event
    case Opened(job) => OpenedExtends(d, job, w);
    case Done(job, _) => if job in d.prompts { CompleteExtends(d, job, w.completeOk); }
    case Failed(job, _, _) => FailExtends(d, job, w.completeOk);
    case _ =>
  }

  /** What a step keeps of the prompts that were parked, and of the log. */
  ghost predicate Grows(h: House, g: House) {
    h.desk.log <= g.desk.log && forall job :: job in h.parked ==> job in g.parked && g.parked[job] == h.parked[job]
  }

  lemma LodgeGrows(h: House, prompt: Prompt)
    requires Linked(h)
    ensures Grows(h, Lodge(h, prompt))
  {
    LodgesFresh(h, prompt);
    MarkFace(h.desk, prompt.owner);
  }

  lemma {:induction false} LodgeAllGrows(h: House, key: SessionKey, notices: seq<Listed>)
    requires Linked(h)
    ensures Grows(h, LodgeAll(h, key, notices))
  {
    if notices != [] {
      var n := |notices| - 1;
      LodgeAllGrows(h, key, notices[..n]);
      LodgeAllLinked(h, key, notices[..n]);
      if notices[n].0.Some? {
        LodgeGrows(LodgeAll(h, key, notices[..n]), Fresh(notices[n].0.value, ForSession(key, notices[n].1)));
      }
    }
  }

  lemma MeetGrows(h: House, retire: bool, notices: seq<Listed>)
    requires Linked(h)
    ensures Grows(h, Meet(h, retire, notices))
  {
    var own, c := NextKey(h, retire), Convened(h, retire, notices);
    ConveneLinked(h, c, own, notices);
    assert Grows(h, c);
    LodgeAllGrows(c, own, notices);
  }

  lemma NextGrows(h: House, m: Move)
    requires Linked(h)
    ensures Grows(h, Next(h, m))
  {
    match m
    case ParkOne(pane, owner) => if Welcome(h.desk, owner) { LodgeGrows(h, Fresh(pane, owner)); }
    case ParkMany(retire, notices) => if DistinctNotices(notices) { MeetGrows(h, retire, notices); }
    case Pump(w) =>
      if T.Ready(h.lanes) && NextEvent(h.lanes).id in h.parked {
        var event := NextEvent(h.lanes);
        HandleExtends(h.desk, event, w.(leaseOpen := Alive(L.Next(h.lanes, L.Recv), event.id)));
      }
    case _ =>
  }

  lemma {:induction false} RunGrows(moves: seq<Move>, more: seq<Move>)
    ensures Grows(Run(moves), Run(moves + more))
  {
    if more == [] {
      assert moves + more == moves;
    } else {
      var n := |more| - 1;
      RunGrows(moves, more[..n]);
      RunLinked(moves + more[..n]);
      NextGrows(Run(moves + more[..n]), more[n]);
      RunSnoc(moves, more);
    }
  }

  lemma {:induction false} StuckIsLogged(log: seq<Entry>, job: nat)
    ensures CommitRefused(job) in LogOf(log, job) <==> CommitRefused(job) in log
  {
    if log != [] {
      StuckIsLogged(log[..|log| - 1], job);
      assert log == log[..|log| - 1] + [log[|log| - 1]];
    }
  }

  /** Once the intent of one of its prompts was refused, a session is never answered, whatever
      happens next. */
  lemma RefusalStrandsSession(moves: seq<Move>, more: seq<Move>, key: SessionKey, job: nat)
    requires job in Run(moves).parked && Member(Run(moves).parked[job], key) && Stuck(Run(moves).desk, job)
    ensures Answers(Run(moves + more).desk.log, key) == []
  {
    var h, g := Run(moves), Run(moves + more);
    RunGrows(moves, more);
    StuckIsLogged(h.desk.log, job);
    StuckIsLogged(g.desk.log, job);
    RunCounts(moves + more, key);
    assert job in Owing(g.desk, g.parked, key);
  }

  // ---- A run that does it ----

  const KEY := CancelKey(0)

  /** One notice of a cancel is parked, its lease opens, and the store refuses the intent. */
  function RefusedRun(pane: string): seq<Move> {
    [ParkMany(false, [(Some(pane), WaitingSide)]), Toil(0, L.Accept), Pump(World(false, true, true))]
  }

  lemma Parked(pane: string)
    ensures var h := Run(RefusedRun(pane)[..1]);
            && h.parked == map[0 := Fresh(pane, ForSession(KEY, WaitingSide))]
            && h.desk.prompts == h.parked && h.desk.owned == {0} && h.desk.log == []
            && h.lanes.exec.pending == [] && h.lanes.events == []
            && h.lanes.work == map[0 := L.Waiting] && h.lanes.job == map[0 := Open(0, pane, false)]
  {
    var moves, notices := RefusedRun(pane)[..1], [(Some(pane), WaitingSide)];
    assert moves[..0] == [] && notices[..0] == [];
    assert Run(moves) == Next(Opening(), ParkMany(false, notices));
    var c := Convened(Opening(), false, notices);
    assert LodgeAll(c, KEY, notices[..0]) == c;
    assert LodgeAll(c, KEY, notices) == Lodge(c, Fresh(pane, ForSession(KEY, WaitingSide)));
    Admitted(pane);
  }

  lemma Admitted(pane: string)
    ensures var s := L.Next(L.Init(), L.Submit(Open(0, pane, false)));
            && s.exec.pending == [] && s.events == []
            && s.work == map[0 := L.Waiting] && s.job == map[0 := Open(0, pane, false)]
  {
  }

  lemma Accepted(pane: string)
    ensures var h := Run(RefusedRun(pane)[..2]);
            && h.parked == map[0 := Fresh(pane, ForSession(KEY, WaitingSide))]
            && h.desk.prompts == h.parked && h.desk.owned == {0} && h.desk.log == []
            && h.lanes.exec.pending == [] && h.lanes.events == [Opened(0)]
  {
    Parked(pane);
    var moves := RefusedRun(pane)[..2];
    assert moves[..1] == RefusedRun(pane)[..1];
    assert Run(moves) == Next(Run(moves[..1]), Toil(0, L.Accept));
  }

  lemma Settles(pane: string)
    ensures var h := Run(RefusedRun(pane));
            0 in h.parked && Member(h.parked[0], KEY) && h.desk.prompts == map[] && Stuck(h.desk, 0)
  {
    Accepted(pane);
    LastMove(pane);
    Refusal(Run(RefusedRun(pane)[..2]), World(false, true, true), pane);
  }

  lemma LastMove(pane: string)
    ensures Run(RefusedRun(pane)) == Drain(Run(RefusedRun(pane)[..2]), World(false, true, true))
  {
    var moves := RefusedRun(pane);
    assert moves[..|moves| - 1] == moves[..2];
  }

  /** The refusal can happen: this cancel's one notice settles, and its client is never
      answered, whatever happens next. */
  lemma SessionCanBeStranded(pane: string, more: seq<Move>)
    ensures Run(RefusedRun(pane)).desk.prompts == map[]
    ensures Answers(Run(RefusedRun(pane) + more).desk.log, KEY) == []
  {
    Settles(pane);
    RefusalStrandsSession(RefusedRun(pane), more, KEY, 0);
  }

  lemma Refusal(h: House, w: World, pane: string)
    requires h.parked == map[0 := Fresh(pane, ForSession(KEY, WaitingSide))]
    requires h.desk.prompts == h.parked && h.desk.owned == {0} && h.desk.log == []
    requires h.lanes.exec.pending == [] && h.lanes.events == [Opened(0)] && !w.commitOk
    ensures var g := Drain(h, w);
            g.parked == h.parked && g.desk.prompts == map[] && Stuck(g.desk, 0)
  {
    StuckIsLogged(Drain(h, w).desk.log, 0);
    assert [CommitRefused(0)][0] == CommitRefused(0);
  }
}
