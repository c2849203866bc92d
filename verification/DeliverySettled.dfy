/** A settled prompt stays settled. */
module DeliverySettled {
  import opened Lanes
  import L = LaneRuns
  import T = LaneTheorems
  import opened Delivery
  import opened DeliveryRuns
  import opened DeliveryStories

  // ---- A settled prompt is left alone ----

  /** From `d` to `e` the prompts and stories of all jobs but `job` are as they were. */
  ghost predicate Elsewhere(d: Desk, e: Desk, job: nat) {
    forall x :: x != job ==> (x in e.prompts <==> x in d.prompts) && LogOf(e.log, x) == LogOf(d.log, x)
  }

  lemma FailElsewhere(d: Desk, job: nat, ok: bool)
    requires job in d.prompts
    ensures Elsewhere(d, Fail(d, job, ok), job)
  {
    if d.prompts[job].committed { CompleteAdds(d, job, ok); } else { AbandonAdds(d, job); }
  }

  lemma OpenedElsewhere(d: Desk, job: nat, w: World)
    requires job in d.prompts && !d.prompts[job].committed
    ensures Elsewhere(d, OnOpened(d, job, w), job)
  {
    if !w.commitOk {
      RefusedAdds(d, job, w, d.prompts[job]);
    } else {
      SendingElsewhere(d, job, w.leaseOpen);
      if w.leaseOpen {
        SendableIs(d, job, w);
      } else {
        FailElsewhere(Sending(d, job, false), job, w.completeOk);
        UnsendableIs(d, job, w);
      }
    }
  }

  lemma SendingElsewhere(d: Desk, job: nat, lease: bool)
    requires job in d.prompts
    ensures Elsewhere(d, Sending(d, job, lease), job)
  {
    var e := Sending(d, job, lease);
    assert e.log == d.log + [Committed(job)] + [SentTo(job)];
    forall x | x != job
      ensures LogOf(e.log, x) == LogOf(d.log, x)
    {
      SendingLog(d.log, job, x);
    }
  }

  lemma HandleElsewhere(d: Desk, event: Event, w: World)
    requires Timely(d, event)
    ensures Elsewhere(d, Handle(d, event, w), event.id)
  {
    var job := event.id;
    if job in d.prompts && job in d.owned {
      if event.Opened? {
        OpenedElsewhere(d, job, w);
      } else if event.Done? {
        CompleteAdds(d, job, w.completeOk);
      } else if event.Failed? {
        FailElsewhere(d, job, w.completeOk);
      }
    }
  }

  /** `job` has settled, with `story`. */
  ghost predicate Told(h: House, job: nat, story: seq<Entry>) {
    job in h.parked && job !in h.desk.prompts && LogOf(h.desk.log, job) == story
  }

  lemma DrainTold(h: House, w: World, job: nat, story: seq<Entry>)
    requires Linked(h) && Told(h, job, story)
    ensures Told(Drain(h, w), job, story)
  {
    if T.Ready(h.lanes) && NextEvent(h.lanes).id in h.parked {
      var event := T.RecvFace(h.lanes);
      var lanes := L.Next(h.lanes, L.Recv);
      HandedIs(h.lanes, event);
      HandedInTime(h, lanes, event);
      var v := w.(leaseOpen := Alive(lanes, event.id));
      if event.id == job {
        LateEventsAreIgnored(h.desk, event, v);
      } else {
        HandleElsewhere(h.desk, event, v);
      }
    }
  }

  lemma LodgeTold(h: House, prompt: Prompt, job: nat, story: seq<Entry>)
    requires Linked(h) && Told(h, job, story)
    ensures Told(Lodge(h, prompt), job, story)
  {
    MarkFace(h.desk, prompt.owner);
    LodgeIsFresh(h, job);
  }

  lemma LodgeIsFresh(h: House, job: nat)
    requires Linked(h) && job in h.parked
    ensures job != h.lanes.next
  {
  }

  lemma {:induction false} LodgeAllTold(h: House, key: SessionKey, notices: seq<Listed>, job: nat, story: seq<Entry>)
    requires Linked(h) && Told(h, job, story)
    ensures Told(LodgeAll(h, key, notices), job, story)
  {
    if notices != [] {
      var n := |notices| - 1;
      LodgeAllTold(h, key, notices[..n], job, story);
      LodgeAllLinked(h, key, notices[..n]);
      if notices[n].0.Some? {
        LodgeTold(LodgeAll(h, key, notices[..n]), Fresh(notices[n].0.value, ForSession(key, notices[n].1)), job, story);
      }
    }
  }

  lemma MeetTold(h: House, retire: bool, notices: seq<Listed>, job: nat, story: seq<Entry>)
    requires Linked(h) && Told(h, job, story)
    ensures Told(Meet(h, retire, notices), job, story)
  {
    var c, key := Convened(h, retire, notices), NextKey(h, retire);
    ConveneLinked(h, c, key, notices);
    ConveneLog(h.desk, key, notices);
    LodgeAllTold(c, key, notices, job, story);
  }

  lemma NextTold(h: House, m: Move, job: nat, story: seq<Entry>)
    requires Linked(h) && Told(h, job, story)
    ensures Told(Next(h, m), job, story)
  {
    match m
    case ParkOne(pane, owner) => if Welcome(h.desk, owner) { LodgeTold(h, Fresh(pane, owner), job, story); }
    case ParkMany(retire, notices) => if DistinctNotices(notices) { MeetTold(h, retire, notices, job, story); }
    case Pump(w) => DrainTold(h, w, job, story);
    case _ =>
  }

  /** Once a prompt has settled nothing that happens later touches it: it is not parked again,
      sent, recorded or answered a second time. */
  lemma {:induction false} SettledForGood(moves: seq<Move>, more: seq<Move>, job: nat)
    requires job in Run(moves).parked && job !in Run(moves).desk.prompts
    ensures Told(Run(moves + more), job, LogOf(Run(moves).desk.log, job))
  {
    if more == [] {
      assert moves + more == moves;
    } else {
      SettledForGood(moves, more[..|more| - 1], job);
      MoveTold(moves, more, job, LogOf(Run(moves).desk.log, job));
    }
  }

  lemma MoveTold(moves: seq<Move>, more: seq<Move>, job: nat, story: seq<Entry>)
    requires more != [] && Told(Run(moves + more[..|more| - 1]), job, story)
    ensures Told(Run(moves + more), job, story)
  {
    var n := |more| - 1;
    RunLinked(moves + more[..n]);
    NextTold(Run(moves + more[..n]), more[n], job, story);
    RunSnoc(moves, more);
  }
}
