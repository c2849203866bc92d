/** Due deliveries and reminders under way: what the daemon's two sets hold, in every run. */
module DeliveryMarks {
  import opened Lanes
  import L = LaneRuns
  import T = LaneTheorems
  import opened Delivery
  import opened DeliveryRuns
  import opened DeliveryStories

  /** A due delivery or a reminder, which is marked while it is parked. */
  predicate Marks(owner: Owner) {
    owner.Due? || owner.Reminder?
  }

  predicate UnderWay(d: Desk, owner: Owner) {
    match owner
    case Due(operation) => operation in d.due
    case Reminder(ask) => ask in d.reminders
    case _ => false
  }

  ghost predicate ParkedFor(prompts: map<nat, Prompt>, owner: Owner) {
    exists job :: job in prompts && prompts[job].owner == owner
  }

  /** What is marked is what is parked. */
  ghost predicate MarksParked(d: Desk) {
    forall owner :: Marks(owner) ==> (UnderWay(d, owner) <==> ParkedFor(d.prompts, owner))
  }

  /** Nothing that is marked is parked twice. */
  ghost predicate OneEach(prompts: map<nat, Prompt>) {
    forall i, j ::
      (i in prompts && j in prompts && Marks(prompts[i].owner) && prompts[i].owner == prompts[j].owner) ==> i == j
  }

  ghost predicate Marked(d: Desk) {
    MarksParked(d) && OneEach(d.prompts)
  }

  /** Nothing that marks speak of differs. */
  ghost predicate Alike(d: Desk, e: Desk) {
    && e.due == d.due && e.reminders == d.reminders && e.prompts.Keys == d.prompts.Keys
    && forall job :: job in d.prompts ==> e.prompts[job].owner == d.prompts[job].owner
  }

  lemma AlikeMarked(d: Desk, e: Desk)
    requires Alike(d, e) && Marked(d)
    ensures Marked(e)
  {
    forall owner | Marks(owner)
      ensures ParkedFor(e.prompts, owner) <==> ParkedFor(d.prompts, owner)
    {
      if ParkedFor(d.prompts, owner) {
        var job :| job in d.prompts && d.prompts[job].owner == owner;
        assert job in e.prompts && e.prompts[job].owner == owner;
      }
    }
  }

  /** A prompt that leaves releases its mark, and no other prompt had the same. */
  lemma ForgetMarked(d: Desk, job: nat)
    requires job in d.prompts && Marked(d)
    ensures Marked(Forget(d, job))
  {
    var e, own := Forget(d, job), d.prompts[job].owner;
    ForgetFace(d, job);
    forall owner | Marks(owner)
      ensures UnderWay(e, owner) <==> ParkedFor(e.prompts, owner)
    {
      assert UnderWay(e, owner) <==> UnderWay(d, owner) && owner != own;
      if ParkedFor(d.prompts, owner) && owner != own {
        var x :| x in d.prompts && d.prompts[x].owner == owner;
        assert x in e.prompts && e.prompts[x].owner == owner;
      }
    }
  }

  lemma ParkMarked(d: Desk, job: nat, p: Prompt)
    requires Marked(d) && job !in d.prompts && !UnderWay(d, p.owner)
    ensures Marked(Park(Mark(d, p.owner), job, p))
  {
    var e := Park(Mark(d, p.owner), job, p);
    MarkFace(d, p.owner);
    assert e.prompts == d.prompts[job := p];
    forall owner | Marks(owner)
      ensures UnderWay(e, owner) <==> ParkedFor(e.prompts, owner)
    {
      assert UnderWay(e, owner) <==> UnderWay(d, owner) || owner == p.owner;
      if owner == p.owner { assert e.prompts[job].owner == owner; }
      if ParkedFor(d.prompts, owner) {
        var x :| x in d.prompts && d.prompts[x].owner == owner;
        assert x in e.prompts && e.prompts[x].owner == owner;
      }
    }
    forall x | x in d.prompts && Marks(p.owner)
      ensures d.prompts[x].owner != p.owner
    {
      assert !ParkedFor(d.prompts, p.owner);
    }
  }

  // ---- The handlers ----

  lemma NoteAlike(d: Desk, key: SessionKey, notice: Notice, ok: bool)
    ensures Alike(d, Note(d, key, notice, ok))
  {
  }

  /** A settled prompt is forgotten, and then only sessions and the log change. */
  lemma FailForgets(d: Desk, job: nat, ok: bool)
    requires job in d.prompts
    ensures Alike(Forget(d, job), Fail(d, job, ok)) && Alike(Forget(d, job), Complete(d, job, ok))
  {
    var owner, f := d.prompts[job].owner, Forget(d, job);
    if owner.ForSession? {
      NoteAlike(Noted(f, Completed(job, ok)), owner.key, owner.notice, ok);
      NoteAlike(Noted(f, Rejected(job)), owner.key, owner.notice, false);
    }
  }

  lemma FailMarked(d: Desk, job: nat, ok: bool)
    requires job in d.prompts && Marked(d)
    ensures Marked(Fail(d, job, ok)) && Marked(Complete(d, job, ok))
  {
    FailForgets(d, job, ok);
    ForgetMarked(d, job);
    AlikeMarked(Forget(d, job), Fail(d, job, ok));
    AlikeMarked(Forget(d, job), Complete(d, job, ok));
  }

  lemma OpenedMarked(d: Desk, job: nat, w: World)
    requires job in d.prompts && Marked(d)
    ensures Marked(OnOpened(d, job, w))
  {
    if w.commitOk {
      AlikeMarked(d, Sending(d, job, w.leaseOpen));
      if w.leaseOpen {
        SendableIs(d, job, w);
      } else {
        FailMarked(Sending(d, job, false), job, w.completeOk);
        UnsendableIs(d, job, w);
      }
    } else {
      RefusedMarked(d, Noted(d, CommitRefused(job)), job, w.completeOk);
    }
  }

  lemma RefusedMarked(d: Desk, r: Desk, job: nat, ok: bool)
    requires job in d.prompts && Marked(d) && r == Noted(d, CommitRefused(job))
    ensures Marked(Fail(r, job, ok)) && Marked(AnswerRefused(r, job))
  {
    AlikeMarked(d, r);
    FailMarked(r, job, ok);
    ForgetMarked(r, job);
    AlikeMarked(Forget(r, job), AnswerRefused(r, job));
  }

  lemma HandleMarked(d: Desk, event: Event, w: World)
    requires Marked(d)
    ensures Marked(Handle(d, event, w))
  {
    var job := event.id;
    if event.Dropped? {
      AlikeMarked(d, Handle(d, event, w));
    } else if job in d.prompts && job in d.owned {
      OpenedMarked(d, job, w);
      FailMarked(d, job, w.completeOk);
    }
  }

  // ---- Every run ----

  lemma LodgeMarked(h: House, prompt: Prompt)
    requires Linked(h) && Marked(h.desk) && !UnderWay(h.desk, prompt.owner)
    ensures Marked(Lodge(h, prompt).desk)
  {
    ParkMarked(h.desk, h.lanes.next, prompt);
  }

  lemma {:induction false} LodgeAllMarked(h: House, key: SessionKey, notices: seq<Listed>)
    requires Linked(h) && Marked(h.desk)
    ensures Marked(LodgeAll(h, key, notices).desk)
  {
    if notices != [] {
      var n := |notices| - 1;
      LodgeAllMarked(h, key, notices[..n]);
      LodgeAllLinked(h, key, notices[..n]);
      if notices[n].0.Some? {
        LodgeMarked(LodgeAll(h, key, notices[..n]), Fresh(notices[n].0.value, ForSession(key, notices[n].1)));
      }
    }
  }

  lemma MeetMarked(h: House, retire: bool, notices: seq<Listed>)
    requires Linked(h) && Marked(h.desk)
    ensures Marked(Meet(h, retire, notices).desk)
  {
    var c, key := Convened(h, retire, notices), NextKey(h, retire);
    ConveneLinked(h, c, key, notices);
    AlikeMarked(h.desk, c.desk);
    LodgeAllMarked(c, key, notices);
  }

  lemma NextMarked(h: House, m: Move)
    requires Linked(h) && Marked(h.desk)
    ensures Marked(Next(h, m).desk)
  {
    match m
    case ParkOne(pane, owner) => if Welcome(h.desk, owner) { LodgeMarked(h, Fresh(pane, owner)); }
    case ParkMany(retire, notices) => if DistinctNotices(notices) { MeetMarked(h, retire, notices); }
    case Pump(w) =>
      if T.Ready(h.lanes) && NextEvent(h.lanes).id in h.parked {
        var event := NextEvent(h.lanes);
        HandleMarked(h.desk, event, w.(leaseOpen := Alive(L.Next(h.lanes, L.Recv), event.id)));
      }
    case _ =>
  }

  /** In every run `due_inflight` and `reminder_inflight` hold exactly the due deliveries and the
      reminders that have a prompt parked, and none of them has two. */
  lemma {:induction false} UnderWayIsParked(moves: seq<Move>)
    ensures Marked(Run(moves).desk)
  {
    if moves != [] {
      RunLinked(moves[..|moves| - 1]);
      UnderWayIsParked(moves[..|moves| - 1]);
      NextMarked(Run(moves[..|moves| - 1]), moves[|moves| - 1]);
    }
  }
}
