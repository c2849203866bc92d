/** Cancel and waiter-retire sessions: what their countdown counts, and when they answer.

    A session also waits for every prompt whose intent commit was refused: that path answers the
    prompt without telling its session, so such a session is never answered. */
module DeliverySessions {
  import opened Lanes
  import L = LaneRuns
  import T = LaneTheorems
  import opened Delivery
  import opened DeliveryRuns
  import opened DeliveryStories

  /** The intent commit of `job` was refused. */
  predicate Stuck(d: Desk, job: nat) {
    CommitRefused(job) in LogOf(d.log, job)
  }

  predicate Member(p: Prompt, key: SessionKey) {
    p.owner.ForSession? && p.owner.key == key
  }

  /** The prompts of `key` that are still parked or were refused. */
  ghost function Owing(d: Desk, parked: map<nat, Prompt>, key: SessionKey): set<nat> {
    set j | j in parked && Member(parked[j], key) && (j in d.prompts || Stuck(d, j))
  }

  /** The answers written to the session's client. */
  function Answers(log: seq<Entry>, key: SessionKey): seq<map<Notice, bool>> {
    if log == [] then []
    else
      var last := log[|log| - 1];
      Answers(log[..|log| - 1], key) + if last.AnsweredSession? && last.key == key then [last.delivered] else []
  }

  lemma AnswersGrow(log: seq<Entry>, e: Entry, key: SessionKey)
    ensures Answers(log + [e], key) == Answers(log, key)
              + if e.AnsweredSession? && e.key == key then [e.delivered] else []
  {
    assert (log + [e])[..|log|] == log;
  }

  /** The countdown is the number of prompts the session waits for, `coming` of them not parked
      yet; a begun session that waits for none has been answered, once. */
  ghost predicate Counts(d: Desk, parked: map<nat, Prompt>, key: SessionKey, begun: bool, coming: nat) {
    if key in d.sessions then
      begun && Answers(d.log, key) == []
      && d.sessions[key].remaining == |Owing(d, parked, key)| + coming && d.sessions[key].remaining > 0
    else
      Owing(d, parked, key) == {} && coming == 0 && |Answers(d.log, key)| == if begun then 1 else 0
  }

  predicate Begun(h: House, key: SessionKey) {
    match key
    case CancelKey(n) => n < h.cancels
    case RetireKey(n) => n < h.retires
  }

  // ---- One notice settles ----

  lemma NoteAnswers(d: Desk, key: SessionKey, notice: Notice, ok: bool, other: SessionKey)
    ensures Answers(Note(d, key, notice, ok).log, other)
         == Answers(d.log, other) + if other == key && key in d.sessions && d.sessions[key].remaining <= 1
                                    then [d.sessions[key].delivered[notice := ok]] else []
  {
    if key in d.sessions {
      AnswersGrow(d.log, AnsweredSession(key, d.sessions[key].delivered[notice := ok]), other);
    }
  }

  /** `e` is `d` after `job` has left, with no answer written and no session touched. */
  ghost predicate Leaves(d: Desk, e: Desk, job: nat) {
    && e.sessions == d.sessions && job !in e.prompts
    && (forall key :: Answers(e.log, key) == Answers(d.log, key))
    && (forall x :: x != job ==> (x in e.prompts <==> x in d.prompts) && LogOf(e.log, x) == LogOf(d.log, x))
  }

  lemma LeavesOwing(d: Desk, e: Desk, parked: map<nat, Prompt>, job: nat, key: SessionKey)
    requires Leaves(d, e, job) && job in parked
    ensures Owing(e, parked, key) ==
              if Member(parked[job], key) && Stuck(e, job) then Owing(d, parked, key) + {job}
              else Owing(d, parked, key) - {job}
  {
  }

  lemma NotePreserves(d: Desk, key: SessionKey, notice: Notice, ok: bool, parked: map<nat, Prompt>, other: SessionKey)
    ensures Owing(Note(d, key, notice, ok), parked, other) == Owing(d, parked, other)
  {
    NoteAdds(d, key, notice, ok);
  }

  /** A member that leaves and notes its session keeps every count. */
  lemma NotedCounts(d: Desk, e: Desk, parked: map<nat, Prompt>, job: nat, notice: Notice, ok: bool, key: SessionKey,
                    begun: bool)
    requires Leaves(d, e, job) && job in parked && job in d.prompts && parked[job].owner.ForSession? && !Stuck(e, job)
    requires Counts(d, parked, key, begun, 0)
    ensures Counts(Note(e, parked[job].owner.key, notice, ok), parked, key, begun, 0)
  {
    if key == parked[job].owner.key {
      NotedOwn(d, e, parked, job, notice, ok, begun);
    } else {
      NotedOther(d, e, parked, job, notice, ok, key, begun);
    }
  }

  lemma NotedOwn(d: Desk, e: Desk, parked: map<nat, Prompt>, job: nat, notice: Notice, ok: bool, begun: bool)
    requires Leaves(d, e, job) && job in parked && job in d.prompts && parked[job].owner.ForSession? && !Stuck(e, job)
    requires Counts(d, parked, parked[job].owner.key, begun, 0)
    ensures var own := parked[job].owner.key; Counts(Note(e, own, notice, ok), parked, own, begun, 0)
  {
    var own := parked[job].owner.key;
    NotePreserves(e, own, notice, ok, parked, own);
    NoteAnswers(e, own, notice, ok, own);
    OwnLeaves(d, e, parked, job);
  }

  lemma NotedOther(d: Desk, e: Desk, parked: map<nat, Prompt>, job: nat, notice: Notice, ok: bool, key: SessionKey,
                   begun: bool)
    requires Leaves(d, e, job) && job in parked && parked[job].owner.ForSession? && key != parked[job].owner.key
    requires Counts(d, parked, key, begun, 0)
    ensures Counts(Note(e, parked[job].owner.key, notice, ok), parked, key, begun, 0)
  {
    var own := parked[job].owner.key;
    NotePreserves(e, own, notice, ok, parked, key);
    NoteAnswers(e, own, notice, ok, key);
    OtherLeaves(d, e, parked, job, key);
  }

  lemma OwnLeaves(d: Desk, e: Desk, parked: map<nat, Prompt>, job: nat)
    requires Leaves(d, e, job) && job in parked && job in d.prompts && parked[job].owner.ForSession? && !Stuck(e, job)
    ensures var own := parked[job].owner.key;
            |Owing(e, parked, own)| == |Owing(d, parked, own)| - 1 && Owing(d, parked, own) != {}
            && (|Owing(d, parked, own)| == 1 ==> Owing(e, parked, own) == {})
  {
    var own := parked[job].owner.key;
    LeavesOwing(d, e, parked, job, own);
    assert job in Owing(d, parked, own);
  }

  lemma OtherLeaves(d: Desk, e: Desk, parked: map<nat, Prompt>, job: nat, key: SessionKey)
    requires Leaves(d, e, job) && job in parked && !Member(parked[job], key)
    ensures Owing(e, parked, key) == Owing(d, parked, key)
  {
    LeavesOwing(d, e, parked, job, key);
    assert job !in Owing(d, parked, key);
  }

  /** A prompt of no session, or a refused one, leaves every count as it was. */
  lemma QuietCounts(d: Desk, e: Desk, parked: map<nat, Prompt>, job: nat, key: SessionKey, begun: bool)
    requires Leaves(d, e, job) && job in parked && job in d.prompts
    requires !parked[job].owner.ForSession? || Stuck(e, job)
    requires Counts(d, parked, key, begun, 0)
    ensures Counts(e, parked, key, begun, 0)
  {
    LeavesOwing(d, e, parked, job, key);
    if Member(parked[job], key) {
      assert job in Owing(d, parked, key);
    } else {
      assert job !in Owing(d, parked, key);
    }
  }

  // ---- The handlers ----

  lemma NotedLeaves(d: Desk, c: Desk, entry: Entry, job: nat)
    requires About(entry, job)
    requires c.sessions == d.sessions && c.log == d.log
    requires job !in c.prompts && forall x :: x != job ==> (x in c.prompts <==> x in d.prompts)
    ensures Leaves(d, Noted(c, entry), job) && LogOf(Noted(c, entry).log, job) == LogOf(d.log, job) + [entry]
  {
    forall key
      ensures Answers(Noted(c, entry).log, key) == Answers(d.log, key)
    {
      AnswersGrow(d.log, entry, key);
    }
    forall x
      ensures LogOf(Noted(c, entry).log, x) == LogOf(d.log, x) + if x == job then [entry] else []
    {
      LogGrows(d.log, entry, x);
    }
  }

  lemma LeavesMore(d: Desk, c: Desk, entry: Entry, job: nat)
    requires Leaves(d, c, job) && About(entry, job)
    ensures Leaves(d, Noted(c, entry), job) && LogOf(Noted(c, entry).log, job) == LogOf(c.log, job) + [entry]
  {
    forall key
      ensures Answers(Noted(c, entry).log, key) == Answers(d.log, key)
    {
      AnswersGrow(c.log, entry, key);
    }
    forall x
      ensures LogOf(Noted(c, entry).log, x) == LogOf(c.log, x) + if x == job then [entry] else []
    {
      LogGrows(c.log, entry, x);
    }
  }

  lemma CompleteCounts(d: Desk, job: nat, ok: bool, parked: map<nat, Prompt>, key: SessionKey, begun: bool)
    requires job in d.prompts && job in parked && !Stuck(d, job)
    requires d.prompts[job].owner == parked[job].owner
    requires Counts(d, parked, key, begun, 0)
    ensures Counts(Complete(d, job, ok), parked, key, begun, 0)
  {
    var p := parked[job];
    var e := Noted(Forget(d, job), Completed(job, ok));
    NotedLeaves(d, Forget(d, job), Completed(job, ok), job);
    assert !Stuck(e, job);
    match p.owner
    case Client =>
      LeavesMore(d, e, AnsweredClient(job), job);
      QuietCounts(d, Noted(e, AnsweredClient(job)), parked, job, key, begun);
    case ForSession(_, notice) => NotedCounts(d, e, parked, job, notice, ok, key, begun);
    case _ => QuietCounts(d, e, parked, job, key, begun);
  }

  lemma AbandonCounts(d: Desk, job: nat, parked: map<nat, Prompt>, key: SessionKey, begun: bool)
    requires job in d.prompts && job in parked && !Stuck(d, job)
    requires d.prompts[job].owner == parked[job].owner
    requires Counts(d, parked, key, begun, 0)
    ensures Counts(Abandon(d, job), parked, key, begun, 0)
  {
    var p := parked[job];
    match p.owner
    case Client =>
      NotedLeaves(d, Forget(d, job), AnsweredClient(job), job);
      QuietCounts(d, Abandon(d, job), parked, job, key, begun);
    case ForSession(_, notice) =>
      NotedLeaves(d, Forget(d, job), Rejected(job), job);
      NotedCounts(d, Noted(Forget(d, job), Rejected(job)), parked, job, notice, false, key, begun);
    case _ => QuietCounts(d, Forget(d, job), parked, job, key, begun);
  }

  lemma FailCounts(d: Desk, job: nat, ok: bool, parked: map<nat, Prompt>, key: SessionKey, begun: bool)
    requires job in d.prompts && job in parked && Story(d, job, parked[job])
    requires Counts(d, parked, key, begun, 0)
    ensures Counts(Fail(d, job, ok), parked, key, begun, 0)
  {
    if d.prompts[job].committed {
      CompleteCounts(d, job, ok, parked, key, begun);
    } else {
      AbandonCounts(d, job, parked, key, begun);
    }
  }

  /** Nothing that a count speaks of differs. */
  lemma SameCounts(d: Desk, e: Desk, parked: map<nat, Prompt>, key: SessionKey, begun: bool)
    requires Counts(d, parked, key, begun, 0) && e.sessions == d.sessions && e.prompts.Keys == d.prompts.Keys
    requires Answers(e.log, key) == Answers(d.log, key)
    requires forall x :: Stuck(e, x) <==> Stuck(d, x)
    ensures Counts(e, parked, key, begun, 0)
  {
    assert Owing(e, parked, key) == Owing(d, parked, key);
  }

  lemma SendingCounts(d: Desk, job: nat, lease: bool, parked: map<nat, Prompt>, key: SessionKey, begun: bool)
    requires job in d.prompts && Counts(d, parked, key, begun, 0)
    ensures Counts(Sending(d, job, lease), parked, key, begun, 0)
  {
    var e := Sending(d, job, lease);
    AnswersGrow(d.log, Committed(job), key);
    AnswersGrow(d.log + [Committed(job)], SentTo(job), key);
    assert e.log == d.log + [Committed(job)] + [SentTo(job)];
    forall x
      ensures Stuck(e, x) <==> Stuck(d, x)
    {
      SendingStuck(d, e, job, x);
    }
    SameCounts(d, e, parked, key, begun);
  }

  lemma SendingStuck(d: Desk, e: Desk, job: nat, x: nat)
    requires e.log == d.log + [Committed(job)] + [SentTo(job)]
    ensures Stuck(e, x) <==> Stuck(d, x)
  {
    LogGrows(d.log, Committed(job), x);
    LogGrows(d.log + [Committed(job)], SentTo(job), x);
    var added := if x == job then [Committed(job)] else [];
    StuckAppends(LogOf(d.log, x), added, x);
    StuckAppends(LogOf(d.log, x) + added, if x == job then [SentTo(job)] else [], x);
  }

  lemma StuckAppends(story: seq<Entry>, added: seq<Entry>, job: nat)
    requires CommitRefused(job) !in added
    ensures CommitRefused(job) in story + added <==> CommitRefused(job) in story
  {
  }

  lemma RefusedCounts(d: Desk, job: nat, w: World, parked: map<nat, Prompt>, key: SessionKey, begun: bool)
    requires job in d.prompts && job in parked && Story(d, job, parked[job])
    requires !d.prompts[job].committed && !w.commitOk && Counts(d, parked, key, begun, 0)
    ensures Counts(OnOpened(d, job, w), parked, key, begun, 0)
  {
    var p := parked[job];
    var e := Noted(Forget(d, job), CommitRefused(job));
    NotedLeaves(d, Forget(d, job), CommitRefused(job), job);
    if p.owner.Client? {
      LeavesMore(d, e, AnsweredClient(job), job);
      RefusedForgets(d, job, w);
      QuietCounts(d, Noted(e, AnsweredClient(job)), parked, job, key, begun);
    } else {
      RefusedForgets(d, job, w);
      assert Stuck(e, job);
      QuietCounts(d, e, parked, job, key, begun);
    }
  }

  lemma RefusedForgets(d: Desk, job: nat, w: World)
    requires job in d.prompts && !d.prompts[job].committed && !w.commitOk
    ensures var e := Noted(Forget(d, job), CommitRefused(job));
            OnOpened(d, job, w) == if d.prompts[job].owner.Client? then Noted(e, AnsweredClient(job)) else e
  {
  }

  lemma HandleCounts(d: Desk, event: Event, w: World, parked: map<nat, Prompt>, key: SessionKey, begun: bool)
    requires Stories(d, parked) && Timely(d, event) && event.id in parked && Counts(d, parked, key, begun, 0)
    ensures Counts(Handle(d, event, w), parked, key, begun, 0)
  {
    var job := event.id;
    assert Story(d, job, parked[job]);
    if job in d.prompts && job in d.owned {
      if event.Opened? {
        OpenedCounts(d, job, w, parked, key, begun);
      } else if event.Done? || event.Failed? {
        FailCounts(d, job, w.completeOk, parked, key, begun);
      }
    }
    if event.Dropped? {
      SameCounts(d, Handle(d, event, w), parked, key, begun);
    }
  }

  lemma OpenedCounts(d: Desk, job: nat, w: World, parked: map<nat, Prompt>, key: SessionKey, begun: bool)
    requires Stories(d, parked) && job in parked && job in d.prompts && !d.prompts[job].committed
    requires Counts(d, parked, key, begun, 0)
    ensures Counts(OnOpened(d, job, w), parked, key, begun, 0)
  {
    assert Story(d, job, parked[job]);
    if !w.commitOk {
      RefusedCounts(d, job, w, parked, key, begun);
    } else if w.leaseOpen {
      SendingCounts(d, job, true, parked, key, begun);
      SendableIs(d, job, w);
    } else {
      SendingStory(d, job, false, parked);
      SendingCounts(d, job, false, parked, key, begun);
      FailCounts(Sending(d, job, false), job, w.completeOk, parked, key, begun);
      UnsendableIs(d, job, w);
    }
  }

  // ---- Parking ----

  lemma ParkCounts(d: Desk, parked: map<nat, Prompt>, job: nat, prompt: Prompt, key: SessionKey, begun: bool,
                   coming: nat)
    requires job !in parked && job !in d.prompts
    requires Counts(d, parked, key, begun, coming) && (Member(prompt, key) ==> coming > 0)
    ensures Counts(Park(d, job, prompt), parked[job := prompt], key, begun,
                   if Member(prompt, key) then coming - 1 else coming)
  {
    assert Owing(Park(d, job, prompt), parked[job := prompt], key) ==
             if Member(prompt, key) then Owing(d, parked, key) + {job} else Owing(d, parked, key);
    assert job !in Owing(d, parked, key);
  }

  lemma LodgesFresh(h: House, prompt: Prompt)
    requires Stories(h.desk, h.parked) && Housed(h)
    ensures h.lanes.next !in h.parked && h.lanes.next !in h.desk.prompts
  {
  }

  lemma LodgeCounts(h: House, prompt: Prompt, key: SessionKey, coming: nat)
    requires Stories(h.desk, h.parked) && Housed(h)
    requires Counts(h.desk, h.parked, key, Begun(h, key), coming) && (Member(prompt, key) ==> coming > 0)
    ensures var g := Lodge(h, prompt);
            Counts(g.desk, g.parked, key, Begun(g, key), if Member(prompt, key) then coming - 1 else coming)
  {
    var d := Mark(h.desk, prompt.owner);
    LodgesFresh(h, prompt);
    MarkFace(h.desk, prompt.owner);
    SameDesk(h.desk, d, h.parked, key, Begun(h, key), coming);
    ParkCounts(d, h.parked, h.lanes.next, prompt, key, Begun(h, key), coming);
  }

  lemma SameDesk(d: Desk, e: Desk, parked: map<nat, Prompt>, key: SessionKey, begun: bool, coming: nat)
    requires Counts(d, parked, key, begun, coming)
    requires e.prompts == d.prompts && e.sessions == d.sessions && e.log == d.log
    ensures Counts(e, parked, key, begun, coming)
  {
    assert Owing(e, parked, key) == Owing(d, parked, key);
  }

  lemma {:induction false} LodgeAllCounts(h: House, own: SessionKey, notices: seq<Listed>, key: SessionKey, coming: nat)
    requires Linked(h) && (key == own ==> coming >= Sendable(notices, |notices|))
    requires Counts(h.desk, h.parked, key, Begun(h, key), coming)
    ensures var g := LodgeAll(h, own, notices);
            Counts(g.desk, g.parked, key, Begun(g, key),
                   if key == own then coming - Sendable(notices, |notices|) else coming)
  {
    if notices != [] {
      var n := |notices| - 1;
      SendableTakes(notices, n, n);
      LodgeAllCounts(h, own, notices[..n], key, coming);
      LodgeAllLinked(h, own, notices[..n]);
      if notices[n].0.Some? {
        LodgeCounts(LodgeAll(h, own, notices[..n]), Fresh(notices[n].0.value, ForSession(own, notices[n].1)), key,
                    if key == own then coming - Sendable(notices, n) else coming);
      }
    }
  }

  lemma {:induction false} SendableTakes(notices: seq<Listed>, m: nat, n: nat)
    requires n <= m <= |notices|
    ensures Sendable(notices[..m], n) == Sendable(notices, n)
  {
    if n > 0 {
      SendableTakes(notices, m, n - 1);
    }
  }

  lemma ConveneCounts(h: House, retire: bool, notices: seq<Listed>, key: SessionKey)
    requires Counts(h.desk, h.parked, key, Begun(h, key), 0)
    ensures var g := Convened(h, retire, notices);
            Counts(g.desk, g.parked, key, Begun(g, key),
                   if key == NextKey(h, retire) then Sendable(notices, |notices|) else 0)
  {
    ConvenedCounts(h.desk, h.parked, NextKey(h, retire), notices, key, Begun(h, key));
  }

  lemma ConvenedCounts(d: Desk, parked: map<nat, Prompt>, own: SessionKey, notices: seq<Listed>, key: SessionKey,
                       begun: bool)
    requires Counts(d, parked, key, begun, 0) && (key == own ==> !begun)
    ensures Counts(Convene(d, own, notices), parked, key, begun || key == own,
                   if key == own then Sendable(notices, |notices|) else 0)
  {
    var e := Convene(d, own, notices);
    ConveneOwing(d, parked, own, notices, key);
    AnswersGrow(d.log, AnsweredSession(own, Unheard(notices)), key);
    if key == own {
      assert Owing(e, parked, own) == {};
    }
  }

  lemma ConveneOwing(d: Desk, parked: map<nat, Prompt>, own: SessionKey, notices: seq<Listed>, key: SessionKey)
    ensures Owing(Convene(d, own, notices), parked, key) == Owing(d, parked, key)
  {
    ConveneLog(d, own, notices);
    assert Convene(d, own, notices).prompts == d.prompts;
  }

  lemma MeetCounts(h: House, retire: bool, notices: seq<Listed>, key: SessionKey)
    requires Linked(h) && Counts(h.desk, h.parked, key, Begun(h, key), 0)
    ensures var g := Meet(h, retire, notices); Counts(g.desk, g.parked, key, Begun(g, key), 0)
  {
    var own := NextKey(h, retire);
    ConveneCounts(h, retire, notices, key);
    ConveneLinked(h, Convened(h, retire, notices), own, notices);
    LodgeAllCounts(Convened(h, retire, notices), own, notices, key,
                   if key == own then Sendable(notices, |notices|) else 0);
  }

  lemma DrainCounts(h: House, w: World, key: SessionKey)
    requires Linked(h) && Counts(h.desk, h.parked, key, Begun(h, key), 0)
    ensures var g := Drain(h, w); Counts(g.desk, g.parked, key, Begun(g, key), 0)
  {
    if T.Ready(h.lanes) && NextEvent(h.lanes).id in h.parked {
      var event := T.RecvFace(h.lanes);
      HandedIs(h.lanes, event);
      var lanes := L.Next(h.lanes, L.Recv);
      HandedInTime(h, lanes, event);
      HandleCounts(h.desk, event, w.(leaseOpen := Alive(lanes, event.id)), h.parked, key, Begun(h, key));
    }
  }

  lemma NextCounts(h: House, m: Move, key: SessionKey)
    requires Linked(h) && Counts(h.desk, h.parked, key, Begun(h, key), 0)
    ensures var g := Next(h, m); Counts(g.desk, g.parked, key, Begun(g, key), 0)
  {
    match m
    case ParkOne(pane, owner) =>
      if Welcome(h.desk, owner) { LodgeCounts(h, Fresh(pane, owner), key, 0); }
    case ParkMany(retire, notices) =>
      if DistinctNotices(notices) { MeetCounts(h, retire, notices, key); }
    case Pump(w) => DrainCounts(h, w, key);
    case _ =>
  }

  lemma {:induction false} RunCounts(moves: seq<Move>, key: SessionKey)
    ensures var h := Run(moves); Counts(h.desk, h.parked, key, Begun(h, key), 0)
  {
    if moves != [] {
      RunLinked(moves[..|moves| - 1]);
      RunCounts(moves[..|moves| - 1], key);
      NextCounts(Run(moves[..|moves| - 1]), moves[|moves| - 1], key);
    }
  }

  /** A member of `key` that has settled, other than by a refused intent. */
  ghost predicate Settled(h: House, key: SessionKey, job: nat) {
    job in h.parked && Member(h.parked[job], key) ==> job !in h.desk.prompts && !Stuck(h.desk, job)
  }

  /** In every run a begun session has written its one answer exactly when each of its prompts
      has settled without a refused intent; until then its countdown is the number of its
      prompts that are still parked or were refused. */
  lemma SessionAnswersWhenAllSettle(moves: seq<Move>, key: SessionKey)
    requires Begun(Run(moves), key)
    ensures var h := Run(moves);
            |Answers(h.desk.log, key)| <= 1
            && (|Answers(h.desk.log, key)| == 1 <==> forall job :: Settled(h, key, job))
            && (key in h.desk.sessions <==> Answers(h.desk.log, key) == [])
            && (key in h.desk.sessions ==> h.desk.sessions[key].remaining == |Owing(h.desk, h.parked, key)|)
  {
    var h := Run(moves);
    RunCounts(moves, key);
    if key in h.desk.sessions {
      var job :| job in Owing(h.desk, h.parked, key);
      assert !Settled(h, key, job);
    } else {
      forall job
        ensures Settled(h, key, job)
      {
        assert job !in Owing(h.desk, h.parked, key);
      }
    }
  }
}
