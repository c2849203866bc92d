/** What a session's answer reports of each notice. */
module DeliveryReports {
  import opened Lanes
  import opened Wrappers
  import L = LaneRuns
  import T = LaneTheorems
  import opened Delivery
  import opened DeliveryRuns
  import opened DeliveryStories
  import opened DeliverySessions

  /** The outcome recorded for `job` was a delivery. */
  predicate DeliveredOk(d: Desk, job: nat) {
    Completed(job, true) in LogOf(d.log, job)
  }

  /** The flags the session will answer, or has answered, with. */
  function Tally(d: Desk, key: SessionKey): map<Notice, bool> {
    if key in d.sessions then d.sessions[key].delivered
    else if Answers(d.log, key) != [] then Answers(d.log, key)[0]
    else map[]
  }

  /** No prompt of the session carries the notice. */
  ghost predicate Unsent(parked: map<nat, Prompt>, key: SessionKey, notice: Notice) {
    forall job :: job in parked && Member(parked[job], key) ==> parked[job].owner.notice != notice
  }

  /** The session has a flag for each of `names`: whether the prompt that carries it was
      delivered, and false when no prompt does. */
  ghost predicate Reports(d: Desk, parked: map<nat, Prompt>, key: SessionKey, names: set<Notice>) {
    && Tally(d, key).Keys == names
    && (forall job :: job in parked && Member(parked[job], key) ==>
          parked[job].owner.notice in Tally(d, key)
          && (Tally(d, key)[parked[job].owner.notice] <==> DeliveredOk(d, job)))
    && (forall notice :: notice in Tally(d, key) && Unsent(parked, key, notice) ==> !Tally(d, key)[notice])
  }

  /** No two prompts of a session carry the same notice. */
  ghost predicate OnePerNotice(parked: map<nat, Prompt>, key: SessionKey) {
    forall i, j ::
      (i in parked && j in parked && Member(parked[i], key) && Member(parked[j], key)
       && parked[i].owner.notice == parked[j].owner.notice) ==> i == j
  }

  lemma NoteTally(d: Desk, own: SessionKey, notice: Notice, ok: bool, key: SessionKey)
    requires own in d.sessions && Answers(d.log, own) == []
    ensures Tally(Note(d, own, notice, ok), key) == if key == own then Tally(d, key)[notice := ok] else Tally(d, key)
  {
    NoteAnswers(d, own, notice, ok, key);
    if key == own { OwnTally(d, own, notice, ok); }
  }

  lemma OwnTally(d: Desk, own: SessionKey, notice: Notice, ok: bool)
    requires own in d.sessions && Answers(d.log, own) == []
    ensures Tally(Note(d, own, notice, ok), own) == Tally(d, own)[notice := ok]
  {
    NoteAnswers(d, own, notice, ok, own);
  }

  /** A member settles with the flag it notes. */
  lemma NotedReports(d: Desk, e: Desk, parked: map<nat, Prompt>, job: nat, ok: bool, key: SessionKey,
                     names: set<Notice>)
    requires Leaves(d, e, job) && job in parked && parked[job].owner.ForSession?
    requires parked[job].owner.key in d.sessions && Answers(d.log, parked[job].owner.key) == []
    requires DeliveredOk(e, job) <==> ok
    requires Reports(d, parked, key, names) && OnePerNotice(parked, key)
    ensures Reports(Note(e, parked[job].owner.key, parked[job].owner.notice, ok), parked, key, names)
  {
    var own, notice := parked[job].owner.key, parked[job].owner.notice;
    NoteTally(e, own, notice, ok, key);
    NoteAdds(e, own, notice, ok);
    assert Tally(e, key) == Tally(d, key);
  }

  /** Anything else leaves the flags and the deliveries alone. */
  lemma QuietReports(d: Desk, e: Desk, parked: map<nat, Prompt>, key: SessionKey, names: set<Notice>)
    requires Reports(d, parked, key, names) && Tally(e, key) == Tally(d, key)
    requires forall x :: x in parked && Member(parked[x], key) ==> (DeliveredOk(e, x) <==> DeliveredOk(d, x))
    ensures Reports(e, parked, key, names)
  {
  }

  lemma CompleteNoted(d: Desk, job: nat, ok: bool, parked: map<nat, Prompt>, key: SessionKey, names: set<Notice>)
    requires job in parked && job in d.prompts && parked[job].owner.ForSession? && !DeliveredOk(d, job)
    requires parked[job].owner.key in d.sessions && Answers(d.log, parked[job].owner.key) == []
    requires Reports(d, parked, key, names) && OnePerNotice(parked, key)
    ensures var e, owner := Noted(Forget(d, job), Completed(job, ok)), parked[job].owner;
            Reports(Note(e, owner.key, owner.notice, ok), parked, key, names)
  {
    NotedLeaves(d, Forget(d, job), Completed(job, ok), job);
    NotedReports(d, Noted(Forget(d, job), Completed(job, ok)), parked, job, ok, key, names);
  }

  /** An entry about a prompt of no session. */
  lemma EntryReports(d: Desk, c: Desk, entry: Entry, job: nat, parked: map<nat, Prompt>, key: SessionKey,
                     names: set<Notice>)
    requires About(entry, job) && job in parked && !parked[job].owner.ForSession?
    requires c.sessions == d.sessions && c.log == d.log && Reports(d, parked, key, names)
    ensures Reports(Noted(c, entry), parked, key, names)
  {
    var e := Noted(c, entry);
    AnswersGrow(d.log, entry, key);
    forall x | x != job
      ensures LogOf(e.log, x) == LogOf(d.log, x)
    {
      LogGrows(d.log, entry, x);
    }
    QuietReports(d, e, parked, key, names);
  }

  lemma CompleteReports(d: Desk, job: nat, ok: bool, parked: map<nat, Prompt>, key: SessionKey, names: set<Notice>)
    requires job in d.prompts && job in parked && !DeliveredOk(d, job)
    requires d.prompts[job].owner == parked[job].owner
    requires Sits(d, parked, job) && Reports(d, parked, key, names) && OnePerNotice(parked, key)
    ensures Reports(Complete(d, job, ok), parked, key, names)
  {
    if parked[job].owner.ForSession? {
      CompleteNoted(d, job, ok, parked, key, names);
    } else {
      var e := Noted(Forget(d, job), Completed(job, ok));
      EntryReports(d, Forget(d, job), Completed(job, ok), job, parked, key, names);
      EntryReports(e, e, AnsweredClient(job), job, parked, key, names);
    }
  }

  lemma RejectReports(d: Desk, job: nat, parked: map<nat, Prompt>, key: SessionKey, names: set<Notice>)
    requires job in parked && job in d.prompts && parked[job].owner.ForSession? && !DeliveredOk(d, job)
    requires parked[job].owner.key in d.sessions && Answers(d.log, parked[job].owner.key) == []
    requires Reports(d, parked, key, names) && OnePerNotice(parked, key)
    ensures var e, owner := Noted(Forget(d, job), Rejected(job)), parked[job].owner;
            Reports(Note(e, owner.key, owner.notice, false), parked, key, names)
  {
    NotedLeaves(d, Forget(d, job), Rejected(job), job);
    NotedReports(d, Noted(Forget(d, job), Rejected(job)), parked, job, false, key, names);
  }

  lemma AbandonReports(d: Desk, job: nat, parked: map<nat, Prompt>, key: SessionKey, names: set<Notice>)
    requires job in d.prompts && job in parked && !DeliveredOk(d, job)
    requires d.prompts[job].owner == parked[job].owner
    requires Sits(d, parked, job) && Reports(d, parked, key, names) && OnePerNotice(parked, key)
    ensures Reports(Abandon(d, job), parked, key, names)
  {
    if parked[job].owner.ForSession? {
      RejectReports(d, job, parked, key, names);
    } else {
      EntryReports(d, Forget(d, job), AnsweredClient(job), job, parked, key, names);
      QuietReports(d, Forget(d, job), parked, key, names);
    }
  }

  /** A parked member's session is still counting. */
  ghost predicate Sits(d: Desk, parked: map<nat, Prompt>, job: nat) {
    job in parked && parked[job].owner.ForSession? ==>
      parked[job].owner.key in d.sessions && Answers(d.log, parked[job].owner.key) == []
  }

  lemma ParkedSits(d: Desk, parked: map<nat, Prompt>, job: nat, begun: bool)
    requires job in d.prompts && job in parked && parked[job].owner.ForSession?
    requires Counts(d, parked, parked[job].owner.key, begun, 0)
    ensures Sits(d, parked, job)
  {
    assert job in Owing(d, parked, parked[job].owner.key);
  }

  lemma FailReports(d: Desk, job: nat, ok: bool, parked: map<nat, Prompt>, key: SessionKey, names: set<Notice>)
    requires job in d.prompts && job in parked && Story(d, job, parked[job])
    requires Sits(d, parked, job) && Reports(d, parked, key, names) && OnePerNotice(parked, key)
    ensures Reports(Fail(d, job, ok), parked, key, names)
  {
    if d.prompts[job].committed {
      CompleteReports(d, job, ok, parked, key, names);
    } else {
      AbandonReports(d, job, parked, key, names);
    }
  }

  lemma SendingReports(d: Desk, job: nat, lease: bool, parked: map<nat, Prompt>, key: SessionKey, names: set<Notice>)
    requires job in d.prompts && Reports(d, parked, key, names)
    ensures Reports(Sending(d, job, lease), parked, key, names)
    ensures forall x :: Sits(d, parked, x) ==> Sits(Sending(d, job, lease), parked, x)
  {
    var e := Sending(d, job, lease);
    assert e.log == d.log + [Committed(job)] + [SentTo(job)];
    forall k
      ensures Answers(e.log, k) == Answers(d.log, k)
    {
      AnswersGrow(d.log, Committed(job), k);
      AnswersGrow(d.log + [Committed(job)], SentTo(job), k);
    }
    forall x
      ensures DeliveredOk(e, x) <==> DeliveredOk(d, x)
    {
      LogGrows(d.log, Committed(job), x);
      LogGrows(d.log + [Committed(job)], SentTo(job), x);
    }
    QuietReports(d, e, parked, key, names);
  }

  /** A prompt that leaves without a word to its session. */
  lemma LeavesReports(d: Desk, e: Desk, parked: map<nat, Prompt>, job: nat, key: SessionKey, names: set<Notice>)
    requires Leaves(d, e, job) && (DeliveredOk(e, job) <==> DeliveredOk(d, job)) && Reports(d, parked, key, names)
    ensures Reports(e, parked, key, names)
  {
    QuietReports(d, e, parked, key, names);
  }

  lemma RefusedReports(d: Desk, job: nat, w: World, parked: map<nat, Prompt>, key: SessionKey, names: set<Notice>)
    requires job in d.prompts && job in parked && Story(d, job, parked[job])
    requires !d.prompts[job].committed && !w.commitOk && Reports(d, parked, key, names)
    ensures Reports(OnOpened(d, job, w), parked, key, names)
  {
    var e := Noted(Forget(d, job), CommitRefused(job));
    ForgetFace(d, job);
    NotedLeaves(d, Forget(d, job), CommitRefused(job), job);
    RefusedForgets(d, job, w);
    if parked[job].owner.Client? {
      LeavesMore(d, e, AnsweredClient(job), job);
      LeavesReports(d, Noted(e, AnsweredClient(job)), parked, job, key, names);
    } else {
      LeavesReports(d, e, parked, job, key, names);
    }
  }

  lemma OpenedReports(d: Desk, job: nat, w: World, parked: map<nat, Prompt>, key: SessionKey, names: set<Notice>)
    requires Stories(d, parked) && job in parked && job in d.prompts && !d.prompts[job].committed
    requires Sits(d, parked, job) && Reports(d, parked, key, names) && OnePerNotice(parked, key)
    ensures Reports(OnOpened(d, job, w), parked, key, names)
  {
    assert Story(d, job, parked[job]);
    if !w.commitOk {
      RefusedReports(d, job, w, parked, key, names);
    } else if w.leaseOpen {
      SendingReports(d, job, true, parked, key, names);
      SendableIs(d, job, w);
    } else {
      SendingStory(d, job, false, parked);
      SendingReports(d, job, false, parked, key, names);
      FailReports(Sending(d, job, false), job, w.completeOk, parked, key, names);
      UnsendableIs(d, job, w);
    }
  }

  lemma HandleReports(d: Desk, event: Event, w: World, parked: map<nat, Prompt>, key: SessionKey, names: set<Notice>)
    requires Stories(d, parked) && Timely(d, event) && event.id in parked
    requires event.id in d.prompts ==> Sits(d, parked, event.id)
    requires Reports(d, parked, key, names) && OnePerNotice(parked, key)
    ensures Reports(Handle(d, event, w), parked, key, names)
  {
    var job := event.id;
    assert Story(d, job, parked[job]);
    if job in d.prompts && job in d.owned {
      if event.Opened? {
        OpenedReports(d, job, w, parked, key, names);
      } else if event.Done? || event.Failed? {
        FailReports(d, job, w.completeOk, parked, key, names);
      }
    }
    if event.Dropped? {
      QuietReports(d, Handle(d, event, w), parked, key, names);
    }
  }

  // ---- In every run ----

  ghost predicate NoMembers(parked: map<nat, Prompt>, key: SessionKey) {
    forall job :: job in parked ==> !Member(parked[job], key)
  }

  function Names(notices: seq<Listed>): set<Notice> {
    set i | 0 <= i < |notices| :: notices[i].1
  }

  /** The notices the session was called with. */
  function Called(h: House, key: SessionKey): seq<Listed> {
    if key in h.called then h.called[key] else []
  }

  /** The prompt carries the listed notice. */
  predicate Carries(p: Prompt, key: SessionKey, listed: Listed) {
    Member(p, key) && listed == (Some(p.pane), p.owner.notice)
  }

  /** The prompts of `key` are those of the notices with a pane. */
  ghost predicate Matches(parked: map<nat, Prompt>, key: SessionKey, notices: seq<Listed>) {
    && (forall job :: job in parked && Member(parked[job], key) ==>
          (Some(parked[job].pane), parked[job].owner.notice) in notices)
    && (forall i :: 0 <= i < |notices| && notices[i].0.Some? ==>
          exists job :: job in parked && Carries(parked[job], key, notices[i]))
  }

  ghost predicate ReportInv(h: House, key: SessionKey) {
    Reports(h.desk, h.parked, key, Names(Called(h, key))) && OnePerNotice(h.parked, key)
    && Matches(h.parked, key, Called(h, key))
    && (Begun(h, key) || NoMembers(h.parked, key))
  }

  /** `job`, parked as `p`, opens with the flag false. */
  lemma ParkReports(d: Desk, e: Desk, parked: map<nat, Prompt>, job: nat, p: Prompt, key: SessionKey,
                    names: set<Notice>)
    requires job !in parked && LogOf(d.log, job) == [] && e.sessions == d.sessions && e.log == d.log
    requires Member(p, key) ==> p.owner.notice in Tally(d, key) && !Tally(d, key)[p.owner.notice]
    requires Reports(d, parked, key, names)
    ensures Reports(e, parked[job := p], key, names)
    ensures Tally(e, key) == Tally(d, key)
  {
    var more := parked[job := p];
    forall notice | Unsent(more, key, notice)
      ensures Unsent(parked, key, notice)
    {
      forall x | x in parked && Member(parked[x], key)
        ensures parked[x].owner.notice != notice
      {
        assert more[x] == parked[x];
      }
    }
  }

  lemma {:induction false} UnheardIsFalse(notices: seq<Listed>)
    ensures Unheard(notices).Keys == Names(notices)
    ensures forall n :: n in Unheard(notices) ==> !Unheard(notices)[n]
  {
    if notices != [] {
      var n := |notices| - 1;
      UnheardIsFalse(notices[..n]);
      assert Names(notices) == Names(notices[..n]) + {notices[n].1};
    }
  }

  /** What parking the notices of `own` makes of its flags and prompts. */
  ghost predicate Lodged(g: House, own: SessionKey, notices: seq<Listed>, flags: map<Notice, bool>) {
    Reports(g.desk, g.parked, own, flags.Keys) && Matches(g.parked, own, notices) && OnePerNotice(g.parked, own)
    && Tally(g.desk, own) == flags
  }

  lemma {:induction false} LodgeAllReports(h: House, own: SessionKey, notices: seq<Listed>, flags: map<Notice, bool>)
    requires Linked(h) && NoMembers(h.parked, own) && Tally(h.desk, own) == flags && DistinctNotices(notices)
    requires Names(notices) <= flags.Keys && forall n :: n in flags ==> !flags[n]
    ensures Lodged(LodgeAll(h, own, notices), own, notices, flags)
  {
    if notices != [] {
      var n := |notices| - 1;
      var g := LodgeAll(h, own, notices[..n]);
      NamesOf(notices, n);
      LodgeAllReports(h, own, notices[..n], flags);
      LodgeAllLinked(h, own, notices[..n]);
      if notices[n].0.Some? {
        LodgeOne(g, own, notices, flags);
      } else {
        MatchesSilent(g.parked, own, notices);
      }
    }
  }

  lemma NamesOf(notices: seq<Listed>, n: nat)
    requires n < |notices|
    ensures Names(notices[..n]) <= Names(notices) && notices[n].1 in Names(notices)
  {
  }

  lemma LodgeOne(g: House, own: SessionKey, notices: seq<Listed>, flags: map<Notice, bool>)
    requires notices != [] && notices[|notices| - 1].0.Some? && DistinctNotices(notices)
    requires Linked(g) && Lodged(g, own, notices[..|notices| - 1], flags)
    requires notices[|notices| - 1].1 in flags && !flags[notices[|notices| - 1].1]
    ensures var (pane, notice) := notices[|notices| - 1];
            Lodged(Lodge(g, Fresh(pane.value, ForSession(own, notice))), own, notices, flags)
  {
    var n := |notices| - 1;
    var p := Fresh(notices[n].0.value, ForSession(own, notices[n].1));
    LodgesFresh(g, p);
    ParkReports(g.desk, Lodge(g, p).desk, g.parked, g.lanes.next, p, own, flags.Keys);
    LodgeMatches(g.parked, own, notices, g.lanes.next, p);
  }

  lemma MatchesSilent(parked: map<nat, Prompt>, own: SessionKey, notices: seq<Listed>)
    requires notices != [] && notices[|notices| - 1].0.None? && Matches(parked, own, notices[..|notices| - 1])
    ensures Matches(parked, own, notices)
  {
    var n := |notices| - 1;
    assert notices == notices[..n] + [notices[n]];
    forall i | 0 <= i < |notices| && notices[i].0.Some?
      ensures exists job :: job in parked && Carries(parked[job], own, notices[i])
    {
      assert notices[..n][i] == notices[i];
    }
  }

  lemma LodgeMatches(parked: map<nat, Prompt>, own: SessionKey, notices: seq<Listed>, job: nat, p: Prompt)
    requires notices != [] && DistinctNotices(notices) && job !in parked
    requires Matches(parked, own, notices[..|notices| - 1]) && OnePerNotice(parked, own)
    requires Carries(p, own, notices[|notices| - 1])
    ensures Matches(parked[job := p], own, notices) && OnePerNotice(parked[job := p], own)
  {
    var n, more := |notices| - 1, parked[job := p];
    assert notices == notices[..n] + [notices[n]];
    assert more[job] == p && notices[n] in notices;
    forall i | 0 <= i < n && notices[i].0.Some?
      ensures exists x :: x in more && Carries(more[x], own, notices[i])
    {
      assert notices[..n][i] == notices[i];
      var x :| x in parked && Carries(parked[x], own, notices[..n][i]);
      assert x in more && Carries(more[x], own, notices[i]);
    }
    forall x | x in parked && Member(parked[x], own)
      ensures parked[x].owner.notice != p.owner.notice
    {
      var i :| 0 <= i < n && notices[..n][i] == (Some(parked[x].pane), parked[x].owner.notice);
      assert notices[i].1 == parked[x].owner.notice;
    }
  }

  /** A prompt of another owner changes nothing for `key`. */
  lemma OtherMatches(parked: map<nat, Prompt>, key: SessionKey, notices: seq<Listed>, job: nat, p: Prompt)
    requires job !in parked && !Member(p, key) && Matches(parked, key, notices) && OnePerNotice(parked, key)
    ensures Matches(parked[job := p], key, notices) && OnePerNotice(parked[job := p], key)
    ensures NoMembers(parked, key) ==> NoMembers(parked[job := p], key)
  {
    var more := parked[job := p];
    forall i | 0 <= i < |notices| && notices[i].0.Some?
      ensures exists x :: x in more && Carries(more[x], key, notices[i])
    {
      var x :| x in parked && Carries(parked[x], key, notices[i]);
      assert x in more && Carries(more[x], key, notices[i]);
    }
  }

  lemma LodgeElsewhere(h: House, prompt: Prompt, key: SessionKey)
    requires Linked(h) && !Member(prompt, key) && ReportInv(h, key)
    ensures ReportInv(Lodge(h, prompt), key)
  {
    LodgesFresh(h, prompt);
    MarkFace(h.desk, prompt.owner);
    ParkReports(h.desk, Lodge(h, prompt).desk, h.parked, h.lanes.next, prompt, key, Names(Called(h, key)));
    OtherMatches(h.parked, key, Called(h, key), h.lanes.next, prompt);
  }

  /** Parking another session's prompts changes nothing for `key`. */
  lemma {:induction false} LodgeAllElsewhere(h: House, own: SessionKey, notices: seq<Listed>, key: SessionKey)
    requires Linked(h) && key != own && ReportInv(h, key)
    ensures ReportInv(LodgeAll(h, own, notices), key)
  {
    if notices != [] {
      var n := |notices| - 1;
      LodgeAllElsewhere(h, own, notices[..n], key);
      LodgeAllLinked(h, own, notices[..n]);
      if notices[n].0.Some? {
        LodgeElsewhere(LodgeAll(h, own, notices[..n]), Fresh(notices[n].0.value, ForSession(own, notices[n].1)), key);
      }
    }
  }

  /** Parking prompts begins and calls no session. */
  lemma {:induction false} LodgeAllFace(h: House, own: SessionKey, notices: seq<Listed>, key: SessionKey)
    ensures var g := LodgeAll(h, own, notices); Begun(g, key) == Begun(h, key) && g.called == h.called
  {
    if notices != [] {
      LodgeAllFace(h, own, notices[..|notices| - 1], key);
    }
  }

  lemma ConveneTally(d: Desk, own: SessionKey, notices: seq<Listed>, key: SessionKey)
    requires key == own ==> key !in d.sessions && Answers(d.log, key) == []
    ensures Tally(Convene(d, own, notices), key) == if key == own then Unheard(notices) else Tally(d, key)
  {
    var flags := Unheard(notices);
    AnswersGrow(d.log, AnsweredSession(own, flags), key);
    if key == own {
      OwnConvened(d, Convene(d, own, notices), own, flags);
    } else {
      OtherConvened(d, Convene(d, own, notices), key);
    }
  }

  lemma OwnConvened(d: Desk, e: Desk, own: SessionKey, flags: map<Notice, bool>)
    requires own !in d.sessions && Answers(d.log, own) == []
    requires || (own in e.sessions && e.sessions[own].delivered == flags)
             || (own !in e.sessions && Answers(e.log, own) == [flags])
    ensures Tally(e, own) == flags
  {
  }

  lemma OtherConvened(d: Desk, e: Desk, key: SessionKey)
    requires key in e.sessions <==> key in d.sessions
    requires key in d.sessions ==> e.sessions[key] == d.sessions[key]
    requires Answers(e.log, key) == Answers(d.log, key)
    ensures Tally(e, key) == Tally(d, key)
  {
  }

  lemma MeetOwn(h: House, retire: bool, notices: seq<Listed>)
    requires Linked(h) && NoMembers(h.parked, NextKey(h, retire)) && DistinctNotices(notices)
    requires Counts(h.desk, h.parked, NextKey(h, retire), false, 0)
    ensures ReportInv(Meet(h, retire, notices), NextKey(h, retire))
  {
    var own := NextKey(h, retire);
    var c := Convened(h, retire, notices);
    ConveneLinked(h, c, own, notices);
    ConveneTally(h.desk, own, notices, own);
    UnheardIsFalse(notices);
    LodgeAllFace(c, own, notices, own);
    LodgeAllReports(c, own, notices, Unheard(notices));
  }

  lemma ConveneElsewhere(h: House, retire: bool, notices: seq<Listed>, key: SessionKey)
    requires ReportInv(h, key) && key != NextKey(h, retire)
    ensures ReportInv(Convened(h, retire, notices), key)
  {
    ConveneTally(h.desk, NextKey(h, retire), notices, key);
    ConveneLog(h.desk, NextKey(h, retire), notices);
    QuietReports(h.desk, Convened(h, retire, notices).desk, h.parked, key, Names(Called(h, key)));
  }

  lemma MeetElsewhere(h: House, retire: bool, notices: seq<Listed>, key: SessionKey)
    requires Linked(h) && ReportInv(h, key) && key != NextKey(h, retire)
    ensures ReportInv(Meet(h, retire, notices), key)
  {
    var own := NextKey(h, retire);
    var c := Convened(h, retire, notices);
    ConveneElsewhere(h, retire, notices, key);
    ConveneLinked(h, c, own, notices);
    LodgeAllElsewhere(c, own, notices, key);
  }

  lemma MeetReports(h: House, retire: bool, notices: seq<Listed>, key: SessionKey)
    requires Linked(h) && ReportInv(h, key) && DistinctNotices(notices)
    requires Counts(h.desk, h.parked, key, Begun(h, key), 0)
    ensures ReportInv(Meet(h, retire, notices), key)
  {
    if key == NextKey(h, retire) {
      MeetOwn(h, retire, notices);
    } else {
      MeetElsewhere(h, retire, notices, key);
    }
  }

  lemma DrainReports(h: House, w: World, key: SessionKey)
    requires Linked(h) && ReportInv(h, key) && forall k :: Counts(h.desk, h.parked, k, Begun(h, k), 0)
    ensures ReportInv(Drain(h, w), key)
  {
    if T.Ready(h.lanes) && NextEvent(h.lanes).id in h.parked {
      var event := T.RecvFace(h.lanes);
      HandedIs(h.lanes, event);
      var lanes := L.Next(h.lanes, L.Recv);
      HandedInTime(h, lanes, event);
      var job := event.id;
      if job in h.desk.prompts && h.parked[job].owner.ForSession? {
        ParkedSits(h.desk, h.parked, job, Begun(h, h.parked[job].owner.key));
      }
      HandleReports(h.desk, event, w.(leaseOpen := Alive(lanes, job)), h.parked, key, Names(Called(h, key)));
    }
  }

  lemma NextReports(h: House, m: Move, key: SessionKey)
    requires Linked(h) && ReportInv(h, key) && forall k :: Counts(h.desk, h.parked, k, Begun(h, k), 0)
    ensures ReportInv(Next(h, m), key)
  {
    match m
    case ParkOne(pane, owner) =>
      if Welcome(h.desk, owner) { LodgeElsewhere(h, Fresh(pane, owner), key); }
    case ParkMany(retire, notices) =>
      if DistinctNotices(notices) { MeetReports(h, retire, notices, key); }
    case Pump(w) => DrainReports(h, w, key);
    case _ =>
  }

  lemma {:induction false} RunReports(moves: seq<Move>, key: SessionKey)
    ensures ReportInv(Run(moves), key)
  {
    if moves != [] {
      var before := moves[..|moves| - 1];
      RunLinked(before);
      forall k
        ensures Counts(Run(before).desk, Run(before).parked, k, Begun(Run(before), k), 0)
      {
        RunCounts(before, k);
      }
      RunReports(before, key);
      NextReports(Run(before), moves[|moves| - 1], key);
    }
  }

  /** A prompt of the session carried the notice, and its delivery was recorded as done. */
  ghost predicate Delivered(h: House, key: SessionKey, notice: Notice) {
    exists job ::
      job in h.parked && Member(h.parked[job], key) && h.parked[job].owner.notice == notice && DeliveredOk(h.desk, job)
  }

  /** In every run the one answer of a session lists the notices it was called with, those that
      had nothing to send among them, and says of each whether its delivery was recorded as
      done. */
  lemma AnswersReportDeliveries(moves: seq<Move>, key: SessionKey)
    requires Answers(Run(moves).desk.log, key) != []
    ensures var h := Run(moves);
            var answer := Answers(h.desk.log, key)[0];
            answer.Keys == Names(Called(h, key))
            && forall notice :: notice in answer ==> (answer[notice] <==> Delivered(h, key, notice))
  {
    var h := Run(moves);
    RunReports(moves, key);
    RunCounts(moves, key);
    var answer := Answers(h.desk.log, key)[0];
    assert Tally(h.desk, key) == answer;
    forall notice | notice in answer
      ensures answer[notice] <==> Delivered(h, key, notice)
    {
      assert Unsent(h.parked, key, notice) ==> !answer[notice];
    }
  }

  /** And a session has parked one prompt for each notice with a pane, and no other. */
  lemma EveryNoticeIsParked(moves: seq<Move>, key: SessionKey)
    ensures var h := Run(moves); Matches(h.parked, key, Called(h, key)) && OnePerNotice(h.parked, key)
  {
    RunReports(moves, key);
  }
}
