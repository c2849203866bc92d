/** Write-ahead, send once, settle once: the story of every parked prompt, in every run. */
module DeliveryStories {
  import opened Lanes
  import L = LaneRuns
  import T = LaneTheorems
  import I = LaneInvariant
  import S = LaneSends
  import opened Delivery
  import opened DeliveryRuns

  /** What the handler of `event` needs of its prompt. */
  predicate Timely(d: Desk, event: Event) {
    event.id in d.prompts ==>
      (event.Opened? ==> !d.prompts[event.id].committed) && (event.Done? ==> d.prompts[event.id].committed)
  }

  lemma AddsStories(d: Desk, e: Desk, parked: map<nat, Prompt>, job: nat, added: seq<Entry>)
    requires Stories(d, parked) && job in parked && Adds(d, e, job, added) && Story(e, job, parked[job])
    ensures Stories(e, parked)
  {
    forall x | x in parked
      ensures Story(e, x, parked[x])
    {
      assert Story(d, x, parked[x]);
    }
  }

  lemma FailAdds(d: Desk, job: nat, ok: bool, p: Prompt)
    requires job in d.prompts && d.prompts[job].owner == p.owner
    ensures job !in Fail(d, job, ok).prompts
    ensures Adds(d, Fail(d, job, ok), job,
                 if d.prompts[job].committed then [Completed(job, ok)] + ClientReply(p, job)
                 else if p.owner.ForSession? then [Rejected(job)] else ClientReply(p, job))
  {
    if d.prompts[job].committed { CompleteAdds(d, job, ok); } else { AbandonAdds(d, job); }
  }

  lemma OpenStoryCloses(committed: bool, p: Prompt, job: nat, ok: bool, story: seq<Entry>)
    requires OpenStory(committed, job, story)
    ensures ClosedStory(p, job, story + (if committed then [Completed(job, ok)] + ClientReply(p, job)
                                         else if p.owner.ForSession? then [Rejected(job)] else ClientReply(p, job)))
  {
    assert [Committed(job), SentTo(job)] + ([Completed(job, ok)] + ClientReply(p, job))
        == [Committed(job), SentTo(job), Completed(job, ok)] + ClientReply(p, job);
  }

  lemma FailStory(d: Desk, job: nat, ok: bool, parked: map<nat, Prompt>)
    requires Stories(d, parked) && job in d.prompts
    ensures Stories(Fail(d, job, ok), parked)
  {
    var p := parked[job];
    assert Story(d, job, p);
    FailAdds(d, job, ok, p);
    var added := if d.prompts[job].committed then [Completed(job, ok)] + ClientReply(p, job)
                 else if p.owner.ForSession? then [Rejected(job)] else ClientReply(p, job);
    OpenStoryCloses(d.prompts[job].committed, p, job, ok, LogOf(d.log, job));
    AddsStories(d, Fail(d, job, ok), parked, job, added);
  }

  lemma FinishStory(d: Desk, job: nat, ok: bool, parked: map<nat, Prompt>)
    requires Stories(d, parked) && job in d.prompts && d.prompts[job].committed
    ensures Stories(Finish(d, job, ok), parked)
  {
    assert Finish(d, job, ok) == Fail(d, job, ok);
    FailStory(d, job, ok, parked);
  }

  /** The desk just after it committed and passed the request to the lease. */
  function Sending(d: Desk, job: nat, lease: bool): Desk
    requires job in d.prompts
  {
    d.(prompts := d.prompts[job := d.prompts[job].(committed := true, lease := lease || d.prompts[job].lease)],
       log := d.log + [Committed(job), SentTo(job)])
  }

  lemma SendingLog(log: seq<Entry>, job: nat, x: nat)
    ensures LogOf(log + [Committed(job)] + [SentTo(job)], x)
         == LogOf(log, x) + if x == job then [Committed(job), SentTo(job)] else []
  {
    LogGrows(log, Committed(job), x);
    LogGrows(log + [Committed(job)], SentTo(job), x);
  }

  lemma SendingStory(d: Desk, job: nat, lease: bool, parked: map<nat, Prompt>)
    requires Stories(d, parked) && job in d.prompts && !d.prompts[job].committed
    ensures Stories(Sending(d, job, lease), parked)
  {
    var e := Sending(d, job, lease);
    assert Story(d, job, parked[job]);
    assert e.log == d.log + [Committed(job)] + [SentTo(job)];
    forall x
      ensures LogOf(e.log, x) == LogOf(d.log, x) + if x == job then [Committed(job), SentTo(job)] else []
    {
      SendingLog(d.log, job, x);
    }
    AddsStories(d, e, parked, job, [Committed(job), SentTo(job)]);
  }

  lemma RefusedAdds(d: Desk, job: nat, w: World, p: Prompt)
    requires job in d.prompts && !d.prompts[job].committed && !w.commitOk
    requires d.prompts[job].owner == p.owner
    ensures job !in OnOpened(d, job, w).prompts
    ensures Adds(d, OnOpened(d, job, w), job, [CommitRefused(job)] + ClientReply(p, job))
  {
    var e := Noted(d, CommitRefused(job));
    NotedAdds(d, CommitRefused(job), job);
    if p.owner.Reminder? {
      FailAdds(e, job, w.completeOk, p);
    } else if p.owner.Client? {
      NotedAdds(Forget(e, job), AnsweredClient(job), job);
    }
  }

  lemma RefusedIsClosed(d: Desk, job: nat, w: World, parked: map<nat, Prompt>)
    requires Stories(d, parked) && job in d.prompts && !d.prompts[job].committed && !w.commitOk
    ensures Stories(OnOpened(d, job, w), parked)
  {
    var p := parked[job];
    assert Story(d, job, p);
    RefusedAdds(d, job, w, p);
    var added := [CommitRefused(job)] + ClientReply(p, job);
    assert LogOf(d.log, job) + added == added;
    AddsStories(d, OnOpened(d, job, w), parked, job, added);
  }

  lemma SendableIs(d: Desk, job: nat, w: World)
    requires job in d.prompts && w.commitOk && w.leaseOpen
    ensures OnOpened(d, job, w) == Sending(d, job, true)
  {
    assert OnOpened(d, job, w).prompts == Sending(d, job, true).prompts;
  }

  lemma UnsendableIs(d: Desk, job: nat, w: World)
    requires job in d.prompts && w.commitOk && !w.leaseOpen
    ensures OnOpened(d, job, w) == Fail(Sending(d, job, false), job, w.completeOk)
  {
  }

  lemma OpenedStory(d: Desk, job: nat, w: World, parked: map<nat, Prompt>)
    requires Stories(d, parked) && job in d.prompts && !d.prompts[job].committed
    ensures Stories(OnOpened(d, job, w), parked)
  {
    if !w.commitOk {
      RefusedIsClosed(d, job, w, parked);
    } else if w.leaseOpen {
      SendingStory(d, job, true, parked);
      SendableIs(d, job, w);
    } else {
      SendingStory(d, job, false, parked);
      FailStory(Sending(d, job, false), job, w.completeOk, parked);
      UnsendableIs(d, job, w);
    }
  }

  lemma HandleStory(d: Desk, event: Event, w: World, parked: map<nat, Prompt>)
    requires Stories(d, parked) && Timely(d, event)
    ensures Stories(Handle(d, event, w), parked)
  {
    var job := event.id;
    if job in d.prompts && job in d.owned {
      match event
      case Opened(_) => OpenedStory(d, job, w, parked);
      case Done(_, _) => FinishStory(d, job, w.completeOk, parked);
      case Failed(_, _, _) => FailStory(d, job, w.completeOk, parked);
      case Written(_) =>
      case Dropped(_) =>
    }
  }

  /** An event for a prompt that has settled changes no prompt, session or log. */
  lemma LateEventsAreIgnored(d: Desk, event: Event, w: World)
    requires event.id !in d.prompts
    ensures var e := Handle(d, event, w); e.prompts == d.prompts && e.sessions == d.sessions && e.log == d.log
    ensures L.Send !in Commands(d, event, w)
  {
  }

  /** Only a prompt whose intent is committed is given a Send. */
  lemma HandleCommits(d: Desk, event: Event, w: World)
    ensures var e := Handle(d, event, w);
            (forall x :: x in e.prompts ==> x in d.prompts)
            && (forall x :: x in e.prompts && x != event.id ==> e.prompts[x] == d.prompts[x])
            && (event.id in e.prompts ==> d.prompts[event.id].committed ==> e.prompts[event.id].committed)
            && (event.id in e.prompts && L.Send in Commands(d, event, w) ==> e.prompts[event.id].committed)
  {
    NoteKeepsPrompts(d, event, w);
  }

  lemma NoteKeepsPrompts(d: Desk, event: Event, w: World)
    ensures var e := Handle(d, event, w);
            e.prompts == d.prompts || e.prompts == d.prompts - {event.id}
            || (event.id in d.prompts && w.commitOk && event.Opened? && e.prompts.Keys == d.prompts.Keys
                && e.prompts[event.id].committed
                && forall x :: x in d.prompts && x != event.id ==> e.prompts[x] == d.prompts[x])
  {
    var job := event.id;
    if job in d.prompts && job in d.owned && event.Opened? && w.commitOk && !w.leaseOpen {
      var e := Sending(d, job, false);
      assert e.prompts - {job} == d.prompts - {job};
    }
  }

  // ---- The desk on the scheduler ----

  /** A prompt's job opens a lease on the prompt's own pane. */
  ghost predicate Housed(h: House) {
    forall j :: j in h.parked ==>
      j in h.lanes.job && h.lanes.job[j] == Open(j, h.parked[j].pane, false) && j < h.lanes.next
  }

  /** A committed prompt has been handed its Opened, and only a committed one was sent. */
  ghost predicate Leases(h: House) {
    forall j :: j in h.parked && j in h.desk.prompts ==>
      (h.desk.prompts[j].committed ==> Proj(T.Handed(h.lanes), j) != [])
      && (j in h.lanes.sent ==> h.desk.prompts[j].committed)
  }

  ghost function Proj(es: seq<Event>, id: nat): seq<Event> {
    L.Proj(es, id)
  }

  ghost predicate Linked(h: House) {
    T.Reachable(h.lanes) && Stories(h.desk, h.parked) && Housed(h) && Leases(h)
  }

  lemma ProjGrows(es: seq<Event>, e: Event, id: nat)
    ensures Proj(es + [e], id) == Proj(es, id) + if e.id == id then [e] else []
  {
    L.ProjAppend(es, [e], id);
    assert [e][1..] == [];
  }

  lemma LastNotOpened(word: seq<Event>)
    requires word != [] && I.NoOpened(word[1..])
    ensures |word| == 1 || !word[|word| - 1].Opened?
  {
    if |word| > 1 {
      assert word[1..][|word| - 2] == word[|word| - 1];
    }
  }

  /** The scheduler hands events in time. */
  lemma HandedInTime(h: House, t: L.Sys, event: Event)
    requires Leases(h) && T.Reachable(t) && T.Handed(t) == T.Handed(h.lanes) + [event] && t.sent == h.lanes.sent
    requires event.id in h.parked && event.id in t.job && t.job[event.id].Open?
    ensures Timely(h.desk, event)
  {
    var j := event.id;
    T.LeaseFace(t, j);
    ProjGrows(T.Handed(h.lanes), event, j);
    var word := Proj(T.Handed(t), j);
    assert word[|word| - 1] == event;
    if event.Done? {
      assert S.Answering(word[|word| - 1]);
    }
    LastNotOpened(word);
  }

  lemma {:induction false} PushFace(s: L.Sys, id: nat, cmds: seq<L.LeaseCmd>)
    requires T.Reachable(s)
    ensures var t := Push(s, id, cmds);
            T.Reachable(t) && T.Handed(t) == T.Handed(s) && t.job == s.job && t.next == s.next
            && s.sent <= t.sent && t.sent <= (if L.Send in cmds then s.sent + {id} else s.sent)
  {
    if cmds != [] {
      var n := |cmds| - 1;
      PushFace(s, id, cmds[..n]);
      T.WorkFace(Push(s, id, cmds[..n]), id, L.Push(cmds[n]));
      assert cmds == cmds[..n] + [cmds[n]];
    }
  }

  lemma LodgeLinked(h: House, prompt: Prompt)
    requires Linked(h) && !prompt.committed
    ensures Linked(Lodge(h, prompt))
  {
    var job := h.lanes.next;
    T.SubmitFace(h.lanes, Open(job, prompt.pane, false));
    LodgeStories(h, prompt);
    FreshIsUnsent(h.lanes, job);
    MarkFace(h.desk, prompt.owner);
    LodgeLeases(h, Lodge(h, prompt), prompt);
  }

  lemma LodgeLeases(h: House, g: House, prompt: Prompt)
    requires Leases(h) && !prompt.committed && h.lanes.next !in g.lanes.sent
    requires g.parked == h.parked[h.lanes.next := prompt] && g.desk.prompts == h.desk.prompts[h.lanes.next := prompt]
    requires T.Handed(g.lanes) == T.Handed(h.lanes) && g.lanes.sent == h.lanes.sent
    ensures Leases(g)
  {
  }

  lemma FreshIsUnsent(s: L.Sys, id: nat)
    requires T.Reachable(s) && id >= s.next
    ensures id !in s.sent && id !in s.job
  {
    var steps :| s == L.Run(steps);
    T.RunKeeps(steps);
  }

  lemma FreshIsUnheard(s: L.Sys, id: nat)
    requires T.Reachable(s) && id >= s.next
    ensures id !in s.work && Proj(T.Handed(s), id) == []
  {
    var steps :| s == L.Run(steps);
    T.RunKeeps(steps);
    T.HandedAtMostOnce(steps, id);
  }

  lemma LodgeStories(h: House, prompt: Prompt)
    requires Stories(h.desk, h.parked) && Housed(h) && !prompt.committed
    ensures Stories(Lodge(h, prompt).desk, Lodge(h, prompt).parked)
  {
    var job := h.lanes.next;
    MarkFace(h.desk, prompt.owner);
    ParkStories(h.desk, Lodge(h, prompt).desk, h.parked, job, prompt);
  }

  lemma ParkStories(d: Desk, e: Desk, parked: map<nat, Prompt>, job: nat, prompt: Prompt)
    requires Stories(d, parked) && job !in parked && !prompt.committed
    requires e.log == d.log && e.prompts == d.prompts[job := prompt]
    ensures Stories(e, parked[job := prompt])
  {
    forall x | x in parked
      ensures Story(e, x, parked[x])
    {
      assert Story(d, x, parked[x]);
    }
  }

  lemma {:induction false} LodgeAllLinked(h: House, key: SessionKey, notices: seq<Listed>)
    requires Linked(h)
    ensures Linked(LodgeAll(h, key, notices))
  {
    if notices != [] {
      var n := |notices| - 1;
      LodgeAllLinked(h, key, notices[..n]);
      if notices[n].0.Some? {
        LodgeLinked(LodgeAll(h, key, notices[..n]), Fresh(notices[n].0.value, ForSession(key, notices[n].1)));
      }
    }
  }

  lemma ConveneLinked(h: House, g: House, key: SessionKey, notices: seq<Listed>)
    requires Linked(h) && g.lanes == h.lanes && g.parked == h.parked && g.desk == Convene(h.desk, key, notices)
    ensures Linked(g)
  {
    assert g.desk.prompts == h.desk.prompts;
    ConveneLog(h.desk, key, notices);
    forall j | j in g.parked
      ensures Story(g.desk, j, g.parked[j])
    {
      assert Story(h.desk, j, h.parked[j]);
    }
  }

  lemma ConveneLog(d: Desk, key: SessionKey, notices: seq<Listed>)
    ensures forall x :: LogOf(Convene(d, key, notices).log, x) == LogOf(d.log, x)
  {
    forall x
      ensures LogOf(Convene(d, key, notices).log, x) == LogOf(d.log, x)
    {
      LogGrows(d.log, AnsweredSession(key, Unheard(notices)), x);
    }
  }

  lemma DrainLinked(h: House, w: World)
    requires Linked(h)
    ensures Linked(Drain(h, w))
  {
    if T.Ready(h.lanes) {
      var event := T.RecvFace(h.lanes);
      var lanes := L.Next(h.lanes, L.Recv);
      HandedIs(h.lanes, event);
      if event.id in h.parked {
        HandedInTime(h, lanes, event);
        DrainOwn(h, lanes, event, w.(leaseOpen := Alive(lanes, event.id)));
      } else {
        DrainOther(h, lanes, event);
      }
    }
  }

  lemma HandedIs(s: L.Sys, event: Event)
    requires T.Reachable(s) && T.Ready(s) && T.Handed(L.Next(s, L.Recv)) == T.Handed(s) + [event]
    ensures event == NextEvent(s)
  {
    T.RecvHands(s);
    assert (T.Handed(s) + [event])[|T.Handed(s)|] == event;
  }

  lemma DrainOther(h: House, lanes: L.Sys, event: Event)
    requires Linked(h) && T.Reachable(lanes) && T.Handed(lanes) == T.Handed(h.lanes) + [event]
    requires lanes.sent == h.lanes.sent && lanes.job == h.lanes.job && lanes.next == h.lanes.next
    requires event.id !in h.parked
    ensures Linked(h.(lanes := lanes))
  {
    forall j | j in h.parked
      ensures Proj(T.Handed(lanes), j) == Proj(T.Handed(h.lanes), j)
    {
      ProjGrows(T.Handed(h.lanes), event, j);
    }
  }

  lemma DrainOwn(h: House, lanes: L.Sys, event: Event, w: World)
    requires Linked(h) && T.Reachable(lanes) && T.Handed(lanes) == T.Handed(h.lanes) + [event]
    requires lanes.sent == h.lanes.sent && lanes.job == h.lanes.job && lanes.next == h.lanes.next
    requires event.id in h.parked && Timely(h.desk, event)
    ensures Linked(h.(lanes := Push(lanes, event.id, Commands(h.desk, event, w)), desk := Handle(h.desk, event, w)))
  {
    PushFace(lanes, event.id, Commands(h.desk, event, w));
    HandleStory(h.desk, event, w, h.parked);
    DrainLeases(h, lanes, event, w);
  }

  lemma DrainLeases(h: House, lanes: L.Sys, event: Event, w: World)
    requires Leases(h) && T.Reachable(lanes) && T.Handed(lanes) == T.Handed(h.lanes) + [event]
    requires lanes.sent == h.lanes.sent
    ensures Leases(h.(lanes := Push(lanes, event.id, Commands(h.desk, event, w)), desk := Handle(h.desk, event, w)))
  {
    var cmds := Commands(h.desk, event, w);
    var g := h.(lanes := Push(lanes, event.id, cmds), desk := Handle(h.desk, event, w));
    PushFace(lanes, event.id, cmds);
    HandleCommits(h.desk, event, w);
    forall j | j in g.parked && j in g.desk.prompts
      ensures (g.desk.prompts[j].committed ==> Proj(T.Handed(g.lanes), j) != [])
              && (j in g.lanes.sent ==> g.desk.prompts[j].committed)
    {
      ProjGrows(T.Handed(h.lanes), event, j);
    }
  }

  lemma StepLinked(h: House, lanes: L.Sys)
    requires Linked(h) && T.Reachable(lanes) && T.Handed(lanes) == T.Handed(h.lanes)
    requires h.lanes.next <= lanes.next
    requires forall j :: j in h.parked ==> j in lanes.job && lanes.job[j] == h.lanes.job[j]
    requires forall j :: j in h.parked && j in lanes.sent ==> j in h.lanes.sent
    ensures Linked(h.(lanes := lanes))
  {
  }

  lemma NextLinked(h: House, m: Move)
    requires Linked(h)
    ensures Linked(Next(h, m))
  {
    match m
    case Toil(id, action) =>
      if !action.Push? {
        T.WorkFace(h.lanes, id, action);
        StepLinked(h, L.Next(h.lanes, L.Work(id, action)));
      }
    case OtherSubmit(job) =>
      if job.id == h.lanes.next {
        T.SubmitFace(h.lanes, job);
        StepLinked(h, L.Next(h.lanes, L.Submit(job)));
      }
    case OtherPush(id, cmd) =>
      if id !in h.parked {
        T.WorkFace(h.lanes, id, L.Push(cmd));
        StepLinked(h, L.Next(h.lanes, L.Work(id, L.Push(cmd))));
      }
    case ParkOne(pane, owner) =>
      if Welcome(h.desk, owner) { LodgeLinked(h, Fresh(pane, owner)); }
    case ParkMany(retire, notices) =>
      if DistinctNotices(notices) { MeetLinked(h, retire, notices); }
    case Pump(w) => DrainLinked(h, w);
  }

  lemma MeetLinked(h: House, retire: bool, notices: seq<Listed>)
    requires Linked(h)
    ensures Linked(Meet(h, retire, notices))
  {
    ConveneLinked(h, Convened(h, retire, notices), NextKey(h, retire), notices);
    LodgeAllLinked(Convened(h, retire, notices), NextKey(h, retire), notices);
  }

  lemma {:induction false} RunLinked(moves: seq<Move>)
    ensures Linked(Run(moves))
  {
    if moves == [] {
      assert L.Init() == L.Run([]);
    } else {
      RunLinked(moves[..|moves| - 1]);
      NextLinked(Run(moves[..|moves| - 1]), moves[|moves| - 1]);
    }
  }

  /** In every run the log tells one of four stories of each prompt that has settled: intent,
      one send and one recorded outcome; a refused intent; a recorded rejection; or nothing. A
      prompt still parked has either no entry, or its intent followed by its one send. Every
      settled client prompt is answered once, last. */
  lemma EveryPromptHasItsStory(moves: seq<Move>, job: nat)
    ensures var h := Run(moves);
            if job in h.parked then Story(h.desk, job, h.parked[job]) else LogOf(h.desk.log, job) == []
  {
    RunLinked(moves);
  }
}
