/** The prompt desk running on the scheduler: every interleaving of workers, other users of the
    scheduler, parked prompts and sessions.

    `parked` remembers each prompt as it was parked; `Sys.next` is the daemon's job counter. */
module DeliveryRuns {
  import opened Lanes
  import L = LaneRuns
  import T = LaneTheorems
  import opened Delivery

  datatype House = House(
    lanes: L.Sys,
    desk: Desk,
    parked: map<nat, Prompt>,
    called: map<SessionKey, seq<Listed>>,
    cancels: nat,
    retires: nat)

  datatype Move =
    | Toil(id: nat, action: L.Action)          // a worker
    | OtherSubmit(job: Job)                    // another part of the daemon
    | OtherPush(id: nat, cmd: L.LeaseCmd)
    | ParkOne(pane: string, owner: Owner)
    | ParkMany(retire: bool, notices: seq<Listed>)
    | Pump(w: World)                           // one round of `drain_herdr_events`

  function Opening(): House {
    House(L.Init(), Desk(map[], map[], {}, {}, {}, []), map[], map[], 0, 0)
  }

  function Alive(s: L.Sys, id: nat): bool {
    id in s.work && (s.work[id].Leased? || s.work[id].Reading?)
  }

  ghost function Push(s: L.Sys, id: nat, cmds: seq<L.LeaseCmd>): L.Sys {
    if cmds == [] then s
    else L.Next(Push(s, id, cmds[..|cmds| - 1]), L.Work(id, L.Push(cmds[|cmds| - 1])))
  }

  /** Park one prompt under the next job id. */
  ghost function Lodge(h: House, prompt: Prompt): House {
    var job := h.lanes.next;
    h.(lanes := L.Next(h.lanes, L.Submit(Open(job, prompt.pane, false))),
       desk := Park(Mark(h.desk, prompt.owner), job, prompt),
       parked := h.parked[job := prompt])
  }

  ghost function LodgeAll(h: House, key: SessionKey, notices: seq<Listed>): House {
    if notices == [] then h
    else
      var n := |notices| - 1;
      var g := LodgeAll(h, key, notices[..n]);
      if notices[n].0.None? then g else Lodge(g, Fresh(notices[n].0.value, ForSession(key, notices[n].1)))
  }

  /** A due delivery or a reminder is parked only when none is under way for it. */
  predicate Welcome(d: Desk, owner: Owner) {
    match owner
    case Client => true
    case Due(operation) => operation !in d.due
    case Reminder(ask) => ask !in d.reminders
    case ForSession(_, _) => false
  }

  predicate DistinctNotices(notices: seq<Listed>) {
    forall i, j :: 0 <= i < j < |notices| ==> notices[i].1 != notices[j].1
  }

  function NextKey(h: House, retire: bool): SessionKey {
    if retire then RetireKey(h.retires) else CancelKey(h.cancels)
  }

  function Convened(h: House, retire: bool, notices: seq<Listed>): House {
    h.(desk := Convene(h.desk, NextKey(h, retire), notices),
       called := h.called[NextKey(h, retire) := notices],
       cancels := if retire then h.cancels else h.cancels + 1,
       retires := if retire then h.retires + 1 else h.retires)
  }

  ghost function Meet(h: House, retire: bool, notices: seq<Listed>): House {
    LodgeAll(Convened(h, retire, notices), NextKey(h, retire), notices)
  }

  /** The event `try_recv` hands over next. */
  function NextEvent(s: L.Sys): Event
    requires T.Ready(s)
  {
    if s.exec.pending != [] then s.exec.pending[0] else s.events[0]
  }

  /** Hand one event to the desk; whether the lease is open is a fact about its worker. */
  ghost function Drain(h: House, w: World): House {
    if !T.Ready(h.lanes) then h
    else
      var event := NextEvent(h.lanes);
      var lanes := L.Next(h.lanes, L.Recv);
      if event.id !in h.parked then h.(lanes := lanes)
      else
        var w := w.(leaseOpen := Alive(lanes, event.id));
        h.(lanes := Push(lanes, event.id, Commands(h.desk, event, w)), desk := Handle(h.desk, event, w))
  }

  /** A move that is not enabled changes nothing. A session's notices are distinct: the two
      sides of a cancel, or different asks. */
  ghost function Next(h: House, m: Move): House {
    match m
    case Toil(id, action) => if action.Push? then h else h.(lanes := L.Next(h.lanes, L.Work(id, action)))
    case OtherSubmit(job) => if job.id != h.lanes.next then h else h.(lanes := L.Next(h.lanes, L.Submit(job)))
    case OtherPush(id, cmd) => if id in h.parked then h else h.(lanes := L.Next(h.lanes, L.Work(id, L.Push(cmd))))
    case ParkOne(pane, owner) =>
      if Welcome(h.desk, owner) then Lodge(h, Fresh(pane, owner)) else h
    case ParkMany(retire, notices) => if DistinctNotices(notices) then Meet(h, retire, notices) else h
    case Pump(w) => Drain(h, w)
  }

  ghost function Run(moves: seq<Move>): House {
    if moves == [] then Opening() else Next(Run(moves[..|moves| - 1]), moves[|moves| - 1])
  }

  /** One move more. */
  lemma RunSnoc(moves: seq<Move>, more: seq<Move>)
    requires more != []
    ensures var n := |more| - 1; Run(moves + more) == Next(Run(moves + more[..n]), more[n])
  {
    assert (moves + more)[..|moves + more| - 1] == moves + more[..|more| - 1];
  }

  // ---- What the log says of one prompt ----

  function About(e: Entry, job: nat): bool {
    !e.AnsweredSession? && e.job == job
  }

  function LogOf(log: seq<Entry>, job: nat): seq<Entry> {
    if log == [] then []
    else LogOf(log[..|log| - 1], job) + if About(log[|log| - 1], job) then [log[|log| - 1]] else []
  }

  lemma LogGrows(log: seq<Entry>, e: Entry, job: nat)
    ensures LogOf(log + [e], job) == LogOf(log, job) + if About(e, job) then [e] else []
  {
    assert (log + [e])[..|log|] == log;
  }

  function ClientReply(p: Prompt, job: nat): seq<Entry> {
    if p.owner.Client? then [AnsweredClient(job)] else []
  }

  /** A prompt still parked: nothing yet, or its intent and then its one send. */
  predicate OpenStory(committed: bool, job: nat, story: seq<Entry>) {
    story == if committed then [Committed(job), SentTo(job)] else []
  }

  /** A prompt that has been sent and recorded. */
  predicate SentStory(p: Prompt, job: nat, ok: bool, story: seq<Entry>) {
    story == [Committed(job), SentTo(job), Completed(job, ok)] + ClientReply(p, job)
  }

  /** A prompt whose intent the store refused. */
  predicate RefusedStory(p: Prompt, job: nat, story: seq<Entry>) {
    story == [CommitRefused(job)] + ClientReply(p, job)
  }

  /** A prompt that failed before its intent was asked for. */
  predicate UnsentStory(p: Prompt, job: nat, story: seq<Entry>) {
    story == if p.owner.ForSession? then [Rejected(job)] else ClientReply(p, job)
  }

  predicate ClosedStory(p: Prompt, job: nat, story: seq<Entry>) {
    SentStory(p, job, true, story) || SentStory(p, job, false, story)
    || RefusedStory(p, job, story) || UnsentStory(p, job, story)
  }

  /** The whole story of `job`, parked as `p`. */
  ghost predicate Story(d: Desk, job: nat, p: Prompt) {
    if job in d.prompts then
      d.prompts[job].owner == p.owner
      && OpenStory(d.prompts[job].committed, job, LogOf(d.log, job))
    else ClosedStory(p, job, LogOf(d.log, job))
  }

  ghost predicate Stories(d: Desk, parked: map<nat, Prompt>) {
    && d.prompts.Keys <= parked.Keys
    && (forall job :: job in parked ==> Story(d, job, parked[job]))
    && (forall job :: job !in parked ==> LogOf(d.log, job) == [])
  }

  // ---- How handlers change the log ----

  /** From `d` to `e` only the story of `job` changes, by `added`. */
  ghost predicate Adds(d: Desk, e: Desk, job: nat, added: seq<Entry>) {
    && LogOf(e.log, job) == LogOf(d.log, job) + added
    && (forall x :: x != job ==> LogOf(e.log, x) == LogOf(d.log, x))
    && (forall x :: x != job ==> (x in e.prompts <==> x in d.prompts))
    && (forall x :: x != job && x in d.prompts ==> e.prompts[x] == d.prompts[x])
  }

  lemma NoteAdds(d: Desk, key: SessionKey, notice: Notice, ok: bool)
    ensures forall x :: LogOf(Note(d, key, notice, ok).log, x) == LogOf(d.log, x)
    ensures Note(d, key, notice, ok).prompts == d.prompts && Note(d, key, notice, ok).owned == d.owned
  {
    if key in d.sessions {
      forall x
        ensures LogOf(Note(d, key, notice, ok).log, x) == LogOf(d.log, x)
      {
        LogGrows(d.log, AnsweredSession(key, d.sessions[key].delivered[notice := ok]), x);
      }
    }
  }

  lemma NotedAdds(d: Desk, entry: Entry, job: nat)
    requires About(entry, job)
    ensures Adds(d, Noted(d, entry), job, [entry])
  {
    forall x
      ensures LogOf(Noted(d, entry).log, x) == LogOf(d.log, x) + if x == job then [entry] else []
    {
      LogGrows(d.log, entry, x);
    }
  }

  lemma AddsTwice(d: Desk, e: Desk, g: Desk, job: nat, a: seq<Entry>, b: seq<Entry>)
    requires Adds(d, e, job, a) && Adds(e, g, job, b)
    ensures Adds(d, g, job, a + b)
  {
    assert LogOf(d.log, job) + (a + b) == LogOf(d.log, job) + a + b;
  }

  /** Neither marking nor releasing an owner touches prompts, sessions or the log. */
  lemma MarkFace(d: Desk, owner: Owner)
    ensures var e := Mark(d, owner);
            e.prompts == d.prompts && e.sessions == d.sessions && e.owned == d.owned && e.log == d.log
    ensures var e := Unmark(d, owner);
            e.prompts == d.prompts && e.sessions == d.sessions && e.owned == d.owned && e.log == d.log
  {
  }

  lemma ForgetFace(d: Desk, job: nat)
    requires job in d.prompts
    ensures var e := Forget(d, job);
            e.prompts == d.prompts - {job} && e.sessions == d.sessions && e.owned == d.owned && e.log == d.log
  {
    MarkFace(d.(prompts := d.prompts - {job}), d.prompts[job].owner);
  }

  lemma ForgetAdds(d: Desk, job: nat)
    requires job in d.prompts
    ensures Adds(d, Forget(d, job), job, []) && job !in Forget(d, job).prompts
  {
    ForgetFace(d, job);
  }

  lemma CompleteAdds(d: Desk, job: nat, ok: bool)
    requires job in d.prompts
    ensures Adds(d, Complete(d, job, ok), job, [Completed(job, ok)] + ClientReply(d.prompts[job], job))
    ensures job !in Complete(d, job, ok).prompts
  {
    var p := d.prompts[job];
    var e := Noted(Forget(d, job), Completed(job, ok));
    ForgetAdds(d, job);
    NotedAdds(Forget(d, job), Completed(job, ok), job);
    AddsTwice(d, Forget(d, job), e, job, [], [Completed(job, ok)]);
    assert [] + [Completed(job, ok)] == [Completed(job, ok)];
    SettleAdds(e, p.owner, job, ok);
    AddsTwice(d, e, Complete(d, job, ok), job, [Completed(job, ok)], ClientReply(p, job));
  }

  /** Telling the owner of a settled prompt: a client hears an answer of its own. */
  lemma SettleAdds(e: Desk, owner: Owner, job: nat, ok: bool)
    ensures owner.Client? ==> Adds(e, Noted(e, AnsweredClient(job)), job, [AnsweredClient(job)])
    ensures owner.ForSession? ==> Adds(e, Note(e, owner.key, owner.notice, ok), job, [])
    ensures Adds(e, e, job, [])
  {
    NotedAdds(e, AnsweredClient(job), job);
    if owner.ForSession? { NoteAdds(e, owner.key, owner.notice, ok); }
  }

  lemma AbandonAdds(d: Desk, job: nat)
    requires job in d.prompts
    ensures Adds(d, Abandon(d, job), job,
                 if d.prompts[job].owner.ForSession? then [Rejected(job)] else ClientReply(d.prompts[job], job))
    ensures job !in Abandon(d, job).prompts
  {
    var owner := d.prompts[job].owner;
    var e := Forget(d, job);
    ForgetAdds(d, job);
    SettleAdds(e, owner, job, false);
    if owner.Client? {
      AddsTwice(d, e, Noted(e, AnsweredClient(job)), job, [], [AnsweredClient(job)]);
    } else if owner.ForSession? {
      var r := Noted(e, Rejected(job));
      NotedAdds(e, Rejected(job), job);
      AddsTwice(d, e, r, job, [], [Rejected(job)]);
      SettleAdds(r, owner, job, false);
      AddsTwice(d, r, Note(r, owner.key, owner.notice, false), job, [Rejected(job)], []);
    }
  }
}
