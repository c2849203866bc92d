/** The parked-start machine (`src/daemon.rs`, `AwaitingStart` and `StartPhase`).

    Each handler is a function from the parked starts to what they become, the job it submits
    and the commands it puts on the lease of the event's job. Store and clock answers come in a
    `Facts` value; every external effect is recorded in `log`. */
module Starts {
  import opened Lanes
  import opened Wrappers
  import L = LaneRuns

  datatype Phase =
    | Snapshot
    | Opening(attempt: nat)
    | Sending(attempt: nat)
    | Busy(notBefore: int, budget: int)
    | Ready
    | Settling(until: int)
    | Initial

  datatype Start = Start(
    ticket: nat,           // names the waiting client
    pane: string,
    declared: bool,
    phase: Phase,
    job: Option<nat>,
    lease: bool,
    committed: bool,
    attempt: nat,
    budget: int)           // busy deadline

  datatype Entry =
    | Asked(ticket: nat, job: nat)       // snapshot job submitted
    | Declared(ticket: nat, job: nat)    // operation recorded from that snapshot
    | Checked(ticket: nat, job: nat)     // pane found to match in that snapshot
    | LeaseAsked(ticket: nat, attempt: nat, job: nat)
    | StartIntent(ticket: nat, attempt: nat)
    | StartSent(ticket: nat, attempt: nat)
    | BusyAnswer(ticket: nat)
    | Submitted(ticket: nat)
    | ReadyAt(ticket: nat, time: int)    // runtime ready, initial message recorded
    | MessageAsked(ticket: nat, time: int, job: nat)
    | MessageIntent(ticket: nat)
    | MessageSent(ticket: nat)
    | MessageDone(ticket: nat)
    | Answered(ticket: nat)

  datatype Floor = Floor(starts: seq<Start>, log: seq<Entry>)

  datatype Verdict = Went | Retry(notBefore: int) | Fatal

  /** What one handler call learns from the store, the clock and the shape of the answer. */
  datatype Facts = Facts(
    ok: bool,            // the store call of this branch succeeded
    shaped: bool,        // the answer has the shape the phase expects
    busy: Verdict,       // what the start answer amounts to
    ready: bool,         // the observed agent has become ready
    begun: bool,         // the initial message was recorded
    leaseOpen: bool,
    now: int,
    budget: int,
    settle: nat)

  datatype Effect = Effect(floor: Floor, submit: Option<Job>, cmds: seq<L.LeaseCmd>)

  function Still(f: Floor): Effect {
    Effect(f, None, [])
  }

  /** The position of the start waiting on `job`. */
  function IndexOf(starts: seq<Start>, job: nat): (index: Option<nat>)
    ensures index.Some? ==> index.value < |starts| && starts[index.value].job == Some(job)
    ensures index.None? ==> forall k :: 0 <= k < |starts| ==> starts[k].job != Some(job)
  {
    if starts == [] then None
    else if starts[|starts| - 1].job == Some(job) && IndexOf(starts[..|starts| - 1], job).None? then Some(|starts| - 1)
    else
      var index := IndexOf(starts[..|starts| - 1], job);
      assert forall k :: 0 <= k < |starts| - 1 ==> starts[k] == starts[..|starts| - 1][k];
      index
  }

  function Put(f: Floor, i: nat, s: Start, entries: seq<Entry>): Floor
    requires i < |f.starts|
  {
    Floor(f.starts[i := s], f.log + entries)
  }

  function DropOf(s: Start): seq<L.LeaseCmd> {
    if s.lease then [L.Drop] else []
  }

  /** Remove the start and answer its client, after recording `entries`. */
  function Close(f: Floor, i: nat, entries: seq<Entry>): Floor
    requires i < |f.starts|
  {
    Floor(f.starts[..i] + f.starts[i + 1..], f.log + entries + [Answered(f.starts[i].ticket)])
  }

  function FailAt(f: Floor, i: nat): Effect
    requires i < |f.starts|
  {
    Effect(Close(f, i, []), None, DropOf(f.starts[i]))
  }

  function ParkStart(f: Floor, ticket: nat, pane: string, next: nat, deadline: int): Effect {
    var s := Start(ticket, pane, false, Phase.Snapshot, Some(next), false, false, 1, deadline);
    Effect(Floor(f.starts + [s], f.log + [Asked(ticket, next)]), Some(Job.Snapshot(next, true)), [])
  }

  function OpenLease(f: Floor, i: nat, s: Start, attempt: nat, entry: Entry, next: nat): Effect
    requires i < |f.starts|
  {
    Effect(Put(f, i, s.(phase := Opening(attempt), job := Some(next)), [entry, LeaseAsked(s.ticket, attempt, next)]),
           Some(Open(next, s.pane, false)), [])
  }

  function OnSnapshot(f: Floor, i: nat, job: nat, reply: Reply, w: Facts, next: nat): Effect
    requires i < |f.starts|
  {
    var s := f.starts[i];
    if reply.Refused? || !w.shaped || !w.ok then FailAt(f, i)
    else if !s.declared then
      OpenLease(f, i, s.(declared := true, budget := w.budget, attempt := 1), 1, Declared(s.ticket, job), next)
    else OpenLease(f, i, s, s.attempt + 1, Checked(s.ticket, job), next)
  }

  function AttemptOf(s: Start): nat {
    match s.phase
    case Opening(attempt) => attempt
    case Sending(attempt) => attempt
    case _ => 1
  }

  function OnOpened(f: Floor, i: nat, w: Facts): Effect
    requires i < |f.starts|
  {
    var s := f.starts[i];
    if s.phase.Initial? then OnInitialOpened(f, i, w)
    else if !s.declared || !w.ok then
      var e := FailAt(f, i); e.(cmds := [L.Drop] + e.cmds)
    else
      var attempt := AttemptOf(s);
      var entries := [StartIntent(s.ticket, attempt), StartSent(s.ticket, attempt)];
      if w.leaseOpen then
        Effect(Put(f, i, s.(committed := true, lease := true, phase := Sending(attempt)), entries), None, [L.Send])
      else Effect(Close(f, i, entries), None, DropOf(s))
  }

  function OnInitialOpened(f: Floor, i: nat, w: Facts): Effect
    requires i < |f.starts|
  {
    var s := f.starts[i];
    if !w.ok then Effect(Close(f, i, []), None, [L.Drop] + DropOf(s))
    else
      var entries := [MessageIntent(s.ticket), MessageSent(s.ticket)];
      if w.leaseOpen then Effect(Put(f, i, s.(committed := true, lease := true), entries), None, [L.Send])
      else Effect(Close(f, i, entries), None, DropOf(s))
  }

  /** The answer to `agent.start`. */
  function OnSend(f: Floor, i: nat, reply: Reply, w: Facts): Effect
    requires i < |f.starts|
  {
    var s := f.starts[i];
    var t := s.(lease := false, job := None);
    if !s.declared then FailAt(f, i)
    else if w.busy.Went? && reply.Accepted? && w.shaped then
      Effect(Put(f, i, t.(phase := Ready), [Submitted(s.ticket)]), None, DropOf(s))
    else if w.busy.Retry? && reply.Refused? then
      Effect(Put(f, i, t.(attempt := AttemptOf(s), phase := Busy(w.busy.notBefore, s.budget)), [BusyAnswer(s.ticket)]),
             None, DropOf(s))
    else FailAt(f, i)
  }

  function OnReadyGet(f: Floor, i: nat, reply: Reply, w: Facts, next: nat): Effect
    requires i < |f.starts|
  {
    var s := f.starts[i];
    if !s.declared || !w.ok then FailAt(f, i)
    else if !w.ready then Still(Put(f, i, s.(job := None), []))
    else if !w.begun then FailAt(f, i)
    else
      var t := s.(job := None, committed := false);
      if w.settle == 0 then OpenMessage(f, i, t, [ReadyAt(s.ticket, w.now)], w.now, next)
      else Still(Put(f, i, t.(phase := Settling(w.now + w.settle)), [ReadyAt(s.ticket, w.now)]))
  }

  function OpenMessage(f: Floor, i: nat, s: Start, entries: seq<Entry>, now: int, next: nat): Effect
    requires i < |f.starts|
  {
    Effect(Put(f, i, s.(job := Some(next), phase := Initial), entries + [MessageAsked(s.ticket, now, next)]),
           Some(Open(next, s.pane, false)), [])
  }

  function OnInitialDone(f: Floor, i: nat): Effect
    requires i < |f.starts|
  {
    var s := f.starts[i];
    if !s.declared then FailAt(f, i) else Effect(Close(f, i, [MessageDone(s.ticket)]), None, DropOf(s))
  }

  function OnDone(f: Floor, i: nat, job: nat, reply: Reply, w: Facts, next: nat): Effect
    requires i < |f.starts|
  {
    match f.starts[i].phase
    case Snapshot => OnSnapshot(f, i, job, reply, w, next)
    case Sending(_) => OnSend(f, i, reply, w)
    case Ready => OnReadyGet(f, i, reply, w, next)
    case Initial => OnInitialDone(f, i)
    case _ => Still(f)
  }

  /** A failed job: a refusal while sending is an answer, anything else ends the start. */
  function OnFailed(f: Floor, i: nat, job: nat, error: int, refused: bool, w: Facts, next: nat): Effect
    requires i < |f.starts|
  {
    var s := f.starts[i];
    if refused && s.phase.Sending? then OnDone(f, i, job, Refused(error), w, next)
    else if s.phase.Initial? && s.committed then OnInitialDone(f, i)
    else FailAt(f, i)
  }

  function Handle(f: Floor, event: Event, refused: bool, w: Facts, next: nat): Effect {
    var index := IndexOf(f.starts, event.id);
    if index.None? then Effect(f, None, if event.Opened? then [L.Drop] else [])
    else match event
      case Opened(_) => OnOpened(f, index.value, w)
      case Written(_) => Still(f)
      case Done(job, reply) => OnDone(f, index.value, job, reply, w, next)
      case Failed(job, _, error) => OnFailed(f, index.value, job, error, refused, w, next)
      case Dropped(_) => Still(f)
  }

  /** One start's turn in `advance_awaiting_starts`. */
  function AdvanceOne(f: Floor, i: nat, now: int, next: nat): Effect
    requires i < |f.starts|
  {
    var s := f.starts[i];
    if s.job.Some? then Still(f)
    else match s.phase
      case Busy(notBefore, budget) =>
        if now < notBefore then Still(f)
        else if now >= budget then FailAt(f, i)
        else Effect(Put(f, i, s.(job := Some(next), phase := Phase.Snapshot), [Asked(s.ticket, next)]),
                    Some(Job.Snapshot(next, false)), [])
      case Ready =>
        if !s.declared then Still(f)
        else Effect(Put(f, i, s.(job := Some(next)), []), Some(AgentGet(next, "kelpie:start-ready", s.pane)), [])
      case Settling(until) => if now < until then Still(f) else OpenMessage(f, i, s, [], now, next)
      case _ => Still(f)
  }

  // ---- The order of effects ----

  /** How far one start has come, as far as its effects show. */
  datatype Mark =
    | Nothing
    | Looking(tries: nat, job: nat)   // a snapshot is wanted after `tries` sends
    | Cleared(tries: nat)             // the pane was checked
    | Leasing(attempt: nat, job: nat)
    | Intended(attempt: nat)
    | InFlight(attempt: nat)
    | TurnedAway(attempt: nat)
    | Polling
    | Resting(since: int)
    | MessageLeasing(job: nat)
    | MessageIntended
    | MessageInFlight
    | MessageOver
    | Over

  /** The effects a start may have next: this is the protocol, independent of the handlers. */
  function Follow(mark: Mark, e: Entry, settle: nat): Option<Mark> {
    if e.Answered? then (if mark.Nothing? || mark.Over? then None else Some(Over))
    else match mark
      case Nothing => if e.Asked? then Some(Looking(0, e.job)) else None
      case Looking(tries, job) =>
        var check := if tries == 0 then Declared(e.ticket, job) else Checked(e.ticket, job);
        if e == check then Some(Cleared(tries)) else None
      case Cleared(tries) =>
        if e.LeaseAsked? && e.attempt == tries + 1 then Some(Leasing(tries + 1, e.job)) else None
      case Leasing(n, _) => if e == StartIntent(e.ticket, n) then Some(Intended(n)) else None
      case Intended(n) => if e == StartSent(e.ticket, n) then Some(InFlight(n)) else None
      case InFlight(n) =>
        if e.BusyAnswer? then Some(TurnedAway(n)) else if e.Submitted? then Some(Polling) else None
      case TurnedAway(n) => if e.Asked? then Some(Looking(n, e.job)) else None
      case Polling => if e.ReadyAt? then Some(Resting(e.time)) else None
      case Resting(since) =>
        if e.MessageAsked? && e.time >= since + settle then Some(MessageLeasing(e.job)) else None
      case MessageLeasing(_) => if e.MessageIntent? then Some(MessageIntended) else None
      case MessageIntended => if e.MessageSent? then Some(MessageInFlight) else None
      case MessageInFlight => if e.MessageDone? then Some(MessageOver) else None
      case MessageOver => None
      case Over => None
  }

  function Trail(story: seq<Entry>, settle: nat): Option<Mark> {
    if story == [] then Some(Nothing)
    else
      var before := Trail(story[..|story| - 1], settle);
      if before.None? then None else Follow(before.value, story[|story| - 1], settle)
  }

  function StoryOf(log: seq<Entry>, ticket: nat): seq<Entry> {
    if log == [] then []
    else StoryOf(log[..|log| - 1], ticket) + if log[|log| - 1].ticket == ticket then [log[|log| - 1]] else []
  }
}
