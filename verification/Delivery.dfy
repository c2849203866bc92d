/** Parked prompts and the sessions that count them down (`src/daemon.rs`).

    A call into the store appears as its outcome, a boolean the environment chooses, and as an
    entry of `log`. A prompt's `client` connection, when it has one, is answered by the job's
    `AnsweredClient` entry. */
module Delivery {
  import opened Lanes
  import opened LaneRuns
  import opened Wrappers

  /** The parked request a notice reports back to. */
  datatype SessionKey = CancelKey(number: nat) | RetireKey(number: nat)

  /** Which notice of a session: the waiting or the owing side of a cancel, or one ask. */
  datatype Notice = WaitingSide | OwingSide | Ask(message: nat)

  /** Whose prompt it is: a waiting client's, a due delivery's, a reminder's or a session's. */
  datatype Owner =
    | Client
    | Due(operation: nat)
    | Reminder(ask: nat)
    | ForSession(key: SessionKey, notice: Notice)

  datatype Prompt = Prompt(pane: string, owner: Owner, lease: bool, committed: bool)

  datatype Session = Session(delivered: map<Notice, bool>, remaining: nat)

  datatype Entry =
    | Committed(job: nat)       // the intent to send is durable
    | CommitRefused(job: nat)   // the intent was not committed
    | SentTo(job: nat)          // the request was passed to the lease
    | Completed(job: nat, ok: bool) // the outcome was recorded
    | Rejected(job: nat)        // the prompt was recorded as never sent
    | AnsweredClient(job: nat)
    | AnsweredSession(key: SessionKey, delivered: map<Notice, bool>)

  datatype Desk = Desk(
    prompts: map<nat, Prompt>,
    sessions: map<SessionKey, Session>,
    owned: set<nat>,            // jobs `herdr_owners` maps to a prompt
    due: set<nat>,              // due deliveries that have a prompt parked
    reminders: set<nat>,        // asks whose reminder is parked
    log: seq<Entry>)

  function Fresh(pane: string, owner: Owner): Prompt {
    Prompt(pane, owner, false, false)
  }

  /** Note that the owner's delivery is under way. */
  function Mark(d: Desk, owner: Owner): Desk {
    match owner
    case Due(operation) => d.(due := d.due + {operation})
    case Reminder(ask) => d.(reminders := d.reminders + {ask})
    case _ => d
  }

  function Unmark(d: Desk, owner: Owner): Desk {
    match owner
    case Due(operation) => d.(due := d.due - {operation})
    case Reminder(ask) => d.(reminders := d.reminders - {ask})
    case _ => d
  }

  function Park(d: Desk, job: nat, prompt: Prompt): Desk {
    d.(prompts := d.prompts[job := prompt], owned := d.owned + {job})
  }

  /** A notice settled: record it, and answer the session when it was the last. */
  function Note(d: Desk, key: SessionKey, notice: Notice, ok: bool): Desk {
    if key !in d.sessions then d
    else
      var delivered := d.sessions[key].delivered[notice := ok];
      if d.sessions[key].remaining > 1 then
        d.(sessions := d.sessions[key := Session(delivered, d.sessions[key].remaining - 1)])
      else d.(sessions := d.sessions - {key}, log := d.log + [AnsweredSession(key, delivered)])
  }

  function DropOf(p: Prompt): seq<LeaseCmd> {
    if p.lease then [Drop] else []
  }

  /** Remove the prompt and release what it marked. */
  function Forget(d: Desk, job: nat): Desk
    requires job in d.prompts
  {
    Unmark(d.(prompts := d.prompts - {job}), d.prompts[job].owner)
  }

  function Noted(d: Desk, entry: Entry): Desk {
    d.(log := d.log + [entry])
  }

  /** Record the outcome of a prompt that was sent, and tell its owner. */
  function Complete(d: Desk, job: nat, ok: bool): Desk
    requires job in d.prompts
  {
    var p := d.prompts[job];
    var d := Noted(Forget(d, job), Completed(job, ok));
    match p.owner
    case Client => Noted(d, AnsweredClient(job))
    case ForSession(key, notice) => Note(d, key, notice, ok)
    case _ => d
  }

  /** Give up on a prompt whose intent was never committed. */
  function Abandon(d: Desk, job: nat): Desk
    requires job in d.prompts
  {
    var p := d.prompts[job];
    var d := Forget(d, job);
    match p.owner
    case Client => Noted(d, AnsweredClient(job))
    case ForSession(key, notice) => Note(Noted(d, Rejected(job)), key, notice, false)
    case _ => d
  }

  function Finish(d: Desk, job: nat, ok: bool): Desk {
    if job in d.prompts then Complete(d, job, ok) else d
  }

  function Fail(d: Desk, job: nat, ok: bool): Desk {
    if job !in d.prompts then d
    else if d.prompts[job].committed then Complete(d, job, ok)
    else Abandon(d, job)
  }

  /** Answer a prompt whose intent commit was refused; its session is not told. */
  function AnswerRefused(d: Desk, job: nat): Desk
    requires job in d.prompts
  {
    if d.prompts[job].owner.Client? then Noted(Forget(d, job), AnsweredClient(job)) else Forget(d, job)
  }

  function Closing(d: Desk, job: nat): seq<LeaseCmd> {
    if job in d.prompts then DropOf(d.prompts[job]) else []
  }

  /** The store's answers and the lease's state, as one handler call finds them. */
  datatype World = World(commitOk: bool, leaseOpen: bool, completeOk: bool)

  function OnOpened(d: Desk, job: nat, w: World): Desk {
    if job !in d.prompts then d
    else if w.commitOk then
      var sent := d.(prompts := d.prompts[job := d.prompts[job].(committed := true)],
                     log := d.log + [Committed(job), SentTo(job)]);
      if w.leaseOpen then sent.(prompts := sent.prompts[job := sent.prompts[job].(lease := true)])
      else Fail(sent, job, w.completeOk)
    else
      var d := Noted(d, CommitRefused(job));
      if d.prompts[job].owner.Reminder? then Fail(d, job, w.completeOk) else AnswerRefused(d, job)
  }

  function OpenedCmds(d: Desk, job: nat, w: World): seq<LeaseCmd> {
    if job in d.prompts && w.commitOk then (if w.leaseOpen then [Send] else Closing(d, job))
    else [Drop] + Closing(d, job)
  }

  /** One event of `drain_herdr_events`, for a job parked by this desk. */
  function Handle(d: Desk, event: Event, w: World): Desk {
    match event
    case Opened(job) => if job in d.owned then OnOpened(d, job, w) else d
    case Written(_) => d
    case Done(job, _) => if job in d.owned then Finish(d, job, w.completeOk) else d
    case Failed(job, _, _) => if job in d.owned then Fail(d, job, w.completeOk) else d
    case Dropped(job) => d.(owned := d.owned - {job})
  }

  /** The commands it puts on the lease of that job. */
  function Commands(d: Desk, event: Event, w: World): seq<LeaseCmd> {
    match event
    case Opened(job) => if job in d.owned then OpenedCmds(d, job, w) else [Drop]
    case Written(_) => []
    case Done(job, _) => if job in d.owned then Closing(d, job) else []
    case Failed(job, _, _) => if job in d.owned then Closing(d, job) else []
    case Dropped(_) => []
  }

  /** A notice of a session, with the pane to type it into; `None` when there is nothing to send,
      though the answer lists the notice. */
  type Listed = (Option<string>, Notice)

  function Unheard(notices: seq<Listed>): map<Notice, bool> {
    if notices == [] then map[] else Unheard(notices[..|notices| - 1])[notices[|notices| - 1].1 := false]
  }

  /** How many of the first `n` notices are to be sent. */
  function Sendable(notices: seq<Listed>, n: nat): (k: nat)
    requires n <= |notices|
    ensures k <= n
  {
    if n == 0 then 0 else Sendable(notices, n - 1) + if notices[n - 1].0.Some? then 1 else 0
  }

  /** Open the session before its prompts are parked; with nothing to send it is answered. */
  function Convene(d: Desk, key: SessionKey, notices: seq<Listed>): Desk {
    if Sendable(notices, |notices|) == 0 then Noted(d, AnsweredSession(key, Unheard(notices)))
    else d.(sessions := d.sessions[key := Session(Unheard(notices), Sendable(notices, |notices|))])
  }

  /** Park one prompt for each of the first `n` notices to be sent, with consecutive job ids. */
  function ParkAll(d: Desk, first: nat, key: SessionKey, notices: seq<Listed>, n: nat): Desk
    requires n <= |notices|
  {
    if n == 0 then d
    else
      var d, (pane, notice) := ParkAll(d, first, key, notices, n - 1), notices[n - 1];
      if pane.None? then d
      else Park(d, first + Sendable(notices, n - 1), Fresh(pane.value, ForSession(key, notice)))
  }

  /** The leases asked for by those prompts, put on the scheduler in turn. */
  function OpenAll(x: Exec, first: nat, notices: seq<Listed>, n: nat): Exec
    requires n <= |notices|
  {
    if n == 0 then x
    else
      var x, pane := OpenAll(x, first, notices, n - 1), notices[n - 1].0;
      if pane.None? then x else Enqueue(x, Open(first + Sendable(notices, n - 1), pane.value, false))
  }

  lemma {:induction false} NothingParked(d: Desk, x: Exec, first: nat, key: SessionKey, notices: seq<Listed>, n: nat)
    requires n <= |notices| && Sendable(notices, n) == 0
    ensures ParkAll(d, first, key, notices, n) == d && OpenAll(x, first, notices, n) == x
  {
    if n > 0 {
      NothingParked(d, x, first, key, notices, n - 1);
    }
  }

  /** The daemon's fields and handlers, in place. `log` records the store calls and answers. */
  class Daemon {
    var awaitingPrompts: map<nat, Prompt>
    var sessions: map<SessionKey, Session>
    var herdrOwners: set<nat>
    var dueInflight: set<nat>
    var reminderInflight: set<nat>
    var nextHerdrJob: nat
    var log: seq<Entry>
    const herdrExec: HerdrExec

    ghost function Value(): Desk
      reads this
    {
      Desk(awaitingPrompts, sessions, herdrOwners, dueInflight, reminderInflight, log)
    }

    constructor (exec: HerdrExec)
      ensures Value() == Desk(map[], map[], {}, {}, {}, []) && herdrExec == exec
    {
      awaitingPrompts, sessions, herdrOwners := map[], map[], {};
      dueInflight, reminderInflight := {}, {};
      nextHerdrJob, log := 0, [];
      herdrExec := exec;
    }

    method ParkPrompt(prompt: Prompt)
      modifies this, herdrExec
      ensures Value() == Park(old(Value()), old(nextHerdrJob), prompt)
      ensures herdrExec.Value() == Enqueue(old(herdrExec.Value()), Open(old(nextHerdrJob), prompt.pane, false))
      ensures nextHerdrJob == old(nextHerdrJob) + 1
    {
      var job := nextHerdrJob;
      nextHerdrJob := nextHerdrJob + 1;
      herdrOwners := herdrOwners + {job};
      herdrExec.Submit(Open(job, prompt.pane, false));
      awaitingPrompts := awaitingPrompts[job := prompt];
    }

    /** A due delivery, unless it has a prompt parked already. */
    method ParkDue(operation: nat, pane: string)
      modifies this, herdrExec
      ensures var d, p := old(Value()), Fresh(pane, Due(operation));
              if operation in d.due then Value() == d && herdrExec.Value() == old(herdrExec.Value())
              else Value() == Park(Mark(d, p.owner), old(nextHerdrJob), p)
                   && herdrExec.Value() == Enqueue(old(herdrExec.Value()), Open(old(nextHerdrJob), pane, false))
    {
      if operation in dueInflight {
        return;
      }
      dueInflight := dueInflight + {operation};
      ParkPrompt(Fresh(pane, Due(operation)));
    }

    method ParkReminder(ask: nat, pane: string)
      modifies this, herdrExec
      ensures var p := Fresh(pane, Reminder(ask));
              Value() == Park(Mark(old(Value()), p.owner), old(nextHerdrJob), p)
              && herdrExec.Value() == Enqueue(old(herdrExec.Value()), Open(old(nextHerdrJob), pane, false))
    {
      reminderInflight := reminderInflight + {ask};
      ParkPrompt(Fresh(pane, Reminder(ask)));
    }

    method CountSendable(notices: seq<Listed>) returns (k: nat)
      ensures k == Sendable(notices, |notices|)
    {
      k := 0;
      for i := 0 to |notices|
        invariant k == Sendable(notices, i)
      {
        if notices[i].0.Some? {
          k := k + 1;
        }
      }
    }

    method ParkSession(key: SessionKey, notices: seq<Listed>)
      modifies this, herdrExec
      ensures Value() == ParkAll(Convene(old(Value()), key, notices), old(nextHerdrJob), key, notices, |notices|)
      ensures herdrExec.Value() == OpenAll(old(herdrExec.Value()), old(nextHerdrJob), notices, |notices|)
      ensures nextHerdrJob == old(nextHerdrJob) + Sendable(notices, |notices|)
    {
      var remaining := CountSendable(notices);
      if remaining == 0 {
        log := log + [AnsweredSession(key, Unheard(notices))];
        NothingParked(Value(), herdrExec.Value(), nextHerdrJob, key, notices, |notices|);
        return;
      }
      sessions := sessions[key := Session(Unheard(notices), remaining)];
      ghost var start, queue, first := Value(), herdrExec.Value(), nextHerdrJob;
      for i := 0 to |notices|
        invariant nextHerdrJob == first + Sendable(notices, i)
        invariant Value() == ParkAll(start, first, key, notices, i)
        invariant herdrExec.Value() == OpenAll(queue, first, notices, i)
      {
        if notices[i].0.Some? {
          ParkPrompt(Fresh(notices[i].0.value, ForSession(key, notices[i].1)));
        }
      }
    }

    method NoteNotice(key: SessionKey, notice: Notice, ok: bool)
      modifies this`sessions, this`log
      ensures Value() == Note(old(Value()), key, notice, ok)
    {
      if key !in sessions {
        return;
      }
      var session := sessions[key];
      var delivered := session.delivered[notice := ok];
      var remaining := if session.remaining == 0 then 0 else session.remaining - 1;
      sessions := sessions[key := Session(delivered, remaining)];
      if remaining != 0 {
        return;
      }
      sessions := sessions - {key};
      log := log + [AnsweredSession(key, delivered)];
    }

    method Release(owner: Owner)
      modifies this`dueInflight, this`reminderInflight
      ensures Value() == Unmark(old(Value()), owner)
    {
      match owner {
        case Due(operation) => dueInflight := dueInflight - {operation};
        case Reminder(ask) => reminderInflight := reminderInflight - {ask};
        case _ =>
      }
    }

    method FinishParkedPrompt(job: nat, ok: bool) returns (cmds: seq<LeaseCmd>)
      modifies this`awaitingPrompts, this`sessions, this`dueInflight, this`reminderInflight, this`log
      ensures Value() == Finish(old(Value()), job, ok)
      ensures cmds == Closing(old(Value()), job)
    {
      if job !in awaitingPrompts {
        return [];
      }
      var awaiting := awaitingPrompts[job];
      awaitingPrompts := awaitingPrompts - {job};
      Release(awaiting.owner);
      cmds := if awaiting.lease then [Drop] else [];
      log := log + [Completed(job, ok)];
      match awaiting.owner {
        case Client => log := log + [AnsweredClient(job)];
        case ForSession(key, notice) => NoteNotice(key, notice, ok);
        case _ =>
      }
    }

    method FailParkedPrompt(job: nat, completeOk: bool) returns (cmds: seq<LeaseCmd>)
      modifies this`awaitingPrompts, this`sessions, this`dueInflight, this`reminderInflight, this`log
      ensures Value() == Fail(old(Value()), job, completeOk)
      ensures cmds == Closing(old(Value()), job)
    {
      if job !in awaitingPrompts {
        return [];
      }
      var awaiting := awaitingPrompts[job];
      awaitingPrompts := awaitingPrompts - {job};
      Release(awaiting.owner);
      cmds := if awaiting.lease then [Drop] else [];
      if awaiting.committed {
        log := log + [Completed(job, completeOk)];
      }
      match awaiting.owner {
        case Client => log := log + [AnsweredClient(job)];
        case Due(_) =>
        case Reminder(_) =>
        case ForSession(key, notice) =>
          if !awaiting.committed {
            log := log + [Rejected(job)];
          }
          NoteNotice(key, notice, awaiting.committed && completeOk);
      }
    }

    method OnPromptOpened(job: nat, w: World) returns (cmds: seq<LeaseCmd>)
      modifies this`awaitingPrompts, this`sessions, this`dueInflight, this`reminderInflight, this`log
      ensures Value() == OnOpened(old(Value()), job, w)
      ensures cmds == OpenedCmds(old(Value()), job, w)
    {
      if job !in awaitingPrompts {
        return [Drop];
      }
      if w.commitOk {
        awaitingPrompts := awaitingPrompts[job := awaitingPrompts[job].(committed := true)];
        log := log + [Committed(job), SentTo(job)];
        if w.leaseOpen {
          awaitingPrompts := awaitingPrompts[job := awaitingPrompts[job].(lease := true)];
          return [Send];
        }
        cmds := FailParkedPrompt(job, w.completeOk);
        return;
      }
      log := log + [CommitRefused(job)];
      var closing;
      if awaitingPrompts[job].owner.Reminder? {
        closing := FailParkedPrompt(job, w.completeOk);
      } else {
        closing := AnswerParkedPrompt(job);
      }
      return [Drop] + closing;
    }

    method AnswerParkedPrompt(job: nat) returns (cmds: seq<LeaseCmd>)
      requires job in awaitingPrompts
      modifies this`awaitingPrompts, this`dueInflight, this`reminderInflight, this`log
      ensures Value() == AnswerRefused(old(Value()), job)
      ensures cmds == Closing(old(Value()), job)
    {
      var awaiting := awaitingPrompts[job];
      awaitingPrompts := awaitingPrompts - {job};
      Release(awaiting.owner);
      if awaiting.owner.Client? {
        log := log + [AnsweredClient(job)];
      }
      return if awaiting.lease then [Drop] else [];
    }

    /** `cmds` goes to the lease of the event's job. */
    method OnEvent(event: Event, w: World) returns (cmds: seq<LeaseCmd>)
      modifies this
      ensures Value() == Handle(old(Value()), event, w)
      ensures cmds == Commands(old(Value()), event, w)
    {
      cmds := [];
      match event {
        case Opened(job) =>
          if job in herdrOwners {
            cmds := OnPromptOpened(job, w);
          } else {
            cmds := [Drop];
          }
        case Written(_) =>
        case Done(job, _) =>
          if job in herdrOwners { cmds := FinishParkedPrompt(job, w.completeOk); }
        case Failed(job, _, _) =>
          if job in herdrOwners { cmds := FailParkedPrompt(job, w.completeOk); }
        case Dropped(job) =>
          herdrOwners := herdrOwners - {job};
      }
    }
  }
}
