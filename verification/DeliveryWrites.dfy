/** Write-ahead across the desk and the scheduler: what is written on a prompt's lease, against
    what the desk has made durable. */
module DeliveryWrites {
  import opened Lanes
  import L = LaneRuns
  import T = LaneTheorems
  import opened Delivery
  import opened DeliveryRuns
  import opened DeliveryStories
  import opened DeliveryRefusals

  /** No lease of a prompt was sent twice, and one that was sent has its intent in the log. */
  ghost predicate Guarded(h: House) {
    forall j :: j in h.parked ==> j !in h.lanes.resent && (j in h.lanes.sent ==> Committed(j) in h.desk.log)
  }

  /** The scheduler moved, and sent nothing to a prompt's lease. */
  ghost predicate Unsending(h: House, lanes: L.Sys) {
    forall j :: j in h.parked ==>
      (j in lanes.sent ==> j in h.lanes.sent) && (j in lanes.resent ==> j in h.lanes.resent)
  }

  lemma StepGuarded(h: House, lanes: L.Sys)
    requires Guarded(h) && Unsending(h, lanes)
    ensures Guarded(h.(lanes := lanes))
  {
  }

  lemma WorkUnsending(h: House, id: nat, action: L.Action)
    requires T.Reachable(h.lanes) && (action == L.Push(L.Send) ==> id !in h.parked)
    ensures Unsending(h, L.Next(h.lanes, L.Work(id, action)))
  {
    T.WorkFace(h.lanes, id, action);
    T.ResentFace(h.lanes, L.Work(id, action));
  }

  lemma SubmitUnsending(h: House, job: Job)
    requires T.Reachable(h.lanes) && job.id >= h.lanes.next
    ensures Unsending(h, L.Next(h.lanes, L.Submit(job)))
  {
    T.SubmitFace(h.lanes, job);
    T.ResentFace(h.lanes, L.Submit(job));
  }

  lemma LodgeGuarded(h: House, prompt: Prompt)
    requires Linked(h) && Guarded(h)
    ensures Guarded(Lodge(h, prompt))
  {
    var job, submit := h.lanes.next, Open(h.lanes.next, prompt.pane, false);
    SubmitUnsending(h, submit);
    T.SubmitFace(h.lanes, submit);
    T.ResentFace(h.lanes, L.Submit(submit));
    FreshIsUnsent(h.lanes, job);
    MarkFace(h.desk, prompt.owner);
    FreshGuarded(h, Lodge(h, prompt), prompt);
  }

  lemma FreshGuarded(h: House, g: House, prompt: Prompt)
    requires Guarded(h) && Unsending(h, g.lanes) && g.desk.log == h.desk.log
    requires g.parked == h.parked[h.lanes.next := prompt]
    requires h.lanes.next !in g.lanes.sent && h.lanes.next !in g.lanes.resent
    ensures Guarded(g)
  {
  }

  lemma {:induction false} LodgeAllGuarded(h: House, key: SessionKey, notices: seq<Listed>)
    requires Linked(h) && Guarded(h)
    ensures Guarded(LodgeAll(h, key, notices))
  {
    if notices != [] {
      var n := |notices| - 1;
      LodgeAllGuarded(h, key, notices[..n]);
      LodgeAllLinked(h, key, notices[..n]);
      if notices[n].0.Some? {
        LodgeGuarded(LodgeAll(h, key, notices[..n]), Fresh(notices[n].0.value, ForSession(key, notices[n].1)));
      }
    }
  }

  /** A Send goes out alone, on a lease just opened, with the intent in the log. */
  lemma CommandsSend(d: Desk, event: Event, w: World)
    requires L.Send in Commands(d, event, w)
    ensures Commands(d, event, w) == [L.Send]
    ensures event.Opened? && event.id in d.prompts && Committed(event.id) in Handle(d, event, w).log
  {
    var job := event.id;
    var log := d.log + [Committed(job), SentTo(job)];
    assert log[|d.log|] == Committed(job);
  }

  /** Handing over commands that do not send twice. */
  lemma {:induction false} PushResent(s: L.Sys, id: nat, cmds: seq<L.LeaseCmd>)
    requires T.Reachable(s) && (L.Send in cmds ==> cmds == [L.Send] && id !in s.sent)
    ensures Push(s, id, cmds).resent <= s.resent
  {
    if cmds != [] {
      var n := |cmds| - 1;
      assert cmds[n] in cmds && forall c :: c in cmds[..n] ==> c in cmds;
      if n > 0 { PushResent(s, id, cmds[..n]); }
      PushFace(s, id, cmds[..n]);
      T.ResentFace(Push(s, id, cmds[..n]), L.Work(id, L.Push(cmds[n])));
    }
  }

  lemma DrainGuarded(h: House, w: World)
    requires Linked(h) && Guarded(h)
    ensures Guarded(Drain(h, w))
  {
    if T.Ready(h.lanes) {
      var event := T.RecvFace(h.lanes);
      var lanes := L.Next(h.lanes, L.Recv);
      HandedIs(h.lanes, event);
      T.ResentFace(h.lanes, L.Recv);
      if event.id in h.parked {
        HandedInTime(h, lanes, event);
        OwnGuarded(h, lanes, event, w.(leaseOpen := Alive(lanes, event.id)));
      } else {
        StepGuarded(h, lanes);
      }
    }
  }

  lemma OwnGuarded(h: House, lanes: L.Sys, event: Event, w: World)
    requires Linked(h) && Guarded(h) && T.Reachable(lanes) && lanes.sent == h.lanes.sent
    requires lanes.resent <= h.lanes.resent
    requires event.id in h.parked && Timely(h.desk, event)
    ensures Guarded(h.(lanes := Push(lanes, event.id, Commands(h.desk, event, w)), desk := Handle(h.desk, event, w)))
  {
    var cmds := Commands(h.desk, event, w);
    if L.Send in cmds { CommandsSend(h.desk, event, w); }
    PushFace(lanes, event.id, cmds);
    PushResent(lanes, event.id, cmds);
    HandleExtends(h.desk, event, w);
  }

  lemma MeetGuarded(h: House, retire: bool, notices: seq<Listed>)
    requires Linked(h) && Guarded(h)
    ensures Guarded(Meet(h, retire, notices))
  {
    var c, key := Convened(h, retire, notices), NextKey(h, retire);
    ConveneLinked(h, c, key, notices);
    LodgeAllGuarded(c, key, notices);
  }

  lemma NextGuarded(h: House, m: Move)
    requires Linked(h) && Guarded(h)
    ensures Guarded(Next(h, m))
  {
    match m
    case Toil(id, action) =>
      if !action.Push? {
        WorkUnsending(h, id, action);
        StepGuarded(h, L.Next(h.lanes, L.Work(id, action)));
      }
    case OtherSubmit(job) =>
      if job.id == h.lanes.next {
        SubmitUnsending(h, job);
        StepGuarded(h, L.Next(h.lanes, L.Submit(job)));
      }
    case OtherPush(id, cmd) =>
      if id !in h.parked {
        WorkUnsending(h, id, L.Push(cmd));
        StepGuarded(h, L.Next(h.lanes, L.Work(id, L.Push(cmd))));
      }
    case ParkOne(pane, owner) =>
      if Welcome(h.desk, owner) { LodgeGuarded(h, Fresh(pane, owner)); }
    case ParkMany(retire, notices) =>
      if DistinctNotices(notices) { MeetGuarded(h, retire, notices); }
    case Pump(w) => DrainGuarded(h, w);
  }

  lemma {:induction false} RunGuarded(moves: seq<Move>)
    ensures Guarded(Run(moves))
  {
    if moves != [] {
      RunLinked(moves[..|moves| - 1]);
      RunGuarded(moves[..|moves| - 1]);
      NextGuarded(Run(moves[..|moves| - 1]), moves[|moves| - 1]);
    }
  }

  // ---- Write-ahead ----

  /** Some worker has put the request of this job on the wire, in the entry at place `i`. */
  predicate WroteAt(s: L.Sys, i: nat, job: nat) {
    i < |s.trace| && s.trace[i] == L.Requested(job)
  }

  /** Durable intent precedes the external effect: in every run, what a worker has written on a
      prompt's lease is a prompt whose intent was committed. */
  lemma IntentPrecedesWrite(moves: seq<Move>, i: nat, job: nat)
    requires job in Run(moves).parked && WroteAt(Run(moves).lanes, i, job)
    ensures Committed(job) in Run(moves).desk.log
  {
    var h := Run(moves);
    RunLinked(moves);
    RunGuarded(moves);
    var steps :| h.lanes == L.Run(steps);
    T.WritesWereSent(steps, i);
  }

  /** And it is written at most once. */
  lemma PromptWrittenOnce(moves: seq<Move>, i: nat, j: nat, job: nat)
    requires job in Run(moves).parked && WroteAt(Run(moves).lanes, i, job) && WroteAt(Run(moves).lanes, j, job)
    ensures i == j
  {
    var h := Run(moves);
    RunLinked(moves);
    RunGuarded(moves);
    var steps :| h.lanes == L.Run(steps);
    if i < j { T.WrittenOnce(steps, i, j); }
    if j < i { T.WrittenOnce(steps, j, i); }
  }

  lemma {:induction false} CommittedIsLogged(log: seq<Entry>, job: nat)
    ensures Committed(job) in LogOf(log, job) <==> Committed(job) in log
    ensures Rejected(job) in LogOf(log, job) <==> Rejected(job) in log
    ensures CommitRefused(job) in LogOf(log, job) <==> CommitRefused(job) in log
  {
    if log != [] {
      CommittedIsLogged(log[..|log| - 1], job);
      assert log == log[..|log| - 1] + [log[|log| - 1]];
    }
  }

  /** A prompt recorded as never sent, or whose intent was refused, was never written. */
  lemma RejectedWasNotWritten(moves: seq<Move>, i: nat, job: nat)
    requires job in Run(moves).parked
    requires Rejected(job) in Run(moves).desk.log || CommitRefused(job) in Run(moves).desk.log
    ensures !WroteAt(Run(moves).lanes, i, job)
  {
    var h := Run(moves);
    CommittedIsLogged(h.desk.log, job);
    EveryPromptHasItsStory(moves, job);
    OneFate(h.desk, job, h.parked[job]);
    if WroteAt(h.lanes, i, job) { IntentPrecedesWrite(moves, i, job); }
  }

  lemma OneFate(d: Desk, job: nat, p: Prompt)
    requires Story(d, job, p)
    requires Rejected(job) in LogOf(d.log, job) || CommitRefused(job) in LogOf(d.log, job)
    ensures Committed(job) !in LogOf(d.log, job)
  {
  }
}
