/** The start handlers in place, over the daemon's `awaiting_starts` vector. */
module StartDesk {
  import opened Lanes
  import opened Wrappers
  import L = LaneRuns
  import opened Starts

  function Issued(x: Exec, submit: Option<Job>): Exec {
    if submit.Some? then Enqueue(x, submit.value) else x
  }

  /** `advance_awaiting_starts` from index `i` on: a start that is removed shifts the rest down. */
  function AdvanceFrom(f: Floor, i: nat, now: int, next: nat): Floor
    decreases |f.starts| - i
  {
    if i >= |f.starts| then f
    else
      var e := AdvanceOne(f, i, now, next);
      AdvanceFrom(e.floor, if |e.floor.starts| < |f.starts| then i else i + 1, now,
                  if e.submit.Some? then next + 1 else next)
  }

  /** The jobs those turns put on the scheduler. */
  function AdvanceExec(x: Exec, f: Floor, i: nat, now: int, next: nat): Exec
    decreases |f.starts| - i
  {
    if i >= |f.starts| then x
    else
      var e := AdvanceOne(f, i, now, next);
      AdvanceExec(Issued(x, e.submit), e.floor, if |e.floor.starts| < |f.starts| then i else i + 1, now,
                  if e.submit.Some? then next + 1 else next)
  }

  class AwaitingStarts {
    var starts: seq<Start>
    var log: seq<Entry>
    var nextHerdrJob: nat
    const herdrExec: HerdrExec

    ghost function Value(): Floor
      reads this
    {
      Floor(starts, log)
    }

    constructor (exec: HerdrExec)
      ensures Value() == Floor([], []) && herdrExec == exec
    {
      starts, log, nextHerdrJob := [], [], 0;
      herdrExec := exec;
    }

    method SubmitOwned(job: Job)
      requires job.id == nextHerdrJob
      modifies this`nextHerdrJob, herdrExec
      ensures herdrExec.Value() == Enqueue(old(herdrExec.Value()), job) && nextHerdrJob == old(nextHerdrJob) + 1
    {
      nextHerdrJob := nextHerdrJob + 1;
      herdrExec.Submit(job);
    }

    /** `cmds` goes to the lease the start holds. */
    method AnswerAt(index: nat) returns (cmds: seq<L.LeaseCmd>)
      requires index < |starts|
      modifies this`starts, this`log
      ensures var e := FailAt(old(Value()), index); Value() == e.floor && cmds == e.cmds
    {
      cmds := if starts[index].lease then [L.Drop] else [];
      log := log + [Answered(starts[index].ticket)];
      starts := starts[..index] + starts[index + 1..];
    }

    method OpenStartLease(index: nat, attempt: nat)
      requires index < |starts|
      modifies this, herdrExec
      ensures var s, job := old(starts)[index], old(nextHerdrJob);
              && Value() == Floor(old(starts)[index := s.(phase := Opening(attempt), job := Some(job))],
                                  old(log) + [LeaseAsked(s.ticket, attempt, job)])
              && herdrExec.Value() == Enqueue(old(herdrExec.Value()), Open(job, s.pane, false))
    {
      var job := nextHerdrJob;
      SubmitOwned(Open(job, starts[index].pane, false));
      starts := starts[index := starts[index].(job := Some(job), phase := Opening(attempt))];
      log := log + [LeaseAsked(starts[index].ticket, attempt, job)];
    }

    method OnStartSnapshot(index: nat, job: nat, reply: Reply, w: Facts) returns (cmds: seq<L.LeaseCmd>)
      requires index < |starts|
      modifies this, herdrExec
      ensures var e := OnSnapshot(old(Value()), index, job, reply, w, old(nextHerdrJob));
              Value() == e.floor && herdrExec.Value() == Issued(old(herdrExec.Value()), e.submit) && cmds == e.cmds
    {
      cmds := [];
      if reply.Refused? || !w.shaped || !w.ok {
        cmds := AnswerAt(index);
        return;
      }
      var ticket := starts[index].ticket;
      ghost var before, lease := log, nextHerdrJob;
      if !starts[index].declared {
        starts := starts[index := starts[index].(declared := true, budget := w.budget, attempt := 1)];
        log := log + [Declared(ticket, job)];
        OpenStartLease(index, 1);
        assert log == before + [Declared(ticket, job), LeaseAsked(ticket, 1, lease)];
      } else {
        var attempt := starts[index].attempt + 1;
        log := log + [Checked(ticket, job)];
        OpenStartLease(index, attempt);
        assert log == before + [Checked(ticket, job), LeaseAsked(ticket, attempt, lease)];
      }
    }

    method OnStartOpened(index: nat, w: Facts) returns (cmds: seq<L.LeaseCmd>)
      requires index < |starts|
      modifies this`starts, this`log
      ensures var e := OnOpened(old(Value()), index, w); Value() == e.floor && cmds == e.cmds
    {
      var start := starts[index];
      var message := start.phase.Initial?;
      if !w.ok || (!message && !start.declared) {
        var closed := AnswerAt(index);
        assert old(log) + [] == old(log);
        return [L.Drop] + closed;
      }
      var attempt := AttemptOf(start);
      log := log + if message then [MessageIntent(start.ticket), MessageSent(start.ticket)]
                   else [StartIntent(start.ticket, attempt), StartSent(start.ticket, attempt)];
      if !w.leaseOpen {
        cmds := AnswerAt(index);
        assert log + [] == log;
        return;
      }
      start := start.(committed := true, lease := true);
      starts := starts[index := if message then start else start.(phase := Sending(attempt))];
      return [L.Send];
    }

    method OnStartSend(index: nat, reply: Reply, w: Facts) returns (cmds: seq<L.LeaseCmd>)
      requires index < |starts|
      modifies this`starts, this`log
      ensures var e := OnSend(old(Value()), index, reply, w); Value() == e.floor && cmds == e.cmds
    {
      var start := starts[index];
      cmds := if start.lease then [L.Drop] else [];
      if start.declared && w.busy.Went? && reply.Accepted? && w.shaped {
        starts := starts[index := start.(lease := false, job := None, phase := Ready)];
        log := log + [Entry.Submitted(start.ticket)];
      } else if start.declared && w.busy.Retry? && reply.Refused? {
        starts := starts[index := start.(lease := false, job := None, attempt := AttemptOf(start),
                                         phase := Busy(w.busy.notBefore, start.budget))];
        log := log + [BusyAnswer(start.ticket)];
      } else {
        cmds := AnswerAt(index);
      }
    }

    method AdvanceAwaitingStarts(now: int)
      modifies this, herdrExec
      ensures Value() == AdvanceFrom(old(Value()), 0, now, old(nextHerdrJob))
      ensures herdrExec.Value() == AdvanceExec(old(herdrExec.Value()), old(Value()), 0, now, old(nextHerdrJob))
    {
      var i := 0;
      while i < |starts|
        invariant AdvanceFrom(Value(), i, now, nextHerdrJob) == AdvanceFrom(old(Value()), 0, now, old(nextHerdrJob))
        invariant AdvanceExec(herdrExec.Value(), Value(), i, now, nextHerdrJob)
               == AdvanceExec(old(herdrExec.Value()), old(Value()), 0, now, old(nextHerdrJob))
        decreases |starts| - i
      {
        var advanced, _ := AdvanceAt(i, now);
        if advanced {
          i := i + 1;
        }
      }
    }

    /** One turn; `kept` says whether the start is still parked. */
    method AdvanceAt(i: nat, now: int) returns (kept: bool, cmds: seq<L.LeaseCmd>)
      requires i < |starts|
      modifies this, herdrExec
      ensures var e := AdvanceOne(old(Value()), i, now, old(nextHerdrJob));
              Value() == e.floor && cmds == e.cmds && herdrExec.Value() == Issued(old(herdrExec.Value()), e.submit)
              && kept == (|e.floor.starts| == |old(starts)|)
              && (!kept ==> |starts| == |old(starts)| - 1)
              && nextHerdrJob == (if e.submit.Some? then old(nextHerdrJob) + 1 else old(nextHerdrJob))
    {
      kept, cmds := true, [];
      var start := starts[i];
      assert log + [] == log;
      if start.job.Some? {
        return;
      }
      var job := nextHerdrJob;
      match start.phase {
        case Busy(notBefore, budget) =>
          if now < notBefore {
          } else if now >= budget {
            cmds := AnswerAt(i);
            kept := false;
          } else {
            SubmitOwned(Job.Snapshot(job, false));
            starts := starts[i := start.(job := Some(job), phase := Phase.Snapshot)];
            log := log + [Asked(start.ticket, job)];
          }
        case Ready =>
          if start.declared {
            SubmitOwned(AgentGet(job, "kelpie:start-ready", start.pane));
            starts := starts[i := start.(job := Some(job))];
          }
        case Settling(until) =>
          if now >= until {
            SubmitOwned(Open(job, start.pane, false));
            starts := starts[i := start.(job := Some(job), phase := Initial)];
            log := log + [MessageAsked(start.ticket, now, job)];
            assert [] + [MessageAsked(start.ticket, now, job)] == [MessageAsked(start.ticket, now, job)];
          }
        case _ =>
      }
    }
  }
}
