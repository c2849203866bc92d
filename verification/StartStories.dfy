/** Every handler of the start machine follows the protocol `Follow`. */
module StartStories {
  import opened Lanes
  import opened Wrappers
  import opened Starts

  /** What a phase implies, and the mark a start in it stands at. */
  predicate StartOk(s: Start) {
    match s.phase
    case Snapshot => s.job.Some? && !s.lease && (s.declared ==> s.attempt > 0)
    case Opening(n) => s.declared && s.job.Some? && n > 0
    case Sending(n) => s.declared && s.job.Some? && n > 0
    case Busy(_, _) => s.declared && s.job.None? && !s.lease && s.attempt > 0
    case Ready => s.declared
    case Settling(_) => s.declared && s.job.None? && !s.committed
    case Initial => s.declared && s.job.Some?
  }

  function JobOf(s: Start): nat {
    if s.job.Some? then s.job.value else 0
  }

  function MarkOf(s: Start, settle: nat): Mark {
    match s.phase
    case Snapshot => Looking(if s.declared then s.attempt else 0, JobOf(s))
    case Opening(n) => Leasing(n, JobOf(s))
    case Sending(n) => InFlight(n)
    case Busy(_, _) => TurnedAway(s.attempt)
    case Ready => Polling
    case Settling(until) => Resting(until - settle)
    case Initial => if s.committed then MessageInFlight else MessageLeasing(JobOf(s))
  }

  /** Follow several effects in turn. */
  function Walk(mark: Mark, entries: seq<Entry>, settle: nat): Option<Mark> {
    if entries == [] then Some(mark)
    else
      var before := Walk(mark, entries[..|entries| - 1], settle);
      if before.None? then None else Follow(before.value, entries[|entries| - 1], settle)
  }

  predicate OnlyOf(entries: seq<Entry>, ticket: nat) {
    forall k :: 0 <= k < |entries| ==> entries[k].ticket == ticket
  }

  lemma StoryAppends(log: seq<Entry>, e: Entry, x: nat)
    ensures StoryOf(log + [e], x) == StoryOf(log, x) + if e.ticket == x then [e] else []
  {
    assert (log + [e])[..|log|] == log;
  }

  lemma {:induction false} StoryGrows(log: seq<Entry>, entries: seq<Entry>, ticket: nat, x: nat)
    requires OnlyOf(entries, ticket)
    ensures StoryOf(log + entries, x) == StoryOf(log, x) + if x == ticket then entries else []
  {
    if entries == [] {
      assert log + entries == log;
    } else {
      var n := |entries| - 1;
      StoryGrows(log, entries[..n], ticket, x);
      StoryAppends(log + entries[..n], entries[n], x);
      assert log + entries == (log + entries[..n]) + [entries[n]];
      assert entries == entries[..n] + [entries[n]];
    }
  }

  lemma {:induction false} TrailWalks(story: seq<Entry>, entries: seq<Entry>, settle: nat)
    requires Trail(story, settle).Some?
    ensures Trail(story + entries, settle) == Walk(Trail(story, settle).value, entries, settle)
  {
    if entries == [] {
      assert story + entries == story;
    } else {
      var n := |entries| - 1;
      TrailWalks(story, entries[..n], settle);
      assert (story + entries)[..|story + entries| - 1] == story + entries[..n];
    }
  }

  ghost predicate Parked(f: Floor, ticket: nat) {
    exists k :: 0 <= k < |f.starts| && f.starts[k].ticket == ticket
  }

  /** Where the log has brought `ticket`. */
  function At(f: Floor, ticket: nat, settle: nat): Option<Mark> {
    Trail(StoryOf(f.log, ticket), settle)
  }

  ghost predicate Apart(starts: seq<Start>) {
    forall i, j :: 0 <= i < j < |starts| ==>
      starts[i].ticket != starts[j].ticket && (starts[i].job.Some? ==> starts[i].job != starts[j].job)
  }

  /** Parked starts stand at their marks, and all others are over or never began. */
  ghost predicate FloorOk(f: Floor, settle: nat) {
    && Apart(f.starts)
    && (forall k :: 0 <= k < |f.starts| ==>
          StartOk(f.starts[k]) && At(f, f.starts[k].ticket, settle) == Some(MarkOf(f.starts[k], settle)))
    && (forall ticket :: !Parked(f, ticket) ==>
          At(f, ticket, settle) == Some(Nothing) || At(f, ticket, settle) == Some(Over))
  }

  /** `job` is no parked start's. */
  ghost predicate Unused(f: Floor, job: nat) {
    forall k :: 0 <= k < |f.starts| ==> f.starts[k].job != Some(job)
  }

  lemma LogMoves(f: Floor, g: Floor, ticket: nat, entries: seq<Entry>, settle: nat)
    requires g.log == f.log + entries && OnlyOf(entries, ticket) && At(f, ticket, settle).Some?
    ensures At(g, ticket, settle) == Walk(At(f, ticket, settle).value, entries, settle)
    ensures forall x :: x != ticket ==> At(g, x, settle) == At(f, x, settle)
  {
    forall x
      ensures StoryOf(g.log, x) == StoryOf(f.log, x) + if x == ticket then entries else []
    {
      StoryGrows(f.log, entries, ticket, x);
    }
    assert forall x :: StoryOf(f.log, x) + [] == StoryOf(f.log, x);
    TrailWalks(StoryOf(f.log, ticket), entries, settle);
  }

  lemma PutOk(f: Floor, i: nat, s: Start, entries: seq<Entry>, settle: nat)
    requires FloorOk(f, settle) && i < |f.starts| && StartOk(s) && s.ticket == f.starts[i].ticket
    requires OnlyOf(entries, s.ticket)
    requires Walk(MarkOf(f.starts[i], settle), entries, settle) == Some(MarkOf(s, settle))
    requires s.job.None? || s.job == f.starts[i].job || Unused(f, s.job.value)
    ensures FloorOk(Put(f, i, s, entries), settle)
  {
    var g := Put(f, i, s, entries);
    LogMoves(f, g, s.ticket, entries, settle);
    PutParked(f, i, s, entries);
  }

  lemma PutParked(f: Floor, i: nat, s: Start, entries: seq<Entry>)
    requires i < |f.starts| && s.ticket == f.starts[i].ticket
    ensures forall x :: Parked(Put(f, i, s, entries), x) <==> Parked(f, x)
  {
    var g := Put(f, i, s, entries);
    assert forall k :: 0 <= k < |f.starts| ==> g.starts[k].ticket == f.starts[k].ticket;
    forall x | Parked(f, x)
      ensures Parked(g, x)
    {
      var k :| 0 <= k < |f.starts| && f.starts[k].ticket == x;
      assert g.starts[k].ticket == x;
    }
  }

  lemma CloseOk(f: Floor, i: nat, entries: seq<Entry>, settle: nat)
    requires FloorOk(f, settle) && i < |f.starts| && OnlyOf(entries, f.starts[i].ticket)
    requires Walk(MarkOf(f.starts[i], settle), entries, settle).Some?
    requires Walk(MarkOf(f.starts[i], settle), entries, settle) !in {Some(Nothing), Some(Over)}
    ensures FloorOk(Close(f, i, entries), settle)
  {
    CloseMarks(f, i, entries, settle);
    ClosedStarts(f, i, entries);
    OthersStand(f, Close(f, i, entries), i, settle);
  }

  /** The closed start is over, and the log of no other has moved. */
  lemma CloseMarks(f: Floor, i: nat, entries: seq<Entry>, settle: nat)
    requires i < |f.starts| && OnlyOf(entries, f.starts[i].ticket)
    requires At(f, f.starts[i].ticket, settle) == Some(MarkOf(f.starts[i], settle))
    requires Walk(MarkOf(f.starts[i], settle), entries, settle).Some?
    requires Walk(MarkOf(f.starts[i], settle), entries, settle) !in {Some(Nothing), Some(Over)}
    ensures At(Close(f, i, entries), f.starts[i].ticket, settle) == Some(Over)
    ensures forall x :: x != f.starts[i].ticket ==> At(Close(f, i, entries), x, settle) == At(f, x, settle)
  {
    var g := Close(f, i, entries);
    var all := entries + [Answered(f.starts[i].ticket)];
    assert g.log == f.log + all;
    assert all[..|entries|] == entries;
    LogMoves(f, g, f.starts[i].ticket, all, settle);
  }

  lemma OthersStand(f: Floor, g: Floor, i: nat, settle: nat)
    requires FloorOk(f, settle) && i < |f.starts| && g.starts == f.starts[..i] + f.starts[i + 1..]
    requires forall x :: x != f.starts[i].ticket ==> At(g, x, settle) == At(f, x, settle)
    ensures forall k :: 0 <= k < |g.starts| ==>
              StartOk(g.starts[k]) && At(g, g.starts[k].ticket, settle) == Some(MarkOf(g.starts[k], settle))
  {
    forall k | 0 <= k < |g.starts|
      ensures StartOk(g.starts[k]) && At(g, g.starts[k].ticket, settle) == Some(MarkOf(g.starts[k], settle))
    {
      assert g.starts[k] == f.starts[if k < i then k else k + 1];
    }
  }

  lemma ClosedStarts(f: Floor, i: nat, entries: seq<Entry>)
    requires i < |f.starts| && Apart(f.starts)
    ensures var g := Close(f, i, entries);
            Apart(g.starts) && forall ticket :: Parked(g, ticket) <==> Parked(f, ticket) && ticket != f.starts[i].ticket
  {
    var g := Close(f, i, entries);
    assert forall k :: 0 <= k < |g.starts| ==> g.starts[k] == f.starts[if k < i then k else k + 1];
    forall ticket | Parked(f, ticket) && ticket != f.starts[i].ticket
      ensures Parked(g, ticket)
    {
      var k :| 0 <= k < |f.starts| && f.starts[k].ticket == ticket;
      assert g.starts[if k < i then k else k - 1].ticket == ticket;
    }
  }

  lemma FailOk(f: Floor, i: nat, settle: nat)
    requires FloorOk(f, settle) && i < |f.starts|
    ensures FloorOk(FailAt(f, i).floor, settle)
  {
    assert f.log + [] == f.log;
    CloseOk(f, i, [], settle);
  }

  lemma WalkTwo(mark: Mark, a: Entry, b: Entry, settle: nat)
    requires Follow(mark, a, settle).Some?
    ensures Walk(mark, [a, b], settle) == Follow(Follow(mark, a, settle).value, b, settle)
  {
    assert [a, b][..1] == [a] && [a][..0] == [];
    assert Walk(mark, [a], settle) == Follow(mark, a, settle);
  }

  lemma WalkOne(mark: Mark, a: Entry, settle: nat)
    ensures Walk(mark, [a], settle) == Follow(mark, a, settle)
  {
    assert [a][..0] == [];
  }

  // ---- Handlers ----

  /** The lease the start waits on has not opened yet. */
  predicate Unopened(s: Start) {
    s.phase.Opening? || (s.phase.Initial? && !s.committed)
  }

  /** The start waits on a lease of its pane. */
  predicate OnLease(s: Start) {
    s.phase.Opening? || s.phase.Sending? || s.phase.Initial?
  }

  /** The scheduler's promise: a lease opens once or fails to, and answers only after a send; and any
      other job first hears that it is done. */
  predicate Timely(s: Start, event: Event) {
    && (!OnLease(s) ==> event.Done?)
    && (Unopened(s) ==> event.Opened? || event.Failed?)
    && (event.Opened? ==> Unopened(s))
    && (event.Done? && s.phase.Initial? ==> s.committed)
  }

  lemma SnapshotOk(f: Floor, i: nat, job: nat, reply: Reply, w: Facts, next: nat)
    requires FloorOk(f, w.settle) && i < |f.starts| && f.starts[i].phase.Snapshot? && f.starts[i].job == Some(job)
    requires Unused(f, next)
    ensures FloorOk(OnSnapshot(f, i, job, reply, w, next).floor, w.settle)
  {
    if reply.Refused? || !w.shaped || !w.ok {
      FailOk(f, i, w.settle);
    } else if f.starts[i].declared {
      CheckedOk(f, i, job, reply, w, next);
    } else {
      DeclaredOk(f, i, job, reply, w, next);
    }
  }

  lemma CheckedOk(f: Floor, i: nat, job: nat, reply: Reply, w: Facts, next: nat)
    requires FloorOk(f, w.settle) && i < |f.starts| && f.starts[i].phase.Snapshot? && f.starts[i].job == Some(job)
    requires Unused(f, next) && reply.Accepted? && w.shaped && w.ok && f.starts[i].declared
    ensures FloorOk(OnSnapshot(f, i, job, reply, w, next).floor, w.settle)
  {
    var s := f.starts[i];
    var entry, asked := Checked(s.ticket, job), LeaseAsked(s.ticket, s.attempt + 1, next);
    WalkTwo(MarkOf(s, w.settle), entry, asked, w.settle);
    PutOk(f, i, s.(phase := Opening(s.attempt + 1), job := Some(next)), [entry, asked], w.settle);
  }

  lemma DeclaredOk(f: Floor, i: nat, job: nat, reply: Reply, w: Facts, next: nat)
    requires FloorOk(f, w.settle) && i < |f.starts| && f.starts[i].phase.Snapshot? && f.starts[i].job == Some(job)
    requires Unused(f, next) && reply.Accepted? && w.shaped && w.ok && !f.starts[i].declared
    ensures FloorOk(OnSnapshot(f, i, job, reply, w, next).floor, w.settle)
  {
    var s := f.starts[i];
    var entry, asked := Declared(s.ticket, job), LeaseAsked(s.ticket, 1, next);
    var t := s.(declared := true, budget := w.budget, attempt := 1, phase := Opening(1), job := Some(next));
    WalkTwo(MarkOf(s, w.settle), entry, asked, w.settle);
    PutOk(f, i, t, [entry, asked], w.settle);
  }

  lemma OpenedOk(f: Floor, i: nat, w: Facts)
    requires FloorOk(f, w.settle) && i < |f.starts| && f.starts[i].phase.Opening?
    ensures FloorOk(OnOpened(f, i, w).floor, w.settle)
  {
    var s := f.starts[i];
    if !w.ok {
      FailOk(f, i, w.settle);
    } else {
      var n := s.phase.attempt;
      var entries := [StartIntent(s.ticket, n), StartSent(s.ticket, n)];
      WalkTwo(MarkOf(s, w.settle), entries[0], entries[1], w.settle);
      if w.leaseOpen {
        PutOk(f, i, s.(committed := true, lease := true, phase := Sending(n)), entries, w.settle);
      } else {
        CloseOk(f, i, entries, w.settle);
      }
    }
  }

  lemma InitialOpenedOk(f: Floor, i: nat, w: Facts)
    requires FloorOk(f, w.settle) && i < |f.starts| && f.starts[i].phase.Initial? && !f.starts[i].committed
    ensures FloorOk(OnInitialOpened(f, i, w).floor, w.settle)
  {
    var s := f.starts[i];
    if !w.ok {
      FailOk(f, i, w.settle);
    } else {
      var entries := [MessageIntent(s.ticket), MessageSent(s.ticket)];
      WalkTwo(MarkOf(s, w.settle), entries[0], entries[1], w.settle);
      if w.leaseOpen {
        PutOk(f, i, s.(committed := true, lease := true), entries, w.settle);
      } else {
        CloseOk(f, i, entries, w.settle);
      }
    }
  }

  lemma SendOk(f: Floor, i: nat, reply: Reply, w: Facts)
    requires FloorOk(f, w.settle) && i < |f.starts| && f.starts[i].phase.Sending?
    ensures FloorOk(OnSend(f, i, reply, w).floor, w.settle)
  {
    var s := f.starts[i];
    var t := s.(lease := false, job := None);
    if w.busy.Went? && reply.Accepted? && w.shaped {
      WalkOne(MarkOf(s, w.settle), Entry.Submitted(s.ticket), w.settle);
      PutOk(f, i, t.(phase := Ready), [Entry.Submitted(s.ticket)], w.settle);
    } else if w.busy.Retry? && reply.Refused? {
      WalkOne(MarkOf(s, w.settle), BusyAnswer(s.ticket), w.settle);
      PutOk(f, i, t.(attempt := s.phase.attempt, phase := Busy(w.busy.notBefore, s.budget)),
            [BusyAnswer(s.ticket)], w.settle);
    } else {
      FailOk(f, i, w.settle);
    }
  }

  /** The parked starts once the initial message is recorded: its lease asked for at once, or
      after the settle time. */
  function Begun(f: Floor, i: nat, now: int, settle: nat, next: nat): Floor
    requires i < |f.starts|
  {
    var s := f.starts[i];
    if settle == 0 then
      Put(f, i, s.(job := Some(next), committed := false, phase := Initial),
          [ReadyAt(s.ticket, now)] + [MessageAsked(s.ticket, now, next)])
    else
      Put(f, i, s.(job := None, committed := false, phase := Settling(now + settle)), [ReadyAt(s.ticket, now)])
  }

  lemma ReadyGetIs(f: Floor, i: nat, reply: Reply, w: Facts, next: nat)
    requires i < |f.starts| && f.starts[i].declared && w.ok && w.ready && w.begun
    ensures OnReadyGet(f, i, reply, w, next).floor == Begun(f, i, w.now, w.settle, next)
  {
  }

  lemma ReadyGetOk(f: Floor, i: nat, reply: Reply, w: Facts, next: nat)
    requires FloorOk(f, w.settle) && i < |f.starts| && f.starts[i].phase.Ready? && Unused(f, next)
    ensures FloorOk(OnReadyGet(f, i, reply, w, next).floor, w.settle)
  {
    if w.ok && w.ready && w.begun {
      ReadyGetBegins(f, i, reply, w, next);
    } else {
      ReadyGetWaits(f, i, reply, w, next);
    }
  }

  lemma ReadyGetWaits(f: Floor, i: nat, reply: Reply, w: Facts, next: nat)
    requires FloorOk(f, w.settle) && i < |f.starts| && f.starts[i].phase.Ready? && !(w.ok && w.ready && w.begun)
    ensures FloorOk(OnReadyGet(f, i, reply, w, next).floor, w.settle)
  {
    assert StartOk(f.starts[i]);
    if w.ok && !w.ready { PutOk(f, i, f.starts[i].(job := None), [], w.settle); } else { FailOk(f, i, w.settle); }
  }

  lemma ReadyGetBegins(f: Floor, i: nat, reply: Reply, w: Facts, next: nat)
    requires FloorOk(f, w.settle) && i < |f.starts| && f.starts[i].phase.Ready? && Unused(f, next)
    requires w.ok && w.ready && w.begun
    ensures FloorOk(OnReadyGet(f, i, reply, w, next).floor, w.settle)
  {
    ReadyIsDeclared(f, i, w.settle);
    ReadyGetIs(f, i, reply, w, next);
    ReadyBegun(f, i, w.now, w.settle, next);
  }

  lemma ReadyIsDeclared(f: Floor, i: nat, settle: nat)
    requires FloorOk(f, settle) && i < |f.starts| && f.starts[i].phase.Ready?
    ensures f.starts[i].declared
  {
    assert StartOk(f.starts[i]);
  }

  lemma ReadyBegun(f: Floor, i: nat, now: int, settle: nat, next: nat)
    requires FloorOk(f, settle) && i < |f.starts| && f.starts[i].phase.Ready? && Unused(f, next)
    ensures FloorOk(Begun(f, i, now, settle, next), settle)
  {
    if settle == 0 { ReadyToMessage(f, i, now, next); } else { ReadyToSettle(f, i, now, settle); }
  }

  lemma ReadyToMessage(f: Floor, i: nat, now: int, next: nat)
    requires FloorOk(f, 0) && i < |f.starts| && f.starts[i].phase.Ready? && Unused(f, next)
    ensures var s := f.starts[i];
            FloorOk(Put(f, i, s.(job := Some(next), committed := false, phase := Initial),
                        [ReadyAt(s.ticket, now)] + [MessageAsked(s.ticket, now, next)]), 0)
  {
    var s := f.starts[i];
    WalkTwo(MarkOf(s, 0), ReadyAt(s.ticket, now), MessageAsked(s.ticket, now, next), 0);
    assert [ReadyAt(s.ticket, now)] + [MessageAsked(s.ticket, now, next)]
        == [ReadyAt(s.ticket, now), MessageAsked(s.ticket, now, next)];
    PutOk(f, i, s.(job := Some(next), committed := false, phase := Initial),
          [ReadyAt(s.ticket, now)] + [MessageAsked(s.ticket, now, next)], 0);
  }

  lemma ReadyToSettle(f: Floor, i: nat, now: int, settle: nat)
    requires FloorOk(f, settle) && i < |f.starts| && f.starts[i].phase.Ready?
    ensures var s := f.starts[i];
            FloorOk(Put(f, i, s.(job := None, committed := false, phase := Settling(now + settle)),
                        [ReadyAt(s.ticket, now)]), settle)
  {
    var s := f.starts[i];
    WalkOne(MarkOf(s, settle), ReadyAt(s.ticket, now), settle);
    PutOk(f, i, s.(job := None, committed := false, phase := Settling(now + settle)), [ReadyAt(s.ticket, now)], settle);
  }

  lemma InitialDoneOk(f: Floor, i: nat, settle: nat)
    requires FloorOk(f, settle) && i < |f.starts| && f.starts[i].phase.Initial? && f.starts[i].committed
    ensures FloorOk(OnInitialDone(f, i).floor, settle)
  {
    var s := f.starts[i];
    WalkOne(MarkOf(s, settle), MessageDone(s.ticket), settle);
    CloseOk(f, i, [MessageDone(s.ticket)], settle);
  }

  lemma DoneOk(f: Floor, i: nat, job: nat, reply: Reply, w: Facts, next: nat)
    requires FloorOk(f, w.settle) && i < |f.starts| && f.starts[i].job == Some(job) && Unused(f, next)
    requires f.starts[i].phase.Initial? ==> f.starts[i].committed
    ensures FloorOk(OnDone(f, i, job, reply, w, next).floor, w.settle)
  {
    match f.starts[i].phase
    case Snapshot => SnapshotOk(f, i, job, reply, w, next);
    case Sending(_) => SendOk(f, i, reply, w);
    case Ready => ReadyGetOk(f, i, reply, w, next);
    case Initial => InitialDoneOk(f, i, w.settle);
    case _ =>
  }

  lemma FailedOk(f: Floor, i: nat, job: nat, error: int, refused: bool, w: Facts, next: nat)
    requires FloorOk(f, w.settle) && i < |f.starts| && f.starts[i].job == Some(job) && Unused(f, next)
    ensures FloorOk(OnFailed(f, i, job, error, refused, w, next).floor, w.settle)
  {
    var s := f.starts[i];
    if refused && s.phase.Sending? {
      DoneOk(f, i, job, Refused(error), w, next);
    } else if s.phase.Initial? && s.committed {
      InitialDoneOk(f, i, w.settle);
    } else {
      FailOk(f, i, w.settle);
    }
  }

  lemma HandleOk(f: Floor, event: Event, refused: bool, w: Facts, next: nat)
    requires FloorOk(f, w.settle) && Unused(f, next)
    requires forall i :: 0 <= i < |f.starts| && f.starts[i].job == Some(event.id) ==> Timely(f.starts[i], event)
    ensures FloorOk(Handle(f, event, refused, w, next).floor, w.settle)
  {
    var index := IndexOf(f.starts, event.id);
    if index.Some? {
      match event
      case Opened(_) =>
        if f.starts[index.value].phase.Initial? {
          InitialOpenedOk(f, index.value, w);
        } else {
          OpenedOk(f, index.value, w);
        }
      case Done(job, reply) => DoneOk(f, index.value, job, reply, w, next);
      case Failed(job, _, error) => FailedOk(f, index.value, job, error, refused, w, next);
      case _ =>
    }
  }

  lemma BusyOk(f: Floor, i: nat, now: int, next: nat, settle: nat)
    requires FloorOk(f, settle) && i < |f.starts| && Unused(f, next) && f.starts[i].phase.Busy? && f.starts[i].job.None?
    ensures FloorOk(AdvanceOne(f, i, now, next).floor, settle)
  {
    var s := f.starts[i];
    if now >= s.phase.notBefore {
      if now >= s.phase.budget {
        FailOk(f, i, settle);
      } else {
        WalkOne(MarkOf(s, settle), Asked(s.ticket, next), settle);
        PutOk(f, i, s.(job := Some(next), phase := Phase.Snapshot), [Asked(s.ticket, next)], settle);
      }
    }
  }

  lemma SettledIs(f: Floor, i: nat, now: int, next: nat)
    requires i < |f.starts| && f.starts[i].phase.Settling? && f.starts[i].job.None?
    ensures var s := f.starts[i];
            AdvanceOne(f, i, now, next).floor
              == if now < s.phase.until then f
                 else Put(f, i, s.(job := Some(next), phase := Initial), [MessageAsked(s.ticket, now, next)])
  {
    var s := f.starts[i];
    assert [] + [MessageAsked(s.ticket, now, next)] == [MessageAsked(s.ticket, now, next)];
  }

  lemma SettledOk(f: Floor, i: nat, now: int, next: nat, settle: nat)
    requires FloorOk(f, settle) && i < |f.starts| && Unused(f, next) && f.starts[i].phase.Settling?
    requires f.starts[i].job.None?
    ensures FloorOk(AdvanceOne(f, i, now, next).floor, settle)
  {
    var s := f.starts[i];
    SettledIs(f, i, now, next);
    if now >= s.phase.until {
      MessageWalks(s, next, now, settle);
      MessageOk(f, i, s, next, now, settle);
    }
  }

  lemma MessageWalks(s: Start, next: nat, now: int, settle: nat)
    requires StartOk(s) && s.phase.Settling? && s.job.None? && now >= s.phase.until
    ensures Walk(MarkOf(s, settle), [MessageAsked(s.ticket, now, next)], settle)
         == Some(MarkOf(s.(job := Some(next), phase := Initial), settle))
  {
    WalkOne(MarkOf(s, settle), MessageAsked(s.ticket, now, next), settle);
  }

  lemma MessageOk(f: Floor, i: nat, s: Start, next: nat, now: int, settle: nat)
    requires FloorOk(f, settle) && i < |f.starts| && Unused(f, next) && s == f.starts[i] && s.phase.Settling?
    requires Walk(MarkOf(s, settle), [MessageAsked(s.ticket, now, next)], settle)
          == Some(MarkOf(s.(job := Some(next), phase := Initial), settle))
    ensures FloorOk(Put(f, i, s.(job := Some(next), phase := Initial), [MessageAsked(s.ticket, now, next)]), settle)
  {
    PutOk(f, i, s.(job := Some(next), phase := Initial), [MessageAsked(s.ticket, now, next)], settle);
  }

  lemma AdvanceOk(f: Floor, i: nat, now: int, next: nat, settle: nat)
    requires FloorOk(f, settle) && i < |f.starts| && Unused(f, next)
    ensures FloorOk(AdvanceOne(f, i, now, next).floor, settle)
  {
    var s := f.starts[i];
    if s.job.None? {
      if s.phase.Busy? {
        BusyOk(f, i, now, next, settle);
      } else if s.phase.Settling? {
        SettledOk(f, i, now, next, settle);
      } else if s.phase.Ready? {
        PutOk(f, i, s.(job := Some(next)), [], settle);
      }
    }
  }

  /** Giving up a busy start at its budget's end drops no lease: it holds none. */
  lemma TurnDropsNothing(f: Floor, i: nat, now: int, next: nat)
    requires i < |f.starts| && StartOk(f.starts[i])
    ensures AdvanceOne(f, i, now, next).cmds == []
  {
  }

  lemma ParkParked(f: Floor, s: Start, log: seq<Entry>)
    ensures forall x :: Parked(Floor(f.starts + [s], log), x) <==> Parked(f, x) || x == s.ticket
  {
    var g := Floor(f.starts + [s], log);
    assert g.starts[|f.starts|] == s && forall k :: 0 <= k < |f.starts| ==> g.starts[k] == f.starts[k];
    forall x | Parked(f, x)
      ensures Parked(g, x)
    {
      var k :| 0 <= k < |f.starts| && f.starts[k].ticket == x;
      assert g.starts[k].ticket == x;
    }
  }

  lemma ParkApart(f: Floor, s: Start)
    requires Apart(f.starts) && !Parked(f, s.ticket) && s.job.Some? && Unused(f, s.job.value)
    ensures Apart(f.starts + [s])
  {
    forall k | 0 <= k < |f.starts|
      ensures f.starts[k].ticket != s.ticket
    {
      if f.starts[k].ticket == s.ticket { assert Parked(f, s.ticket); }
    }
  }

  lemma ParkOk(f: Floor, ticket: nat, pane: string, next: nat, deadline: int, settle: nat)
    requires FloorOk(f, settle) && Unused(f, next) && !Parked(f, ticket) && At(f, ticket, settle) == Some(Nothing)
    ensures FloorOk(ParkStart(f, ticket, pane, next, deadline).floor, settle)
  {
    var g := ParkStart(f, ticket, pane, next, deadline).floor;
    ParkMarks(f, g, g.starts[|f.starts|], next, settle);
    ParkedOk(f, g, g.starts[|f.starts|], settle);
  }

  lemma ParkMarks(f: Floor, g: Floor, s: Start, next: nat, settle: nat)
    requires At(f, s.ticket, settle) == Some(Nothing) && g.log == f.log + [Asked(s.ticket, next)]
    requires Walk(Nothing, [Asked(s.ticket, next)], settle) == Some(MarkOf(s, settle))
    ensures At(g, s.ticket, settle) == Some(MarkOf(s, settle))
    ensures forall x :: x != s.ticket ==> At(g, x, settle) == At(f, x, settle)
  {
    LogMoves(f, g, s.ticket, [Asked(s.ticket, next)], settle);
  }

  /** A new start joins the end of the list, at its mark. */
  lemma ParkedOk(f: Floor, g: Floor, s: Start, settle: nat)
    requires FloorOk(f, settle) && !Parked(f, s.ticket) && s.job.Some? && Unused(f, s.job.value) && StartOk(s)
    requires g.starts == f.starts + [s] && At(g, s.ticket, settle) == Some(MarkOf(s, settle))
    requires forall x :: x != s.ticket ==> At(g, x, settle) == At(f, x, settle)
    ensures FloorOk(g, settle)
  {
    var ticket := s.ticket;
    ParkParked(f, s, g.log);
    ParkApart(f, s);
    forall k | 0 <= k < |f.starts|
      ensures g.starts[k] == f.starts[k] && f.starts[k].ticket != ticket
    {
      assert f.starts[k].ticket == ticket ==> Parked(f, ticket);
    }
  }
}
