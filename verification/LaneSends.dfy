/** Lease commands and request writes: what holds of a lease that is sent at most one request. */
module LaneSends {
  import opened Lanes
  import opened LaneRuns
  import opened LaneInvariant
  import LaneLabour
  import opened LaneSteps

  predicate HasSend(inbox: seq<LeaseCmd>) {
    Send in inbox
  }

  /** An answer, or the note that a request was written. */
  predicate Answering(event: Event) {
    event.Done? || event.Written?
  }

  ghost predicate Answered(word: seq<Event>) {
    exists k :: 0 <= k < |word| && Answering(word[k])
  }

  /** An open job answers only if it was sent something. */
  ghost predicate Permitted(w: Work, sent: bool, word: seq<Event>) {
    (w.Reading? || (w.Leased? && HasSend(w.inbox)) || Answered(word)) ==> sent
  }

  ghost predicate AllPermitted(s: Sys) {
    forall id :: id in s.work && id in s.job && s.job[id].Open? ==> Permitted(s.work[id], id in s.sent, Word(s, id))
  }

  predicate OneSend(inbox: seq<LeaseCmd>) {
    forall i, j :: 0 <= i < j < |inbox| ==> !(inbox[i].Send? && inbox[j].Send?)
  }

  /** Where a job stands that was sent at most one request: it writes at most once, and not
      after it is over. */
  predicate SingleUse(w: Work, open: bool, sent: bool, asked: bool, over: bool) {
    match w
    case Waiting => !sent && !asked && !over
    case Asked => !open && asked
    case Replied => !open
    case Leased(inbox) =>
      open && if HasSend(inbox) then sent && !asked && !over && OneSend(inbox)
              else sent == asked && (over ==> sent)
    case Reading(inbox) => open && sent && asked && !over && !HasSend(inbox)
    case Ended => true
  }

  ghost predicate AllSingle(s: Sys) {
    forall id :: id in s.work && id in s.job && id !in s.resent ==>
      SingleUse(s.work[id], s.job[id].Open?, id in s.sent, id in s.reqAt, Over(Word(s, id)))
  }

  ghost predicate Sends(s: Sys) {
    AllPermitted(s) && AllSingle(s) && s.sent <= s.work.Keys && s.resent <= s.sent
    && s.reqAt.Keys <= s.work.Keys && s.work.Keys <= s.job.Keys
  }

  /** Every request written is a submitted job's, and a lease writes only what it was sent. */
  ghost predicate SentFirst(s: Sys) {
    forall i, a :: 0 <= i < |s.trace| && s.trace[i] == Requested(a) ==>
      a in s.reqAt && a in s.job && (s.job[a].Open? ==> a in s.sent)
  }

  /** No lease of the lane was given a second Send. */
  ghost predicate Steady(s: Sys, lane: Lane) {
    forall id :: id in s.resent && id in s.job ==> LaneFor(s.job[id]) != lane
  }

  /** The entry is a request on the lane. */
  predicate WriteOn(e: Entry, job: map<nat, Job>, lane: Lane) {
    e.Requested? && e.id in job && LaneFor(job[e.id]) == lane
  }

  predicate PairOrdered(trace: seq<Entry>, job: map<nat, Job>, lane: Lane, i: int, j: int)
    requires 0 <= i < j < |trace|
  {
    WriteOn(trace[i], job, lane) && WriteOn(trace[j], job, lane) ==> trace[i].id < trace[j].id
  }

  /** On the lane, requests are written once each and in submission order. */
  ghost predicate Ordered(s: Sys, lane: Lane) {
    forall i, j :: 0 <= i < j < |s.trace| ==> PairOrdered(s.trace, s.job, lane, i, j)
  }

  /** A job writes a second request only after a second Send. */
  ghost predicate Once(s: Sys) {
    forall i, j :: 0 <= i < j < |s.trace| ==> PairOnce(s.trace, s.resent, i, j)
  }

  predicate PairOnce(trace: seq<Entry>, resent: set<nat>, i: int, j: int)
    requires 0 <= i < j < |trace|
  {
    trace[i].Requested? && trace[i] == trace[j] ==> trace[i].id in resent
  }

  // ---- Submissions and deliveries ----

  lemma QuietSends(s: Sys, t: Sys)
    requires Quiet(s, t) && Sends(s) && t.work.Keys <= t.job.Keys
    ensures Sends(t)
  {
    forall id | id in t.work && id in t.job && t.job[id].Open?
      ensures Permitted(t.work[id], id in t.sent, Word(t, id))
    {
      if id in s.work {
        assert Permitted(s.work[id], id in s.sent, Word(s, id));
      }
    }
    forall id | id in t.work && id in t.job && id !in t.resent
      ensures SingleUse(t.work[id], t.job[id].Open?, id in t.sent, id in t.reqAt, Over(Word(t, id)))
    {
      if id in s.work {
        assert t.work[id] == s.work[id] && t.job[id] == s.job[id] && Word(t, id) == Word(s, id);
      } else {
        assert Word(t, id) == [];
      }
    }
  }

  lemma QuietWritten(s: Sys, t: Sys)
    requires Quiet(s, t) && SentFirst(s)
    ensures SentFirst(t)
  {
  }

  lemma QuietOrdered(s: Sys, t: Sys, lane: Lane)
    requires Quiet(s, t) && SentFirst(s) && Ordered(s, lane)
    ensures Ordered(t, lane)
  {
    forall i, j | 0 <= i < j < |t.trace|
      ensures PairOrdered(t.trace, t.job, lane, i, j)
    {
      if j < |s.trace| {
        assert PairOrdered(s.trace, s.job, lane, i, j);
        QuietWrite(s, t, lane, i);
        QuietWrite(s, t, lane, j);
      }
    }
  }

  lemma QuietOnce(s: Sys, t: Sys)
    requires Quiet(s, t) && Once(s)
    ensures Once(t)
  {
    forall i, j | 0 <= i < j < |t.trace|
      ensures PairOnce(t.trace, t.resent, i, j)
    {
      if j < |s.trace| { assert PairOnce(s.trace, s.resent, i, j); }
    }
  }

  /** An old entry is a request on the lane if it was one. */
  lemma QuietWrite(s: Sys, t: Sys, lane: Lane, i: nat)
    requires Quiet(s, t) && SentFirst(s) && i < |s.trace|
    ensures i < |t.trace| && t.trace[i] == s.trace[i]
    ensures WriteOn(t.trace[i], t.job, lane) <==> WriteOn(s.trace[i], s.job, lane)
  {
    if s.trace[i].Requested? { assert s.trace[i] == Requested(s.trace[i].id); }
  }

  // ---- Workers ----

  function Sending(w: Work, job: Job, action: Action): bool {
    action == Push(Send) && Act(w, job, action).work != w
  }

  lemma ActPermitted(w: Work, job: Job, action: Action, sent: bool, word: seq<Event>)
    requires job.Open? && Permitted(w, sent, word) && !w.Asked?
    ensures Permitted(Act(w, job, action).work, sent || Sending(w, job, action), word + Act(w, job, action).events)
  {
    var o := Act(w, job, action);
    if Answered(word + o.events) && !Answered(word) {
      var k :| 0 <= k < |word + o.events| && Answering((word + o.events)[k]);
      assert k >= |word|;
    }
    if action.Push? && (w.Leased? || w.Reading?) {
      assert |o.work.inbox| == |w.inbox| + 1;
      assert HasSend(o.work.inbox) ==> HasSend(w.inbox) || action.cmd == Send;
    }
    if w.Leased? && w.inbox != [] {
      assert w.inbox[0] in w.inbox;
    }
  }

  /** A worker acting on a job that is used once: the request it may write is its first, and
      its job is not over. */
  lemma ActSingle(w: Work, job: Job, action: Action, sent: bool, asked: bool, word: seq<Event>)
    requires SingleUse(w, job.Open?, sent, asked, Over(word))
    requires !(sent && Sending(w, job, action))
    requires w.Waiting? ==> word == []
    ensures var o := Act(w, job, action);
            SingleUse(o.work, job.Open?, sent || Sending(w, job, action), asked || o.asks, Over(word + o.events))
    ensures Act(w, job, action).asks ==> !asked && !Over(word)
  {
    var o := Act(w, job, action);
    OverAppend(word, o.events);
    if action.Push? && (w.Leased? || w.Reading?) {
      assert |o.work.inbox| == |w.inbox| + 1;
      assert action.cmd in o.work.inbox by { assert o.work.inbox[|w.inbox|] == action.cmd; }
    }
    if w.Leased? && w.inbox != [] {
      assert w.inbox == [w.inbox[0]] + w.inbox[1..];
      if w.inbox[0].Send? && OneSend(w.inbox) {
        assert forall k :: 0 <= k < |w.inbox[1..]| ==> w.inbox[1..][k] == w.inbox[k + 1];
      }
    }
    if o.events != [] {
      assert Over(o.events) <==> Terminal(o.events[0]);
    }
  }

  lemma LabourPermitted(s: Sys, id: nat, action: Action)
    requires id in s.work && id in s.job && Ids(s.next, s.job, s.work.Keys, s.leaderOf) && AllPermitted(s)
    requires Words(s.work, s.job, s.out, s.events, s.answers)
    ensures AllPermitted(Labour(s, id, action))
  {
    var t := Labour(s, id, action);
    forall x | x in t.work && x in t.job && t.job[x].Open?
      ensures Permitted(t.work[x], x in t.sent, Word(t, x))
    {
      LabourWordIs(s, id, action, x);
      if x == id {
        ActPermitted(s.work[id], s.job[id], action, id in s.sent, Word(s, id));
      }
    }
  }

  lemma LabourWordIs(s: Sys, id: nat, action: Action, x: nat)
    requires id in s.work && id in s.job && s.job[id].id == id
    ensures Word(Labour(s, id, action), x)
         == Word(s, x) + if x == id then Act(s.work[id], s.job[id], action).events else []
  {
    LaneLabour.LabourComing(s, id, action, x);
  }

  lemma LabourSingle(s: Sys, id: nat, action: Action)
    requires id in s.work && id in s.job && Ids(s.next, s.job, s.work.Keys, s.leaderOf) && AllSingle(s)
    requires Words(s.work, s.job, s.out, s.events, s.answers)
    ensures AllSingle(Labour(s, id, action))
  {
    var t := Labour(s, id, action);
    forall x | x in t.work && x in t.job && x !in t.resent
      ensures SingleUse(t.work[x], t.job[x].Open?, x in t.sent, x in t.reqAt, Over(Word(t, x)))
    {
      LabourWordIs(s, id, action, x);
      if x == id {
        ActSingle(s.work[id], s.job[id], action, id in s.sent, id in s.reqAt, Word(s, id));
      } else {
        assert Word(s, x) + [] == Word(s, x);
      }
    }
  }

  lemma LabourSends(s: Sys, id: nat, action: Action)
    requires Inv(s) && Sends(s) && id in s.work && id in s.job
    ensures Sends(Labour(s, id, action))
  {
    LabourPermitted(s, id, action);
    LabourSingle(s, id, action);
    LaneLabour.LabourFrame(s, id, action);
  }

  /** A request is written only for a job that is not over and has not written one. */
  lemma LabourAsks(s: Sys, id: nat, action: Action)
    requires id in s.work && id in s.job && AllSingle(s)
    requires Words(s.work, s.job, s.out, s.events, s.answers)
    requires id !in Labour(s, id, action).resent
    ensures Act(s.work[id], s.job[id], action).asks ==> id !in s.reqAt && !Over(Proj(s.out, id))
  {
    ActSingle(s.work[id], s.job[id], action, id in s.sent, id in s.reqAt, Word(s, id));
    OverAppend(Proj(s.out, id), Proj(s.events, id));
  }

  /** A lease writes only a request it was sent. */
  lemma ActWrites(w: Work, job: Job, action: Action, sent: bool, word: seq<Event>)
    requires job.Open? && Permitted(w, sent, word) && Act(w, job, action).asks
    ensures sent
  {
    assert w.inbox[0] in w.inbox;
  }

  lemma LabourWritten(s: Sys, id: nat, action: Action)
    requires id in s.work && id in s.job && AllPermitted(s) && SentFirst(s)
    ensures SentFirst(Labour(s, id, action))
  {
    var t := Labour(s, id, action);
    if Act(s.work[id], s.job[id], action).asks {
      if s.job[id].Open? { ActWrites(s.work[id], s.job[id], action, id in s.sent, Word(s, id)); }
      assert t.trace == s.trace + [Requested(id)];
    }
  }

  lemma LabourOnce(s: Sys, id: nat, action: Action)
    requires id in s.work && id in s.job && Words(s.work, s.job, s.out, s.events, s.answers)
    requires AllSingle(s) && SentFirst(s) && Once(s)
    ensures Once(Labour(s, id, action))
  {
    var t := Labour(s, id, action);
    var asks := Act(s.work[id], s.job[id], action).asks;
    if asks && id !in t.resent { LabourAsks(s, id, action); }
    forall i, j | 0 <= i < j < |t.trace|
      ensures PairOnce(t.trace, t.resent, i, j)
    {
      if j < |s.trace| {
        assert PairOnce(s.trace, s.resent, i, j);
      } else if s.trace[i].Requested? {
        assert s.trace[i] == Requested(s.trace[i].id);
      }
    }
  }

  lemma LabourOrdered(s: Sys, id: nat, action: Action, lane: Lane)
    requires FlightInv(s) && Words(s.work, s.job, s.out, s.events, s.answers)
    requires AllSingle(s) && s.reqAt.Keys <= s.work.Keys && SentFirst(s) && Ordered(s, lane)
    requires id in s.work && id in s.job && Steady(Labour(s, id, action), lane)
    ensures Ordered(Labour(s, id, action), lane)
  {
    var t := Labour(s, id, action);
    if Act(s.work[id], s.job[id], action).asks {
      if LaneFor(s.job[id]) == lane {
        LabourAsks(s, id, action);
        AppendOrdered(s, t, id);
      } else {
        OtherOrdered(s, t, id, lane);
      }
    } else {
      assert t.trace == s.trace && t.job == s.job;
    }
  }

  lemma AppendOrdered(s: Sys, t: Sys, id: nat)
    requires FlightInv(s) && s.reqAt.Keys <= s.work.Keys && SentFirst(s)
    requires id in s.work && id in s.job && id !in s.reqAt && !Over(Proj(s.out, id))
    requires Ordered(s, LaneFor(s.job[id])) && t.job == s.job && t.trace == s.trace + [Requested(id)]
    ensures Ordered(t, LaneFor(s.job[id]))
  {
    var lane := LaneFor(s.job[id]);
    forall i, j | 0 <= i < j < |t.trace|
      ensures PairOrdered(t.trace, t.job, lane, i, j)
    {
      if j < |s.trace| {
        assert PairOrdered(s.trace, s.job, lane, i, j);
      } else if WriteOn(s.trace[i], s.job, lane) {
        assert s.trace[i] == Requested(s.trace[i].id);
        EarlierWrite(s, id, s.trace[i].id);
      }
    }
  }

  /** Who wrote before on the lane of an unfinished job was dispatched before it. */
  lemma EarlierWrite(s: Sys, id: nat, a: nat)
    requires FlightInv(s) && s.reqAt.Keys <= s.work.Keys && id in s.work && id in s.job
    requires id !in s.reqAt && !Over(Proj(s.out, id))
    requires a in s.reqAt && a in s.job && LaneFor(s.job[a]) == LaneFor(s.job[id])
    ensures a < id
  {
    assert s.exec.inFlight[LaneFor(s.job[id])] == id;
  }

  lemma OtherOrdered(s: Sys, t: Sys, id: nat, lane: Lane)
    requires Ordered(s, lane) && id in s.job && LaneFor(s.job[id]) != lane
    requires t.job == s.job && t.trace == s.trace + [Requested(id)]
    ensures Ordered(t, lane)
  {
    forall i, j | 0 <= i < j < |t.trace|
      ensures PairOrdered(t.trace, t.job, lane, i, j)
    {
      if j < |s.trace| { assert PairOrdered(s.trace, s.job, lane, i, j); }
    }
  }
}
