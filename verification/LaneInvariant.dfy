/** The joint invariant of the scheduler, its workers and the history of a run.

    Each conjunct names only the parts of the state it speaks of, so a step that leaves
    those parts alone keeps it without further proof. */
module LaneInvariant {
  import opened Lanes
  import opened Wrappers
  import opened LaneRuns

  /** Ids are allocated in order; a job is dispatched, or a follower, or neither, never both. */
  ghost predicate Ids(next: nat, job: map<nat, Job>, launched: set<nat>, leaderOf: map<nat, nat>) {
    && (forall id :: id in job ==> id < next && job[id].id == id)
    && launched <= job.Keys
    && leaderOf.Keys <= job.Keys
    && launched !! leaderOf.Keys
  }

  /** `j` was submitted on `lane` and waits there for its own turn. */
  ghost predicate Waits(job: map<nat, Job>, launched: set<nat>, leaderOf: map<nat, nat>, lane: Lane, j: Job) {
    j.id in job && job[j.id] == j && LaneFor(j) == lane && j.id !in launched && j.id !in leaderOf
  }

  ghost predicate Queued(queued: map<Lane, seq<Job>>, j: Job) {
    LaneFor(j) in queued && j in queued[LaneFor(j)]
  }

  /** A lane with a queue has an in-flight job, and its queue is not empty. */
  ghost predicate Backed(queued: map<Lane, seq<Job>>, inFlight: map<Lane, nat>) {
    forall lane :: lane in queued ==> lane in inFlight && queued[lane] != []
  }

  ghost predicate Waiters(queued: map<Lane, seq<Job>>, job: map<nat, Job>, launched: set<nat>, leaderOf: map<nat,
                          nat>) {
    forall lane, k :: lane in queued && 0 <= k < |queued[lane]| ==>
      Waits(job, launched, leaderOf, lane, queued[lane][k])
  }

  /** A job that is neither dispatched nor a follower is queued. */
  ghost predicate Kept(queued: map<Lane, seq<Job>>, job: map<nat, Job>, launched: set<nat>, leaderOf: map<nat, nat>) {
    forall id :: id in job && id !in launched && id !in leaderOf ==> Queued(queued, job[id])
  }

  /** Queues are in submission order, and no queue holds two requests that could be one. */
  ghost predicate Sorted(queue: seq<Job>) {
    forall i, j :: 0 <= i < j < |queue| ==> queue[i].id < queue[j].id && !SameRequest(queue[i], queue[j])
  }

  ghost predicate AllSorted(queued: map<Lane, seq<Job>>) {
    forall lane :: lane in queued ==> Sorted(queued[lane])
  }

  /** A lane's in-flight job is exactly the dispatched job not yet heard to be over. */
  ghost predicate Flying(inFlight: map<Lane, nat>, job: map<nat, Job>, launched: set<nat>, out: seq<Event>) {
    forall lane :: lane in inFlight ==>
      inFlight[lane] in launched && inFlight[lane] in job && LaneFor(job[inFlight[lane]]) == lane
      && !Over(Proj(out, inFlight[lane]))
  }

  ghost predicate Landed(inFlight: map<Lane, nat>, job: map<nat, Job>, launched: set<nat>, out: seq<Event>) {
    forall id :: id in launched && id in job && !Over(Proj(out, id)) ==>
      LaneFor(job[id]) in inFlight && inFlight[LaneFor(job[id])] == id
  }

  /** Dispatch follows submission order on every lane. */
  ghost predicate FlightOrder(inFlight: map<Lane, nat>, job: map<nat, Job>, launched: set<nat>) {
    forall id :: id in launched && id in job && LaneFor(job[id]) in inFlight ==> id <= inFlight[LaneFor(job[id])]
  }

  ghost predicate QueueOrder(queued: map<Lane, seq<Job>>, job: map<nat, Job>, launched: set<nat>) {
    forall id, k ::
      (id in launched && id in job && LaneFor(job[id]) in queued && 0 <= k < |queued[LaneFor(job[id])]|) ==>
        id < queued[LaneFor(job[id])][k].id
  }

  /** `coalesced` lists only followers of leaders that are not over. */
  ghost predicate Leaders(coalesced: map<nat, seq<nat>>, job: map<nat, Job>, leaderOf: map<nat, nat>, out: seq<Event>) {
    forall l :: l in coalesced ==> l in job && !Over(Proj(out, l)) && FollowersAre(coalesced[l], leaderOf, l)
  }

  ghost predicate FollowersAre(fs: seq<nat>, leaderOf: map<nat, nat>, l: nat) {
    Distinct(fs) && l !in leaderOf && forall f :: f in fs ==> f in leaderOf && leaderOf[f] == l
  }

  /** Every follower shares a leader's kind and is listed until its leader is over. */
  ghost predicate Led(coalesced: map<nat, seq<nat>>, job: map<nat, Job>, leaderOf: map<nat, nat>, out: seq<Event>) {
    forall f :: f in leaderOf ==>
      f in job && leaderOf[f] in job && leaderOf[f] !in leaderOf && SameRequest(job[leaderOf[f]], job[f])
      && (Over(Proj(out, leaderOf[f])) || f in FollowersOf(coalesced, leaderOf[f]))
  }

  ghost predicate Handing(pending: seq<Event>, out: seq<Event>, handed: nat) {
    handed <= |out| && pending == out[handed..]
  }

  /** Nothing is invented. */
  ghost predicate Silent(launched: set<nat>, leaderOf: map<nat, nat>, out: seq<Event>, events: seq<Event>) {
    && (forall id :: id !in launched ==> Proj(events, id) == [])
    && (forall id :: id !in launched && id !in leaderOf ==> Proj(out, id) == [])
  }

  /** A follower has heard exactly what its leader has. */
  ghost predicate Mirrored(leaderOf: map<nat, nat>, out: seq<Event>) {
    forall f :: f in leaderOf ==> Proj(out, f) == Renamed(Proj(out, leaderOf[f]), f)
  }

  predicate NoOpened(word: seq<Event>) {
    forall k :: 0 <= k < |word| ==> !word[k].Opened?
  }

  predicate LeaseWord(word: seq<Event>) {
    word != [] && word[0].Opened? && NoOpened(word[1..])
  }

  predicate EndedWord(word: seq<Event>) {
    word != [] && (word[0].Opened? || (|word| == 1 && word[0].Failed?)) && NoOpened(word[1..])
    && Terminal(word[|word| - 1])
  }

  /** What the worker of an open job, now at `w`, has emitted so far. */
  predicate OpenWord(w: Work, word: seq<Event>) {
    match w
    case Waiting => word == []
    case Leased(_) => LeaseWord(word)
    case Reading(_) => LeaseWord(word)
    case Ended => EndedWord(word)
    case _ => false
  }

  /** What the worker of any other job has emitted: its answer and then its release. */
  predicate PlainWord(w: Work, id: nat, word: seq<Event>, answers: map<nat, Reply>) {
    match w
    case Waiting => word == []
    case Asked => word == []
    case Replied => id in answers && word == [Done(id, answers[id])]
    case Ended => id in answers && word == [Done(id, answers[id]), Dropped(id)]
    case _ => false
  }

  predicate WordOk(w: Work, job: Job, word: seq<Event>, answers: map<nat, Reply>) {
    if job.Open? then OpenWord(w, word) else PlainWord(w, job.id, word, answers)
  }

  /** Everything the worker of `id` has emitted so far. */
  function Word(s: Sys, id: nat): seq<Event> {
    Proj(s.out, id) + Proj(s.events, id)
  }

  ghost predicate Words(work: map<nat, Work>, job: map<nat, Job>, out: seq<Event>, events: seq<Event>,
                        answers: map<nat, Reply>) {
    forall id :: id in work && id in job ==> WordOk(work[id], job[id], Proj(out, id) + Proj(events, id), answers)
  }

  /** The history records every submission, at the place `subAt` says. */
  ghost predicate Stamped(job: map<nat, Job>, leaderOf: map<nat, nat>, trace: seq<Entry>, subAt: map<nat, nat>) {
    forall id :: id in job ==>
      id in subAt && subAt[id] < |trace|
      && trace[subAt[id]] == Submitted(job[id], if id in leaderOf then Some(leaderOf[id]) else None)
  }

  ghost predicate ReqStamped(launched: set<nat>, trace: seq<Entry>, reqAt: map<nat, nat>) {
    forall id :: id in reqAt ==> id in launched && reqAt[id] < |trace| && trace[reqAt[id]] == Requested(id)
  }

  /** The history records every dispatch, at the place `disAt` says. */
  ghost predicate DisStamped(job: map<nat, Job>, launched: set<nat>, trace: seq<Entry>, disAt: map<nat, nat>) {
    && disAt.Keys == launched
    && forall id :: id in launched && id in job ==> disAt[id] < |trace| && trace[disAt[id]] == Dispatched(job[id])
  }

  /** A worker that waits for an answer has asked; one that was told anything but a refusal has
      asked too. */
  predicate AskedFirst(w: Work, id: nat, reqAt: map<nat, nat>, answers: map<nat, Reply>) {
    match w
    case Waiting => true
    case Asked => id in reqAt
    case _ => id in answers && (answers[id].Accepted? ==> id in reqAt)
  }

  ghost predicate Asking(work: map<nat, Work>, job: map<nat, Job>, reqAt: map<nat, nat>, answers: map<nat, Reply>) {
    forall id :: id in work && id in job && !job[id].Open? ==> AskedFirst(work[id], id, reqAt, answers)
  }

  /** A job is dispatched after it, and every follower of it, was submitted. */
  ghost predicate Fresh(leaderOf: map<nat, nat>, subAt: map<nat, nat>, disAt: map<nat, nat>) {
    && (forall id :: id in disAt ==> id in subAt && subAt[id] < disAt[id])
    && (forall f :: f in leaderOf && leaderOf[f] in disAt ==> f in subAt && subAt[f] < disAt[leaderOf[f]])
  }

  /** Every request is written after its job was dispatched. */
  ghost predicate Writes(trace: seq<Entry>, disAt: map<nat, nat>) {
    forall w :: 0 <= w < |trace| && trace[w].Requested? ==> trace[w].id in disAt && disAt[trace[w].id] < w
  }

  ghost predicate QueueInv(s: Sys) {
    && Ids(s.next, s.job, s.work.Keys, s.leaderOf)
    && Backed(s.exec.queued, s.exec.inFlight)
    && Waiters(s.exec.queued, s.job, s.work.Keys, s.leaderOf)
    && Kept(s.exec.queued, s.job, s.work.Keys, s.leaderOf)
    && AllSorted(s.exec.queued)
  }

  ghost predicate FlightInv(s: Sys) {
    && Flying(s.exec.inFlight, s.job, s.work.Keys, s.out)
    && Landed(s.exec.inFlight, s.job, s.work.Keys, s.out)
    && FlightOrder(s.exec.inFlight, s.job, s.work.Keys)
    && QueueOrder(s.exec.queued, s.job, s.work.Keys)
  }

  ghost predicate FanInv(s: Sys) {
    && Leaders(s.exec.coalesced, s.job, s.leaderOf, s.out)
    && Led(s.exec.coalesced, s.job, s.leaderOf, s.out)
    && Handing(s.exec.pending, s.out, s.handed)
    && Silent(s.work.Keys, s.leaderOf, s.out, s.events)
    && Mirrored(s.leaderOf, s.out)
    && Words(s.work, s.job, s.out, s.events, s.answers)
  }

  ghost predicate HistoryInv(s: Sys) {
    && Stamped(s.job, s.leaderOf, s.trace, s.subAt)
    && DisStamped(s.job, s.work.Keys, s.trace, s.disAt)
    && ReqStamped(s.work.Keys, s.trace, s.reqAt)
    && Asking(s.work, s.job, s.reqAt, s.answers)
    && Fresh(s.leaderOf, s.subAt, s.disAt)
    && Writes(s.trace, s.disAt)
  }

  ghost predicate Inv(s: Sys) {
    QueueInv(s) && FlightInv(s) && FanInv(s) && HistoryInv(s)
  }
}
