# Kelpie, modelled and proved in Dafny

Kelpie keeps durable conversations between coding agents that live in panes of the Herdr
terminal multiplexer. This project models the parts of it where order, counting and exact text
matter, and proves what they keep over every input and every run.

- **The Herdr lane scheduler** (`Lanes`, `LaneRuns`, `LaneInvariant`, `LaneSubmit`,
  `LaneLabour`, `LaneDeliver`, `LaneSteps`, `LaneSends`, `LaneLists`, `LaneTheorems`,
  `LaneExclusion`, `LaneDrain`). `HerdrExec` puts jobs on lanes, one for snapshots and one for each pane, keeps at
  most one job of a lane in flight, lets a queued snapshot stand for later ones, and copies its
  completion events to the jobs that joined it. The class `Lanes.HerdrExec` is the object; its
  methods are proved equal to functions on a value, and `LaneRuns.Sys` runs that value against
  workers that take any branch of `worker_loop` and `run_lease`, in any interleaving. A step that
  is not enabled changes nothing, so theorems about `Run(steps)` speak of every run.
- **Parked prompts and sessions** (`Delivery`, `DeliveryRuns`, `DeliveryStories`,
  `DeliverySettled`, `DeliverySessions`, `DeliveryReports`, `DeliveryRefusals`, `DeliveryWrites`,
  `DeliveryMarks`, `DeliveryRest`, `DeliveryFacts`, `DeliveryLeases`). Open, commit the intent, send once, settle; the cancel and
  waiter-retire sessions that count their notices down; and the marks that keep a due delivery or
  a reminder from being parked twice. They run on the scheduler itself, next to other users of it,
  so that what a worker puts on the wire can be held against what the daemon has made durable, and
  what the daemon still owes against what the workers have left to do.
- **Parked starts** (`Starts`, `StartStories`, `StartRuns`, `StartDesk`, `StartTheorems`,
  `StartWrites`, `StartChecks`, `StartFacts`, `StartRounds`, `StartLeases`, `StartRest`). The phases of `AwaitingStart`, its busy retries and its initial
  message, again on the scheduler. The order of a start's effects is an automaton
  (`Starts.Follow`) that every handler obeys.
- **Calendar and timestamps** (`Calendar`, `Decimals`, `Search`, `Timestamp`). The closed-form
  date arithmetic against a day-by-day Gregorian count, its inverse, the same computation on 64
  bits, and the text of section 5.6 of RFC 3339 as far as the parser reads it.
- **Bytes and text** (`Framing`, `Inbox`, `InboxFacts`, `WhiteSpace`, `Envelope`, `EnvelopeText`).
  Newline framing of a client's stream, the output side of an inbox session, and the envelopes
  typed into a pane.
- **Smaller algorithms** (`Report`, `ReportOrder`, `Names`, `NameFacts`, `Tokens`, `TokenFacts`): the
  report's forest walk, legal names, and the accounting of command-line tokens. `Wrappers` holds the option and result types.

A call into the store, the multiplexer or the clock is a value the environment chooses, and every
external effect is an entry of a log. A story is the part of a log about one job or one start.
`old(...)` in the classes ties each method to the function that the theorems are about. What such a
function does is in turn said without it: the modules named `...Facts`, and `LaneExclusion`,
`EnvelopeText` and `ReportOrder`, speak of the jobs' own fields, of what the store and Herdr
answered, of the clock, and of the characters of a text.

## Results that differ from what the source says of itself

- A cancel or waiter-retire session one of whose intents the store refuses is never answered:
  the refused prompt leaves without telling its session (`src/daemon.rs:3133-3136`).
  `DeliverySessions.SessionAnswersWhenAllSettle` has the exact condition,
  `DeliveryRefusals.SessionCanBeStranded` a run of three steps that ends there.
- `format_utc_ms` is called the inverse of the `--due-at` parser. It is, down to whole seconds,
  exactly for instants from the start of year 0 on (`Timestamp.RoundTripFromYearZero`).
- The date arithmetic before the parser's checked chain is not itself checked. In a build that
  wraps, a year past about 2.5 * 10^16 can be read as another date without an error
  (`Timestamp.TextTakenForAnother` has a text; the exact condition is in `Timestamp.ParsedInstant`).
- The report's roots are meant to leave no agent out. Agents whose parents form a cycle are left
  out (`Report.CycleIsDropped`); what is drawn is exactly what a root reaches
  (`Report.ReportDraws`).
- The two prompts quoted in the renew prepare envelope can be told from its text exactly when the
  divider between them, as it reads before escaping, occurs once in the two prompts joined by it
  (`Envelope.SeparatedExactly`). `Envelope.PromptsAreNotSeparated` has a pair that cannot.
- Sanitizing a name twice changes it exactly when the text is cut behind a dash or an underscore
  (`Names.SanitizingTwice`), which happens (`Names.SanitizingTwiceChanges`).

## Model

| member | source | states |
|---|---|---|
| Lanes.CoalescingLeader | src/herdr_exec.rs:274-282 | the first queued job of the same kind, if there is one; the negotiate flag plays no part |
| Lanes.HerdrExec.Submit | src/herdr_exec.rs:179-211 | the new state is the one of `Enqueue`: join a queued leader, queue behind the lane, or dispatch; the second coalescing test of the source cannot fire |
| Lanes.HerdrExec.DispatchNow | src/herdr_exec.rs:260-264 | the lane's in-flight job and the job channel change, nothing else |
| Lanes.HerdrExec.TryRecv | src/herdr_exec.rs:214-258 | pending copies first; otherwise the channel's event, its copies for the followers behind it, and on a terminal event the lane freed and its next job started |
| Lanes.HerdrExec.FanOut | src/herdr_exec.rs:220-236 | one copy of the event for each follower, in joining order, behind what was pending |
| LaneRuns.ProjFan | src/herdr_exec.rs:284-303 | of a fanned-out event each follower hears one copy under its own id, and nobody else hears anything |
| LaneTheorems.RunKeeps | src/herdr_exec.rs:179-258 | the joint invariant of queues, in-flight jobs, followers, pending copies and histories holds in every run with unique ids |
| LaneTheorems.HandedAtMostOnce | src/herdr_exec.rs:366-392 | each snapshot, lifecycle or `agent.get` id, leader or follower, is handed at most one Done and after it at most one Dropped, with the answer to its leader's request; an id never submitted is handed nothing |
| LaneDrain.EveryContinuationEnds | src/herdr_exec.rs:214-258 | conservation: after any run, of steps that neither submit nor command a lease at most `Left` change anything, and when none can any more all queues are empty and every such id was handed exactly one Done and then exactly one Dropped |
| LaneDrain.ChangesAreBounded | src/herdr_exec.rs:366-524 | each such step that changes anything lowers a measure of the actions, events and copies left |
| LaneDrain.EveryRunDrains | src/herdr_exec.rs:214-258 | and every run has a continuation that submits nothing and gets there |
| LaneDrain.RestMeansServed | src/herdr_exec.rs:214-258 | and whatever run comes to rest has emptied all maps and served every such id so |
| LaneTheorems.AnswersAreFresh | src/herdr_exec.rs:179-211 | the job whose answer a job receives is of its kind and was dispatched after it was submitted; its request is only written later still; an answer that is no refusal has one, a failure to reach Herdr has none |
| LaneTheorems.DispatchFreezesFollowers | src/herdr_exec.rs:196-206 | once a job is dispatched its set of followers never changes again |
| LaneTheorems.OneJobPerLane | src/herdr_exec.rs:189-210 | two dispatched jobs of one lane are never both unfinished |
| LaneExclusion.RivalsNeverRunTogether | src/herdr_exec.rs:346-353 | two jobs that name one pane, to open it or to get its agent, are never with workers at once and both unfinished, nor are two snapshots of any kind; said of the jobs' own fields |
| LaneExclusion.QueuedOnlyBehindARival | src/herdr_exec.rs:189-210 | a job is queued only while such a rival is running: jobs of different panes never wait for one another |
| LaneExclusion.SnapshotsAreShared | src/herdr_exec.rs:179-206 | a job joins only a job that takes the same kind of snapshot, and no two queued jobs take the same kind |
| LaneExclusion.CopiesFollowSubmission | src/herdr_exec.rs:220-236 | the copies of an event go to the jobs that joined its own, each under its own id, in the order in which they were submitted |
| LaneTheorems.DispatchInSubmissionOrder | src/herdr_exec.rs:207-264 | the ids dispatched on a lane, then those queued there, are the submitted ids in order with exactly the joined followers removed |
| LaneTheorems.WritesInSubmissionOrder | src/herdr_exec.rs:428-524 | on a lane none of whose leases got a second Send, requests are written once per job and in submission order |
| LaneTheorems.WrittenOnce | src/herdr_exec.rs:428-524 | a job given no second Send writes its request at most once |
| LaneTheorems.WritesWereSent | src/herdr_exec.rs:428-470 | every request written is a submitted job's, and a lease writes only what it was sent |
| LaneTheorems.LeaseProtocol | src/herdr_exec.rs:428-524 | a lease job is handed at most one Opened, before anything else, and an answer only after it was sent a request |
| LaneTheorems.HolderIsUnique | src/herdr_exec.rs:238-252 | the lane found for a terminal event is the only one its job could hold |
| LaneDrain.NoStrandedWork | src/herdr_exec.rs:181-210 | in every run a queue is not empty, stands behind an in-flight job, and holds at most one snapshot of each kind |
| LaneDrain.LateTerminalIsHarmless | src/herdr_exec.rs:230-253 | the Dropped after a Failed of the same job changes none of the maps and is copied to nobody |
| LaneDrain.OnlyTerminalsSettle | src/herdr_exec.rs:267-272 | without submissions the set of unsettled jobs changes only by the terminal event of one job, which removes exactly that job |
| LaneDrain.Drains | src/herdr_exec.rs:230-258 | from every reachable state there is a way to rest that submits nothing |
| Delivery.Daemon.ParkPrompt | src/daemon.rs:873-884 | one prompt and one owner under the next job id, and its Open on the scheduler |
| Delivery.Daemon.ParkDue | src/daemon.rs:622-640 | a due delivery is marked and parked, unless one is marked already |
| Delivery.Daemon.ParkReminder | src/daemon.rs:2927-2975 | a reminder is marked and parked |
| Delivery.Daemon.ParkSession | src/daemon.rs:2047-2143 | with nothing to send the answer is written at once, all notices in it; otherwise the session is recorded with all its notices before the first prompt is parked, and those with a prompt are parked under consecutive job ids, with one Open each on the scheduler in that order |
| Delivery.Daemon.NoteNotice | src/daemon.rs:3989-4035 | one notice recorded and counted down; the answer is written and the session removed with the last |
| Delivery.Daemon.OnPromptOpened | src/daemon.rs:3073-3139 | commit, then one Send, then the lease kept; a gone lease completes as failed; a refused commit answers and drops |
| Delivery.Daemon.Release | src/daemon.rs:3615-3619 | a leaving prompt releases the mark of its due delivery or reminder, and nothing else |
| Delivery.Daemon.FinishParkedPrompt | src/daemon.rs:3894-3933 | the outcome recorded, the client or the session told, the mark released, and the lease dropped if one is held |
| Delivery.Daemon.FailParkedPrompt | src/daemon.rs:3935-3987 | a committed prompt is completed, an uncommitted one rejected as unsent, nothing happens for an unknown one; the mark is released and a held lease dropped |
| Delivery.Daemon.AnswerParkedPrompt | src/daemon.rs:4037-4049 | the prompt leaves with an answer to its client, if it has one, its mark released, and no word to its session |
| Delivery.Daemon.OnEvent | src/daemon.rs:2984-3071 | the desk's part of one round of event draining, and the commands on the lease of the event's job, a Drop for a lease nobody owns among them |
| DeliveryStories.RunLinked | src/daemon.rs:3073-3139 | in every run on the scheduler the parked prompts, their logs and the scheduler's leases agree |
| DeliveryStories.EveryPromptHasItsStory | src/daemon.rs:3894-3987 | the log of a settled prompt is intent, one send, one recorded outcome; or a refused intent; or a rejection; or nothing; and a client's one answer comes last; a parked prompt has nothing, or its intent and its one send |
| DeliverySettled.SettledForGood | src/daemon.rs:3894-3945 | once a prompt has settled, no continuation parks it again or adds anything to its story: no second send, record or answer |
| DeliveryMarks.UnderWayIsParked | src/daemon.rs:622-627 | in every run `due_inflight` and `reminder_inflight` hold exactly the due deliveries and reminders that have a prompt parked, and none has two |
| DeliveryRest.RestOwesNothing | src/daemon.rs:2984-3139 | whatever run comes to rest has no prompt parked and nothing marked, has answered every client exactly once, and leaves a session unanswered only if the intent of one of its prompts was refused |
| DeliveryFacts.EachEventTells | src/daemon.rs:3073-3139 | an event of a parked prompt adds to its story exactly what the store's answers and the lease call for: intent and send only if the store accepted the intent, the outcome as the store took it; and to no other story anything |
| DeliveryFacts.NothingElseTells | src/daemon.rs:2984-3071 | nothing else a run does adds to any prompt's story |
| DeliveryFacts.TheLogIsTrue | src/daemon.rs:3894-3933 | every entry a move adds is true of that move: the store accepted each recorded intent, refused each recorded refusal, and took each recorded outcome as it is recorded |
| DeliveryFacts.SentWhenCommitted | src/daemon.rs:3105-3139 | an event leads to a Send on the prompt's lease exactly when the lease has just opened, still listens, and the store accepted the intent |
| DeliveryFacts.AskedIsParked | src/daemon.rs:873-884 | a prompt that is asked for is parked with its own pane and owner and one Open of that pane, unless its delivery or reminder is under way already |
| DeliveryLeases.LeasesAreReleased | src/daemon.rs:3894-4049 | each prompt's job opens a lease on the prompt's own pane, and once the prompt has settled, however it did, the lease has ended or has been told to |
| DeliverySessions.SessionAnswersWhenAllSettle | src/daemon.rs:3989-4035 | at most one answer; it is written exactly when every prompt has settled and none of their intents was refused; until then the countdown is the number still parked or refused |
| DeliveryReports.AnswersReportDeliveries | src/daemon.rs:3910-3925 | the answer lists exactly the notices the session was called with, also those with nothing to send, and says of each whether its delivery was recorded as done |
| DeliveryReports.EveryNoticeIsParked | src/daemon.rs:2060-2142 | a session parks one prompt for each notice with a pane, into that pane, and no other |
| DeliveryWrites.IntentPrecedesWrite | src/daemon.rs:3105-3132 | in every run, a request that a worker has written on a prompt's lease is of a prompt whose intent was committed |
| DeliveryWrites.PromptWrittenOnce | src/daemon.rs:3105-3132 | and it is written at most once |
| DeliveryWrites.RejectedWasNotWritten | src/daemon.rs:3955-3976 | a prompt recorded as unsent, or whose intent was refused, was never written |
| DeliveryRefusals.RefusalStrandsSession | src/daemon.rs:3133-3136 | after a refused intent of one of its prompts a session is never answered, whatever follows |
| DeliveryRefusals.SessionCanBeStranded | src/daemon.rs:3133-3136 | a run that ends so: one notice parked, its lease opened, its commit refused |
| StartDesk.AwaitingStarts.OnStartSnapshot | src/daemon.rs:3244-3310 | the first snapshot declares the operation, a retry's snapshot checks the pane, then a lease is asked for; everything else answers the client |
| StartDesk.AwaitingStarts.OnStartOpened | src/daemon.rs:3141-3207 | the intent of this attempt commits before the one Send, and a gone lease or a refused commit ends the start |
| StartDesk.AwaitingStarts.OnStartSend | src/daemon.rs:3312-3387 | the answer of `agent.start`: submitted, turned away as busy, or over |
| StartDesk.AwaitingStarts.OpenStartLease | src/daemon.rs:3293-3310 | the lease of this attempt under the next job id |
| StartDesk.AwaitingStarts.AdvanceAwaitingStarts | src/daemon.rs:4055-4111 | the index loop over parked starts is the left-to-right fold of one turn each, with removal shifting the rest down, and puts the jobs of those turns on the scheduler in that order |
| StartDesk.AwaitingStarts.AdvanceAt | src/daemon.rs:4062-4143 | one start's turn: a busy retry's snapshot, a readiness check, the message after its settle time, or the budget's end, with the job it submits |
| StartDesk.AwaitingStarts.AnswerAt | src/daemon.rs:3587-3613 | the start leaves the list, its client is answered, and a held lease is dropped |
| StartStories.HandleOk | src/daemon.rs:3141-3613 | every handler of an event keeps every start at a place of the effect protocol |
| StartStories.AdvanceOk | src/daemon.rs:4055-4143 | so does every turn of the advance loop |
| StartStories.ParkOk | src/daemon.rs:853-865 | a new start begins at the protocol's first place, asking for a snapshot |
| StartRuns.RunLinked | src/daemon.rs:853-871 | in every run on the scheduler the parked starts and their jobs agree, and a lease that is waited for was not sent before |
| StartTheorems.StartEffectsAreOrdered | src/daemon.rs:3141-3470 | `agent.start` goes out directly after the commit of its attempt's intent; a retry's pane check uses a snapshot asked for after the busy answer; the message's lease is asked for no sooner than the settle after readiness; at most one answer, last; no attempt is sent twice |
| StartTheorems.PhasesAreDeclared | src/daemon.rs:3389-3421 | past the first snapshot a start is declared, so the branches for a missing declaration are dead; a start that left the desk was answered |
| StartTheorems.AttemptsRise | src/daemon.rs:3345-3375 | the attempts sent in one story rise |
| StartTheorems.TurnsDropNothing | src/daemon.rs:4055-4111 | in every run no turn of the advance loop has a lease to drop |
| StartChecks.RetryChecksAreFresh | src/daemon.rs:4083-4100 | in every run, each pane check a start makes after a busy answer reads a snapshot whose request a worker put on the wire after that answer was dealt with, also when another job asked for it |
| StartWrites.StartIntentPrecedesWrite | src/daemon.rs:3141-3207 | in every run, a lease of a start on which a request was written was asked for by one attempt, or for the initial message, and the intent of exactly that is in the log |
| StartWrites.StartWrittenOnce | src/daemon.rs:3141-3207 | in every run a start's lease, for `agent.start` or the initial message, writes its request at most once |
| StartFacts.EachEventTells | src/daemon.rs:3141-3512 | an event of the job a start waits on writes exactly what the answers of the store and of Herdr and the lease call for, makes of the start what its last effect says, and leaves every other start alone |
| StartFacts.EachTurnTells | src/daemon.rs:4055-4143 | a busy start looks again exactly from its time on and before its budget is over, and is answered from then on; a settled one asks for its message's lease when its settle time is over; a turn leaves alone no start that is due |
| StartFacts.NothingElseTells | src/daemon.rs:853-865 | a new start asks for a snapshot, undeclared and with nothing sent; no other move changes a start or the log |
| StartFacts.TheLogIsTrue | src/daemon.rs:3141-3470 | every entry a move adds is true of that move: what is intended and sent the store accepted, a declaration and a check had an answer of the right shape, a busy or an accepted answer was Herdr's, and readiness was observed at its time |
| StartFacts.SentWhenCommitted | src/daemon.rs:3141-3207 | an event leads to a Send on the start's lease exactly when the lease has just opened, still listens, and the store accepted the intent |
| StartFacts.StartsWaitOnTheirJobs | src/daemon.rs:3293-3300 | the job a start waits on has the kind and the pane that its phase calls for; only the first snapshot negotiates |
| StartRounds.RoundLeavesNoneDue | src/daemon.rs:4055-4111 | a round of turns reaches every start, also behind one it removes: those whose budget is over leave, the others keep their order, and none is due any more |
| StartRounds.RoundIsARun | src/daemon.rs:4055-4111 | the round, with the jobs it submits, is a sequence of turns, so what holds of runs holds of it |
| StartLeases.StartLeasesAreReleased | src/daemon.rs:3141-3613 | in every run a lease of a start is held while the start waits on what it has sent, and once no start waits on it any more it has ended or has been told to |
| StartRest.RestLeavesTurns | src/daemon.rs:2984-3071 | whatever run comes to rest, no start waits on a job: each start begun was answered, or waits only for its time, from which on a turn gives it a job or answers it |
| Calendar.DaysFromCivilCounts | src/cli.rs:1738-1745 | the closed form is the Gregorian day count from 1970-01-01, for every year, month and day number |
| Calendar.DayPastMonthRollsOver | src/cli.rs:1738-1745 | a day past the end of the month is that many days into the next |
| Calendar.CivilRoundTrip | src/cli.rs:1758-1768 | every day number gives a valid date that maps back to it |
| Calendar.DateRoundTrip | src/cli.rs:1738-1768 | every valid date comes back unchanged |
| Calendar.DaysFromCivilIsMonotone | src/cli.rs:1738-1745 | one valid date is before another exactly when its day number is smaller |
| Calendar.WrappedDaysFromCivil | src/cli.rs:1738-1745 | on 64 bits the result is the wrapped day count, and no step overflows exactly when the count is at most the largest `i64` less 719468 |
| Calendar.YearsWithoutOverflow | src/cli.rs:1738-1745 | no intermediate leaves `i64` for parsed years up to 10^16 |
| Decimals.PaddedReads | src/cli.rs:1768 | a zero-padded number is not empty, is all digits and denotes the number |
| Timestamp.NumberAt | src/cli.rs:1726-1732 | succeeds exactly on a present, non-empty, all-digit part whose value fits `i64` |
| Timestamp.ChainIsExact | src/cli.rs:1719-1723 | the checked chain returns the milliseconds exactly when they fit `i64` |
| Timestamp.ParsedInstant | src/cli.rs:1718-1723 | the parser's arithmetic gives the true instant, or the overflow error exactly when it does not fit, if and only if the day count fits `i64` or the wrapped one does not pass the chain |
| Timestamp.YearsThatParse | src/cli.rs:1718-1723 | so for every year up to 10^16 |
| Timestamp.YearTakenForAnother | src/cli.rs:1738-1745 | year 50505469855535132 has the wrapped day number of 2022-11-09 |
| Timestamp.TextTakenForAnother | src/cli.rs:1691-1724 | a well-spelled text of that year, whose instant does not fit, parses to midnight of 2022-11-09 |
| Timestamp.WellSpelledParses | src/cli.rs:1691-1723 | every well-spelled text is read as the instant of its numbers, whatever follows the decimal point |
| Timestamp.ParsedIsWellSpelled | src/cli.rs:1691-1723 | no other text gets past the shape and range tests |
| Timestamp.RoundTripFromYearZero | src/cli.rs:1751-1769 | for every `i64`, parsing the printed text gives the instant rounded down to a second if and only if it is not before year 0 |
| Timestamp.SignedYearIsRefused | src/cli.rs:1751-1769 | a printed negative year is an invalid date to the parser |
| Framing.ReadingClient.Got | src/daemon.rs:764-781 | size first, then the first newline, one carriage return stripped, the rest kept as leftover |
| Framing.RequestIsRead | src/daemon.rs:764-781 | a request that comes whole is what stands before the newline, with or without one carriage return there, and all that is behind the newline is kept |
| Framing.LinesRejoin | src/daemon.rs:5329-5332 | the lines and the rest are the bytes, none lost and none twice |
| Framing.LinesResume | src/daemon.rs:5329-5332 | cutting a prefix first and its rest with what follows later gives the lines of the whole |
| Framing.ConversationReads | src/daemon.rs:747-791 | the dispatched line and the inbox lines behind it are the lines of the whole stream, however it was cut into reads |
| Framing.CuttingDoesNotShow | src/daemon.rs:4638-4658 | two cuttings of one stream, ended or not, tell the same request line and the same lines behind it and leave the same rest, unless one is refused for its length |
| Framing.RefusedExactly | src/daemon.rs:765-769 | a request is refused exactly when some read takes the buffer over 64 KiB before any earlier read brought a newline |
| Framing.ShortRequestIsNeverRefused | src/daemon.rs:4545-4561 | with 4096-byte reads a first newline 4096 bytes under the limit is enough, however the stream is cut |
| Framing.LongRequestIsAlwaysRefused | src/daemon.rs:765-769 | no newline within the limit and more bytes than it is always refused |
| Inbox.InboxSession.FlushWrite | src/daemon.rs:5250-5280 | the write loop is `Flush`: prefixes leave the buffer as the socket takes them, until it blocks, fails or is done |
| Inbox.InboxSession.OfferQueued | src/daemon.rs:5282-5315 | the offer loop is `Offer`: queued deliveries not offered before, in queue order |
| Inbox.InboxSession.ReadInput | src/daemon.rs:5317-5380 | one read, every complete line taken off the buffer in order, each that is not blank answered, also on the read that brings the end |
| Inbox.InboxSession.PumpInbox | src/daemon.rs:5220-5235 | the round is `Pump`: flush, offer, flush, read, flush, each step only on an empty write buffer |
| Inbox.RunIsSound | src/daemon.rs:5220-5380 | in every run the bytes taken followed by the buffer are the enqueued lines in order; no message is offered twice in a session; the input's lines are handled once each, in order, with one answer for each that is not blank |
| Inbox.ClientReadsPrefix | src/daemon.rs:5244-5280 | what the client can read is at any moment the first of the enqueued lines |
| Inbox.ReadsOnlyWhenWritten | src/daemon.rs:5220-5235 | a round that takes bytes or lines from the client or answers it has first written everything enqueued before, this round's offers included |
| InboxFacts.FlushStops | src/daemon.rs:5250-5280 | the write loop stops when nothing is left, the socket blocks, or a write fails; the bytes taken are the first of the buffer, and only a failed write closes the session |
| InboxFacts.OffersInOrder | src/daemon.rs:5282-5315 | what is offered is every queued delivery not offered before, at its place in the queue's order, and nothing else |
| InboxFacts.AnswersInOrder | src/daemon.rs:5329-5380 | every line that is not blank has its own answer, at its place in the order of the lines, and nothing else is answered |
| WhiteSpace.BlankExactly | src/daemon.rs:5330-5335 | a line in UTF-8 is skipped exactly when each of its characters has the property White_Space |
| InboxFacts.EndOfInputCloses | src/daemon.rs:5317-5323 | a round that gets to the end of the client's input closes the session |
| Inbox.InboxTable.ParkInbox | src/daemon.rs:4206-4211 | the sessions of other waiters in their order, the new one behind them, and then a round of each |
| Inbox.InboxTable.AdvanceInboxes | src/daemon.rs:4213-4228 | one round of every session, in order; one that fails is dropped |
| Inbox.OneSessionEach | src/daemon.rs:4206-4228 | over all claims and polls no waiter has two open sessions, and every open session is one that `RunIsSound` speaks of |
| InboxFacts.EveryPollKeeps | src/daemon.rs:4213-4228 | a poll pumps every open session once: one whose round stays open is kept as its round left it, one whose round failed is gone |
| InboxFacts.PollKeepsOrder | src/daemon.rs:4213-4228 | and the sessions kept stay in their order |
| InboxFacts.ClaimKeepsOrder | src/daemon.rs:4206-4209 | so do the sessions of the other waiters when one is claimed |
| Inbox.ClaimReplaces | src/daemon.rs:4206-4209 | a new claim leaves nothing of the waiter's earlier session |
| Inbox.AwaitingWrite.AdvanceWrite | src/daemon.rs:4992-5011 | a plain response is written as a growing prefix, complete exactly when all of it is out |
| Envelope.EscapeBody | src/envelope.rs:21-33 | the loop computes `Escape` |
| Envelope.EscapeRoundTrip | src/envelope.rs:21-33 | escaped text reads back as the body, and has no angle bracket |
| EnvelopeText.EscapeSpells | src/envelope.rs:21-33 | each character is written where it stands: the three marks by their names, any other as itself |
| Envelope.ValidatedAttr | src/envelope.rs:255-271 | accepted exactly when not empty and all characters safe; the error says which |
| Envelope.RefusedAtFirst | src/envelope.rs:67-101 | an envelope is refused at its first unsafe attribute |
| Envelope.RenderDecodes | src/envelope.rs:39-170 | tell, ask, progress, final, reminder and both cancellations read back: kind, attributes, body |
| Envelope.RenderIsUnique | src/envelope.rs:39-170 | equal text, equal envelope |
| Envelope.AttributesAreRead | src/envelope.rs:39-170 | the receiver finds every attribute by its name in the opening tag; an ask names its id both as the message's and as what a reply is to |
| EnvelopeText.TellReads | src/envelope.rs:39-46 | the text of a tell letter by letter, or the error of its first unsafe attribute |
| EnvelopeText.AskReads | src/envelope.rs:53-60 | the text of an ask |
| EnvelopeText.ProgressReads | src/envelope.rs:67-80 | the text of a progress reply, with the word `progress` |
| EnvelopeText.FinalReads | src/envelope.rs:87-100 | the text of a final reply, with the word `final` |
| EnvelopeText.ReminderReads | src/envelope.rs:107-127 | the tag of a reminder around its filled-in text |
| EnvelopeText.ReminderFillsIn | src/envelope.rs:110-126 | each blank of a reminder is filled in where it stands, with its own attribute |
| EnvelopeText.CancellationReads | src/envelope.rs:138-149 | the text of the notice to the one who asked |
| EnvelopeText.OwingCancellationReads | src/envelope.rs:159-170 | the text of the notice to the one who owed the answer |
| Envelope.RenderClosesOnce | src/envelope.rs:39-170 | a closing tag of any name occurs once, at the end |
| Envelope.PrepareClosesOnce | src/envelope.rs:186-228 | so in the renew prepare envelope |
| Envelope.ResumeClosesOnce | src/envelope.rs:234-253 | and in the renew resume envelope |
| EnvelopeText.PrepareReads | src/envelope.rs:186-228 | the text of the prepare envelope: sender, reply address, cycle, deadline, the two prompts each at its place |
| EnvelopeText.ResumeReads | src/envelope.rs:234-253 | the text of the resume envelope: sender, cycle, time of the checkpoint, prompt |
| Envelope.SameRendering | src/envelope.rs:186-228 | two pairs of prompts render alike exactly when they are alike with the divider spelled out between them |
| Envelope.SeparatedExactly | src/envelope.rs:186-228 | the prompts are determined by the rendered text exactly when the divider occurs once in them joined by it |
| Envelope.PromptsAreNotSeparated | src/envelope.rs:211-218 | two different pairs of prompts with one rendering |
| Report.Walk.RenderAgent | src/cli.rs:2413-2434 | the recursive walk over the text and the ids seen is `Visit` |
| Report.Walk.RenderList | src/cli.rs:2539-2546 | the loop over sorted children is `VisitAll` |
| Report.Walk.RenderReport | src/cli.rs:2363-2380 | the walk from the sorted roots is `Tree` |
| Report.ByCreationIsStable | src/cli.rs:2375 | oldest first, ties in their former order |
| Report.ReportDraws | src/cli.rs:2413-2546 | for any parent relation an id is drawn exactly when its ancestor chain reaches a root through legible ids, once, below its parent's row |
| Report.ReportDrawsAgents | src/cli.rs:2363-2380 | with distinct ids those are exactly the agents themselves |
| ReportOrder.ReportIsOrdered | src/cli.rs:2539-2546 | every row stands in its parent's block, one level below it; roots, and the children of one parent, stand oldest first |
| Report.CycleIsDropped | src/cli.rs:2363-2373 | two agents that are each other's parent are not drawn |
| Names.SanitizeName | src/name.rs:24-54 | the loops compute `Sanitize` |
| Names.SanitizeExactly | src/name.rs:24-54 | succeeds exactly when there is an ASCII letter, with a valid name and no double dash |
| NameFacts.CapitalsAreLowered | src/name.rs:27-28 | a capital counts as the small letter at its place in the alphabet, wherever it stands |
| NameFacts.SeparatorsAreDashes | src/name.rs:31-32 | white space, a dot, a colon or a slash counts as a dash |
| NameFacts.OthersAreLeftOut | src/name.rs:33-35 | any other character that is no letter, digit, dash or underscore is as if it were not there |
| NameFacts.DashesMerge | src/name.rs:37-39 | two dashes in a row count as one |
| NameFacts.StartsAtALetter | src/name.rs:43-45 | a character in front that is no letter is left out |
| NameFacts.EndsAtALetterOrDigit | src/name.rs:46-48 | a dash or underscore at the end is left out |
| NameFacts.CleanTextIsOnlyCut | src/name.rs:49-53 | a text to which none of these applies is only cut to 32 characters, so the laws determine the result |
| Names.SanitizeFixes | src/name.rs:24-54 | a name without a double dash is left alone exactly when it ends in neither a dash nor an underscore |
| Names.SanitizingTwice | src/name.rs:49-53 | sanitizing the result again leaves it alone exactly when the text before the cut has at most 32 characters, or its 32nd is neither a dash nor an underscore |
| Names.SanitizingTwiceChanges | src/name.rs:49-53 | 31 letters, a dash and a letter: the result is cut behind the dash, and sanitizing it again changes it |
| Names.FitSuffixedName | src/name.rs:114-132 | the method computes `FitSuffixed` |
| Names.FitNeverFails | src/name.rs:114-132 | two valid names always fit, as a valid name without a double dash |
| NameFacts.FitKeepsTheSuffix | src/name.rs:114-132 | a suffix of up to 30 characters is kept whole behind a dash, with the longest beginning of the base that fits and ends in a letter or digit |
| NameFacts.FitGivesWayToTheSuffix | src/name.rs:114-118 | a longer one stands alone, whole exactly when it ends in a letter or digit |
| Names.DerivedNameIsFree | src/name.rs:65-92 | a derived live name is valid and not taken |
| Names.DerivationFailsExactly | src/name.rs:65-92 | each failure, with the condition under which it happens; the fit never fails |
| NameFacts.LiveNameIs | src/name.rs:65-92 | the directory's name if it has a letter and otherwise the pane's, if it is free; otherwise that with the pane's name behind it |
| NameFacts.ColonsAreLeftOut | src/name.rs:75-76 | the pane's name is read without its colons |
| NameFacts.NothingElseIsLeftOut | src/name.rs:75-76 | and with everything else |
| Tokens.Tokens.FindHits | src/cli.rs:1830-1836 | the unused places of a flag, in order |
| Tokens.Tokens.TakeBool | src/cli.rs:1829-1845 | marks and result of `take_bool` |
| Tokens.Tokens.TakeNext | src/cli.rs:1851-1874 | marks and result of `take_next_value_inner` |
| Tokens.Tokens.TakeAll | src/cli.rs:1876-1882 | the loop is `AllValues`; each round marks two tokens more, so it ends |
| Tokens.Tokens.TakeValue | src/cli.rs:1884-1908 | marks and result of `take_value` |
| Tokens.Tokens.TakePositional | src/cli.rs:1910-1916 | marks and result of `take_positional` |
| Tokens.Tokens.FindLeftovers | src/cli.rs:1923-1960 | the loop is `Leftovers` |
| TokenFacts.SwitchAnswers | src/cli.rs:1829-1845 | a switch is absent, or consumed at its only unused place, or an error exactly when it has two |
| TokenFacts.ValueAnswers | src/cli.rs:1884-1908 | a flag with a value: absent, said twice, without an unused value behind it, or consumed with that value |
| TokenFacts.NextAnswers | src/cli.rs:1851-1874 | the next value is behind the first unused place of the flag; only a raw one may begin with a dash |
| TokenFacts.PositionalAnswers | src/cli.rs:1910-1916 | the first unused token that does not begin with a dash |
| TokenFacts.AllStartsAtTheFirst | src/cli.rs:1876-1882 | taking all values takes the first place first, and fails if that one has no value |
| TokenFacts.LeftoversAreSaid | src/cli.rs:1923-1960 | what each leftover is reported as: unexpected, a misplaced global flag, or unknown, and whether it takes the token behind it along |
| Tokens.AllValuesTakesPairs | src/cli.rs:1876-1882 | the tokens taken are places of the flag with the places behind them, and the values are what stands there |
| Tokens.AllValuesLeavesNone | src/cli.rs:1876-1882 | on success no unused place of the flag is left |
| Tokens.EachTokenOnce | src/cli.rs:1829-1916 | over any calls in any order no token is consumed twice, and the marks are the tokens consumed |
| Tokens.LeftoversCover | src/cli.rs:1923-1960 | the problems name every unused token once, in order, in disjoint runs, and no other |
| Tokens.NothingLeftExactly | src/cli.rs:1923-1968 | nothing is left over exactly when every token was consumed |

## Left out

- DeliverySessions.SessionAnswersWhenAllSettle: the source promises an answer when the last prompt settles; the refused commit is excepted because there the promise does not hold.
- LaneTheorems.WritesInSubmissionOrder: needs a lane none of whose leases was sent twice, which the scheduler's interface allows; prompts and starts never do it (`DeliveryWrites.PromptWrittenOnce`, `StartWrites.StartWrittenOnce`), other users of a lane are not modelled.
- DeliveryMarks.UnderWayIsParked: takes from the store that the reminders of one sweep are for different asks; that a sweep waits until no reminder is under way is not modelled, only that none is parked for an ask that has one.
- LaneDrain.EveryContinuationEnds: steps that submit a job or command a lease are excepted, since each may add work; what the daemon still sends to prompts is the subject of `DeliveryRest.RestOwesNothing`.
- Envelope.RenderClosesOnce: the long English sentences of the reminder, the owing cancellation and the renew envelopes are a parameter, asked only to have none of the three escaped characters.
- Timestamp.ParsedInstant: 64-bit arithmetic is taken to wrap; a build with overflow checks stops where `Calendar.NoOverflow` fails.
- Inbox.InboxSession.ReadInput: what the answer to a line says is chosen by the environment; that acknowledgements reach the store is not modelled.
- `src/store.rs` and `src/slice.rs`: every call is an outcome chosen by the environment and a log entry; obligation states, pull leases, acknowledgement records, renew phases and recovery are not modelled.
- A snapshot that negotiates first writes a ping on a connection of its own; only its own request counts as written in `LaneRuns`.
- Threads, channels and sockets: workers take their branches in any interleaving; which of several workers picks a job up, and how many there are, is not distinguished.
- Follower errors: `clone_herdr_error` rebuilds an I/O or JSON error for each follower of a failed leader, so its source chain is lost; the model's error codes are copied as they are.
- Clocks: times are integers given to the handlers; the lease time-to-live and the connection budget are failures that may happen at any moment they are possible, the client deadlines of reading and writing are left out.
- Job ids come from a counter that never saturates, and attempt numbers are unbounded.
- A coalesced follower that asked for negotiation may get a snapshot without it; what a snapshot contains is not modelled.
- `herdr_owners` entries of other kinds, the reminder sweep's snapshot job, and the clear, renew, adopt, rename, read and retire operations: they appear as other users of the scheduler. The clear and renew machines share the scheduler rules proved here.
- Cancel and waiter-retire sessions are kept in one map with two kinds of key; the JSON of their answers is the map of notices to outcomes.
- That a committed initial message is always completed is not claimed: the branch at `src/daemon.rs:3488-3489` answers without completing, and the model does the same.
- The request's JSON and its dispatch: a connection is followed as an inbox session from its first line on, whichever method that line names; only a claimed inbox goes on reading.
- Of a report row only its agent and its depth are modelled, not the text of the row, the obligations under it or the footnote on names.
- `Path::file_name` is a parameter of the live name: the last component of the directory, if it has one.
- `format_duration_ms`, `parse_duration_for`, id parsing, help text, paths, fault injection and attribution: easy members or plumbing.
