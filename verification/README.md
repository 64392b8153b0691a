# A verified model of the claude-ipc broker

claude-ipc is a durable message broker for agent sessions on one machine: informs, queries and
requests between named peers, projects (directories) and everyone, kept in SQLite so that mail
outlives crashes of the broker, of a client and of a delivery host.  This project models its
shared state machine and the protocols around it, and proves what they keep.

## How the model is built

**Tables and statements** (`Models`, `Store`).  The durable tables are one value, `DB`; every
storage statement or transaction is one constructor of `Stmt`, and `Exec` is its effect.
Statements are the atoms: a process may die between any two of them.

**Worlds and the invariant** (`Invariants`, `Statements`).  A `World` adds the history no table
records: what was posted, which cancels found their ask open, how often a nudge clock was pushed
out, which rows were handed out, which asks closed.  `Guard` says when a statement is one the
system would issue; `Statements.StepKeeps` shows that every guarded statement keeps the invariant
and moves every record forward only.

**Verbs and runs** (`Verbs`, `Runs`, `VerbSafety`).  A verb is a plan: its answer and the
statements it runs, in order, read off the source.  A run is any sequence of verbs, sweeps and
storage operations over any rosters, each cut after any number of its statements.
`VerbSafety.RunKeeps` carries the invariant through every run; the theorems in `Admission`,
`Consent`, `Retry`, `CrashSafe`, `Outbox`, `Closing`, `Leases`, `CursorEvents`, `Retention`,
`ProjectClaims`, `ProjectMail`, `Mailboxes`, `Tearing`, `Deadlines`, `OwnDeadlines` and `Crashes` are
about all runs.  `Ledger` is the reference reading of the history that `Tearing` compares the tables with.

**The code in its own form** (`Backend`, `Routing`, `Sweeper`, `DegradedClient`).  The backend is
a class whose methods update its tables in place; the router, the sweeper and the degraded client
are methods with the source's loops and branches over it.  The backend keeps a ghost journal of
the statements it ran, and `Valid` says the tables are what the journal makes of an empty store.
Every verb's postcondition is that it answered and extended the journal exactly as its plan says.
`Serving` closes the loop: serving any events from a newly opened store, with these methods, leaves
the tables of the run of those events, so the theorems about plans and runs are about these bodies.

**Around the store.**  `Frames` and `Wire`: the frame decoder, the write pump and a whole
connection.  `Registry`: peers, siblings, snapshots and restarts.  `OwnerLock`: one host per
thread and alias.  `Host`: the Codex delivery host against a world that moves at every wait.
`TextArea`: the dashboard's editor arithmetic.  `OneEdit`: alias typo detection.

Peers, projects, the broker and the broadcast address are constructors of `Address`; ids are
numbers minted upwards; notices are named by what they say; times are integers.

## Where the code does not do what it says

Each of these is a theorem with the exact condition, or a concrete counterexample.

- *An identical retry conflicts with itself* when a directed ask named its thread as `null`: the
  broker stores the thread it opens and then compares it with `null` (`Retry.OwnPayload`,
  `Retry.IdenticalRetry`).
- *An answered ask comes back* when it was answered before its delivery row existed (a crash
  between the stored message and its fan-out): the next retry queues it again, be it the sender's,
  a degraded client's or the replay of an intent (`Closing.AnsweredAgainIffUndelivered`).
- *An answered ask can wait in its reader's mail*: a reply closes the ask before it consumes the
  copy it answers, so a crash in between leaves closed work waiting (`Crashes.CrashedReply`).
- *A stage that fired can fire again* although `markNudged` promises otherwise
  (src/storage/sqliteBackend.ts:527-528): the notice is posted before the stage is recorded, so a
  crash in between repeats a nudge or a sender's release (`Deadlines.CrashedNudge`,
  `Deadlines.CrashedRelease`).
- *A deadline can pass unenforced*: a crash after the last stage is recorded and before the ask is
  closed leaves it open, and no sweep looks at it again (`Deadlines.CrashedRelease`); that one cut
  and no other does (`Deadlines.StrandedIff`).
- *A sender can be parked and never told*: the sweeper closes an expired ask before it posts the
  notice, so a crash in between leaves it parked with no notice, and no later sweep, tick or verb
  makes up for it (`Crashes.CrashedPark`).
- *A cancelled ask can stay in its reader's mail*: cancel closes the ask before it withdraws the
  copies, a crash in between leaves the copy waiting, and a second cancel changes nothing although
  only it could withdraw it (`Crashes.CrashedCancel`).
- *An answered ask can be parked as unanswered*: a reply or decline posts its answer before it closes
  the ask; after a crash in between the next due chase parks the ask and tells its sender there was
  no reply (`Crashes.AnsweredYetParked`).
- *An answer or notice can be stored and reach nobody*: it is appended before it is queued, and what
  carries no operation id is never queued again (`Crashes.LostWord`).
- *A crash can set the awaiting table at odds with the history*: `Tearing.Torn` lists the cuts that
  do, verb by verb, and `Tearing.TornIff` shows that they all do and that no other does.
- *A decided ask can be opened as undecided*: a send that crashed before it opened its ask is opened by
  its retry, although the ask was answered in between (`Tearing.Reopens`, `Tearing.ActAccount`).
- *A sender's deadline can be replaced by the broker's default*: after such a crash, a retry that names
  no deadline is taken for the same request, and opens the ask by the default for good
  (`OwnDeadlines.ForgottenDeadline`, `OwnDeadlines.MisdatedForGood`); nothing else does
  (`OwnDeadlines.MisdatedIff`).
- *The event cursor can rewind* when a degraded client writes while the broker still holds its
  handle open: each handle counts on its own (`CursorEvents.StaleHandle`,
  `CursorEvents.TwoHandlesRewind`).  It does so exactly when a handle writes from behind the watched
  cursor (`CursorEvents.HandlesExact`), and never if handles take turns (`CursorEvents.TurnsNeverRewind`).
- *The degraded path admits the broadcast address as a sender*; the broker then refuses to replay
  the intent for good (`Admission.SameAdmission`).
- *A heartbeat's revival of an alias that left is forgotten by a restart*, because heartbeats are
  not snapshotted, unless some other operation wrote a snapshot first (`Registry.RevivalAndRestart`).
- *Snoozing mail while a host delivers it makes the host fail its pass*: a message whose every copy
  in the session's boxes is put off does not count and the host throws although the thread has the mail;
  so does mail that another lease took after this one's end (`Leases.LeasedIsAcked`, `Leases.AckMismatch`).
- *A project's count is no monotonic cursor*: it looks only at mailboxes that still wait, so its
  cursor goes back when the newest of them empties (`ProjectMail.ProjectCursor`); and a count can
  drop with no event at all, when an ask is closed (`Mailboxes.ClosingIsNoEvent`).
- *A replayed project ask passes for whoever the sender's session is by then*: the aliases excused
  are those the client knew and those the broker knows later (`CrashSafe.CrashSafeSend`).
- *Replaying outage mail deletes a registered alias that has no token* (`Registry.BorrowedIdentity`).
- *A late turn duplicates mail*: exactly-once delivery needs a given-up turn never to reach its
  thread after the retry's did (`Host.LateLandingRepeats`).

## Model

| member | source | states |
|---|---|---|
| Statements.StepKeeps | src/storage/sqliteBackend.ts:251-736 | every storage statement, issued as the system issues it, keeps referential integrity, the route, row, ask, claim and cursor invariants, and never moves a row, ask, route, message or cursor back |
| VerbSafety.RunKeeps | src/broker/router.ts:243-1187 | so does every run of verbs, sweeps and storage operations in any order, each cut short after any statement |
| VerbSafety.EventSafe | src/broker/router.ts:243-1187 | every statement any verb issues, in the order it issues them, is one the invariant allows at that point |
| Runs.PerformDb | src/storage/sqliteBackend.ts:279-285 | an event stopped anywhere leaves the tables that much of its statements leave, so a backend's journal and a run agree |
| Serving.Serve | src/broker/router.ts:243-1187 | serving any event with the method that implements it, on a store that holds a world's tables, leaves the tables of the world the event leads to, stale mail retired in the store's own order |
| Serving.ServeAll | src/storage/sqliteBackend.ts:251-736 | serving any events from a newly opened store leaves the tables of the run that opens it and performs them, stale mail retired in the store's own order |
| Admission.BroadcastReaches | src/broker/router.ts:391-395 | a broadcast goes to exactly the aliases that are not offline, are not the sender and belong to another session |
| Admission.SameAdmission | src/client.ts:251-267 | broker and degraded client admit the same first sends, except that only the broker refuses the broadcast address as sender and a taken message id |
| Admission.RefusalChangesNothing | src/broker/router.ts:318-376 | a refused verb leaves every table as it was; a reply to a cancelled ask only settles copies of it |
| Retry.OneMessagePerOperation | src/broker/router.ts:271-316 | in every run at most one stored message carries an operation id |
| Retry.OwnPayload | src/broker/router.ts:274-287 | a stored send matches its own request exactly unless a directed ask named a null thread; a queued intent always matches |
| Retry.IdenticalRetry | src/client.ts:208-246 | whether the first attempt went through the broker, a degraded client or a replayed intent, and whatever ran since it stored its message, the same request by any of those paths answers with the same message and the first route snapshot; it conflicts exactly in the null-thread case, and only a broadcast sender is refused by the broker |
| Retry.RouteFilled | src/broker/router.ts:389-425 | from the end of any completed send on, first or replayed and by whatever path, the message's rows are exactly its first route snapshot |
| Retry.RowsStayInRoute | src/storage/sqliteBackend.ts:279-285 | no run changes a message's first route snapshot or gives it a row outside it |
| Retry.SettledStays | src/storage/sqliteBackend.ts:331-337 | no run revives a consumed, accepted or declined row |
| Retry.ClosedStays | src/storage/sqliteBackend.ts:512-524 | no run reopens a closed ask, changes its reason or moves its deadlines |
| CrashSafe.CrashSafeSend | src/client.ts:268-313 | a degraded send killed after any statement from the stored message on, then reconciled by a broker with any other registry, ends in the same answer and tables as one not killed but for the passes, which are exactly those the client had written and those of the sender's session as the broker knows it |
| CrashSafe.FanResumes | src/client.ts:301 | a fan-out resumed from any point, cursor included, ends where one uninterrupted fan-out ends |
| Outbox.IntentLeavesRouted | src/broker/router.ts:461-481 | wherever any event is cut, an intent has left the outbox only if it was refused for good or is fully routed |
| Outbox.LeftForLater | src/broker/router.ts:467-478 | a complete replay keeps an intent exactly when the sender must register or the recipient is unknown |
| Closing.AnsweredStaysAnswered | src/broker/router.ts:898-922 | after a reply to a delivered ask from the addressee's session, or to a delivered project ask from anyone, no later run shows the ask in anyone's recoverable mail |
| Closing.AnsweredAgainIffUndelivered | src/broker/router.ts:291-303 | an identical retry by the broker, by a degraded client or by replaying an intent brings an answered ask back exactly if its row did not exist when it was answered |
| Closing.CancelIsFinal | src/broker/router.ts:1129-1187 | a cancel that found the ask open notifies exactly the holders who had seen it, leaves it in nobody's recoverable mail, and no later run posts a word correlated to it |
| Closing.CancelledIsSilent | src/broker/router.ts:866-874 | a cancelled ask, or a purged one, is never spoken to again by any run |
| Tearing.TornIff | src/broker/router.ts:893-904 | an act of any verb, sweep or storage operation, cut anywhere, keeps every ask's row in agreement with the first decisive entry of the history, parked asks with exactly one release, if and only if it is not cut between what it says of an ask and what it records of it |
| Tearing.ActAccount | src/broker/router.ts:291-303 | for any act, cut anywhere, and each ask by itself: a row that agrees with the history keeps agreeing exactly if the act neither is cut between a word about it and its record nor opens it by a replay after it was decided; an ask with its row and its own deadline keeps each exactly if no cut tears it and no replay misdates it |
| Tearing.ClosureTellsTheTruth | src/broker/router.ts:895-904 | in every run that does not tear this ask, whatever is cut or torn of others, the ask's row says what the first decisive entry of the history says: responded, parked with exactly one release notice, cancelled, or open; it closed once if closed and never if open |
| Tearing.RowTellsTheTruth | src/broker/router.ts:291-303 | the same of any row there is, over every run in which sends may crash anywhere and be retried by any path, unless a replay opens this ask after it was decided or a word about it is cut from its record |
| Crashes.CrashedPark | src/broker/sweeper.ts:87-106 | for every cut of parking after the close: over every later run the ask stays parked and exactly the notice the crash let through has been posted; posted but not queued, it reaches nobody |
| Crashes.ClosedNeverReleased | src/broker/sweeper.ts:86-106 | no run posts a release for an ask that is closed already |
| Crashes.CrashedCancel | src/broker/router.ts:1149-1186 | for every cut of a cancel: the ask stays in its reader's mail exactly if nothing ran, or only the closing did and the copy still waits; a reader who had seen it is told exactly if everything ran; afterwards no run says a word about it and cancelling again changes no table |
| Crashes.AnsweredYetParked | src/broker/router.ts:899-901 | a reply or direct decline cut between its answer and the close leaves the ask answered and open, and the next chase past its deadline parks it and releases its sender |
| Crashes.CrashedReply | src/broker/router.ts:899-922 | for every cut of a reply to an ask: a mailbox still holds the ask exactly if it did, the reply has not consumed its addressee's copy, and, once it has closed the ask, the copy was still waiting |
| Crashes.LostWord | src/broker/router.ts:899-900 | whatever verb is cut right after it appended a message and before it queued it, no later run puts that message into any mailbox |
| Deadlines.NudgesAreBounded | src/broker/sweeper.ts:182-190 | in every run, cut anywhere, nudges for one ask number at most one more than the times its clock was pushed out plus the nudges of it cut between notice and stage |
| Deadlines.DeadlineBound | src/broker/sweeper.ts:120-179 | after any run in which no release of this ask is cut between its last stage and its close, whatever is cut or stranded of others, and a sweep that lists the ask if it is open, no run of anything leaves it open if its deadline plus grace had come by then |
| Deadlines.StrandedIff | src/broker/sweeper.ts:164-179 | an act leaves an ask, if open, below the last stage, where a sweep looks, exactly if it is not a release of that ask cut just before its close |
| OwnDeadlines.DeadlineIsOwn | src/broker/router.ts:291-303 | from any state and over any run, cut anywhere, an ask is chased by the deadline it was sent with, unless a replay that names none opens it where the send had named another than the default |
| OwnDeadlines.MisdatedIff | src/broker/router.ts:299-303 | an act leaves an ask with its own deadline exactly if it is not such a replay of it |
| OwnDeadlines.ForgottenDeadline | src/broker/router.ts:274-303 | once any send stored a directed ask and as long as it is not opened, the same request without its deadline, by any path, opens it by another deadline exactly if the send asked for one that is not the default |
| OwnDeadlines.MisdatedForGood | src/storage/sqliteBackend.ts:512-524 | an ask opened by another deadline is chased by that one in every later run |
| OwnDeadlines.SentDeadlineBound | src/broker/sweeper.ts:127-179 | after any run that neither strands nor misdates this ask and a sweep that lists it if it is open, it is open after any later run only if the deadline its sender named plus grace had not come by then |
| Deadlines.SweepReleases | src/broker/sweeper.ts:127-192 | from any reachable state, a sweep parks exactly the listed overdue asks below the last stage and closes nothing else |
| Deadlines.TickParks | src/broker/sweeper.ts:86-106 | from any reachable state, a tick parks exactly the listed asks past their time to live and touches no other ask |
| Deadlines.DeadlineFixed | src/broker/router.ts:1000-1002 | no snooze, partial or anything else moves the instant a sender is released |
| Deadlines.CrashedRelease | src/broker/sweeper.ts:164-179 | for every cut of a release and a later sweep: two terminal notices exactly if cut between the notice and its stage, still open exactly if cut between the stage and the close |
| Deadlines.CrashedNudge | src/broker/sweeper.ts:182-190 | a nudge is repeated exactly if cut between its notice and its stage |
| Consent.PassSpeaksForOne | src/broker/router.ts:1079-1106 | declining project mail leaves the ask open and every copy as it was, tells a still waiting asker once, ends what the decliner owed unless it holds the claim, and changes what no one else owes |
| Consent.DeclineAnswers | src/broker/router.ts:1107-1126 | declining an open direct ask refuses the copy, closes the ask as responded and queues a terminal refusal for the asker |
| Consent.PutOffWaits | src/broker/router.ts:901-904 | after a snooze or partial, the next nudge comes exactly a full waiting time later and the sender's deadline stays |
| CursorEvents.CursorExact | src/storage/sqliteBackend.ts:229-249 | over any statements, restarts included, the watched cursor never decreases and differs between two points exactly if some watched pending set changed in between |
| Mailboxes.NetZeroIsVisible | src/broker/router.ts:1201-1214 | two counts of a session's mail carry the same cursor exactly when none of its inboxes changed in between, a net-zero window included |
| Mailboxes.ClosingIsNoEvent | src/broker/router.ts:1201-1214 | closing an ask moves no cursor and takes out of a count exactly the ask whose copies there are all persisted |
| Retention.CountSurvivesPurge | src/storage/sqliteBackend.ts:692-719 | no purge changes what any session counts, or its cursor |
| ProjectMail.ProjectCursor | src/broker/router.ts:1196-1200 | between two counts of a project the cursor goes up exactly if a mailbox that waits at the second has changed; otherwise it is the newest event of those, never above the first, and 0 when none waits |
| CursorEvents.StatementEvent | src/storage/sqliteBackend.ts:331-477 | each statement gives an address a new event exactly when it changes that address's pending set |
| CursorEvents.StaleHandle | src/storage/sqliteBackend.ts:236-240 | a second handle's event moves an address forward exactly when its counter is not behind the address's last event |
| CursorEvents.TwoHandlesRewind | src/client.ts:192 | a concrete interleaving of broker and degraded client that rewinds the cursor |
| CursorEvents.HandlesExact | src/storage/sqliteBackend.ts:229-249 | over any interleaving of any number of handles, reopenings included, a watcher sees every event and never goes back exactly if no event comes from a handle whose counter is behind the watched cursor |
| CursorEvents.TurnsNeverRewind | src/storage/sqliteBackend.ts:229-234 | if whoever writes after another has opened the store since, every watcher sees every event and no cursor goes back |
| Leases.ClaimedAtMostOnce | src/storage/sqliteBackend.ts:407-429 | in every run each row is handed out by claiming delivery at most once |
| Leases.LeaseIsExclusive | src/storage/sqliteBackend.ts:431-437 | a row under an unexpired lease is not leased again, whatever runs in between and whatever other mailboxes are leased |
| Leases.SupersededAck | src/storage/sqliteBackend.ts:451-468 | an ack under a lease nobody holds changes no table and not the cursor |
| Leases.PersistedNeverLeased | src/storage/sqliteBackend.ts:431-437 | once persisted, surfaced or settled, a row is never leased again |
| Retention.PurgeConserves | src/storage/sqliteBackend.ts:692-719 | for every cutoff, purge leaves every pending and recoverable view and the cursor alone and every row, ask and route with its message |
| Retention.RetireThenPurge | src/storage/sqliteBackend.ts:721-736 | retiring and purging removes exactly the messages past the cutoff with no open ask whose waiting copies, if any, were stale |
| ProjectClaims.AcceptNamesHolder | src/broker/router.ts:1040-1055 | an accept of project mail names the holder of the new state, and wins exactly if nobody else still around held it |
| ProjectClaims.HolderHolds | src/broker/router.ts:1043-1046 | over any run a claim changes hands only in an accept by another while its holder is unregistered or offline |
| ProjectMail.HolderAloneOwes | src/broker/router.ts:781-801 | from the end of an accept on, over any run without a takeover from a holder who is gone and under any registry that still has the holder, exactly the holder owes the mail, or nobody if it is its own session's |
| ProjectMail.SenderNeverOwes | src/broker/router.ts:400-405 | every alias the sender's session held, as the broker or the degraded client that sent or replayed the ask knew it, never owes the session's own project ask at any later time, unless it claims it |
| ProjectMail.LeasedProjectMailIsAcked | src/broker/router.ts:621-641 | whatever runs between the lease and the acknowledgement of project mail, the count is short exactly if some message was purged, or still waits and was already marked seen by this host |
| ProjectMail.SeenNeverLeasedAgain | src/broker/router.ts:605-615 | project mail a host acknowledged is never leased to it again |
| Leases.LeasedIsAcked | src/broker/router.ts:597-656 | whatever runs after a lease and however late, acknowledging the leased copy counts exactly if its message is still stored, the copy was not snoozed and no other lease has it; none has unless its box was leased at or after the end |
| Leases.AckMismatch | src/codex/host.ts:117-125 | whatever ran since the lease, the count a host compares with what it leased is full exactly if some copy of every message counts; where the lease held all copies, several boxes included, and those boxes were not leased at or after its end, exactly if every message has a copy stored and not snoozed |
| Mailboxes.AckKeepsSettling | src/broker/router.ts:644-655 | acking one id takes nothing away from what later acks of the same lease count |
| Backend.SqliteBackend.AckDelivery | src/storage/sqliteBackend.ts:451-468 | acking in batches of 500 acks and counts each leased row once, with one event |
| Backend.SqliteBackend.ClaimForDelivery | src/storage/sqliteBackend.ts:407-429 | claiming returns exactly the queued messages, oldest first, and leaves none queued |
| Backend.SqliteBackend.LeaseForDelivery | src/storage/sqliteBackend.ts:431-449 | leasing returns exactly the rows that were free to lease, oldest first |
| Backend.SqliteBackend.Purge | src/storage/sqliteBackend.ts:692-719 | deleting message by message removes exactly the settled past and reports how much |
| Backend.SqliteBackend.TombstoneStale | src/storage/sqliteBackend.ts:721-736 | retires exactly the stale rows, with one event per inbox that lost mail |
| Backend.SqliteBackend.Enqueue | src/storage/sqliteBackend.ts:331-337 | inserts the row once, dated like its message, with one event if new |
| Backend.SqliteBackend.MarkSurfaced | src/storage/sqliteBackend.ts:395-405 | defers exactly queued, delivered and persisted rows, and clears their lease |
| Backend.SqliteBackend.ConsumePending | src/storage/sqliteBackend.ts:348-363 | settles exactly the waiting rows of an inbox and names their messages; one event if there were any |
| Routing.Router.Send | src/broker/router.ts:243-458 | answers and writes as the send plan says: replay, every refusal, and the first-time send in order |
| Routing.Router.Reconcile | src/broker/router.ts:461-481 | replays each queued intent of the sender in turn and reports how many are left |
| Routing.Router.Reply | src/broker/router.ts:813-984 | answers and writes as the reply plan says, for asks, informs and everything else |
| Routing.Router.Decline | src/broker/router.ts:1069-1126 | a direct decline refuses and closes; a project decline passes and tells the sender |
| Routing.Router.Accept | src/broker/router.ts:1030-1058 | consents, or races for the project claim after freeing a vanished holder's |
| Routing.Router.Snooze | src/broker/router.ts:987-1004 | defers an unsettled message and pushes its nudge clock out |
| Routing.Router.Cancel | src/broker/router.ts:1129-1187 | closes the ask and withdraws every unsettled copy, telling those who had seen it |
| Routing.Router.Lease | src/broker/router.ts:597-619 | leases exactly what some alias of the session could be handed, each message once |
| Routing.Router.AckDelivery | src/broker/router.ts:642-656 | counts exactly the ids the lease still held or that were already out of the inbox |
| Routing.Router.AckProject | src/broker/router.ts:621-641 | counts settled copies, marks the rest as seen by this host, and skips what is not in its mailboxes |
| Sweeper.TickSweeper | src/broker/sweeper.ts:75-108 | retires, purges, then parks exactly the asks past their time to live with one terminal notice each |
| Sweeper.SweepReplyDeadlines | src/broker/sweeper.ts:120-192 | chases every open ask of the listing in turn, with the source's notices, stages and order |
| DegradedClient.Client.Degraded | src/client.ts:195-321 | refuses or runs the degraded send pipeline in the source's order |
| Frames.EncodeFrame | src/protocol.ts:58-67 | fills a buffer with the big-endian length and the payload; refuses exactly the oversized |
| Frames.ParseAppend | src/protocol.ts:76-89 | parsing a stream in two chunks, keeping the leftover, is parsing it in one; an oversized header stops it wherever it is cut |
| Frames.ParsePrefix | src/protocol.ts:76-89 | any prefix of a frame stream decodes to a prefix of its payloads, and the whole to all of them |
| Frames.FrameDecoder.Push | src/protocol.ts:76-89 | returns exactly the frames now complete and keeps the rest, or fails on an oversized header |
| Frames.Connection.Pump | src/broker/server.ts:47-63 | bytes taken and bytes left are the bytes there were, in order; a closing socket drops the rest |
| Frames.Connection.PumpOnce | src/client.ts:65-73 | one write keeps the unsent tail; a failed write changes nothing |
| Wire.WireIsFaithful | src/broker/server.ts:47-63 | over any interleaving of queueing, partial writes and re-chunked reads nothing is lost, repeated or reordered, decoded is a prefix of queued, and all of it once everything has been written and read |
| Wire.FreshConnection | src/protocol.ts:76-89 | so on every connection from its opening: every byte queued is read, on the wire or waiting, and the decoder never meets a bad frame |
| Registry.Registry.Register | src/broker/registry.ts:54-102 | refuses wrong tokens and moving hosts, else binds the alias, refreshes its whole session and snapshots |
| Registry.Registry.Touch | src/broker/registry.ts:188-195 | refreshes exactly the session's other aliases that have not left |
| Registry.Registry.TouchByAct | src/broker/registry.ts:172-186 | an act refreshes the session but never brings back an alias that left |
| Registry.Registry.RestoreOutboxOwner | src/broker/registry.ts:114-131 | restores an offline row for a sender without one, answers the token in force, and snapshots only a change |
| Registry.Registry.DropRestoredOutboxOwner | src/broker/registry.ts:133-138 | drops only a row that is gone and still under that token |
| Registry.Registry.PruneOffline | src/broker/registry.ts:241-265 | forgets exactly the dark rows for which the store holds neither recoverable mail nor a pending intent, and no service that has not left |
| Registry.OneSessionOneLiveness | src/broker/registry.ts:156-204 | in every reachable state, restarts included, a session's aliases that are neither services nor gone were heard from at one moment and share one status |
| Registry.LeftStaysOffline | src/broker/registry.ts:197-204 | an alias that left is offline until it registers or heartbeats itself, through restarts and siblings' activity |
| Registry.RevivalAndRestart | src/broker/registry.ts:156-163 | whatever follows short of another leave, restoring or pruning of the alias, a heartbeat's revival survives the next restart exactly if some operation in between wrote a snapshot |
| Registry.RegistrationSurvives | src/broker/registry.ts:54-102 | a registration survives the next restart, whatever follows short of a leave, restoring or pruning of it |
| Registry.SiblingsReachable | src/broker/router.ts:391-395 | a session's aliases that are neither services nor gone are reachable by a broadcast together or not at all |
| Registry.BorrowedIdentity | src/broker/registry.ts:114-138 | restoring and dropping an outbox owner leaves the roster as it was exactly if the alias was not registered |
| OwnerLock.Owners.Acquire | src/codex/main.ts:119-147 | grants exactly if no live host has the thread and none but the replaced one has the alias; a refused claim leaves no trace |
| OwnerLock.Handle.Release | src/codex/main.ts:154-163 | lets go once, and only of a row still under this owner's id |
| OwnerLock.AliasesDistinct | src/codex/main.ts:128-146 | in every reachable state active hosts have pairwise distinct aliases |
| OwnerLock.TenureIff | src/codex/main.ts:119-163 | an operation leaves a live host as it is exactly if it is not the death of its process, its own release, or a granted claim for another thread under its alias that names it as replaced |
| OwnerLock.LiveHostKeeps | src/codex/main.ts:119-124 | so a live host keeps its thread through any run without such an operation, refused claims and claims for other aliases that name it included |
| OwnerLock.HandOff | src/codex/main.ts:128-147 | a hand-off to a free thread is granted, and the successor hosts the alias alone whatever the predecessor releases later |
| Host.CodexIpcHost.PumpOnce | src/codex/host.ts:53-127 | however a pass ends, the host's belief about the thread is true, mail only grew and only in its thread, and what it reports delivered is there |
| Host.CodexIpcHost.DeliverMissing | src/codex/host.ts:85-114 | a turn is started only with mail the thread does not hold; on any failure the host forgets what it believed |
| Host.CodexIpcHost.RefreshPersistedMessageIds | src/codex/host.ts:129-162 | after reading all pages the known ids are exactly the thread's, even if users wrote turns, turns ended or the started turn landed between pages |
| Host.CodexIpcHost.WaitUntilPersisted | src/codex/host.ts:164-177 | succeeds only with every id in the durable thread, and always ends by the deadline |
| Host.Drive | src/codex/host.ts:53-191 | over any life of passes, failures, switches and deaths at any wait, and whatever mailboxes the session has at each lease and acknowledgement, no thread holds a message twice and a row of any of those mailboxes is persisted only if a thread holds its message |
| Host.OnlyAcksPersist | src/storage/sqliteBackend.ts:451-468 | no work marks a row of a session's mailboxes persisted unless it acknowledges for one of them, which is all a host assumes of others while it waits |
| Host.LandedSound | src/codex/host.ts:92-106 | a turn with mail its thread does not hold keeps that true whenever it lands |
| Host.LateLandingRepeats | src/codex/host.ts:107-113 | if a given-up turn lands after its retry, the thread holds the mail twice |
| TextArea.PositionRoundTrip | src/tui/widgets/textarea-ops.ts:31-40 | a cursor's row and column are real and lead back to it, and are the only ones that do |
| TextArea.MoveLands | src/tui/widgets/textarea-ops.ts:47-54 | a vertical move lands on the next row at the same column or the line's end, and stays at an edge |
| TextArea.ThereAndBack | src/tui/widgets/textarea-ops.ts:47-54 | a move off the edge and back is the identity exactly if the line between is long enough |
| TextArea.HomeAndEnd | src/tui/widgets/textarea-ops.ts:56-64 | home and end stay on the row, at column 0 and at the line's length |
| TextArea.InsertUndone | src/tui/widgets/textarea-ops.ts:16-25 | one backspace per inserted character undoes an insert |
| TextArea.BackspaceUndone | src/tui/widgets/textarea-ops.ts:16-25 | typing what backspace deleted restores the text exactly unless it was a control character |
| TextArea.BackspaceIsLeftDelete | src/tui/widgets/textarea-ops.ts:22-45 | backspace is a step left and a forward delete, exactly when there is something to the left or no text |
| TextArea.CleanOnce | src/tui/widgets/textarea-ops.ts:17 | text without control characters is inserted as it is |
| TextArea.CleanTwice | src/tui/widgets/textarea-ops.ts:17 | cleaning twice is cleaning once |
| OneEdit.WithinOneEdit | src/cli.ts:299-327 | true exactly for different names one substitution, insertion, deletion or adjacent swap apart |
| OneEdit.OneEditSymmetric | src/cli.ts:299-327 | being one edit apart is symmetric |

## Left out

- Interleaving of two processes' statements: verbs may be cut anywhere but are not interleaved with
  each other, as the broker is single-threaded; the cursor counterexample is the exception.
- Id collisions: minted ids are fresh and never reused, and a degraded client's hash of its
  operation id is taken to be fresh too; idempotency ends when purge deletes the message.
- Several clock readings within one verb, sweep or registry operation: one reading stands for all.
- `Registry.OneSessionOneLiveness`: for one clock reading per operation, as the line above says.
- `Host.Drive`: assumes one live host per session, that a claim of empty history is true, and that a
  given-up turn has landed by then or never will; project mail is what the mailbox returns.
- `Deadlines.DeadlineBound`: not for an ask of which a release was itself cut just before its close;
  `Deadlines.StrandedIff` shows that only that cut puts an ask out of a sweep's reach, and
  `Deadlines.CrashedRelease` that it then stays open.
- `Tearing.ClosureTellsTheTruth`: not for an ask that a cut tore itself, and `Tearing.RowTellsTheTruth`
  not for one that an act belied itself.  Act by act both conditions are exact (`Tearing.ActAccount`);
  over runs they go one way, as a torn ask can come right, for instance by a second answer.
- `OwnerLock.LiveHostKeeps`: over runs one way, as a process id can be used again by another process.
- `OwnDeadlines.DeadlineIsOwn`: broker and degraded client share one configuration, fixed for a run; a
  changed default is a further run from the state reached.
- `Host.CodexIpcHost.WaitUntilPersisted`: users write only finitely many turns while one delivery is
  awaited, or reading page after page would never end.
- The host's re-registration when a heartbeat finds it unregistered: both are one call that may fail.
- Tokens, ownership checks, managed-host gates and body hiding: a step is already authorised; only
  what the registry says of sessions, directories and liveness decides.
- Order and wording: broadcast targets follow the roster's order, other listings are in any order;
  notices carry their kind, not their text; previews and hints are not modelled.
- `check`, `deliver`, `digest`, `asks`, `status`, `history`, `orphans`, `supersede`: reads, or loops
  of single storage operations that runs already contain in any order.
- `reconcilePendingOutbox`: its loop is `Reconcile` for each intent's sender with a borrowed
  identity; the borrowed identity is `Registry.BorrowedIdentity`.
- `selfHealingSweeps`, timers, file markers, tty badges and notifications: they decide when a sweep
  runs, and a run may sweep at any time.
- Project path canonicalisation and the `sameLineage` peek: paths are taken as canonical.
- JSON, SQL text and schema migrations: payloads are opaque bytes, statements are their effects.
- The memory backend: its cursor and its purge differ from the one modelled.
- Sockets' own buffering and `drain` events: a write takes any prefix, a pump may run at any time.
- Rows without a message or with a missing route from older schemas: a run starts from a store that
  keeps the invariant.
