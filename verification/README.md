# A verified model of AirControl

AirControl lets desktop clients watch and switch one Philips AC2729 air purifier. A server owns
the device; clients talk to it over TCP, one JSON object per line. This project models the four
parts of it that keep most of the state and proves what they promise.

`dafny verify dfyconfig.toml` checks everything.

## Server: two threads and one device

`Protocol` is the server as a step relation. The main thread serves clients and applies events;
a worker thread owns the device and runs one *session* (one connection to the device) after the
other. A step is one access to shared state, so a run is any interleaving of the two threads.
The device is used under a contract: observing calls back with statuses until it fails or its
stop predicate holds, and only then ends normally.

The code of either thread is there too, with its own loops: `DeviceLoop` has the session, observing
and draining loops of the worker, `EventLoop` the event loop and the operations of the main thread.
Between any two accesses of one thread the other takes whatever steps a schedule says. All they do
is a run of `Protocol`, so the theorems about runs are about these loops; and every run of
`Protocol` is one of the worker's loops under some schedule (`EveryRunScheduled`).

- `Serialization`: within a session a status lies between any two control attempts.
- `Conservation`: every command is at every moment in exactly one place, it is attempted at most
  once, and the attempts keep the order of the queue.
- `EventQueue`: events are handled in the order posted and carry the session they come from.
- `Confirmation`: there is a single place for an accepted automated command that waits for its
  confirmation, and a command in flight does not count as busy. `LossExactly` says which
  confirmations are overwritten. Within a session that happens exactly if the device reports nothing
  but statuses without contents between the two commands (`SessionLosesExactly`).
- `Verdicts` and `Judgement`: whatever happens, an automated command is judged at most once, and it
  is confirmed exactly if the event that settles it is a status in which every setting asked for has
  the value asked for.
- `Answers`: what the server tells about a command is true. It is reported as accepted only if the
  device accepted it, confirmed only if a status handled later shows its settings.
- `Replies`: every request of a client is refused, queued or on its way to the queue; the replies
  belong one to one to commands queued for that client, and none is left without one in the end.
- `Admission`: nothing is queued before the device has reported, and of the automation one command
  at a time; exactly when a request of a client or an action of a script is queued.
- `Renewal`: a command that waits when the device fails or a refresh is asked for is never attempted
  and answered as failed; what a refresh does as a whole; that the main thread is told every status
  as the device reported it, and every failure; and exactly when an accepted command is called so.
- `Scenarios`: the guarantees stop at the end of a session. Three runs show two attempts with no
  status between them, a confirmation overwritten by the next session, and a command of the old
  session confirmed by a status of the new one. `docs/IPC_PROTOCOL.md` (lines 83-87) and
  `docs/ARCHITECTURE.md` (lines 77-78) promise otherwise; the model follows the code. A fourth run
  loses a confirmation within a session to a status without contents.
- `Sessions`: when the guarantees do reach across sessions. A session opens *clean* if the queue is
  empty and no command is on its way there. Where all do, every attempt directly follows a status
  and no confirmation is lost; from an opening that is not clean some continuation attempts a
  command before any status (`OpeningExactly`). A later session settles a command exactly if a
  start was applied while the command waited (`LaterSessionExactly`).
- `Overwriting`: a session can overwrite a confirmation, although every status has contents, exactly
  if it opens with an accepted command unresolved and an automated command as the first to come.

`EditLock` and `EditServer` are the lock on the automation script. Sending can close a client,
closing can free the lock, and that is announced to all clients, which can close more of them;
the lock is nevertheless always free or held by a connected client, and of all saves that quote
one revision at most one takes effect. Three results are less pleasant. A save that is written but
fails to load is answered as failed, yet it has changed the revision: the holder cannot correct it
with the revision it knows (`CorrectionAdmitted` says exactly when it can), and the other clients
are not told (`AttemptSave`). And a broadcast of the state that closes the holder of the lock
because its output is full tells the clients behind the holder first that the lock is free and then
the state composed before, so the last thing they hear is outdated (`OutdatedExactly`), although
changes of state go to all clients (`docs/IPC_PROTOCOL.md`, line 22).

## Server: schedules

Time is a linear count of seconds. `Calendar` shows that the search over eight days finds the
latest occurrence of the unbounded past. `Acceptance` says of a call's own fields exactly whether it
is accepted, and what its entries mean. `Rules` shows that registration never lets two entries
be due at the same instant, which weekdays it takes (a number is cut to 32 bits first), `Selection`
that therefore the order of registration does not matter and that a `between` rule means its
windows, `Occurrences` that a memory of 64 keys is enough to act at most once per occurrence if all
entries catch up. `Crowding` and `CrowdedRuns` say exactly for which registered lists it is not
enough, and `CrowdedWeek` registers eleven rules with which an occurrence is acted on twice in a
week. `Automation` is the engine as an object; `Memory` is the memory budget of the script.

## Server: status log

`Csv` is the printer and parser of CSV records after section 2 of RFC 4180, `LogColumns` says what
a row holds, `LogFile` what any sequence of appends and truncations leaves in the file,
`LogRestart` what a restart reads back, and `StatusLog` is the object that writes. A log whose
first status has no key of its own writes rows that do not fit its later header;
`FirstStatusDecides` gives the exact condition. A restart accepts the server's own header exactly
if no column name is empty or holds a newline (`RestartExactly`).

## Client

`ClientCommands` is the command in progress, `ClientLink` the connection with its timers,
`ClientEvents` the client as a state machine over everything that can happen to it,
`ClientTiming` how long things last if timers fire on time, `ClientPatience` that none fires early,
`ClientAttempts` what becomes of attempts to connect and of requests of the user, and
`ClientController` the object whose slots the events call. The signals of the client form a small language, and every reachable client
has only spoken words of it; the properties of commands are properties of the language. `Framing`
is the line framing of the stream, `StreamLines` what a line of it is. It does not depend on how the stream is cut into reads, but a
message over the limit is left in the buffer, which is not cleared on reconnecting: the client is
then deaf until it is stopped, and only then; starting again cures it (`ClientHearing`).

## Model

| member | source | states |
|---|---|---|
| Serialization.StatusBetweenAttempts | src/server/server.cpp:929-975 | In every interleaving, two control attempts of the same session are separated by a status callback. |
| Serialization.SerializedForever | src/server/server.cpp:930-976 | The invariant behind it: while the last attempt has no status yet, the worker asks for one and cannot get past the observation except to end the session. |
| Conservation.EachCommandOnce | src/server/server.cpp:898-988 | Every command ever queued is in exactly one of queue, worker, refresh batch and answers, once; nothing else is in any of them. |
| Conservation.AttemptsInQueueOrder | src/server/server.cpp:956-961 | The attempts are strictly ascending in queueing order: at most one attempt per command and no overtaking, also over the refresh swap and the drain after a failure. |
| Conservation.MovesConserve | src/server/server.cpp:613-627 | Each way a step moves a command between the places keeps the number of its occurrences. |
| Conservation.WorkerMoves | src/server/server.cpp:906-988 | Every worker step is one of: move nothing, take the first command, answer the one in hand. |
| Conservation.MainMoves | src/server/server.cpp:613-656 | Every main-thread step is one of: move nothing, queue one command, swap the queue out, answer the next swapped one. |
| Confirmation.PlaceIsFree | src/server/server.cpp:827-844 | When an accepted automated command is about to wait while another one waits, that one is of an earlier session, or of the same one exactly if the device reported nothing but statuses without contents between the attempts of the two. |
| Confirmation.NoLossWithinSession | src/server/server.cpp:829-837 | The same of every confirmation that was overwritten: by a command of a later session, or of the same session exactly under that condition on the two commands. |
| Confirmation.LossExactly | src/server/server.cpp:829-837 | For any two commands: the confirmation of one is lost to the other exactly if both were handled as accepted, the other one next, and nothing handled between them settles a confirmation. |
| Confirmation.SessionLosesExactly | src/server/server.cpp:814-837 | A session loses a confirmation to a command of its own exactly if two of its accepted automated commands were handled and the device reported nothing but statuses without contents between their attempts. |
| Confirmation.SameSession | src/server/server.cpp:929-976 | Two accepted commands, in the order of their answers, are of one session with nothing settled between exactly if the device reported nothing but statuses without contents between their attempts; sessions never go back. |
| Confirmation.NoBlankWithContents | third_party/aioairctrl/src/client.cpp:43-46 | If every status the device reports has contents, no two commands have that between them. |
| Confirmation.ConfirmedForever | src/server/server.cpp:929-976 | The invariant behind these, over every run: sessions and statuses posted are those marked at the device, each accepted answer is placed by its attempt, a failed session accepts nothing, and the list of lost confirmations is exact. |
| EventQueue.MainKeepsFifo | src/server/server.cpp:786-794 | What was posted is what was handled, then the batch, then the queue, over every main-thread step. |
| EventQueue.AppliedSettles | src/server/server.cpp:803-837 | Each kind of event settles, keeps or replaces the confirmation in waiting as the posted events alone determine. |
| Verdicts.JudgedAtMostOnce | src/server/server.cpp:762-774 | An automated command has at most one verdict, pending confirmation or overwritten one, and has one exactly if its answer was handled; other commands have none. |
| Verdicts.AnswerCountsOnce | src/server/server.cpp:795-844 | Applying an event adds one fate for the automated command it answers and none for any other. |
| Judgement.VerdictExactly | src/server/server.cpp:762-774 | Over every run: an accepted automated command that the next concluding event finds waiting is judged by it, as confirmed exactly if that event is a status in which every setting asked for has the value asked for, and as unconfirmed exactly otherwise. |
| Judgement.RefusedIsFailed | src/server/server.cpp:829-841 | Over every run: an automated command the device did not take is judged as failed, and only so. |
| Judgement.JustForever | src/server/server.cpp:762-841 | The invariant behind both: the verdicts are exactly those the handled events call for. |
| Answers.AcceptedByDevice | src/server/server.cpp:956-974 | A command is reported as accepted only if the device was given it and accepted it. |
| Replies.RepliesMatchCommands | src/server/server.cpp:843-846 | Each reply belongs to a command of its own, queued for that client with that id; it is ok exactly if the command was answered as accepted, and then the device was given it and accepted it; once no command and no event is left, every command of a client has its reply. |
| Replies.EveryRequestAccounted | src/server/server.cpp:628-656 | However often a client asked with one id: that is how often it was refused, had a command queued, or has one on its way to the queue. |
| Answers.ConfirmedByLaterStatus | src/server/server.cpp:762-774 | An automated command is confirmed only if the device accepted it and a status handled after the acceptance shows all the settings it asked for. |
| Answers.AppliedConcludes | src/server/server.cpp:803-841 | An event adds at most one verdict, and it is a confirmation, of the waiting command, exactly if the event is a status with contents that has every setting asked for as asked for. |
| Admission.OneAutomatedQueued | src/server/server.cpp:738-752 | In every reachable state at most one automated command is in the queue, and the ids of the automation strictly ascend. |
| Admission.NothingBeforeFirstStatus | src/server/server.cpp:638-642 | Nothing is queued, nor is the device called ready, before it has reported a status. |
| Admission.ActionsFollowStatus | src/server/server.cpp:814-826 | Within a batch of events a script can act only right after a status with contents. |
| Admission.ActionQueuesExactly | src/server/server.cpp:717-760 | In every reachable state a script's action queues a command with just its settings exactly if the device is ready, its last status with contents does not report all of them already, no confirmation is waited for and no automated command is queued. |
| Admission.ControlQueuesExactly | src/server/server.cpp:628-656 | A client's command is queued with just the settings asked for if the device is ready, and else refused at once. |
| Renewal.FailureGivesUpQueue | src/server/server.cpp:977-985 | A command in the queue when the device fails is never attempted, whatever happens later, and never answered as accepted. |
| Renewal.RefreshGivesUpQueue | src/server/server.cpp:613-627 | Nor is a command in the queue when a refresh takes the queue out. |
| Renewal.RefreshExactly | src/server/server.cpp:613-627 | What a refresh does as a whole: not ready, a new session asked for, the queue empty, each command of it answered as failed, in order; nothing if one is scheduled already. |
| Renewal.RefreshScheduledExactly | src/server/server.cpp:795-797 | A refresh stays scheduled until a start is handled. |
| Renewal.FailuresAreTold | src/server/server.cpp:977-987 | The device is called ready only in a session; a failure is posted before the queue is emptied and stands until the next start. |
| Renewal.StatusesAreReported | src/server/server.cpp:939-945 | What is posted as statuses is what the device reported, each once, in order and unchanged, but for one in the hands of the worker. |
| Renewal.AnswerExactly | src/server/server.cpp:957-974 | A command is called accepted exactly if the device accepted it and no new session was asked for since this one opened. |
| Renewal.ObservingEndsExactly | src/server/server.cpp:885-889 | Observing may end exactly on stopping, a request for a new session, or a command when no status is required first; any status makes the device ready. |
| Scenarios.NoStatusAcrossSessions | src/server/server.cpp:638-655 | A run with two attempts, a new session but no status between them: the guarantee does not reach across sessions. |
| Scenarios.ConfirmationLostAcrossSessions | src/server/server.cpp:613-621 | A run in which a refresh races with a status and the confirmation of one session is overwritten by that of the next. |
| Scenarios.ConfirmedByNewSession | src/server/server.cpp:795-802 | A run in which a status of the new session confirms a command accepted in the old one. |
| Scenarios.ConfirmationLostToEmptyStatus | third_party/aioairctrl/src/client.cpp:43-46 | A run in which a status without contents lets one confirmation overwrite another of the same session. |
| Sessions.CleanOpeningsSuffice | src/server/server.cpp:906-976 | If every session opens with an empty queue and no command on its way there, every attempt of the run directly follows a status and, if all statuses have contents, no confirmation is lost. |
| Sessions.OpeningExactly | src/server/server.cpp:908-915 | From a reachable state about to open a session and not stopping, some continuation attempts a command before any status of that session exactly if the opening is not clean. |
| Sessions.LaterSessionExactly | src/server/server.cpp:795-802 | The status about to settle a command comes from a later session exactly if a start was applied while the command waited. |
| Overwriting.OverwritingExactly | src/server/server.cpp:827-844 | From a reachable state about to open a session and not stopping, some continuation whose later statuses all have contents overwrites a confirmation by a command of that session exactly if an accepted command is unresolved and the head of the queue, or else the command on its way to the empty queue, is automated. |
| Overwriting.SparesForever | src/server/server.cpp:929-976 | The invariant behind the other half: in a session without that condition an accepted automated command never meets an unresolved one. |
| DeviceLoop.AirCtrlServer.DeviceLoop | src/server/server.cpp:906-988 | Under any schedule that lets the worker end, its loops pass from the first state to the end by exactly the steps of the protocol, with the device and the main thread doing what the schedule says. |
| DeviceLoop.AirCtrlServer.Session | src/server/server.cpp:918-977 | A session ends closing, or broken if the device failed; the flag that a status is required is at every place the one of the protocol. |
| DeviceLoop.AirCtrlServer.ObserveStatus | src/server/server.cpp:937-947 | Observing calls back until its stop predicate holds or the device fails; every status clears the flag and is stored and posted. |
| DeviceLoop.AirCtrlServer.Drain | src/server/server.cpp:981-984 | After a failure every command in the queue is answered as failed, one after the other, until the queue is found empty. |
| DeviceLoop.AfterIsRun | src/server/server.cpp:906-988 | Whatever the two threads and the device do in their turns is a run of the protocol. |
| DeviceLoop.EveryRunScheduled | src/server/server.cpp:385-392 | Every run of the protocol is that of some schedule, and the schedule can go on so that the worker ends. |
| EventLoop.Matches | src/server/server.cpp:764-769 | The loop over the wanted settings decides whether the status reports them all. |
| EventLoop.AirCtrlServer.IsAutomationBusy | src/server/server.cpp:738-741 | The loop over the queue decides whether an automated command waits for confirmation or in the queue; one in flight does not count. |
| EventLoop.AirCtrlServer.ProcessEvents | src/server/server.cpp:786-848 | Exactly the events queued at the swap are handled, in order and each once, with all actions of the script after each status between them, whatever the worker does meanwhile. |
| EventLoop.AirCtrlServer.ApplyEvent | src/server/server.cpp:794-846 | Changes the main thread's state as the event demands. |
| EventLoop.AirCtrlServer.HandleAutomationAction | src/server/server.cpp:717-760 | From the test of readiness to the queue the action takes the steps of the protocol, and the batch in progress stays as it is. |
| EventLoop.AirCtrlServer.HandleRefresh | src/server/server.cpp:613-627 | Unless one is scheduled already, the queue is taken out and every command of it answered as failed; the whole is a run of the protocol from rest to rest. |
| EventLoop.AirCtrlServer.HandleRequests | src/server/server.cpp:318-355 | Clients and timers are served one after the other, each operation finished before the next. |
| EventLoop.AirCtrlServer.RunServer | src/server/server.cpp:318-355 | The loop begins exactly what its rounds call for: in each, if woken, the batch of events found then, after it the requests of the round, and at last the shutdown. |
| EditLock.OneSavePerRevision | src/server/server.cpp:530-594 | Over any messages and disconnections: the lock is free or held by a connected client, and at most one save per quoted revision takes effect, asked for by the holder. |
| EditLock.HolderKeepsLock | src/server/server.cpp:536-553 | Who holds the lock keeps it until it saves successfully, cancels or disconnects. |
| EditLock.EffectChangesRevision | src/server/automation.cpp:270-308 | A save takes effect exactly if it was admitted and is checked, written and recorded, and then raises the revision by one; nothing else changes it. |
| EditLock.CorrectionAdmitted | src/server/server.cpp:571-587 | After a failed save the holder keeps the lock and can save a correction with the same revision exactly if the failure came before the revision changed. |
| EditLock.ScriptExactly | src/server/automation.cpp:281-297 | A message leaves another script on disk than the last save exactly if a save was written but neither recorded nor taken back. |
| EditLock.LastSaveStandsForever | src/server/automation.cpp:281-297 | If every save that cannot be recorded is taken back, the script on disk is always that of the last save that took effect. |
| EditLock.GrantedExactly | src/server/server.cpp:530-555 | Beginning to edit is granted exactly with a proper id, a readable script and the lock free or the client's own; the client is told its id, the script and the revision as they are. |
| EditLock.GrantAdmitsSave | src/server/server.cpp:550-570 | Until the editor saves or gives up the lock, whatever others do, every complete save that quotes the revision it was told is admitted, and the script it was told is that of the last save. |
| EditLock.SaveDoneExactly | src/server/server.cpp:556-587 | A save is answered as done exactly if it is complete, from the holder, of the current revision, and checked, written, recorded and, if enabled, loaded; the revision told is the one any editor is granted next. |
| EditLock.CancelExactly | src/server/server.cpp:588-594 | Cancelling frees the lock exactly if the client holds it, changes nothing else, and says which it was. |
| EditServer.AirCtrlServer.Send | src/server/server.cpp:664-670 | Only the addressed client gets the line, or is disconnected exactly if its output grew over 4 MiB; the lock is freed with its holder and then everyone still connected is told. |
| EditServer.AirCtrlServer.CloseClient | src/server/server.cpp:466-476 | The client is gone; if it held the lock, the lock is free and every client still connected is told, else nobody else is touched. |
| EditServer.AirCtrlServer.Broadcast | src/server/server.cpp:695-700 | The outputs afterwards, exactly, for any order of the clients: every client still connected got the line; if the holder was full, the others also got the news that the lock is free, those behind the holder before the line. |
| EditServer.AirCtrlServer.BroadcastState | src/server/server.cpp:708-715 | Every client still connected is told the state as it is at the end; if the lock was not freed meanwhile, everyone got just that line and it is the last one. |
| EditServer.OutdatedExactly | src/server/server.cpp:695-715 | After a broadcast of the state a client ends on an outdated line exactly if the output of the lock holder was full and the client comes behind the holder. |
| EditServer.LastLineOutdated | src/server/server.cpp:664-670 | Two clients for which that happens. |
| EditServer.AirCtrlServer.Accept | src/server/server.cpp:455-462 | A new client gets an id never used before and is told the greeting and the state of the automation, or is gone if that exceeds the limit; nobody else is touched. |
| EditServer.AirCtrlServer.BeginEdit | src/server/server.cpp:530-555 | Grants the lock exactly if it is free or the client's own and the script is readable; the client is answered, and a change is announced to all. |
| EditServer.AirCtrlServer.SaveScript | src/server/automation.cpp:270-308 | Script, switch and revision after every combination of check, write, record, write-back and load outcomes; success exactly if all needed ones succeed. |
| EditServer.AirCtrlServer.AttemptSave | src/server/server.cpp:576-587 | A success frees the lock and is announced to all; a failure is told to the holder only, even if it changed the revision. |
| EditServer.AirCtrlServer.CancelEdit | src/server/server.cpp:588-594 | Frees the lock exactly if the client holds it, and then announces it. |
| EditServer.AirCtrlServer.Handle | src/server/server.cpp:526-662 | Every message moves the lock as the specification says, apart from clients that disconnect meanwhile; the client is answered or disconnected; and a state to be announced reaches everyone, as the last line unless the lock was freed meanwhile. |
| Calendar.OccurrenceExact | src/server/automation.cpp:863-887 | With catch_up the eight-day search always finds an occurrence and it is the latest of the unbounded past; without, it finds one exactly if the current minute is one. |
| Calendar.FirstEligibleIsLatest | src/server/automation.cpp:868-879 | The first eligible day, counted back from today, carries the latest matching weekday and time not after now. |
| Calendar.OccurrenceFor | src/server/automation.cpp:868-886 | The loop returns the occurrence that OccurrenceExact describes. |
| Rules.RegisterAllKeeps | src/server/automation.cpp:524-661 | After any accepted and refused calls no two entries share a weekday at the same hour and minute, there are at most 64 rules, and all entries are well formed. |
| Rules.RegisterKeeps | src/server/automation.cpp:636-660 | An accepted call appends one or two entries of a new name and keeps all others; no call is refused for conflicting with itself. |
| Rules.AdditionsAgree | src/server/automation.cpp:618-657 | The two entries of a between rule never conflict with each other, so the second conflict check cannot fire. |
| Rules.TimeOrder | src/server/automation.cpp:629 | Comparing times as texts compares them as times of day. |
| Acceptance.AcceptedExactly | src/server/automation.cpp:524-661 | A call is accepted exactly if its name is new, well formed and within the limit, its days are proper, catch_up is a boolean or absent, its values are a table, it has either a time of day without outside values or a range of two different times with them, and no registered entry occurs at one of its instants. Ranges past midnight are included. |
| Acceptance.AcceptedAt | src/server/automation.cpp:610-619 | An accepted at rule becomes one entry, with its values and its catch_up, that occurs at exactly that time on exactly those days. |
| Acceptance.AcceptedBetween | src/server/automation.cpp:620-635 | An accepted between rule becomes two entries, the values inside at the start and those outside at the end, on the next day for a range past midnight. |
| Acceptance.ConflictRefused | src/server/automation.cpp:640-657 | A call is refused for a conflict exactly if it would be accepted alone and its name is new, but it is not accepted. |
| Acceptance.TimesExactly | src/server/automation.cpp:524-555 | The times accepted are the spellings of all times of day and are read as what they spell. |
| Rules.ListedDaysExactly | src/server/automation.cpp:564-576 | A list of weekdays is accepted exactly if every item is an integer whose low 32 bits are 1 to 7, and it then stands for exactly those weekdays. |
| Rules.WrongWeekdayExactly | src/server/automation.cpp:564-576 | Beside proper weekdays, a number outside 1 to 7 is accepted exactly if it differs from a weekday by a nonzero multiple of 2 to the 32. |
| Selection.NoTie | src/server/automation.cpp:642-649 | Entries that do not conflict never occur at the same instant. |
| Selection.ChoiceUnique | src/server/automation.cpp:904-913 | In a registered list at most one entry is due with the latest occurrence. |
| Selection.OrderIrrelevant | src/server/automation.cpp:904-913 | The choice does not depend on the order of registration. |
| Selection.BetweenMeansWindows | src/server/automation.cpp:620-635 | A between rule registered alone with catch_up: at every instant the start entry is due exactly inside a window opened on an allowed day, otherwise the end entry, also past midnight. |
| Occurrences.AtMostOnce | src/server/automation.cpp:889-921 | No occurrence is accepted twice over any run of catch_up entries with a clock that does not go back: the accepted instants strictly increase, whatever the 64 keys held before. |
| Occurrences.SelectionAdvances | src/server/automation.cpp:899-913 | The selected instant never moves back. |
| Occurrences.OfferExactly | src/server/automation.cpp:899-921 | What is offered is exactly an entry whose latest occurrence no other exceeds, unless its name and instant are remembered and the evaluation is not forced. |
| CrowdedRuns.RepeatsExactly | src/server/automation.cpp:889-921 | For any registered entries: some run with a clock that does not go back accepts an occurrence twice exactly if at some moment the selected entry catches up and at least 64 occurrences of entries without catch_up lie since its own. |
| Crowding.RepeatNeedsCrowd | src/server/automation.cpp:889-921 | The same necessity whatever the 64 keys held before. |
| CrowdedWeek.MixedCatchUpRepeats | src/server/automation.cpp:893-894 | Eleven rules that registration accepts, one weekly and ten daily, and a run that accepts the weekly occurrence twice. |
| Automation.AutomationEngine.LuaSchedule | src/server/automation.cpp:524-661 | Registers or refuses a rule as the specification says; a refusal changes nothing. |
| Automation.AutomationEngine.FindConflict | src/server/automation.cpp:640-657 | The nested loops find a conflict exactly if there is one, and the first in the order of the program. |
| Automation.AutomationEngine.ReadDays | src/server/automation.cpp:556-581 | The loop yields the set of weekdays, or the rejection of the first bad item. |
| Automation.AutomationEngine.EvaluateSchedules | src/server/automation.cpp:899-921 | Offers the unique latest occurrence unless it was handled or the engine is not evaluating. |
| Automation.AutomationEngine.ActionAccepted | src/server/automation.cpp:889-897 | Remembers the key once and forgets the oldest beyond 64. |
| Automation.AutomationEngine.Run | src/server/automation.cpp:899-930 | A whole run of the engine accepts no occurrence twice. |
| Automation.EventActionGrows | src/server/automation.cpp:507-522 | A further call in an event counts only if the event may act and no earlier call succeeded. |
| Automation.AutomationEngine.LuaSet | src/server/automation.cpp:507-522 | Succeeds exactly in an acting event, as the first, with acceptable values. |
| Automation.AutomationEngine.CallEvent | src/server/automation.cpp:673-705 | One event delivers at most one action, none if the script fails or is running already, and nothing new stays pending. |
| Automation.AutomationEngine.LongTimerEvent | src/server/automation.cpp:707-739 | The same for the long timer, which a manual override does not stop. |
| Memory.MemoryLimit.Allocate | src/server/automation.cpp:371-385 | The counter always is the total of the live blocks and within the budget, but for giving back no block with a nonzero tag; a request is granted exactly if it fits, and shrinking always does. |
| Memory.TotalWithout | src/server/automation.cpp:375-379 | Taking a block away lowers the total by its size, in whatever order the total is formed. |
| Csv.PrintParseRoundTrip | src/server/statuslog.cpp:28-89 | Any non-empty list of arbitrary strings is parsed back from its record. |
| Csv.ParseAcceptsRfc4180 | src/server/statuslog.cpp:67-89 | Every spelling of a record that RFC 4180 allows is parsed to its values. |
| Csv.PrintInjective | src/server/statuslog.cpp:28-39 | Two records print alike only if they are equal. |
| Csv.RecordKeepsOut | src/server/statuslog.cpp:28-39 | Printing brings in no character but commas and quotes, so no line break. |
| Csv.FieldExactly | src/server/statuslog.cpp:28-39 | A value is written as it is exactly if it holds no comma, double quote or line break, and else between double quotes. |
| Csv.CsvField | src/server/statuslog.cpp:28-39 | The loop writes the spelling of a value that the parser reads back. |
| Csv.ParseCsvLine | src/server/statuslog.cpp:67-89 | The loop computes the parse that the round trip is about, and fails exactly on an open quote. |
| LogColumns.FirstColumnsSpec | src/server/statuslog.cpp:220-226 | The first status fixes the columns: exactly its non-reserved keys, each once, ascending. |
| LogColumns.StatusPreserved | src/server/statuslog.cpp:228-241 | Parsing a written row gives back every entry: in its column as nothing for null, 1 or 0 for a boolean, a one-line text as it is and everything else in its JSON form, or else in the spilled object; never both and never neither. |
| LogColumns.EmptyCellExactly | src/server/statuslog.cpp:41-51 | A cell is empty exactly if the status has no such key, or null or an empty text for it. |
| LogColumns.EqualCells | src/server/statuslog.cpp:41-51 | Numbers, booleans, lists and objects look alike in a cell only if they are equal, and so do texts that both fit a line or both do not. |
| LogColumns.RowIsOneLine | src/server/statuslog.cpp:41-51 | A row never breaks its physical line. |
| LogFile.AppendAlignedExactly | src/server/statuslog.cpp:214-244 | An append keeps header and rows fitting, except exactly one that fixes the columns while the file already holds rows. |
| LogFile.AlignedForever | src/server/statuslog.cpp:176-244 | Once columns are fixed, any appends and truncations leave the file empty or one header and rows that fit it, each on one line. |
| LogFile.FreshLogAligned | src/server/statuslog.cpp:214-244 | A log begun with a status that has a regular key fits over its whole life, with that status' keys as columns. |
| LogFile.LogHoldsStatuses | src/server/statuslog.cpp:214-244 | Once its columns are fixed, an empty log holds, in order, a row for each status appended since the last truncation, and the row represents that status. |
| LogFile.FreshLogHolds | src/server/statuslog.cpp:214-244 | The same from the first status on, if it has a regular key. |
| LogFile.FirstStatusDecides | src/server/statuslog.cpp:220-226 | After two statuses a fresh log fits exactly if the first one had a regular key. |
| LogFile.ReservedFirstStatusMisaligns | src/server/statuslog.cpp:220-226 | Two statuses for which it does not. |
| LogRestart.FileReadsBack | src/server/statuslog.cpp:176-244 | Reading a fitting file line by line gives back the header and every row since the last truncation. |
| LogRestart.RestartExactly | src/server/statuslog.cpp:129-174 | A restart restores exactly the columns whose header was written, if no name is empty or holds a newline; otherwise, and only then, it refuses the file. |
| LogRestart.RestartContinues | src/server/statuslog.cpp:129-174 | The same for the file of any fitting log. |
| StatusLog.StatusCsvLog.LoadHeader | src/server/statuslog.cpp:129-174 | The header loop accepts exactly the headers of the specification. |
| StatusLog.StatusCsvLog.WriteAll | src/server/statuslog.cpp:91-104 | What reached the file is the prefix of the data that the outcomes of the write calls allow, and success means all of it. |
| StatusLog.AllWrittenExactly | src/server/statuslog.cpp:91-104 | All is written exactly if calls of which none fails or writes nothing report enough; interruptions and short writes do no harm. |
| StatusLog.StatusCsvLog.WriteRecord | src/server/statuslog.cpp:176-212 | The header precedes the record exactly in an empty file; success exactly if every call succeeds and everything is written, and otherwise a prefix. |
| StatusLog.StatusCsvLog.BuildRecord | src/server/statuslog.cpp:228-241 | The record built cell by cell is the one that StatusPreserved reads back. |
| StatusLog.StatusCsvLog.AppendEntries | src/server/statuslog.cpp:219-244 | Once all characters are written the log has one more row, whatever is reported afterwards; if none are, at most the columns are fixed. |
| StatusLog.StatusCsvLog.Append | src/server/statuslog.cpp:214-244 | Turns away empty statuses without any change; succeeds exactly if all calls do, and then the row is appended. |
| StatusLog.AppendedFile | src/server/statuslog.cpp:192-201 | The characters of one append turn the file of a log into the file of the longer log. |
| Framing.ChunkingIrrelevant | src/client/controller.cpp:271-297 | Reads may cut the stream anywhere: envelopes, verdict and rest are those of one read of everything. |
| Framing.FramingOfStream | src/client/controller.cpp:271-297 | From an empty buffer any two cuts of one stream deliver the same. |
| Framing.DrainMeaning | src/client/controller.cpp:273-296 | The connection is aborted exactly if a line is over 1 MiB or not a JSON object or the unterminated rest is over 1 MiB, after delivering exactly the lines before the first bad one. |
| Framing.OverlongStays | src/client/controller.cpp:271-297 | A stream with a line or rest over the limit is never used up: reading aborts, and the rest is over the limit again. |
| Framing.OverlongMeaning | src/client/controller.cpp:276-296 | Such a stream is one of whose lines, or whose unterminated rest, is over 1 MiB. |
| StreamLines.TrimMeaning | src/client/controller.cpp:281 | What is left of a line begins and ends with something else than whitespace, and nothing but whitespace is stripped. |
| StreamLines.LinesMeaning | src/client/controller.cpp:273-282 | Lines and remainder are the whole stream, cut at every newline. |
| ClientCommands.NothingBetween | src/client/controller.cpp:385-401 | In the language of signals, a command that has not ended holds up every send, refusal and published status. |
| ClientCommands.EndsOnce | src/client/controller.cpp:477-484 | A command ends once, after it was sent, and is confirmed only if it was accepted. |
| ClientCommands.SendsAscend | src/client/controller.cpp:471-475 | Ids are strictly ascending, one send each. |
| ClientCommands.OpenUntilEnd | src/client/controller.cpp:368-384 | A command sent stays open until it ends. |
| ClientEvents.BusyMeansOne | src/client/controller.cpp:460-484 | In every reachable state busy means exactly one of pending id and awaited confirmation; each has its timer armed, and only then. |
| ClientEvents.EveryCommandEnds | src/client/controller.cpp:368-401 | Every command sent has ended exactly once, confirmed or failed, or is the last one and still in progress. |
| ClientEvents.CommandsAreSeparate | src/client/controller.cpp:385-401 | Ids ascend, and between a send and the next send, refusal or published status lies the end of the command. |
| ClientEvents.OldRepliesIgnored | src/client/controller.cpp:368-370 | A reply to any but the command in progress changes nothing at all. |
| ClientEvents.StopKeepsOrdered | src/client/controller.cpp:151-173 | Stopping fails a command in progress visibly and leaves a sound state. |
| ClientEvents.NeverStuck | src/client/controller.cpp:174-246 | An active client watches the heartbeat, has an attempt to connect under a watchdog, or has the next one scheduled. |
| ClientEvents.ReplyDecides | src/client/controller.cpp:368-384 | A reply to the command in progress accepts it with ok and fails it without. |
| ClientEvents.StatusDecides | src/client/controller.cpp:385-401 | A status confirms an accepted command and is shown, is swallowed while a reply is pending, and is just shown otherwise. |
| ClientTiming.NothingLastsTooLong | src/client/controller.cpp:266-305 | With timely timers a connection never lasts longer without connect or pong than heartbeat interval and timeout together, and no command stays in progress longer than write and confirmation timeout together. |
| ClientTiming.NextKeepsPunctual | src/client/controller.cpp:53-61 | No event starts a heartbeat timer that would let the silence grow beyond that bound. |
| ClientTiming.NextKeepsBrisk | src/client/controller.cpp:368-384 | Nor a command timer that would let the command last longer. |
| ClientPatience.NextIsPatient | src/client/controller.cpp:16-61 | Whatever happens, each timer is left alone, stopped, or set for the whole of its delay. |
| ClientPatience.NothingFiresEarly | src/client/controller.cpp:266-305 | Over every run: the timers for replies, confirmations, heartbeats, pongs and attempts cannot fire before their whole delay has passed since a moment at which they were not armed. |
| ClientPatience.RepliesHaveTime | src/client/controller.cpp:471-476 | In every reachable state a command is given up for want of a reply only after the whole write timeout since it was sent, and a ping is due only after the whole interval since the last sign of life. |
| ClientPatience.RetriesWait | src/client/controller.cpp:239-246 | The next attempt after a failure waits for the whole delay the endpoints ask for, and 100 ms at least for the sake of a test server. |
| ClientAttempts.SettingDecides | src/client/controller.cpp:460-484 | In every reachable state a request is sent, with the next id, exactly if none is in progress, its values are acceptable, the endpoint is usable and a status is known; else it is refused, or passed over while one is in progress. |
| ClientAttempts.AddressesAllTried | src/client/controller.cpp:212-225 | Every address found by a lookup is tried, one after the other; only when all have failed the client gives up and schedules the next attempt. |
| ClientAttempts.LookupsAreTold | src/client/controller.cpp:189-192 | Numbers tell lookups apart: one that is given up leaves a higher number behind, and a new one has a new number. |
| ClientAttempts.NewEndpointIsTried | src/client/controller.cpp:107-123 | A new endpoint ends the connection, and a usable one is tried at once. |
| ClientAttempts.SameEndpointKept | src/client/controller.cpp:107-123 | Without a new endpoint, or while inactive, configuring leaves connection, timers and command alone. |
| ClientAttempts.LaunchedOnce | src/client/controller.cpp:79-103 | After the test server was launched a refusal is a failure like any other. |
| ClientAttempts.DeviceNewsDecide | src/client/controller.cpp:349-367 | News that the device failed fail the command in progress and make the status unknown; other news of server and device leave the command alone. |
| ClientAttempts.RefreshDecides | src/client/controller.cpp:247-261 | A refresh is put off once and never during a command; a client that is not connected then tries at once. |
| ClientAttempts.ConnectionEnds | src/client/controller.cpp:63-78 | The end of a connection leaves no status and no heartbeat, fails the command and schedules the next attempt. |
| ClientHearing.OversizedDeafens | src/client/controller.cpp:272-296 | After any read that makes the stream overlong, and any events but a stop, the client has no status to send a command on. |
| ClientHearing.DeafUntilStopped | src/client/controller.cpp:272-296 | Once deaf, it stays deaf over any events but a stop. |
| ClientHearing.HearsAgainExactly | src/client/controller.cpp:271-297 | A reachable, active, connected client without a status can come to send commands again, without a stop, exactly if its stream holds no line or rest over the limit. |
| ClientHearing.StopEndsAll | src/client/controller.cpp:151-173 | Stopping ends everything under way, stops every timer and empties the stream. |
| ClientHearing.StopCures | src/client/controller.cpp:151-173 | However deaf, a client that is stopped and started again can come to send commands. |
| ClientEvents.OrderedForever | src/client/controller.cpp:15-104 | The invariant behind these results holds over every run. |
| ClientLink.SocketErrorIsSound | src/client/controller.cpp:79-103 | An error of the socket, also a refusal that launches a test server once, leaves heartbeat timers, stages of connecting and the next attempt in order. |
| ClientLink.ConnectTimesOutIsSound | src/client/controller.cpp:28-42 | So does the watchdog of an attempt; it fires only during a lookup or a connection attempt. |
| ClientLink.LookedUpIsSound | src/client/controller.cpp:191-211 | So does the answer to a lookup, current or outdated. |
| ClientController.Controller.ReadServer | src/client/controller.cpp:271-297 | The reading loop on the object is the framing of the specification followed by the handlers of the envelopes. |
| ClientController.Controller.HandleEnvelope | src/client/controller.cpp:298-401 | The handlers change the object as the state machine says. |
| ClientController.Controller.Abort | src/client/controller.cpp:63-78 | Closing an established connection fails the command and schedules the next attempt. |
| ClientController.Controller.Configure | src/client/controller.cpp:107-123 | A new endpoint drops the connection and starts again at once. |
| ClientController.Controller.Execute | src/client/controller.cpp:15-104 | Every run of the object is a run of the state machine, so the theorems hold of the object. |

## Left out

- Sockets, pipes, polling, signals, file locking and atomic replacement: their outcomes are parameters.
- Device protocol and Lua interpreter: the device is a contract, a script an arbitrary choice of calls and outcomes.
- Integer widths: ids and revisions are unbounded; wrap-around after 2^64 is not modelled. The narrowing of weekdays to 32 bits is.
- Time zones and daylight saving: local time is linear.
- JSON: the text form is a function; of the printer only that it escapes line breaks is used, and the parser of the client is a parameter.
- Error texts, the source and occurrence key a command carries, state envelopes of the device and logging on the main thread.
- Device configuration: `configGeneration_` never changes after the start, so it is not part of the state.
- Reading from clients: input buffers of the server, its limit on them and the flushing of outputs; an output only grows until the client is closed.
- Access control: the list of allowed hosts, and leaving when idle.
- Persistence: handled occurrences are kept, their file is not; a failed write of the file changes nothing in the program.
- Partial writes: a status of which only a part was written leaves a file that the log does not describe, until it is truncated or the server refuses it at a restart.
- Device alerts, status history and the rest of the automation's diagnostics.
- Client: the automation editor, the long timer, progress texts and the single report of a failure.
- Slots that call back into the client while it emits a signal. The end of an established connection is reported from within the abort, as the Qt socket does.
- Server and client objects: `AirCtrlServer` appears as three classes, one for the worker, one for the main thread and one for the clients, and `Controller` as three objects, so an update that touches two of these parts at once is seen in one of them.
- DeviceLoop.AirCtrlServer.DeviceLoop: assumes a schedule in which the worker ends, as every run can (`EveryRunScheduled`); a program that is never stopped is covered state by state, not as a whole.
- ClientTiming.NothingLastsTooLong: assumes that the timers of heartbeat and command fire on time.
