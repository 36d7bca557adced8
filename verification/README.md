# Verified models of Kaisola

A model of five parts of Kaisola, written in Dafny 4.11 and checked by its verifier:
`dafny verify dfyconfig.toml`.

1. **The relay room** (`MuxFrame`, `RelayRoom`, `RelaySeats`, `RelayLinks`, `RelayReady`,
   `RelayTickets`, `RelayRuns`, `RelayEffects`, `RelayRoomObject`): tickets, desktop and phone
   sockets that replace each other, OPEN/DATA/CLOSE multiplexing, back-pressure closes and late
   close events. `RelayRoom` gives the handlers as functions on the room, `RelayRuns` the theorems
   about every run, `RelayEffects` what each event does socket by socket and what a phone hears,
   and `RelayRoomObject` the object whose methods update the room in place.
2. **Mesh and Idea groups**: `IdeaCycle`, `IdeaRuns`, `IdeaAnswers` and `IdeaGroup` model the
   bounded Idea transcript, what is recorded in it and what each member is shown; `MeshStage`,
   `MeshRuns`, `MeshProgress` and `MeshGroup` the stage protocol with Stop, Continue and late
   receipts, and why a stage can always end; `MeshReview`, `MeshIntegration`, `MeshOutcomes` and
   `ReviewSession` the review ring, the integration gate and the merges.
3. **The line diff** (`LineDiff`, `DiffHunks`, `LineMaps`).
4. **The bounded previews** (`JsonPreview`, `JsonOrder`, `TablePreview`).
5. **Transcript streaming, archive paging and the prompt queue** (`TranscriptStream`,
   `TranscriptOrder`, `ArchiveView`, `PromptBatch`, `PromptQueue`).

Each protocol is a state with one function per handler (`Step`), a predicate that says when an
event can happen (`Enabled`), and runs of any length. Beside it stands a class, or a method with
loops, that works step by step as the program does and is proved to do what the functions say.
The effect of every handler is stated a second time in terms of the fields and the history alone.

## What the proofs found

- A run of review and Continue can be merge-ready without a receipt for every candidate: on
  settling, receipts are rebuilt from the members that the last attempt addressed
  (src/components/GroupAssistant.tsx:483-508). `MergeReadyCanLackReceipts` gives a run with two
  members; `GatePassesIff` shows that integration then always stops at its receipt check, and
  that it passes exactly when there is a receipt from every member.
- A table printed with CR after one row and a following row that is one bare empty cell with LF
  reads back without that row, because CR LF is one line break. `ParseInvertsPrint` gives the
  exact condition and `LoneFeedIsLost` the smallest table. A last row without a line break that
  is one empty cell is not read either, and the truncation flag is also up at exactly 2,000 rows.
- A buffer that opens a turn is cut at the cap, where appending chunk by chunk would compact the
  middle: `OpeningBeyondTheCapCuts` gives the exact condition, and `CutIsForgotten` when the
  difference is gone again. Once a turn is open, buffering is invisible at any length.
- The prompt queue is meant to hold at most 21 prompts and to lose none. It does, exactly as long
  as every prompt that is put back meets at most 20 others (`BoundHoldsExactly`). The undo of a
  preflight does not look at the cap (src/store/store.ts:4157-4169) and is the one event that goes
  beyond it (`BoundBreaksExactlyOnUndo`); the other put-backs lose their prompt at the cap
  (`LostExactlyIfFull`). Both happen when something is sent while the reply of a stopped queued
  prompt is still to come: by the composer, or by a card that was hidden and shown again and
  drains anew (src/components/shell/SessionCards.tsx:425-429). Either kind alone reaches 22 prompts,
  which is the most (`TwentyTwoIsReached`, `AtMostTwentyTwo`), and can lose an accepted prompt
  (`OverlapCanLoseAPrompt`). Without such an overlap the bound holds (`QueueStaysBounded`) and all
  text keeps its place (`NoTextIsLost`); with one, texts can change places (`OverlapReorders`).
- Merging Idea messages is called idempotent (src/lib/ideaCycle.ts:35). It is, exactly if at most
  400 ids are new and no known id stands so early that the new ones push it out of the window
  (`MergeAgain`). In a full window, the oldest message again beside a new one is not
  (`ReplacedOldestComesBack`, `MergeIsNotIdempotent`). Every merge that a run of Idea mode makes is
  (`EveryMergeIsIdempotent`), so a Stop before settling changes nothing (`StopThenSettle`).
- Above the size cut-off of the diff, hunks cut short can still patch exactly, when the old text is
  the new one behind as many lines as are shown; `HunksPatchExactly` has no other exception.
- The comment on the line diff names the Myers algorithm; the code, which the model follows, is
  the dynamic-programming longest common subsequence (src/lib/lineDiff.ts:3-4, 31-57).

## Assumptions

- Relay: what a handler does after its last await is one step; a socket stays listed until its one
  close event has been handled; tickets and channel ids are fresh; issuing a ticket is one step
  although it awaits a digest between counting and storing; a socket that throws from `send` is
  `faulty`; keys, digests, accounts and HTTP are not modelled. A device id is ASCII and needs no
  JSON escape.
- Mesh: attempt and cycle ids are new and have no colon; a member's thread id is not `user`;
  every addressed member has a prompt that is not empty; only prompts of the group reach its
  workers; the last busy check of Continue and what follows it are one step. Idea sessions start
  with an empty transcript and no cursors, and keep their members.
- Streaming: one prompt's stream, with no steered user turn in between. Text is a sequence of
  UTF-16 code units.
- Archive: a page reply answers the request that was made; the encoded size of a turn is given.
- Queue: texts are those before the cut at 1,000,000 characters.
- JSON preview: a record is the list of its fields in key order.

## Model

| member | source | states |
|---|---|---|
| MuxFrame.DecodeInvertsEncode | relay/src/index.js:134-166 | whatever kind, channel and payload can be encoded decodes to itself |
| MuxFrame.EncodeInvertsDecode | relay/src/index.js:150-166 | an accepted frame encodes back to the very same bytes if and only if its channel bytes do not begin with a byte-order mark |
| MuxFrame.DevicePayloadFits | relay/src/index.js:4-10 | every payload taken from a device still fits once wrapped as DATA |
| MuxFrame.OnlyAsciiDecodesToAscii | relay/src/index.js:150-166 | a UTF-8 text whose code points are all ASCII consists of exactly those bytes, so a channel has one spelling |
| MuxFrame.EncodeMuxFrame | relay/src/index.js:134-148 | the byte array filled part by part is the encoding, and none exists exactly when the kind, channel or size is refused |
| RelaySeats.AcceptSeats | relay/src/index.js:256-293 | accepting a socket keeps one open socket for each seat and at most 8 and 16 distinct listed ids, although replacements bypass the count |
| RelaySeats.OpenCaps | relay/src/index.js:259-267 | the bound on distinct listed ids bounds the open desktops by 8 and the open devices by 16 |
| RelayLinks.OpenAllKeepsLinks | relay/src/index.js:280-285 | after the opening loop every listed device of the new desktop has one fresh OPEN on it and all other sessions are untouched |
| RelayLinks.GreetKeepsLinks | relay/src/index.js:269-293 | a new desktop or device leaves every pair with at most one session and live pairs complete |
| RelayLinks.FromDeviceKeepsLinks | relay/src/index.js:337-347 | a device payload extends its session by itself or, when it cannot be sent, closes the desktop, so no gap can follow |
| RelayLinks.ReceiveKeepsLinks | relay/src/index.js:318-367 | every message, well formed or not, keeps all sessions |
| RelayLinks.HandleClosedKeepsLinks | relay/src/index.js:377-393 | a close event, however late, ends only the sessions of its own socket |
| RelayReady.OpenAllReady | relay/src/index.js:284-285 | after the opening loop each device of the new desktop was told ready, or to wait if the desktop had to be closed |
| RelayReady.GreetReady | relay/src/index.js:280-293 | a new socket leaves every device told the truth about its desktop |
| RelayReady.HandleClosedReady | relay/src/index.js:377-388 | the close event of a replaced desktop does not tell its devices to wait, that of the last one does |
| RelayTickets.IssueKeepsTickets | relay/src/index.js:217-240 | issuing keeps at most 64 stored tickets, each with its role and time of issue |
| RelayTickets.SweepLimitDecides | relay/src/index.js:223-239 | in all runs of issues at most 64 tickets are stored if and only if the sweep may list that many |
| RelayTickets.ShorterSweepOverfills | relay/src/index.js:223-239 | with a sweep that lists fewer tickets than the cap, a run of issues stores any number |
| RelayTickets.ConsumeKeepsTickets | relay/src/index.js:242-254 | a ticket leaves storage with its one redemption, expired or not |
| RelayRuns.StepKeepsInv | relay/src/index.js:208-393 | every event keeps the invariants of seats, sessions, readiness, tickets and buffers together |
| RelayRuns.SeatsInEveryRun | relay/src/index.js:256-293 | in every reachable room at most one socket is open for each desktop id and device id, and at most 8 desktops and 16 devices |
| RelayRuns.SessionsInEveryRun | relay/src/index.js:280-392 | in every reachable room the frames of one device on one desktop are none, or OPEN, an unbroken and unaltered run of what the device sent since, then CLOSE or nothing; while both are connected the run is complete; a desktop hears nothing on any channel but those of devices of its own desktop id |
| RelayRuns.ReadyInEveryRun | relay/src/index.js:280-316 | with no close event pending, an open device that missed no note was last told ready exactly when an open desktop has its id |
| RelayRuns.TicketsInEveryRun | relay/src/index.js:217-259 | no two connections used one ticket, each within 60 seconds of issue and with the role issued; at most 64 tickets are stored |
| RelayRuns.BuffersInEveryRun | relay/src/index.js:168-178 | no socket ever has more than 4 MiB buffered |
| RelayRuns.FramesDecodeInEveryRun | relay/src/index.js:134-166 | every frame sent to a desktop can be encoded and decodes back |
| RelayEffects.DataArrives | relay/src/index.js:351-367 | a DATA frame for an open device of the desktop's id arrives there as the bare payload, or closes the device if that has no room; no other socket changes |
| RelayEffects.CloseArrives | relay/src/index.js:351-367 | a CLOSE frame for an open device of the desktop's id closes it and sends nothing |
| RelayEffects.ForeignFrameIsDropped | relay/src/index.js:363-365 | a frame for a channel on which no open device has the desktop's id changes no socket |
| RelayEffects.BadFrameCloses | relay/src/index.js:354-362 | bytes that hold no frame, and an OPEN frame, close the desktop alone |
| RelayEffects.PayloadArrives | relay/src/index.js:337-347 | a device's payload reaches the open desktop of its id as DATA on its channel, or the desktop is closed and the device told to wait |
| RelayEffects.PayloadWaits | relay/src/index.js:337-342 | without an open desktop of its id the device is told to wait |
| RelayEffects.OtherMessages | relay/src/index.js:326-336 | a ping is answered if there is room; other text and sizes not allowed close the socket alone |
| RelayEffects.DeviceCloseIsHeard | relay/src/index.js:389-392 | the open desktop of a closed device's id hears CLOSE as the last frame of the channel if it has room |
| RelayEffects.DeviceCloseUnheard | relay/src/index.js:389-392 | a closed device whose id has no open desktop is unlisted, and nothing else changes |
| RelayEffects.DesktopCloseIsHeard | relay/src/index.js:380-388 | a closed desktop's listed devices are told to wait unless another desktop of the id is open; nobody else changes |
| RelayEffects.RefusedExactly | relay/src/index.js:259-267 | a connection is refused if and only if no listed socket has its seat and 8 desktops or 16 devices are listed |
| RelayEffects.DeviceEnters | relay/src/index.js:286-293 | a new device closes those in its seat and is announced to the open desktop of its id, which is closed if it has no room |
| RelayEffects.DeviceWaits | relay/src/index.js:286-293 | without an open desktop of its id a new device is told to wait |
| RelayEffects.DesktopEnters | relay/src/index.js:280-285 | a new desktop with room hears that it is ready and then one OPEN for each listed device of its id in order, and these are told ready |
| RelayEffects.FaultyDesktopEnters | relay/src/index.js:280-285 | a new desktop that throws hears nothing and is closed once there is a device, and the devices are told to wait |
| RelayEffects.OpenNamesDevice | relay/src/index.js:309 | the payload of OPEN is the JSON text with the device's id |
| RelayEffects.IssueStores | relay/src/index.js:217-230 | while fewer than 64 tickets are live a request stores one for 60 seconds with its role, otherwise none; expired ones go |
| RelayEffects.RedeemAdmits | relay/src/index.js:242-254 | a stored ticket redeemed within 60 seconds admits a socket with the role it was issued for, later none; an unknown ticket changes nothing |
| RelayEffects.DataInEveryRun | relay/src/index.js:318-367 | in every run the bare payloads sent to a device are, in order and unaltered, those of the DATA frames its id's desktops delivered on its channel while it was open with room, and what was taken from it is what it delivered |
| RelayRoomObject.KaisolaLinkRoom.ClearExpiredTickets | relay/src/index.js:232-240 | the loop over the listing deletes exactly the stale tickets and returns how many remain |
| RelayRoomObject.KaisolaLinkRoom.Issue | relay/src/index.js:217-230 | the object's storage after issuing is that of the issue step |
| RelayRoomObject.KaisolaLinkRoom.Consume | relay/src/index.js:242-254 | the object's storage and claims after redeeming are those of the consume step |
| RelayRoomObject.KaisolaLinkRoom.Connect | relay/src/index.js:256-295 | the object after connecting is that of the accept step, refused exactly at the caps |
| RelayRoomObject.KaisolaLinkRoom.WebSocketMessage | relay/src/index.js:318-367 | the sockets after a message are those of the deliver step |
| RelayRoomObject.KaisolaLinkRoom.HandleClosed | relay/src/index.js:377-393 | the sockets after a close event are those of the close step |
| IdeaCycle.IdsAreDistinct | src/lib/ideaCycle.ts:29-30 | a message id names one cycle, one kind and, for answers, one author |
| IdeaCycle.MergeAgain | src/lib/ideaCycle.ts:35-47 | repeating a merge changes nothing if and only if at most 400 ids are new and no known id stands so early that the new ones push it out |
| IdeaCycle.ReplacedOldestComesBack | src/lib/ideaCycle.ts:35-47 | in a full window, the oldest id with any new one beside it makes a merge that is not idempotent |
| IdeaCycle.MergeIsNotIdempotent | src/lib/ideaCycle.ts:35-47 | 400 messages with distinct ids and two entries for which merging twice differs from merging once |
| IdeaCycle.MergeWindow | src/lib/ideaCycle.ts:38-47 | merging into the window of a history gives the window of the merged history when no entry's id stands before it |
| IdeaCycle.MergeIdeaMessages | src/lib/ideaCycle.ts:38-47 | the loop that replaces known ids in place and appends the others computes the merge |
| IdeaRuns.CycleIsShort | src/components/GroupAssistant.tsx:518-540 | a cycle of at most six members has at most thirteen messages, whatever was stopped and continued |
| IdeaRuns.StepKeepsInv | src/components/GroupAssistant.tsx:383-389 | every handler keeps window, cursors and what was handed out in step with the full history |
| IdeaRuns.EveryMergeIsIdempotent | src/lib/ideaCycle.ts:35-47 | in every run, each merge meets the condition, can be repeated without change and leaves every id once |
| IdeaRuns.StopThenSettle | src/components/GroupAssistant.tsx:383-388 | in every run, recording at a Stop what the settling pass records again leaves what settling alone leaves |
| IdeaRuns.ShownStays | src/components/GroupAssistant.tsx:518-540 | a message once shown to a member is never replaced or removed |
| IdeaRuns.EveryMessageIsHandedOnce | src/components/GroupAssistant.tsx:734-769 | in every run, when an idea is sent each member has been handed every message the others ever wrote, in order and once |
| IdeaRuns.HandedIsAPrefix | src/components/GroupAssistant.tsx:518-533 | at every moment a member has been handed an initial part of what the others wrote, each message once |
| IdeaRuns.CursorStaysInWindow | src/lib/ideaCycle.ts:52-73 | a saved cursor is always found in the 400-message window, so the transcript is never replayed |
| IdeaRuns.FirstPassIsBlind | src/lib/ideaCycle.ts:78-87 | of its own cycle a member's first packet holds the user's message alone |
| IdeaAnswers.AnswersAreRecorded | src/components/GroupAssistant.tsx:365-389 | in every run a recorded pass leaves one message for each member that said something, with the name, text and time of its last reply that is not blank; nothing else is added and every other message stays |
| IdeaAnswers.CycleAdvances | src/components/GroupAssistant.tsx:518-540 | an idea adds the user's message and opens a cycle, first answers lead to reactions, reactions end the cycle, a Stop keeps the pass |
| IdeaAnswers.AnswersReachEveryone | src/components/GroupAssistant.tsx:518-540 | in every run what a member last said in a pass that settled is handed to every other member, with the reactions if it was a first answer and with the next idea at the latest |
| IdeaAnswers.OthersAreChosen | src/lib/ideaCycle.ts:52-73 | a packet holds exactly the messages by others, in order and each once |
| IdeaAnswers.CursorDecides | src/lib/ideaCycle.ts:52-73 | a member without a known cursor is shown all that the others wrote, any other what follows its cursor |
| IdeaAnswers.TranscriptIsTheEnd | src/lib/ideaCycle.ts:46 | in every run the transcript is the history or its last 400 messages |
| IdeaGroup.GroupRecord.SendIdea | src/components/GroupAssistant.tsx:734-769 | the record is that of the send step, each packet is what the member has not seen, and nothing is sent without text, members, workspace or rest |
| IdeaGroup.GroupRecord.Snapshot | src/components/GroupAssistant.tsx:383-388 | a Stop records what the running pass produced and changes nothing else |
| IdeaGroup.GroupRecord.SettleInitial | src/components/GroupAssistant.tsx:518-533 | the record is that of the settle step and each packet is the peers' initial answers |
| IdeaGroup.GroupRecord.SettleReaction | src/components/GroupAssistant.tsx:534-540 | the record is that of the last step of a cycle |
| MeshRuns.WorkerEventKeeps | src/components/Assistant.tsx:1916-1990 | whatever happens at a worker, it holds at most one prompt of an attempt, always the one it was asked, and none after a success |
| MeshRuns.StepKeepsInv | src/components/GroupAssistant.tsx:310-434 | every event keeps the invariant of workers, records, stage and a waiting Continue |
| MeshRuns.BaseRecords | src/components/GroupAssistant.tsx:677-688 | recording onto what Continue read when it began loses nothing recorded since |
| MeshRuns.SettlingLeavesNobodyOut | src/components/GroupAssistant.tsx:438-480 | in every run, a settled stage leaves a recorded answer that is not empty, recorded by this stage, for every member first addressed |
| MeshRuns.UnaddressedIsRecorded | src/components/GroupAssistant.tsx:682-695 | at every moment a member first addressed and no longer among the targets has its answer recorded |
| MeshRuns.PromptedOnlyIfUnanswered | src/lib/meshPolicy.ts:36-51 | a current prompt goes only to a member still addressed, without a successful receipt or a recorded answer; it is what was first asked, and no second one waits |
| MeshProgress.ContinueAsksTheUnfinished | src/components/GroupAssistant.tsx:677-695 | when a Continue ends whose stage is still stopped and current, a new attempt is minted if and only if some target has no answer; exactly those are addressed and get what they were first asked in a running queue; otherwise the group goes on with its attempt |
| MeshProgress.StaleContinueEnds | src/components/GroupAssistant.tsx:677-678 | a Continue whose stage was left or is no longer stopped changes nothing |
| MeshProgress.ContinueBegins | src/components/GroupAssistant.tsx:608-615 | Continue only resumes if all that were stopped have finished; otherwise it keeps what it read |
| MeshProgress.StopWithdraws | src/components/GroupAssistant.tsx:419-428 | after Stop an unfinished target is held, prepares nothing and keeps no prompt but the one it was preparing; all others are untouched |
| MeshProgress.StopWaits | src/components/GroupAssistant.tsx:407-418 | Stop waits for exactly the unfinished targets and changes nothing else of the group |
| MeshProgress.StopRecords | src/components/GroupAssistant.tsx:407-414 | Stop records the answer of each finished target and no other |
| MeshProgress.StageStarts | src/components/GroupAssistant.tsx:567-606 | a new stage gives each member asked its prompt alone in a running queue and touches nobody else |
| MeshProgress.StageEnds | src/components/GroupAssistant.tsx:438-480 | a settled stage is over and each target's last answer is recorded |
| MeshProgress.TakeStarts | src/components/Assistant.tsx:2153-2193 | a drain starts the first prompt if it is current and removes exactly the prompts at the head that share its attempt |
| MeshProgress.RefusedComesBack | src/components/Assistant.tsx:2172-2182 | a refused or lost prompt becomes the first of the held queue again |
| MeshProgress.StageCanSettle | src/components/GroupAssistant.tsx:407-480 | from every state of every run within a stage some events lead to where it settles, with everyone first addressed answered |
| MeshRuns.OnlyCurrentReceiptsCount | src/components/GroupAssistant.tsx:319-327 | in every run, each newly recorded text is that of the member's successful receipt of the attempt current just before; a receipt of a superseded attempt never contributes |
| MeshRuns.RecordedIsFinal | src/components/GroupAssistant.tsx:377-407 | within a stage a recorded answer never changes |
| MeshGroup.GroupSession.QueueStage | src/components/GroupAssistant.tsx:567-600 | the loop over the targets mints one attempt and leaves each target exactly its prompt in a running queue |
| MeshGroup.GroupSession.StartStage | src/components/GroupAssistant.tsx:567-600 | a new stage begins with nothing recorded by it and every target asked |
| MeshGroup.GroupSession.PauseStage | src/components/GroupAssistant.tsx:405-434 | Stop records exactly the finished members, withdraws every unsent prompt of the others and marks them pending |
| MeshGroup.GroupSession.BeginContinue | src/components/GroupAssistant.tsx:602-611 | Continue with nobody left only resumes; otherwise it keeps what it read and waits |
| MeshGroup.GroupSession.FinishContinue | src/components/GroupAssistant.tsx:677-695 | Continue records whoever finished meanwhile and queues the others again, or does nothing if the stage moved on |
| MeshGroup.GroupSession.Settle | src/components/GroupAssistant.tsx:454-471 | settling records the texts of all targets and ends the stage |
| MeshReview.ValidMeansAttests | src/lib/meshReview.ts:67-82 | a receipt is accepted if and only if it names the expected candidate and commit, covers exactly its files, approves and has no finding |
| MeshReview.RingIsPerfect | src/components/GroupAssistant.tsx:352-363 | for two members or more nobody reviews their own candidate and every candidate has exactly one reviewer |
| MeshIntegration.SettleKeeps | src/components/GroupAssistant.tsx:483-508 | a review settles merge-ready only with a valid receipt from each member last addressed |
| MeshIntegration.FoundIsReviewers | src/components/GroupAssistant.tsx:995-1005 | the receipt found for a candidate at the gate is that of its ring reviewer, or there is none |
| MeshIntegration.GatePassesIff | src/components/GroupAssistant.tsx:995-1015 | integration passes its receipt check if and only if there is a receipt from every member |
| MeshIntegration.MergeReadyCanLackReceipts | src/components/GroupAssistant.tsx:483-508 | a run that is merge-ready while a candidate has no receipt |
| MeshIntegration.EveryMergeWasApproved | src/components/GroupAssistant.tsx:1043-1049 | in every run, every merge used a commit frozen for its candidate and approved, with exactly its files, by a different member |
| MeshIntegration.NoMergeBeforeAllChecks | src/components/GroupAssistant.tsx:978-1068 | no merge starts before every candidate passed the receipt check and the verification; merges follow member order and use each frozen commit once |
| MeshOutcomes.ReviewBegins | src/components/GroupAssistant.tsx:903-951 | a cross-review freezes one commit and file list for every member, drops old receipts and asks all |
| MeshOutcomes.ReworkForgets | src/components/GroupAssistant.tsx:956-978 | asking for changes forgets every frozen commit and receipt, so no old receipt can pass for a new candidate |
| MeshOutcomes.ReviewSettles | src/components/GroupAssistant.tsx:483-508 | a review settles merge-ready if and only if everyone asked approved the candidate it reviews, and back to execution-ready otherwise; the receipts kept are those returned for frozen candidates |
| MeshOutcomes.CheckedMeans | src/components/GroupAssistant.tsx:990-1042 | integration reaches its merges if and only if every candidate is frozen, approved and unchanged and the operation goes on |
| MeshOutcomes.IntegrationMerges | src/components/GroupAssistant.tsx:1043-1062 | the frozen commits are merged in member order up to the first round that is not a plain success, and that one too if it was asked for |
| MeshOutcomes.IntegrationEnds | src/components/GroupAssistant.tsx:1043-1068 | the group integrates if and only if all merged or the first other reply is a conflict and nothing was lost; it goes back without commits exactly on a candidate that changed; otherwise it stays |
| MeshOutcomes.AllAreMerged | src/components/GroupAssistant.tsx:1043-1068 | if no round goes wrong every member's frozen commit is merged once, in order |
| MeshOutcomes.IntegrationStops | src/components/GroupAssistant.tsx:990-1042 | without all checks nothing is merged, and which check failed first decides what is dropped |
| ReviewSession.Session.CheckReplies | src/components/GroupAssistant.tsx:484-497 | the checks keep every receipt returned for a frozen candidate and reject exactly if one reply is not valid |
| ReviewSession.Session.Integrate | src/components/GroupAssistant.tsx:978-1068 | the record after integration is that of the integrate step, for every outcome of every check and merge |
| ReviewSession.Session.MergeCandidates | src/components/GroupAssistant.tsx:1043-1068 | the merge loop asks for the merges of the step, in order, and ends as it does |
| LineDiff.JoinSplit | src/lib/lineDiff.ts:22-23 | splitting a text at its line feeds loses nothing |
| LineDiff.DiffSpells | src/lib/lineDiff.ts:21-58 | on every pair of texts, context and deletions spell the old text, context and additions the new one, above the cut-off as well |
| LineDiff.DiffIsMinimal | src/lib/lineDiff.ts:31-57 | below the cut-off no edit script changes fewer lines |
| LineDiff.DeletionsComeFirst | src/lib/lineDiff.ts:40-57 | on every pair of texts, in each run of changed lines the deletions stand before the additions |
| LineDiff.DiffKeepsMost | src/lib/lineDiff.ts:31-57 | below the cut-off the kept lines are at least as many as any common subsequence has |
| LineDiff.FillTable | src/lib/lineDiff.ts:31-38 | the nested loops fill the table with the longest common subsequences of all suffixes, in 32 bits |
| LineDiff.DiffLines | src/lib/lineDiff.ts:21-58 | table and walk compute the diff |
| DiffHunks.HunksMakeShownChanges | src/lib/lineDiff.ts:61-87 | whatever lines are shown, the hunks fit the old text at their header lines and make exactly the shown changes |
| DiffHunks.HunksPatchExactly | src/lib/lineDiff.ts:61-87 | the hunks patch the old text into the new one if and only if every change is shown or, above the cut-off, the old text is the new one behind as many lines as may be shown |
| DiffHunks.UncutHunks | src/lib/lineDiff.ts:61-87 | when no more than maxLines lines are kept, the hunks patch exactly and what is left out is context farther than context from any change |
| DiffHunks.HunkLines | src/lib/lineDiff.ts:61-87 | in all cases the hunks hold in order the first maxLines of the lines at most context away from a change, one hunk for each unbroken run |
| DiffHunks.DiffHunks | src/lib/lineDiff.ts:61-87 | the marking and grouping loops compute the hunks |
| LineMaps.MapKeepsMost | src/lib/lineDiff.ts:100-115 | one entry for each new line; the others name equal old lines in increasing order, as many as any common subsequence allows below the cut-off |
| LineMaps.MapNewToOld | src/lib/lineDiff.ts:100-115 | the loop computes the map |
| LineMaps.MarksShowChanges | src/lib/lineDiff.ts:119-135 | uncapped, each added line is marked once, each place of deletion once, in order from 1 to one past the end |
| LineMaps.ChangedNewLines | src/lib/lineDiff.ts:119-135 | the loop yields the first marks up to the cap |
| JsonPreview.BuildIsFaithful | src/components/DocumentPreview.tsx:1156-1197 | for any value: at most 5,000 nodes, 32 levels and 200 children; each node shows an initial run of its value's members; it is marked exactly when some are missing, for a limit; the overall flag is up exactly when the value does not fit |
| JsonPreview.TurnKeeps | src/components/DocumentPreview.tsx:1167-1195 | one turn of the worklist keeps every value shown, pending or marked missing |
| JsonPreview.BuildPreviewJsonTree | src/components/DocumentPreview.tsx:1156-1197 | the linked nodes are distinct and are those of the projection, as many as counted; the tree is the complete image of the value exactly when it is not reported truncated |
| JsonPreview.WholeExactlyIfImage | src/components/DocumentPreview.tsx:1191-1194 | the truncation flag is down if and only if the root and the nodes below it show all of the value |
| JsonOrder.OlderGoShort | src/components/DocumentPreview.tsx:1167-1195 | of two nodes that the node limit leaves short the older has no children at all, unless the newer is its child: the newest are expanded first |
| TablePreview.ParseInvertsPrint | src/components/DocumentPreview.tsx:1111-1141 | any printing under section 2 of RFC 4180, any choice of quotes and line breaks, parses back to the table exactly when no bare empty row with LF follows a CR and an unterminated last row is not one empty cell |
| TablePreview.LoneFeedIsLost | src/components/DocumentPreview.tsx:1129-1135 | the smallest table that does not come back |
| TablePreview.ParseKeepsFirstRows | src/components/DocumentPreview.tsx:1133 | a longer table keeps its first 2,000 rows and is flagged |
| TablePreview.ParseWithin | src/components/DocumentPreview.tsx:1111-1141 | any text at all yields at most 2,000 rows of at most 200 cells |
| TablePreview.OpenQuoteIsReported | src/components/DocumentPreview.tsx:1138 | a table followed by an unclosed quoted cell returns exactly the rows before that cell's row, with the error up |
| TablePreview.LongTextIsCut | src/components/DocumentPreview.tsx:1117-1118 | of a longer text the first 4,000,000 characters are read, and the truncation flag is up |
| TablePreview.ParseTable | src/components/DocumentPreview.tsx:1111-1141 | the character loop computes the parse |
| TranscriptStream.BoundedTwice | src/components/Assistant.tsx:219-225 | compacting early loses nothing that compacting late would keep |
| TranscriptStream.AppendsJoin | src/components/Assistant.tsx:219-225 | appending two chunks in turn is appending them joined, at any length |
| TranscriptStream.BufferingIsInvisible | src/components/Assistant.tsx:1659-1695 | for every placement of timers the buffered stream yields the turns of appending each chunk at once, as long as no buffer that opens a turn exceeds the cap |
| TranscriptStream.WithinCapsNothingIsLost | src/components/Assistant.tsx:1659-1774 | for every placement of timers, while turns stay within their caps the transcript is the plain concatenation of the chunks |
| TranscriptStream.TurnsNeverExceedCaps | src/components/Assistant.tsx:219-225 | no text turn ever exceeds its cap |
| TranscriptStream.OpeningBeyondTheCapCuts | src/components/Assistant.tsx:1679 | for chunks flushed together into a new turn after any turns, buffering and appending agree if and only if what appending gathers fits the cap or reads as if already compacted |
| TranscriptStream.CutIsForgotten | src/components/Assistant.tsx:1678-1679 | the two agree again once the turn has grown by as much as compacting keeps of its end |
| TranscriptOrder.TimerAppends | src/components/Assistant.tsx:1662-1689 | a flush appends the buffer to the last turn of its voice or opens a turn with it; within the cap nothing is cut |
| TranscriptOrder.ChunkIsBuffered | src/components/Assistant.tsx:1690-1695 | a chunk joins the buffer of its own voice after the other voice's buffer was flushed |
| TranscriptOrder.ToolStandsLast | src/components/Assistant.tsx:1751-1757 | after a tool call the turns are the flushed ones and one tool turn with its id and the title's first 4,000 units |
| TranscriptOrder.SpeechAfterTool | src/components/Assistant.tsx:1751-1757 | what is said after a tool call opens a new turn behind it |
| TranscriptOrder.UpdateRenames | src/components/Assistant.tsx:1758-1772 | a tool update gives every tool turn of its id the new title, or cuts its own, and leaves every other turn as it was |
| TranscriptOrder.ToolsAreTheCalls | src/components/Assistant.tsx:1734-1773 | for every placement of timers the tool turns of a stream are its tool calls, each once and in order |
| TranscriptOrder.EveryWordIsSaid | src/components/Assistant.tsx:1734-1773 | for every placement of timers, within the caps the turns of a voice say joined exactly what its chunks say |
| TranscriptStream.Updater.Update | src/components/Assistant.tsx:1734-1773 | the updater's fields after an event are those of the stream step |
| ArchiveView.BoundFits | src/components/Assistant.tsx:131-145 | the rows kept are the longest initial run within 48 rows and 3 MiB |
| ArchiveView.BoundArchivedView | src/components/Assistant.tsx:131-145 | the loop keeps exactly those rows and reports whether any were left out |
| ArchiveView.MergeAscends | src/components/Assistant.tsx:147-151 | any two pages merge into rows of strictly increasing index |
| ArchiveView.MergePrepends | src/components/Assistant.tsx:147-151 | a page that ends where the rows begin goes in front of them |
| ArchiveView.LoadKeeps | src/components/Assistant.tsx:943-982 | every load leaves the rows those of the archive from the cursor to some end, and without a gap to the end of the first page |
| ArchiveView.LoadShowsMost | src/components/Assistant.tsx:943-982 | a load shows as many of the known rows from the new cursor on as 48 rows and 3 MiB allow; the gap flag is up exactly if some were left out, and more is offered exactly before the beginning |
| ArchiveView.RowsAreTheArchives | src/components/Assistant.tsx:955-971 | in every run each row is the archive's record at its index, malformed records shift nothing, and both limits hold |
| ArchiveView.RowsFormAnInterval | src/components/Assistant.tsx:955-971 | the rows of a well-formed archive are one contiguous interval from the saved cursor |
| ArchiveView.NoGapNothingMissing | src/components/Assistant.tsx:973-976 | while the gap flag is down no record from the cursor to the end of the first page is missing, whatever was appended meanwhile |
| ArchiveView.Page | electron/ipc/assistantArchive.cjs:230-275 | the reader's page ends at the cursor, is never empty before the beginning, fits its limits and is no shorter than they demand |
| ArchiveView.Card.LoadOlderTurns | src/components/Assistant.tsx:943-982 | the card after a page is that of the load step |
| PromptBatch.BatchesLoseNothing | src/components/Assistant.tsx:200-209 | taking batch after batch hands over the whole queue in order |
| PromptBatch.BatchesAreMaximal | src/components/Assistant.tsx:200-209 | every batch has one provenance and the next begins with another |
| PromptBatch.BatchesShareOrigin | src/components/Assistant.tsx:200-209 | any two prompts of a batch were minted by one phase of one attempt or by the user, and the next batch's first was not |
| PromptBatch.TrimDrops | src/components/Assistant.tsx:187-190 | trimming drops nothing but white space at both ends |
| PromptBatch.MergedTextJoins | src/components/Assistant.tsx:187-190 | prompts made of joined pieces merge into the join of all their pieces, so batching again changes no text |
| PromptBatch.MergeKeepsProvenance | src/components/Assistant.tsx:182-196 | a merged batch carries the marker of each of its prompts |
| PromptBatch.MergedTakesNewest | src/components/Assistant.tsx:182-196 | a merged batch has the newest speed, and a marker if and only if all its prompts are of one attempt, then the newest's |
| PromptBatch.AddNewKeepsFirsts | src/components/Assistant.tsx:169-181 | keeping what has a new key keeps exactly the first occurrence of each key, in order, each key once |
| PromptBatch.MergedOnce | src/components/Assistant.tsx:169-194 | a merged batch holds the first 64 distinct mentions and the first 64 distinct attachments of its prompts, none twice |
| PromptBatch.MergeMentions | src/components/Assistant.tsx:169-181 | the nested loops keep the first 64 of the mentions that are first of their key, each key once |
| PromptQueue.BoundBreaksExactlyOnUndo | src/store/store.ts:4157-4169 | from a queue of at most 21, an event leaves more if and only if it undoes a preflight into a queue of 21 |
| PromptQueue.BoundHoldsExactly | src/lib/assistantQueuePolicy.ts:1-15 | along any run the queue holds at most 21 prompts and none is lost if and only if every prompt put back meets at most 20 |
| PromptQueue.QueueStaysBounded | src/lib/assistantQueuePolicy.ts:1-15 | in every run whose sends neither overlap a late reply nor pass a full queue, the queue holds at most 21 prompts, at most 20 while one is out, and no accepted prompt is lost |
| PromptQueue.AtMostTwentyTwo | src/store/store.ts:4144-4169 | however many replies are late, if direct sends begin on an empty queue it holds at most 22 prompts |
| PromptQueue.TwentyTwoIsReached | src/components/Assistant.tsx:2172-2182 | for either kind of overlap alone a reachable thread has 22 queued prompts |
| PromptQueue.LostExactlyIfFull | src/components/Assistant.tsx:2172-2182 | an accepted prompt is lost if and only if a failed or late reply puts it back into a queue of 21 or more |
| PromptQueue.OverlapCanLoseAPrompt | src/components/Assistant.tsx:2172-2182 | for either kind of overlap alone a reachable thread has lost an accepted prompt |
| PromptQueue.MergedReadsTheSame | src/components/Assistant.tsx:2169-2172 | a merged batch in front of the rest reads like the unmerged queue |
| PromptQueue.NoTextIsLost | src/components/Assistant.tsx:2153-2193 | however often batches are claimed, delivered, stopped, undone or failed, unless sends overlap, what was delivered, what is on its way and what is queued read together exactly as before, followed by what the user added |
| PromptQueue.OverlapReorders | src/components/Assistant.tsx:2172-2182 | for any two prompts a run with an overlap leaves their texts in the other order |
| PromptQueue.UserAdds | src/lib/assistantQueuePolicy.ts:7-15 | a prompt that is not blank joins the end of the queue while fewer than 20 wait, any other is refused |
| PromptQueue.UserTakesOut | src/store/store.ts:4347-4369 | the user can empty the queue or take one prompt out of it, which leaves the others in order |
| PromptQueue.ThreadQueue.EnqueueAssistantPrompt | src/store/store.ts:4309-4333 | a prompt is accepted exactly if it is not blank and the cap allows, and goes to the asked end |
| PromptQueue.ThreadQueue.ClaimBatch | src/components/Assistant.tsx:2164-2172 | the drain's claim is the claim step: the batch leaves the queue as one merged prompt |
| PromptQueue.ThreadQueue.RollbackAssistantDispatch | src/store/store.ts:4144-4207 | a preflight undone goes back to the composer or to the front of the queue |

## Left out

- React rendering, DOM, editors and terminals: no specification to prove.
- Cryptography, HTTP routing and request bodies of the relay: tickets and channels are fresh ids.
- The wording of prompts and the character cuts on prompt packets: packets are lists of messages.
- Parsing the JSON of a review reply (src/lib/meshReview.ts:31-65): a reply returns some receipt or none.
- The order of Idea answers by completion time: entries are merged in any order, so every order is covered.
- The other phases of a Mesh mission and who may start them: a stage is started with any prompts.
- Worktrees, git and agent connections: their replies are arbitrary inputs.
- The text of a hunk header: its line number is modelled.
- Thought durations, tool artifacts, plan and usage of a transcript: only kinds and texts of turns.
- The rewriting of an archive record into a turn: a record gives a turn or is malformed.
- Legacy Mesh phases, numeric Idea cursors and sessions without attempt ids.
- The `diffStat` counts: sums over the diff that follow from what is proved of it.
- TranscriptStream.BufferingIsInvisible: over whole streams a sufficient condition, since texts that repeat themselves can agree by chance and a difference can pass (CutIsForgotten); the exact condition for each turn opened by a flush is OpeningBeyondTheCapCuts.
- Saving the queue to disk, which keeps its first 21 prompts (src/store/store.ts:2200).
