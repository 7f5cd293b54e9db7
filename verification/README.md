# CoMeT-CC: a verified model

CoMeT-CC is a proxy between a coding assistant and its model. It drops messages that it has already summarised
from each request, puts a summary pair in their place, and stores what it dropped as nodes of a linked memory
graph. This project models the parts of it whose correctness depends on how they agree, and proves what they
promise each other.

| files | what they model |
|---|---|
| `Sequences`, `Dicts`, `Text`, `Runs`, `ToolCalls`, `Messages`, `Views`, `Contents`, `Injection` | the proxy's views of a message list: text extraction, tool runs, fingerprints, what the texts hold, and the reminder block it injects |
| `Machine`, `Slots`, `Coverage`, `Archive`, `Summaries`, `Trimming`, `Pairing` | the trim protocol as a two-thread transition system, every access to shared state a step of its own |
| `Proxy`, `Sessions`, `Uninterrupted`, `Orchestrator`, `Synthesis`, `Safety`, `Race`, `Newest` | the proxy's own configuration of that machine, its objects, what a job makes of tool runs, the combined guarantees, and the runs and requests that break them |
| `Graph`, `GraphRuns`, `NodeStore`, `Ranking`, `Retriever`, `Window` | the node tables, the worker's writes to the graph, similarity search, and the context window |
| `Snapshots`, `Broadcaster` | the live graph page: shaping, differences, the page's apply step, and the broadcaster |
| `Transcript`, `Entries`, `Daemon`, `Identity` | the transcript parser, what becomes of each entry, and the transcript compaction worker |

Code that the source writes as loops over mutable state is written as loops here, proved equal to recursive
functions; objects that the source mutates are classes whose methods state their whole new state; the theorems
are about those functions and about the transition systems. The machine's events carry what the models answer and
where the worker raises an exception, so its theorems hold for all of these. SHA-1 is any function of its input;
similarity scores are reals.

## Findings

What the model shows about the code, beyond what its documentation says:

- The second scan of `rewrite` (`comet_cc/proxy/trim.py:197-200`) reads `absorbed_fps` once per message while the
  worker may be updating it. An absorption that lands inside the scan makes the outgoing array keep older messages and
  drop the newest ones (`Race.SecondScanCanTear`), possibly a tool result whose call is kept
  (`Race.TornCallIsOrphaned`). What goes out is no suffix exactly when an update absorbs the message that the scan
  comes to next, after it has kept an earlier one: the flag `torn` of the machine
  (`Trimming.OutgoingIsSuffixUnlessTorn`). A tool call goes out without its result exactly when such an update comes
  right behind the kept call: the flag `parted`. No result ever goes out without its call
  (`Pairing.PairedUnlessParted`), and a scan torn elsewhere sends a paired array (`Race.TornPairedIff`). In every case
  each key that is dropped is in the rows of a saved node (`Archive.DroppedIsStored`).
- Positions in the per-message view are used on the raw array (`comet_cc/proxy/trim.py:162`,
  `comet_cc/proxy/trim.py:201`). They are right exactly when every blank message comes after all the others
  (`Views.AlignedIffBlanksLast`). With a blank message anywhere, one that holds only thinking for example, a rewritten
  request never carries its newest message, unless an equal one came before it (`Newest.BlankHidesNewest`): after "a"
  is absorbed, of an answer that is only thinking and then "b", the blank answer goes out and "b" does not
  (`Newest.SecondWordIsLost`).
- Messages are told apart by role and text alone. A new message that repeats those of an absorbed one is dropped, and
  when it is the newest one the model is never asked it (`Newest.RepeatGoesUnkept`, `Newest.RepeatIsDropped`). A
  rewrite in one piece keeps the newest message exactly when no message is blank and this one is not absorbed
  (`Newest.NewestKeptIff`).
- What is stored for a tool run is its calls and results only. Text that an assistant writes beside a call leaves no
  trace in it, at any place of any message of the run (`Views.ProseBesideCallIsDropped`, `Views.ProseLostIff`), and
  neither does a call's input beyond 300 characters (`Views.LongInputIsCut`), although the message counts as absorbed.
- Injecting a retrieval block changes fingerprints exactly when the block does not strip to nothing
  (`Injection.InvisibleIffUnseen`): when the body holds a closing reminder tag and what follows the first one does not
  strip to nothing together with the block's own (`Injection.BlockVanishesIff`). A closing tag with no opening tag
  after it always shows (`Injection.ClosingTagShows`); one that an opening tag follows directly does not
  (`Injection.ReopenedTagVanishes`).
- A fetch by a second page moves the broadcaster's baseline, and the first page never hears of the update in between
  (`Broadcaster.SecondFetchHidesUpdate`).
- When a transcript pass saves a node while a tool run is still open, the next pass absorbs the whole run again
  (`Daemon.RunTakenAgain`); a failure between saving a node and marking its turns absorbs them twice
  (`Daemon.StepAccounts`).
- Edge ids with the arrow character in node ids can collide (`Snapshots.ArrowIdsCollide`), and a page then loses an
  edge (`Snapshots.ShowableIffClear`).

## Model

| member | source | states |
|---|---|---|
| `Safety.SentIsSafe` | comet_cc/proxy/trim.py:127-211 | main result, for transcripts: in every state reachable by interleaving rewrites and worker steps (with failures and exceptions anywhere), what is sent is the untouched request or a complete, non-empty summary pair followed by kept messages; these are a suffix of the request if and only if no absorption tore the second scan; every message left out is in a selection of messages whose entries are the rows of a saved node; and if requests pair tool calls with results, no result goes out without its call, and what is sent is paired if and only if no absorption parted a kept call from its result |
| `Safety.CleanIffWorld` | comet_cc/proxy/extractor.py:95-110 | for the proxy's own views, the hypotheses of the transcript results are exactly that no message is blank and no two of a session have one fingerprint |
| `Archive.AbsorbedIsStored` | comet_cc/proxy/trim.py:388-419 | in every legal run, whatever the requests carry and wherever the worker failed: an absorbed fingerprint is in the entry of some tier-3 row of a saved node, whose rows are, in order, those of the bundled view of messages of one request of the session |
| `Archive.DroppedIsStored` | comet_cc/proxy/trim.py:187-211 | in every legal run, a rewritten array keeps messages of the request in their order, and every position of the second scan that is not kept has a key that is stored in that sense |
| `Safety.AbsorbedKeysStored` | comet_cc/proxy/trim.py:408-419 | the same of every reachable state: absorbed is stored |
| `Safety.DroppedKeysStored` | comet_cc/proxy/trim.py:187-211 | the same of every reachable state: dropped is stored |
| `Safety.StoredIsShown` | comet_cc/proxy/trim.py:380-390 | for the proxy's own views: the row of a stored fingerprint has as its text that of a message with this fingerprint, or the rendering of the whole tool run that it is in |
| `Safety.LeftOutIsShown` | comet_cc/proxy/trim.py:187-211 | for the proxy's own views and clean transcripts, in every reachable state: each message of a rewritten request goes out, or a row of a saved node has its text or the rendering of its tool run |
| `Summaries.PairIsOfSavedNode` | comet_cc/proxy/trim.py:187-207 | in every legal run, whatever the requests carry: a pair that goes out is the summary of a node that the compacter returned and the worker saved, followed by the fixed acknowledgement, and neither is empty |
| `Safety.PairGoesOut` | comet_cc/proxy/trim.py:187-211 | in every legal run, whatever the requests carry, a rewritten array is two messages and the kept ones: a user message with one text, the fixed heading and after it the non-empty summary of a node that the compacter returned and the worker saved; an assistant message with the acknowledgement as its one text; then exactly what was kept |
| `Trimming.ArrayIsPairThenKept` | comet_cc/proxy/trim.py:202-211 | the same of every reply: heading and first text in the user message, second text in the assistant message, then the kept messages; an untouched reply is the request's own array |
| `Trimming.AbsorbedIsAWholeRequest` | comet_cc/proxy/trim.py:408-419 | however jobs overlap, `absorbed_fps` is always empty or exactly the fingerprints of some earlier request's whole message list |
| `Trimming.OutgoingIsSuffixUnlessTorn` | comet_cc/proxy/trim.py:187-211 | the kept messages are a suffix exactly when no absorption landed between keeping one message and testing the next; both texts of the pair are non-empty |
| `Trimming.NothingLost` | comet_cc/proxy/trim.py:388-429 | corollary for transcripts: torn or not, every message of a rewritten request goes out or is one of the messages whose entries are the rows of a saved node, on every exit path of the worker |
| `Pairing.PairedUnlessParted` | comet_cc/proxy/trim.py:193-211 | in every run whose requests answer each tool call in their next message, torn or not: no result goes out without its call; the outgoing array is paired exactly when no absorption landed right behind a kept call, which is exactly when every kept call has the message after it kept; and such an absorption tears the scan |
| `Pairing.KeptPairedIff` | comet_cc/proxy/trim.py:193-211 | of a paired request, kept in stretches none of which begins with a result: behind a summary pair no result is alone, and the array is paired exactly when after every kept call the next message is kept |
| `Pairing.ToolsStep` | comet_cc/proxy/trim.py:193-211 | every step of either thread keeps: each stretch of kept messages starts where some request ended, and the scan is marked parted exactly when it has let go, or is about to, of the message after a kept call |
| `Pairing.TrimmingKeepsToolPairing` | comet_cc/proxy/trim.py:193-211 | corollary: an untorn outgoing array is paired: trimming orphans neither half of a call |
| `Trimming.InvariantStep` | comet_cc/proxy/trim.py:127-429 | every step of either thread keeps the joint invariant (registration, coverage, storage, summary pair, the log of requests) |
| `Trimming.UntornKeepsSuffix` | comet_cc/proxy/trim.py:193-200 | an untorn scan keeps exactly the messages from a point where some request ended |
| `Race.SecondScanCanTear` | comet_cc/proxy/trim.py:193-200 | for every transcript and every two cut points at which the proxy compacts there is a run whose outgoing array keeps an interior stretch and drops the messages after it; it is marked parted exactly when the stretch ends with a tool call |
| `Race.TornCallIsOrphaned` | comet_cc/proxy/trim.py:193-211 | in such a run a tool call goes out without its result |
| `Race.TornPairedIff` | comet_cc/proxy/trim.py:193-211 | if the requests are paired, what such a torn run sends is paired exactly when the last message that it keeps calls no tool: a torn array need not be an unpaired one |
| `Newest.BlankHidesNewest` | comet_cc/proxy/trim.py:197-201 | in every reachable state: with a blank message anywhere in the request, the position of its newest message is not kept, absorbed or not, and unless that message occurs twice it does not go out |
| `Newest.NewestKeptIff` | comet_cc/proxy/trim.py:187-201 | a rewrite in one piece from any state that has a pair keeps the newest message's position exactly when no message of the request is blank and its fingerprint is not absorbed |
| `Newest.BlankTakesItsPlace` | comet_cc/proxy/trim.py:197-201 | for every clean list that the proxy compacts there is a run from the start after which, of a blank message and a new one behind that list, the blank one goes out and the new one does not |
| `Newest.SecondWordIsLost` | comet_cc/proxy/trim.py:197-201 | an input, with a minimum buffer of one: after "a" is absorbed, the request of "a", an answer that is only thinking and "b" goes out as the pair and the thinking answer |
| `Newest.RepeatGoesUnkept` | comet_cc/proxy/trim.py:197-201 | in every run from a reachable state between two requests: the newest message of a later request is not kept when its fingerprint was absorbed before |
| `Newest.RepeatIsDropped` | comet_cc/proxy/trim.py:197-201 | for every clean list that the proxy compacts there is a run from the start after which a message that repeats the role and text of one of them is dropped, and nothing follows the pair |
| `Coverage.UnionIsPrefix` | comet_cc/proxy/trim.py:408-419 | one update of the absorbed set turns a prefix of the transcript into the longer of it and the job's request |
| `Coverage.ScanKeptStep` | comet_cc/proxy/trim.py:197-200 | one position of the second scan: absorbed messages are dropped, the first one kept is where a request ended |
| `Coverage.ScanBufferStep` | comet_cc/proxy/trim.py:150-163 | one position of the first scan and the job made when it ends: the job covers its whole request |
| `Coverage.CoveredStep` | comet_cc/proxy/trim.py:127-429 | each event keeps: absorbed sets are whole requests, jobs cover requests, scans are right or marked torn |
| `Archive.StoreStep` | comet_cc/proxy/trim.py:388-394 | each event only adds rows; past the save the compacted node and its rows are in the store |
| `Archive.AbsorbedStoredStep` | comet_cc/proxy/trim.py:388-419 | each event keeps, for any requests: what is absorbed is in the tier-3 rows of a saved node, in buffer order |
| `Archive.KeyIsMessage` | comet_cc/proxy/extractor.py:95-110 | in a transcript that serves the protocol, a stored key is stored for the message that has it |
| `Archive.PairStep` | comet_cc/proxy/session.py:86-94 | with `mark_compact_done` split into single assignments, messages are dropped only after both halves of a non-empty pair were seen |
| `Slots.SlotsAlwaysRight` | comet_cc/proxy/trim.py:169-184 | in every run queued jobs, a job dequeued but not picked up, and a marked but unqueued job of a session add up to its `sensor_queued` flag; `compact_in_flight` marks exactly the session under compaction |
| `Slots.OnePendingOneRunning` | comet_cc/proxy/session.py:60-78 | at most one job of a session is pending and at most one session is in flight |
| `Slots.SlotsStep` | comet_cc/proxy/session.py:60-78 | every event keeps the slot count |
| `Slots.FlightStep` | comet_cc/proxy/trim.py:338-429 | every event, exceptions included, keeps the in-flight flag right |
| `Uninterrupted.RewriteReaches` | comet_cc/proxy/trim.py:127-211 | a rewrite in one piece is a run of the fine-grained machine |
| `Uninterrupted.JobReaches` | comet_cc/proxy/trim.py:321-429 | a job in one piece is a run of the fine-grained machine, however it ends (nothing saved, completed, or an exception after the node or after its rows) and wherever the request path is, inside its second scan too |
| `Orchestrator.TrimOrchestrator.Rewrite` | comet_cc/proxy/trim.py:127-211 | `rewrite` up to retrieval, on the objects: its effect in closed form, a run of the machine wherever the worker is, and the outgoing array, message by message |
| `Orchestrator.TrimOrchestrator.OfferJob` | comet_cc/proxy/trim.py:155-184 | marks the session and puts the bundled unabsorbed messages exactly when they are enough and no job is pending or running |
| `Orchestrator.TrimOrchestrator.RunJob` | comet_cc/proxy/trim.py:306-319 | one turn of the worker loop, whether it ends normally or in an exception and wherever the request path is: a run of the machine; and with cross-session linking off a run of the graph operations that keeps the graph well formed |
| `Orchestrator.TrimOrchestrator.DoSensorCheck` | comet_cc/proxy/trim.py:321-429 | sessions, rows, tier-3 rows, briefs and tags after a job, for every answer of the models and for an exception in the models' part, after the node, its rows, the brief or the links, or between two bundles; the `finally` clause runs in each case |
| `Orchestrator.TrimOrchestrator.SaveCompacted` | comet_cc/proxy/trim.py:379-394 | the node and its tags, its rows in buffer order and the stripped brief, if there is one; as far as an exception lets it get |
| `Orchestrator.TrimOrchestrator.CrossLink` | comet_cc/proxy/trim.py:431-467 | links the new node to the best of its peers and to nothing else: active or both, with an embedding, no children, no bundle parents, not itself, in scope (its session, or all with cross-session retrieval on); a peer above the threshold is left out only when top-k at least as similar ones are linked |
| `Orchestrator.TrimOrchestrator.SynthesizeBundleFor` | comet_cc/proxy/trim.py:469-527 | saves at most twelve children, then the parent that lists them, with their tags; nothing when synthesis gave nothing |
| `Synthesis.RunIsBundle` | comet_cc/proxy/trim.py:402-406 | the entry of every tool run is taken for a bundle |
| `Synthesis.PlainIsBundleIff` | comet_cc/proxy/trim.py:402-406 | the entry of a message on its own is taken for one exactly when its role is the label |
| `Synthesis.TakenIffRun` | comet_cc/proxy/trim.py:402-406 | so of a list of user and assistant messages exactly the entries of whole tool runs are taken |
| `Synthesis.BundleIsSaved` | comet_cc/proxy/trim.py:483-523 | a bundle is saved as described: the parent with its summary and tags, listing its first children, at most twelve; each child hidden, naming the parent, with its own summary and tags |
| `Synthesis.RunsAreSynthesized` | comet_cc/proxy/trim.py:400-406 | after a completed job each tool run of its messages with a usable answer has its parent and children in the table, and nothing that an answer for another entry draws is there |
| `Synthesis.RunsBeforeFailure` | comet_cc/proxy/trim.py:400-408 | when the worker fails among the bundles the runs before that are saved all the same, and nothing for a later entry is |
| `Orchestrator.JobKeepsGraph` | comet_cc/proxy/trim.py:388-406 | the writes of any job that saves a node, however far it gets, are a run of the graph operations and keep the graph well formed |
| `Orchestrator.HitsArePeers` | comet_cc/proxy/trim.py:446-459 | with cross-session retrieval off, what the search among the peers returns are at most top-k distinct plain nodes of the same session |
| `Orchestrator.HitsAreBest` | comet_cc/proxy/trim.py:446-459 | the hits are an optimal choice among the peers, in either mode of retrieval |
| `Orchestrator.BundlesReach` | comet_cc/proxy/trim.py:400-406 | the bundles of a buffer are a run of the graph operations and leave other ids unused |
| `Sessions.SessionRegistry.GetOrCreate` | comet_cc/proxy/session.py:44-50 | registers a fresh session once; other sessions unchanged |
| `Sessions.SessionRegistry.Get` | comet_cc/proxy/session.py:52-54 | the state of a known session |
| `Sessions.SessionRegistry.MarkSensorQueued` | comet_cc/proxy/session.py:60-64 | sets the flag of a known session only |
| `Sessions.SessionRegistry.MarkSensorPickup` | comet_cc/proxy/session.py:66-72 | clears the flag of a known session only |
| `Sessions.SessionRegistry.MarkCompactStart` | comet_cc/proxy/session.py:74-78 | sets the in-flight flag of a known session only |
| `Sessions.SessionRegistry.MarkCompactDone` | comet_cc/proxy/session.py:80-94 | clears the flag; absorbs and replaces the pair only when both texts are non-empty |
| `Proxy.FaithfulIff` | comet_cc/proxy/extractor.py:95-110 | the two views of a request serve the protocol exactly when no message is blank and no two have one fingerprint |
| `Proxy.PlainRoleRecovered` | comet_cc/proxy/trim.py:383-387 | the text of a plain entry always comes back from it, and its role exactly when it neither starts with an opening bracket nor holds a closing one followed by a space |
| `Proxy.BundleRoleNotRecovered` | comet_cc/proxy/trim.py:383-387 | the role stored for a tool run is the default or a piece of the rendering |
| `Messages.MessagesToL1` | comet_cc/proxy/extractor.py:95-110 | the loop computes one entry per message that is not blank, in order |
| `Messages.ExtractText` | comet_cc/proxy/extractor.py:36-68 | the loop over a message's blocks computes its text; what that text holds is said by the next three rows |
| `Contents.BlocksShown` | comet_cc/proxy/extractor.py:43-68 | of each block the text holds, between line breaks: a text block without reminders and blank ends, a call as its name and 400 characters of input, a result as 400 characters; a string content is like one text block |
| `Contents.ResultTellsApart` | comet_cc/proxy/extractor.py:61-67 | two results in the same place of a message give different texts, and under an injective digest different fingerprints, exactly when they differ within 400 characters |
| `Contents.ResultItems` | comet_cc/proxy/extractor.py:63-66 | a result given as a list: the message shows the texts of its items joined by blanks, a tool run every item on a line of its own |
| `Contents.PreviewTellsApart` | comet_cc/proxy/extractor.py:105-109 | a message's preview opens with its role and tells texts apart exactly when they differ within 500 characters; its raw text is whole |
| `Messages.RenderToolBundle` | comet_cc/proxy/extractor.py:120-164 | the loops with the `pending` dict compute the run's preview, raw text and one fingerprint per message; what these hold is said by the next rows |
| `Contents.AnswerIsStored` | comet_cc/proxy/extractor.py:138-157 | the raw text of a run holds, between blank lines, each answered call: its name, 300 characters of its input, and the whole text of the result that answers it |
| `Contents.PendingIsStored` | comet_cc/proxy/extractor.py:158-160 | and each call that is never answered, as pending |
| `Contents.StrayIsStored` | comet_cc/proxy/extractor.py:143-157 | and each result that answers no open call, under a question mark |
| `Contents.AnswerIsPreviewed` | comet_cc/proxy/extractor.py:155-156 | the preview is a text of one line for each of these, cut at 1500 characters: an answered call with the status that its error flag says and 200 characters of the result |
| `Contents.PendingIsPreviewed` | comet_cc/proxy/extractor.py:158-159 | a call that is never answered, as without result |
| `Contents.StrayIsPreviewed` | comet_cc/proxy/extractor.py:155-156 | a result that answers no open call |
| `Contents.OutputTellsApart` | comet_cc/proxy/extractor.py:146-157 | exchanging one result of a run changes what is stored exactly when the whole texts differ, and leaves the preview alone when they agree on 200 characters |
| `Messages.BundleL1` | comet_cc/proxy/extractor.py:167-206 | the nested loops compute the bundled view |
| `Views.BundlingKeepsFingerprints` | comet_cc/proxy/extractor.py:167-206 | the fingerprints of the bundled view are exactly those of the per-message view, in order, for every message list |
| `Views.BundlingSplits` | comet_cc/proxy/extractor.py:174-206 | bundling a list is bundling its parts exactly when the cut is not inside a tool run |
| `Views.ToolMessagesVisible` | comet_cc/proxy/extractor.py:53-68 | a message of a tool run always has text, so the per-message view never skips it |
| `Views.AlignedIffBlanksLast` | comet_cc/proxy/trim.py:162-201 | positions in the per-message view are positions in the raw array exactly when blank messages come last |
| `Views.EntryOfMessage` | comet_cc/proxy/extractor.py:167-206 | every message that is not blank has its entry in the bundled view: its own, or that of the whole tool run that it is in |
| `Views.EntryStands` | comet_cc/proxy/extractor.py:167-206 | conversely every entry of the bundled view is that of one message or of one whole tool run of the list |
| `Views.EntryFpIs` | comet_cc/proxy/extractor.py:120-164 | and carries only fingerprints of the messages it stands for |
| `Contents.MessageKinds` | comet_cc/proxy/extractor.py:181-190 | an assistant message with a call opens a tool run, a user message with a result goes on with one |
| `Views.ProseBesideCallIsDropped` | comet_cc/proxy/extractor.py:120-164 | for every run, message and position: a block that is neither a call nor a result can be taken out without changing the preview or the raw text that is stored for the run |
| `Views.ProseLostIff` | comet_cc/proxy/extractor.py:120-164 | such a block is lost, in that the message's own text changes without it and the stored text does not, exactly when it is a text block that leaves text without reminders and outer blanks |
| `Views.LongInputIsCut` | comet_cc/proxy/extractor.py:142 | of two inputs of a call that agree on 300 characters, the message's own text tells which it was exactly when they differ within 400, and the stored text never does |
| `Runs.SegmentsCover` | comet_cc/proxy/extractor.py:174-206 | the segments cover the list in order; each run starts with a call and has no plain item; runs are maximal: what follows a run is plain, and no call stands alone |
| `Runs.SegmentsSplit` | comet_cc/proxy/extractor.py:174-206 | grouping the whole is grouping the parts at every cut outside a run |
| `Runs.SegmentsMerge` | comet_cc/proxy/extractor.py:174-206 | at a cut inside a run the open run takes the head of the rest |
| `ToolCalls.RendererTracksOpenCalls` | comet_cc/proxy/extractor.py:129-158 | the dict holds exactly the calls still open, so each result is paired with the call it answers |
| `ToolCalls.RenderConserves` | comet_cc/proxy/extractor.py:129-162 | parts plus calls overwritten while open equal calls plus stray results |
| `ToolCalls.EveryCallOnce` | comet_cc/parser.py:149-194 | with distinct ids each call is rendered once, with its first result or as pending, in call order |
| `Text.StripEmpty` | comet_cc/proxy/extractor.py:102-103 | `strip()` is empty exactly for all-whitespace text |
| `Text.FirstMatch` | comet_cc/proxy/extractor.py:22-29 | the scan finds the leftmost match and of those the shortest, or there is none |
| `Text.FirstReminderCut` | comet_cc/proxy/extractor.py:22-29 | the first reminder goes up to its first closing tag; the text before it stays, and what follows is treated alike |
| `Text.NoReminderKept` | comet_cc/proxy/extractor.py:22-29 | without an opening tag nothing is removed |
| `Text.StripTakesEnds` | comet_cc/proxy/extractor.py:29 | `strip()` takes the blank ends off and nothing else |
| `Text.BlockVanishes` | comet_cc/proxy/extractor.py:22-29 | a reminder block without an inner closing tag is removed whole |
| `Injection.InjectIntoLastUser` | comet_cc/proxy/trim.py:287-302 | the backward loop changes, in place, exactly the last user message |
| `Injection.InjectionInvisible` | comet_cc/proxy/trim.py:279-302 | corollary: both views are the same before and after injecting a block whose body has no closing tag, for string and list contents |
| `Injection.TextKeptIff` | comet_cc/proxy/trim.py:296-301 | a message's text survives the injection exactly when the block leaves no text |
| `Injection.ClosingTagShows` | comet_cc/proxy/trim.py:279-285 | a body whose first closing tag has no opening tag after it leaves text behind |
| `Injection.InvisibleIffUnseen` | comet_cc/proxy/trim.py:287-302 | for every list and every block: the injection leaves the per-message view as it was exactly when there is no user message, the last one has no content that it changes, or the block strips to nothing; and then the bundled view too |
| `Injection.BlockVanishesIff` | comet_cc/proxy/trim.py:279-285 | a block strips to nothing exactly when its body has no closing tag, or what follows the first one strips, with the block's own closing tag, to nothing |
| `Injection.BlockReads` | comet_cc/proxy/trim.py:279-285 | the block as it reads: the opening tag, the fixed sentence, the body, the closing tag |
| `Injection.ReopenedTagVanishes` | comet_cc/proxy/trim.py:279-285 | a closing tag followed by an opening one is a body that leaves nothing |
| `Graph.WorkerRunsKeepTheGraph` | comet_cc/proxy/trim.py:431-523 | every run of worker writes from an empty store: symmetric links within a session, hidden children, complete bundles of 1 to 12, at most top-k edges per compacted node |
| `Graph.GraphAlwaysOk` | comet_cc/core/store.py:237-270 | the graph is well formed after each single write, whatever other threads save in between |
| `Graph.EdgesAlwaysBounded` | comet_cc/proxy/trim.py:455-463 | similarity edges never exceed top-k times the plain nodes |
| `Graph.LinksAreChildren` | comet_cc/core/store.py:226-235 | a bundle parent's links are exactly the nodes that name it as parent |
| `NodeTables.NodeStore.SaveNode` | comet_cc/core/store.py:103-124 | insert or replace by id; the tag table gains exactly the node's tags |
| `NodeTables.NodeStore.SaveRawTurns` | comet_cc/core/store.py:126-139 | replaces the rows of one node; no rows for an empty list |
| `NodeTables.NodeStore.GetRawTurns` | comet_cc/core/store.py:141-149 | the rows of a node in their order |
| `NodeTables.NodeStore.AddBidirectionalLink` | comet_cc/core/store.py:237-270 | each side learns the other once; nothing for equal or missing ids |
| `NodeTables.NodeStore.Select` | comet_cc/core/store.py:196-224 | a listing has each selected row exactly once, in the database's order |
| `NodeTables.NodeStore.ListPassive` | comet_cc/core/store.py:166-194 | exactly the passive and both rows without a parent, in scope, each once, newest first |
| `NodeTables.NodeStore.ListActiveWithEmbeddings` | comet_cc/core/store.py:196-224 | exactly the active and both rows with an embedding and without a parent, in scope, each once |
| `NodeTables.NodeStore.ListLinkedNodes` | comet_cc/core/store.py:226-235 | exactly the nodes naming the parent, each once, oldest first |
| `NodeTables.NodeStore.GetNodes` | comet_cc/core/store.py:280-291 | rows in the order asked for, missing ids dropped |
| `NodeTables.ListingIds` | comet_cc/core/store.py:166-224 | a listing has no id twice and misses no row that satisfies its condition |
| `Ranking.SortDescSorts` | comet_cc/core/vector.py:58 | the sort is a descending permutation that keeps the order of equal keys |
| `Ranking.SliceFilterCommute` | comet_cc/core/vector.py:59 | slicing then filtering is filtering then slicing |
| `Ranking.SearchIsOptimal` | comet_cc/core/vector.py:43-59 | at most k, best first; a candidate at or above the threshold is left out only when k at least as good are returned |
| `Retriever.TableHoldsMaxima` | comet_cc/core/retriever.py:67-80 | the neighbour table holds each touched neighbour once, with its greatest score |
| `Retriever.FirstTouchWins` | comet_cc/core/retriever.py:67-84 | with touches in descending order the first wins and the later sort changes nothing |
| `Retriever.TouchesDescend` | comet_cc/core/retriever.py:70-80 | matches in descending order touch neighbours in descending order when the decay is positive |
| `Retriever.NeighbourScores` | comet_cc/core/retriever.py:67-80 | the nested loops compute that table: each neighbour of a match outside the primary window once, with the greatest of its matches' scores times the decay, and none whose score is not positive |
| `Window.GetContextWindow` | comet_cc/core/retriever.py:17-92 | at most `max_nodes` distinct nodes, no child. A passive or both row in scope is left out only when such rows at least as new fill the window; a matchable row (active or both, with an embedding) only when it is below the threshold or better ones fill the room, or newer ones without a query; a linked row only when others, linked from matches at least as good, fill the slots. Over a well-formed graph nothing from another session |
| `Window.LinkStaysInSession` | comet_cc/core/retriever.py:74-90 | neighbours, fetched without a session filter, stay in the session by the graph invariant |
| `Window.HopsAreNeighbours` | comet_cc/core/retriever.py:67-90 | the hop nodes are new, no children, and linked from matches |
| `Window.HopsAreBest` | comet_cc/core/retriever.py:67-90 | a parentless row that a positive match links to is taken, unless as many others as there are slots are each linked from a match at least as good |
| `Window.ChosenAreBest` | comet_cc/core/retriever.py:40-63 | the matched rows are an optimal choice among the matchable ones, by similarity with a query and by age without |
| `Window.WindowHasRiders` | comet_cc/core/retriever.py:30-37 | the rows that always ride come first, the newest of them when they do not all fit |
| `Window.SearchMatches` | comet_cc/core/retriever.py:45-58 | the matches are the rows of the search's hits, in its order |
| `Snapshots.ShapeGraph` | comet_cc/web/server.py:48-97 | one node per id, depicting the last row with it; one edge per link between known nodes and per known parent, each under its own key |
| `Snapshots.ViewDepicts` | comet_cc/web/server.py:58-72 | a node shows its id, importance, session, whether it has a parent, its first four tags that are not about importance, and as title the first line of its summary up to 80 characters, or a placeholder for a blank one |
| `Snapshots.EdgeIdText` | comet_cc/web/static/index.html:309-312 | an edge's id is the one that the page makes for it |
| `Snapshots.SimKeySymmetric` | comet_cc/web/server.py:32-38 | a similarity edge has one key from whichever end it is seen, with the smaller id first |
| `Snapshots.StrLeIsLexicographic` | comet_cc/web/server.py:32-38 | in the order of dictionaries: a prefix comes first, and else the first difference decides |
| `Snapshots.EdgeIdInjective` | comet_cc/web/server.py:41-45 | edge ids are injective for sources without the arrow character |
| `Snapshots.ArrowIdsCollide` | comet_cc/web/server.py:41-45 | with the arrow character in ids two edges can share an id |
| `Snapshots.DiffOf` | comet_cc/web/server.py:183-219 | nothing exactly when the snapshots are equal, and otherwise their difference |
| `Snapshots.ApplyReproduces` | comet_cc/web/static/index.html:391-420 | applying the difference to a page that shows the old snapshot yields exactly the new one, and applying it again changes nothing |
| `Snapshots.ShowableIffClear` | comet_cc/web/static/index.html:308-312 | a page can show a set of edges exactly when their ids are distinct |
| `Broadcaster.PageFollowsBaseline` | comet_cc/web/server.py:133-232 | over every run without a harmful event, a page's view with its queued diffs applied in order is the broadcaster's last snapshot |
| `Broadcaster.InStepUnlessHarmed` | comet_cc/web/server.py:143-181 | one event keeps a page in step exactly unless a changed graph is not announced to it: full queue, no baseline, or another page's fetch |
| `Broadcaster.SecondFetchHidesUpdate` | comet_cc/web/server.py:143-150 | an update that another page's fetch moves into the baseline never reaches the first page |
| `Broadcaster.GraphBroadcaster.Register` | comet_cc/web/server.py:133-137 | a new, empty queue joins the others |
| `Broadcaster.GraphBroadcaster.Unregister` | comet_cc/web/server.py:139-141 | the queue leaves |
| `Broadcaster.GraphBroadcaster.SeedState` | comet_cc/web/server.py:143-150 | replaces the shared baseline |
| `Broadcaster.GraphBroadcaster.PollOnce` | comet_cc/web/server.py:152-181 | one turn of the poll loop, for every connected queue |
| `Broadcaster.GraphBroadcaster.ApiGraph` | comet_cc/web/server.py:242-260 | a fetch of the whole graph moves the shared baseline |
| `Broadcaster.GraphBroadcaster.Broadcast` | comet_cc/web/server.py:221-232 | each queue gets the diff unless it is full |
| `Broadcaster.ClientQueue.PutNowait` | comet_cc/web/server.py:226-232 | a queue of 64 items drops the next |
| `Transcript.ParseTranscript` | comet_cc/parser.py:38-89 | the nested loops compute one node per user text, tool run and assistant text |
| `Entries.UserEntryParsed` | comet_cc/parser.py:54-58 | a user entry with blocks but no result is one node between those of the entries around it, named after it, with each of its texts whole |
| `Entries.AssistantEntryParsed` | comet_cc/parser.py:80-84 | so is an assistant entry without a call |
| `Entries.OtherEntryParsed` | comet_cc/parser.py:85-87 | entries of other kinds, and user entries without blocks, are no nodes |
| `Entries.RunParsed` | comet_cc/parser.py:60-78 | a whole tool run is one node, named after all its entries |
| `Entries.KindsAre` | comet_cc/parser.py:106-116 | an assistant entry with a call opens a run, a user entry with a result goes on with it |
| `Entries.StringEntryText` | comet_cc/parser.py:92-100 | an entry whose content is a string holds that string and nothing else |
| `Transcript.RenderBundle` | comet_cc/parser.py:149-194 | the loops with the `pending_calls` dict compute the run's node |
| `Entries.AnswerIsInNode` | comet_cc/parser.py:161-188 | the node of a run holds each answered call, whole in its text and cut in its preview |
| `Entries.PendingIsInNode` | comet_cc/parser.py:184-186 | and each call without an answer yet |
| `Entries.NamesAround` | comet_cc/parser.py:166 | the tools that it lists are those of its calls, in order |
| `Transcript.ParseSplits` | comet_cc/parser.py:54-89 | parsing a transcript is parsing its parts exactly when the cut is not inside a tool run |
| `Transcript.ParseMerge` | comet_cc/parser.py:54-89 | a cut inside a run leaves a shorter node where the whole has a longer one |
| `Daemon.RunAccounts` | comet_cc/daemon.py:249-322 | over any jobs that do not fail after the save, a session's nodes absorb disjoint fingerprint sets whose union is its consumed set |
| `Daemon.StepAccounts` | comet_cc/daemon.py:313-322 | one pass keeps that account exactly unless something raises between saving the node and marking its turns |
| `Daemon.PassTakesTheRest` | comet_cc/daemon.py:256-274 | after a pass over m entries, the next takes exactly the nodes of the entries after them if and only if the cut was not inside a run |
| `Daemon.RunTakenAgain` | comet_cc/daemon.py:256-274 | cut inside a run: the next pass takes the whole run again |
| `Daemon.DrainedExactlyOnceInOrder` | comet_cc/daemon.py:249-322 | over growing transcripts, with saving passes ending outside runs, a session's nodes absorb the logical nodes exactly once each and in order |
| `Daemon.CompactWorker.DoCompact` | comet_cc/daemon.py:249-327 | consumed fingerprints, saved rows, tags and briefs after a job, for every way it ends |
| `Daemon.CompactWorker.FillBuffer` | comet_cc/daemon.py:262-274 | the buffer loop skips what is consumed or repeated |
| `Daemon.CompactWorker.CompactLoop` | comet_cc/daemon.py:232-247 | the single worker runs the jobs one after the other |
| `Identity.GoodIdsIdentify` | comet_cc/daemon.py:405-407 | with an injective digest and distinct, non-empty entry ids without the separator, fingerprints identify the nodes of every state of a transcript |
| `Identity.NamelessByText` | comet_cc/daemon.py:405-407 | a node whose entry has no id is known by the first 200 characters of its text |
| `Identity.JoinInjective` | comet_cc/daemon.py:406 | joined ids can be taken apart again |

## Left out

- Calls of the language models, prompts and the parsing of their answers: their results are parameters or event data. The checks on them that callers make are kept.
- Native `/compact` refusal, requests without a session id and non-message paths: one-branch code that returns before any state is touched; every modelled request has a session id.
- HTTP, TLS, JSON, asyncio scheduling, sockets, logging, timers and file reading.
- SQL text and schema; a listing without `ORDER BY` comes in an arbitrary order, and ties of `ORDER BY` are arbitrary.
- Floating-point rounding: scores, decay and times are reals.
- Python's atomicity: one `set.update`, one attribute write and one membership test are each taken as a single step.
- Session states are never removed from the registry, as in the code; a restart, which empties it, starts the machine anew.
- Orchestrator.TrimOrchestrator.RunJob: takes an exception to come between two calls of the store; one inside a call, and what other threads do in between, are left to the events of the machine and the operations of the graph.
- Orchestrator.TrimOrchestrator.Rewrite: ends before retrieval; building the block is the window, briefs and formatting, and injecting it is `Injection.InjectIntoLastUser`.
- Orchestrator.TrimOrchestrator.CrossLink: a non-negative top-k. With cross-session retrieval on, links may leave the session, so the statements about the graph need it off.
- Node ids: an id that is drawn for a new node is assumed to be unused, as for the random ids of the source (`Machine.Enabled` for a compacted node and for one saved on the side, `Orchestrator.Fair`, `Graph.Fresh`).
- Safety.SentIsSafe: needs no blank message, no fingerprint twice in a transcript, and each request to be a prefix of its session's transcript; `Safety.CleanIffWorld` says that the first two are exactly what the views need. The storage part holds without any of them (`Safety.DroppedKeysStored`), and `Newest` says what becomes of the newest message.
- Safety.LeftOutIsShown: a row shows a message of a tool run only as far as the rendering of the run does; `Views.ProseLostIff` and `Views.LongInputIsCut` say what that leaves out.
- Graph.WorkerRunsKeepTheGraph: speaks of the worker's writes and of plain nodes saved by other threads; the demo seeder and the node-saving RPC may install any links.
- Window.GetContextWindow: a child of a matched bundle can take a hop slot and is then dropped, as in the code, so the window may stay smaller than it could be.
- Broadcaster.PageFollowsBaseline: needs node ids without the arrow character, and the page to show the baseline when it registers.
- Snapshots.ApplyReproduces: the page's items are whole node payloads; the styling that it computes from them is left out.
- Daemon.DrainedExactlyOnceInOrder: needs identifying fingerprints (see `Identity.GoodIdsIdentify`), growing transcripts, and saving passes that end outside an open run.
- Injection.InjectionInvisible: what briefs and nodes render to is left out, so that a body has no closing tag is a hypothesis; `Injection.BlockVanishesIff` has no such hypothesis.
- Rendering of nodes, briefs and the command-line footer, policies, the choice of tags, triggers, importance, detail levels and configuration parsing.
- Entries and blocks that are not objects, on which the parser raises; the extractor skips such blocks, as `OtherBlock` here.
- The queue-depth report, session listings and the command line.
