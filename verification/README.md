# Verified model of the shell's algorithms and state machines

This project models, in Dafny, the components of the Wayland shell in which small
algorithms and re-entrant state machines carry the behaviour, and proves what they promise
over every input and every run.

* The frame scheduler of `Surface`: `frame_model` gives each step as a function, `surface`
  the objects and queues that are updated in place, `frame_queues` and `frame_progress`
  the invariants over runs, `frame_ticks` what becomes of frame ticks and animations,
  `frame_points` what holds inside callbacks. Callbacks are
  scripts of further operations, so a statement for all scripts is a statement for all
  re-entrant behaviour. `strip_merge` is the strip loop of the tessellator,
  `strip_columns` what it leaves apart.
* The timer manager: `timer_manager` is the object with its entry map, in-flight and
  cancelled sets; `timer_model` is the set of live timers that it refines, and
  `timer_firing` says when they fire.
* Duplicate clustering: `issue_links` says what linked means, `duplicate_clusters` is the
  union-find with path halving.
* Text: `natural_order`, `shell_words`, `url_text`, `base64`, `language_tag` and
  `tag_candidates`, over the ASCII classes of `ascii` and the search of `text_search`.
* Deferred calls: `wake_model` is the protocol of producers, queue and wake pipe;
  `deferred_call` the methods, with steps of the others between their own.
* Protocol clients: `text_input_model`, `text_input_wire`, `text_input_focus`,
  `text_input_effects` and `text_input_service` for text-input-unstable-v3, `read_intents`
  and `dispatch_until` for Wayland read intents.
* The scene: `scene_tree`, `drop_targets`, `drag_model`, `drag_drop_controller`,
  `drag_runs`, `drag_callbacks`, `drag_gestures` and `drag_traces` for drag and drop; `paint_order`,
  `render_node`, `render_paths`, `render_meaning` and `render_termination` for the
  recursive renderer; `directory_walk` for the walk over directories with links.

Where the source changes state in place, a class or a loop does so here, and its contract
ties the new state to a function of the old one; the lemmas about those functions are the
results. `dafny verify dfyconfig.toml` checks everything.

Four results are about inputs on which the code does less than one might expect. Each has
its exact condition.

* Requests made only inside the prepare callback can be left with nothing to come back to
  them; when, depends on which of its three callers runs the callback. So can a discarded
  frame callback, and any request whose render target is not ready (`FrameProgress`).
* When a gesture ends, the saved look of the held node is put back over any look given to it
  meanwhile. A new opacity of a held source is lost in this way, unless by then that source is
  itself being dragged, or the end is a new preview level for it. A source that is destroyed
  during its gesture leaves every look as it is, also dimmed or lifted, as a comment at
  lib/ui/drag_drop_controller.cpp:205-209 accepts (`DragGestures`, `DragTraces`).
* The strip merging is correct but not always maximal, although
  lib/wayland/surface.cpp:927-929 scans back so that spike columns merge (`StripMerge`,
  `StripColumns`).
* Rendering ends if and only if no reachable proxy shows itself through a chain of proxies,
  which one proxy never does; the drag controller makes only one (`RenderTermination`).

## Model

| member | source | states |
|---|---|---|
| `FrameProgress.NoLostFrameWork` | lib/wayland/surface.cpp:1105-1493 | in every run from start-up, once a wired surface has had its configure, no later step that keeps it able to draw leaves a pending redraw or owed request with neither a frame callback in flight nor frame work nor a render queued, however callbacks re-enter |
| `FramePoints.NoLostFrameWorkInCallbacks` | lib/wayland/surface.cpp:1248-1380 | the same at every point that any turn of such a run passes through inside any callback, at any depth, when no handler of the surface is on the stack and its frame callback has not just been discarded |
| `FrameProgress.RunStaysFine` | lib/wayland/surface.cpp:1463-1493 | the invariant behind it is kept by every step: direct calls, the frame-work drain and the render drain |
| `FrameProgress.RequestRevives` | lib/wayland/surface.cpp:1105-1144 | any request on a ready surface, wherever it is made, restores the invariant, so a request after a discard undoes the stall |
| `FrameProgress.DiscardStallsExactly` | lib/wayland/surface.cpp:1112-1123 | discarding the frame callback stalls the surface if and only if the callback was in flight, something is pending and nothing is queued |
| `FrameProgress.ProcessNeglectsExactly` | lib/wayland/surface.cpp:1319-1380 | a prepare callback that makes any requests on its surface, asks for ticks, dirties its scene, starts or ends animations and does anything at all to other surfaces leaves its requests with nothing to come back to them, while frame work is processed, if and only if one is for an update or a layout, no redraw is requested, its scene is left clean, and when it is reached no frame callback is in flight, nothing is queued, and no animation it leaves obtains a callback |
| `FrameProgress.RenderNowNeglectsExactly` | lib/wayland/surface.cpp:1169-1198 | the same callbacks in renderNow: if and only if one request is for an update or a layout, no frame callback is in flight, and none is obtained |
| `FrameProgress.RenderQueuedNeglectsExactly` | lib/wayland/surface.cpp:1413-1425 | in a queued render: if and only if one request is for an update or a layout, no frame callback is in flight, no work is queued, and the render does not take place, with no redraw requested and the scene left clean, or obtains no callback |
| `FrameProgress.RequestInsidePrepareCanStall` | lib/wayland/surface.cpp:1248-1293 | a concrete surface on which a request made only inside the prepare callback is left without anything to come back to it |
| `FrameProgress.UnreadyTargetStallsExactly` | lib/wayland/surface.cpp:1413-1425 | a queued render on a target that is not ready leaves requests of any kind stalled if and only if there are some, no callback is in flight and no work is queued |
| `FrameProgress.UnreadyWorkStallsExactly` | lib/wayland/surface.cpp:1319-1380 | frame work whose handlers leave no target ready leaves an update or layout request stalled if and only if then no callback is in flight, nothing is queued or invalidated, and no animation obtains a callback |
| `FrameProgress.UnreadyRenderNowStallsExactly` | lib/wayland/surface.cpp:1169-1198 | renderNow on a target that is not ready leaves requests stalled if and only if there are some and no callback is in flight |
| `FrameTicks.NoLostTick` | lib/wayland/surface.cpp:1146-1167 | in every run from start-up, at the end of any turns that keep a started surface able to draw and granted frame callbacks, a tick that was asked for outside its handlers and that no frame handler has run for, short of queued work being cancelled, is noted for the next frame work, and a frame callback is in flight, that work is queued, or a redraw is |
| `FrameTicks.NoForgottenTick` | lib/wayland/surface.cpp:1200-1215 | in such runs a tick that is noted, for a redraw, in the callback in flight or for the next work, stays noted until a frame handler has run or queued work was cancelled, through discards and renders |
| `FrameTicks.TickIsOwed` | lib/wayland/surface.cpp:1146-1167 | asking for a tick outside the handlers makes it owed with a callback in flight or work queued, and a redraw asked for while a frame-tick callback is set notes one |
| `FrameTicks.DoneRunsFrameHandler` | lib/wayland/surface.cpp:371-402 | a done event that finds a surface able to draw animating, or a tick due, is followed by its frame handler: after any turns in between, short of renderNow or destroying it, the next drain visits the surface with a tick, and everything its animation, frame-tick and update callbacks do to any queue or callback is done when the drain ends |
| `FrameTicks.ProcessRunsHandler` | lib/wayland/surface.cpp:1333-1366 | processing work with a tick runs the three callbacks of the frame handler, in that order, whatever they do |
| `FrameTicks.ProcessRunsPrepare` | lib/wayland/surface.cpp:1319-1370 | processing work runs a prepare callback that is due after the frame handler, on a surface whose requests have been taken |
| `FrameTicks.RendersRunPrepare` | lib/wayland/surface.cpp:1169-1176 | so do renderNow and a queued render |
| `FrameTicks.NoUnaskedTick` | lib/wayland/surface.cpp:1319-1370 | in any turns at all in which nothing asks for a tick of a surface, no animation runs and no frame-tick callback is set on it, its frame handler never runs |
| `FrameTicks.TicksAreUsedUp` | lib/wayland/surface.cpp:1200-1215 | a tick is used up when a callback is asked for, when that is answered, when the work is taken, and when it is cancelled |
| `FrameTicks.RenderLeavesClean` | lib/wayland/surface.cpp:1178-1198 | a render on a ready target leaves nothing invalidated, with a callback in flight if one is granted |
| `FrameTicks.RequestIsOwed` | lib/wayland/surface.cpp:1105-1144 | a request sets its own flags and no other, is owed unless made inside the prepare callback, and queues nothing on a surface that is not running or not configured |
| `FrameTicks.ConfigureAsksRedraw` | lib/wayland/surface.cpp:448-475 | a configure event takes the size and asks for a redraw by frame work, without a tick |
| `FrameTicks.DestroyTakesAll` | lib/wayland/surface.cpp:1217-1246 | destroying a surface leaves nothing queued or in flight on it, detaches it, and touches no other |
| `FrameTicks.RenderNowTakesOver` | lib/wayland/surface.cpp:1169-1176 | renderNow does nothing on a surface that is not running or configured, and otherwise takes what was queued out of both queues |
| `FrameQueues.RunKeepsQueues` | lib/wayland/surface.cpp:1295-1331 | after every run each raised queued flag has its surface in the global queue, every raise has had one answer except the last while the flag is up, and all handlers have been left |
| `FrameQueues.DrainAnswersEveryFlag` | lib/wayland/surface.cpp:1463-1493 | a drain answers, by processing or cancelling, every flag that was up when it started, whatever the callbacks of earlier visits queue, cancel or render |
| `FramePoints.QueuesAgreeInCallbacks` | lib/wayland/surface.cpp:1463-1493 | at every point inside every callback of every run a surface whose queued flag is up is in the global queue or in the part of the batch still to be visited, and every raise has had one answer, except the last while the flag is up |
| `FrameQueues.VisitWorkKeeps` | lib/wayland/surface.cpp:1463-1477 | visiting the rest of a batch that agrees with the flags ends in agreement with nothing left to visit, and answers every flag of that rest |
| `FrameQueues.VisitRendersKeeps` | lib/wayland/surface.cpp:1479-1493 | the same for the render queue |
| `FrameQueues.OpKeeps` | lib/wayland/surface.cpp:1105-1246 | every operation keeps queues and flags in agreement, leaves handlers as it found them and only adds to the tallies |
| `FrameQueues.ProcessKeeps` | lib/wayland/surface.cpp:1319-1370 | processing queued work answers its flag and keeps all other surfaces in agreement |
| `FrameQueues.PrepareKeeps` | lib/wayland/surface.cpp:1248-1269 | so does the prepare callback, with everything it runs |
| `SurfaceScheduler.Surface.KickFrameLoop` | lib/wayland/surface.cpp:1271-1293 | the in-place update equals the specified step, and enters the work queue or the render queue exactly when that step raises the flag |
| `SurfaceScheduler.Surface.Request` | lib/wayland/surface.cpp:1105-1144 | requestUpdate, requestUpdateOnly, requestLayout and requestRedraw set their flags and kick the loop as specified |
| `SurfaceScheduler.Surface.RequestFrameTick` | lib/wayland/surface.cpp:1146-1167 | the tick is remembered while a callback or handler will see it and queued otherwise |
| `SurfaceScheduler.Surface.DiscardPendingFrameCallback` | lib/wayland/surface.cpp:1112-1123 | the callback is dropped and its tick carried to the next frame |
| `SurfaceScheduler.Surface.HandleFrameDone` | lib/wayland/surface.cpp:371-402 | the done event answers the callback in flight and queues work exactly when a tick, a request or an invalidation wants it |
| `SurfaceScheduler.Surface.RequestFrame` | lib/wayland/surface.cpp:1200-1215 | a callback is requested only if none is in flight |
| `SurfaceScheduler.Surface.Render` | lib/wayland/surface.cpp:1178-1198 | rendering asks for the next callback and clears the redraw request only when the target is ready |
| `SurfaceScheduler.Surface.CancelQueuedFrameWork` | lib/wayland/surface.cpp:1308-1317 | flag and queue entry go together |
| `SurfaceScheduler.Surface.CancelQueuedRender` | lib/wayland/surface.cpp:1404-1411 | flag and queue entry go together |
| `SurfaceScheduler.Shell.PreparePendingFrame` | lib/wayland/surface.cpp:1248-1269 | clears the requests before the callback runs, so that requests made inside it stay |
| `SurfaceScheduler.Shell.RenderNow` | lib/wayland/surface.cpp:1169-1176 | cancels queued work and render, prepares and renders |
| `SurfaceScheduler.Shell.ProcessQueuedFrameWork` | lib/wayland/surface.cpp:1319-1370 | one step of frame work with its four callbacks, tied to the specified step on all surfaces |
| `SurfaceScheduler.Shell.RenderQueuedFrame` | lib/wayland/surface.cpp:1413-1425 | one queued render, tied to the specified step on all surfaces |
| `SurfaceScheduler.Shell.DestroySurface` | lib/wayland/surface.cpp:1217-1246 | cancels what is queued and detaches the surface |
| `SurfaceScheduler.Shell.DrainPendingFrameWork` | lib/wayland/surface.cpp:1463-1477 | the drain over the swapped-out batch equals the specified visits in order |
| `SurfaceScheduler.Shell.DrainPendingRenders` | lib/wayland/surface.cpp:1479-1493 | the same for renders |
| `StripMerge.MergingKeepsCoverage` | lib/wayland/surface.cpp:908-949 | for every row function, a pixel is covered by the merged rectangles if and only if it lies in a strip wholly inside a segment of the strip's top edge and one of its bottom edge |
| `StripMerge.MergedRectanglesAreDisjoint` | lib/wayland/surface.cpp:908-949 | if the segments of each row share no pixel, no two result rectangles do |
| `StripMerge.MergesExactly` | lib/wayland/surface.cpp:927-944 | a strip is merged if and only if some rectangle fits above it and no later rectangle ends above the strip |
| `StripColumns.MaximalExactly` | lib/wayland/surface.cpp:908-949 | for every row function, the result holds two rectangles that could be one if and only if some piece of the rows continues a column of equal pieces that began before a column that has ended above; otherwise the result is those columns |
| `StripColumns.ColumnsAreMaximal` | lib/wayland/surface.cpp:927-944 | the columns, which continue wherever a piece fits, hold no two rectangles that could be one |
| `StripColumns.TessellatedAdds` | lib/wayland/surface.cpp:908-949 | the loops add the pieces of the rows one by one, in the order in which they are listed |
| `StripMerge.MergingCanMissAFit` | lib/wayland/surface.cpp:927-944 | a concrete outline where that happens: the left column is cut in two although its parts fit |
| `StripMerge.Tessellate` | lib/wayland/surface.cpp:908-949 | the nested loops over rows and segments, tied to the function the lemmas speak about |
| `StripMerge.RoundingInwards` | lib/wayland/surface.cpp:918-925 | rounding up the left edge and down the right edge keeps exactly the pixels wholly inside both segments |
| `TimerModel.CancellationIsFinal` | lib/core/timer_manager.cpp:68-105 | once a timer is cancelled or restarted, no later step of any run starts its callback again |
| `TimerModel.CancellationInCallbackIsFinal` | lib/core/timer_manager.cpp:134-184 | the same when the call comes from any callback of a tick, its own included |
| `TimerModel.TickFiresDueTimersOnce` | lib/core/timer_manager.cpp:134-184 | a tick starts each timer at most once and only if it was due when the tick began; a due timer that does not start was cancelled meanwhile, so timers started or re-armed in the tick never fire in it |
| `TimerModel.OneShotFiresAtMostOnce` | lib/core/timer_manager.cpp:175-182 | a one-shot timer starts at most once in a whole run |
| `TimerModel.GoneForGood` | lib/core/timer_manager.cpp:68-105 | an issued id that is not live is never live again and never fires |
| `TimerFiring.RepeatingTimerFiresOnTime` | lib/core/timer_manager.cpp:134-184 | over every run a repeating timer that nobody cancels or restarts stays live with its id, delay and callback; it fires exactly once in each tick that has reached its due time and in no other; it is first due its delay, or none if negative, after its start, and then always its delay after the end of its last callback |
| `TimerFiring.OneShotFiresOnTime` | lib/core/timer_manager.cpp:134-184 | a one-shot timer that nobody cancels is live and silent until the first tick that has reached its start plus its delay, fires once in that tick, and is gone then |
| `TimerFiring.StepFires` | lib/core/timer_manager.cpp:134-184 | what one tick makes of a timer it does not cancel: fired once and re-armed or retired if due, untouched otherwise |
| `TimerFiring.StartWithoutCallback` | lib/core/timer_manager.cpp:68-77 | starting without a callback only stops the timer named and gives no id |
| `TimerManagement.TimerManager.Start` | lib/core/timer_manager.cpp:68-88 | refines the set of live timers: the old id goes, an empty callback gives id 0, otherwise a fresh id is live |
| `TimerManagement.TimerManager.Cancel` | lib/core/timer_manager.cpp:90-105 | refines removal from the live set, between ticks and inside a tick, and says whether the id was known |
| `TimerManagement.TimerManager.Active` | lib/core/timer_manager.cpp:107-112 | true if and only if the id is in the abstract live set, also during a tick |
| `TimerManagement.TimerManager.PollTimeoutMs` | lib/core/timer_manager.cpp:114-132 | -1, 0 or the least number of milliseconds, rounded up and capped, after which some entry is due |
| `TimerManagement.TimerManager.TakeDue` | lib/core/timer_manager.cpp:143-152 | moving the due entries into flight changes no live timer |
| `TimerManagement.TimerManager.FireEntry` | lib/core/timer_manager.cpp:154-183 | one due entry refines: fire if still live, then re-arm or retire unless cancelled by a callback |
| `TimerManagement.TimerManager.Tick` | lib/core/timer_manager.cpp:134-184 | a tick refines the abstract tick, and leaves the in-flight and cancelled sets empty |
| `TimerManagement.Timer.Start` | lib/core/timer_manager.cpp:201-207 | starting replaces the timer's former id |
| `TimerManagement.Timer.Stop` | lib/core/timer_manager.cpp:209-215 | stopping cancels the id and forgets it |
| `TimerManagement.Timer.MoveFrom` | lib/core/timer_manager.cpp:190-199 | assignment stops the old timer, takes over the other id and leaves the other empty; on itself it does nothing |
| `DuplicateClusters.Clusters` | tools/issue-triage.py:208-237 | the report holds exactly the connected components of two or more issues of one kind under similarity, in order of their least number |
| `DuplicateClusters.ClustersOfKind` | tools/issue-triage.py:211-236 | for one kind, the groups are exactly the components of size two or more, none twice |
| `DuplicateClusters.RootsAreComponents` | tools/issue-triage.py:221-231 | after all pairs are scanned two issues have one root if and only if a chain of similar issues links them |
| `DuplicateClusters.LinkMembers` | tools/issue-triage.py:221-231 | the scan over pairs joins every similar pair and nothing else |
| `DuplicateClusters.Forest.Find` | tools/issue-triage.py:215-219 | path halving terminates, returns the root and keeps every root |
| `DuplicateClusters.Forest.Union` | tools/issue-triage.py:231 | joining two trees merges exactly their two root classes |
| `DuplicateClusters.HalvingFits` | tools/issue-triage.py:217 | one halving step keeps the forest acyclic and every root as it was |
| `DuplicateClusters.MergeFits` | tools/issue-triage.py:231 | linking one root below another keeps the forest acyclic |
| `DuplicateClusters.GroupByRoot` | tools/issue-triage.py:233-235 | the grouping loop, which halves paths while it groups, gives the classes of the roots |
| `DuplicateClusters.SortByMin` | tools/issue-triage.py:237 | the sort keeps the clusters and orders them by least number |
| `IssueLinks.SimilarSymmetric` | tools/issue-triage.py:221-231 | the pairwise test does not depend on the order of the two issues |
| `IssueLinks.SimilarAtTheEdge` | tools/issue-triage.py:221-231 | an issue with words is similar to itself, two without a common word are not, and a share of exactly three tenths is enough |
| `NaturalOrder.OrderIsTotalUpToCase` | lib/util/string_utils.h:112-169 | antisymmetric, transitive, and 0 if and only if the strings are equal ignoring ASCII case |
| `NaturalOrder.FirstDifferenceDecides` | lib/util/string_utils.h:112-169 | texts that begin alike are ordered by their first different tokens: digit runs by the numbers they write and then by the number of zeros, anything else by its lowercased character |
| `NaturalOrder.RunsByValue` | lib/util/string_utils.h:120-154 | of two digit runs the smaller number comes first, and of equal ones the one with fewer leading zeros |
| `NaturalOrder.PrefixIsFirst` | lib/util/string_utils.h:112-169 | a text that goes on comes after the one it begins with |
| `NaturalOrder.Compare` | lib/util/string_utils.h:112-169 | the two-cursor loop equals the lexicographic order over digit runs and lowercased characters |
| `NaturalOrder.CompareRunsAt` | lib/util/string_utils.h:120-154 | two digit runs are compared by value without leading zeros, then by the number of zeros |
| `NaturalOrder.ListsOrder` | lib/util/string_utils.h:112-169 | the order over token lists is total |
| `NaturalOrder.SameTokensSameText` | lib/util/string_utils.h:247-251 | strings have the same tokens if and only if they are equal ignoring case |
| `ShellWords.SplitUndoesQuoting` | lib/util/string_utils.h:581-663 | splitting the space-joined quotations of any list of words gives the list back, with empty words, quotes, backslashes and newlines |
| `ShellWords.SplitUndoesQuoteDouble` | lib/util/string_utils.h:598-675 | splitting a double-quoted string gives the one word back |
| `ShellWords.SplitsAtBlanks` | lib/util/string_utils.h:598-663 | plain words are split at the blanks around them, however many and of whatever kind |
| `ShellWords.EscapesInside` | lib/util/string_utils.h:626-650 | inside double quotes a backslash escapes a double quote, a backslash, a dollar and a grave accent, and before anything else stands for itself |
| `ShellWords.UnquotesEitherKind` | lib/util/string_utils.h:677-700 | unquoting takes off a pair of quotes of either kind and nothing else |
| `ShellWords.UnquoteUndoesQuoteDouble` | lib/util/string_utils.h:665-696 | unquoting a double-quoted string gives it back |
| `ShellWords.SplitShellWords` | lib/util/string_utils.h:598-663 | the cursor loop, with its error for an unclosed quote, equals the specified scan |
| `ShellWords.ShellQuote` | lib/util/string_utils.h:581-596 | the loop equals the specified quotation |
| `ShellWords.QuoteDouble` | lib/util/string_utils.h:665-675 | the loop equals the specified quotation |
| `ShellWords.Join` | lib/util/string_utils.h:546-555 | the loop equals the specified join |
| `ShellWords.Unquote` | lib/util/string_utils.h:677-696 | the loop equals the specified reading |
| `UrlText.DecodeUndoesEncode` | lib/util/string_utils.h:183-241 | decoding an encoded byte string gives it back, for all bytes |
| `UrlText.EncodedIsPlain` | lib/util/string_utils.h:183-205 | an encoding holds only unreserved characters, and percent signs with two hexadecimal digits after them |
| `UrlText.EncodesByte` | lib/util/string_utils.h:189-203 | letters, digits and four marks stay as they are, any other byte becomes its two digits |
| `UrlText.UrlEncode` | lib/util/string_utils.h:183-205 | the loop equals the specified encoding |
| `UrlText.UrlDecode` | lib/util/string_utils.h:207-241 | the loop equals the specified decoding, malformed escapes included |
| `Base64.DecodeUndoesEncode` | lib/util/base64.h:14-64 | decoding an encoding gives the bytes back although the accumulator wraps at 32 bits |
| `Base64.AlphabetIsStandard` | lib/util/base64.h:12 | the alphabet is the one of RFC 4648 |
| `Base64.TestVectors` | lib/util/base64.h:14-29 | three test vectors of RFC 4648, with two, one and no padding characters |
| `Base64.NoiseIsIgnored` | lib/util/base64.h:47-55 | a character outside the alphabet before the first = changes nothing, and nothing after the first = matters |
| `Base64.AccumulatorByte` | lib/util/base64.h:56-60 | each emitted byte depends only on the last digits, whatever the wrapped accumulator holds above them |
| `Base64.Encode` | lib/util/base64.h:14-29 | the loop over groups of three bytes equals the specified encoding |
| `Base64.Decode` | lib/util/base64.h:37-64 | the loop on the wrapping accumulator equals the specified decoding of the digit stream |
| `WakeModel.NoLostWakeup` | lib/core/deferred_call.cpp:36-67 | in every interleaving the main loop sleeps on a non-empty queue only while the pipe is readable or a producer still owes its wake byte |
| `WakeModel.ExactlyOnceInOrder` | lib/core/deferred_call.cpp:61-74 | the calls run, the batch in hand and the queue together are always the pushes in lock order |
| `WakeModel.EverythingRuns` | src/app/deferred_call_poll_source.h:11-22 | when no producer owes a byte, the main loop alone gets to a state where everything pushed has run |
| `WakeModel.RunKeeps` | lib/core/deferred_call.cpp:36-95 | the invariant holds in every legal run of any number of producers |
| `WakeModel.WriterFinishes` | lib/core/deferred_call.cpp:36-52 | a producer that owes its byte can always write it or finds the pipe full, and owes nothing then |
| `WakeModel.SleeperTakes` | src/app/deferred_call_poll_source.h:11-22 | a sleeping main loop can always go on to take the whole queue |
| `DeferredCalls.DeferredCall.CallLater` | lib/core/deferred_call.cpp:61-67 | with any steps of others between its own, begins by pushing the call, takes nothing from the queue, and has paid its wake byte |
| `DeferredCalls.DeferredCall.WakeMainLoop` | lib/core/deferred_call.cpp:36-52 | the write loop is a legal run that ends without a debt |
| `DeferredCalls.DeferredCall.DrainWakeFd` | lib/core/deferred_call.cpp:76-95 | the read loop is a legal run of the protocol that has found the pipe empty, or has met a read that failed |
| `DeferredCalls.DeferredCall.TakePending` | lib/core/deferred_call.cpp:69-74 | returns the whole queue and leaves it empty |
| `DeferredCalls.DeferredCall.Dispatch` | src/app/deferred_call_poll_source.h:11-22 | drain, take and run form a legal run of the protocol, back to sleep, in which all that was queued at the call has run; what is queued on return was pushed since; and if the pipe was reported readable it was found empty once, or a read failed |
| `DeferredCalls.DeferredCall.RunAll` | src/app/deferred_call_poll_source.h:16-21 | every call taken runs, in order |
| `DispatchLoop.DispatchUntil` | lib/wayland/wayland_connection.cpp:208-367 | for any answers of the displays, poll and clock, on return every prepare-read has been matched by exactly one read or cancel of that display, in brackets; success is returned only when the completion test said so, a timeout only when the deadline was found passed or poll found nothing, a poll failure only when poll failed for good or there is nothing to poll, a connection failure only for a display that failed |
| `ReadIntents.ReplayMeansBracketed` | lib/wayland/wayland_connection.cpp:230-345 | the running check used by the loops implies the bracketing, stated by positions in the log |
| `DispatchLoop.PrepareAll` | lib/wayland/wayland_connection.cpp:263-277 | on every exit all intents are closed; on success every display has been announced once, in order, and is open |
| `DispatchLoop.PrepareOne` | lib/wayland/wayland_connection.cpp:263-276 | each failed announcement is followed by a dispatch, and each dispatch that does not end the call by another attempt |
| `DispatchLoop.FlushAll` | lib/wayland/wayland_connection.cpp:279-294 | every display is flushed, again while interrupted, a full socket or closed peer counting as done; on failure all intents are closed |
| `DispatchLoop.Wait` | lib/wayland/wayland_connection.cpp:296-326 | polls again only when interrupted; goes on only when poll has found something; on timeout and poll failure all intents are closed |
| `DispatchLoop.ReadAll` | lib/wayland/wayland_connection.cpp:328-345 | each prepared display is read if poll reported data on it and given up otherwise, once and in order; of the read results and of the transport results the first failure is returned, or none if there is none |
| `DispatchLoop.AnswersExactly` | lib/wayland/wayland_connection.cpp:334-340 | so a display has a read if and only if it was reported readable, and a cancel if and only if it was not |
| `DispatchLoop.CancelPreparedReads` | lib/wayland/wayland_connection.cpp:232-239 | closes exactly the open intents |
| `DispatchLoop.Round` | lib/wayland/wayland_connection.cpp:252-364 | one round starts and ends with no open intent; if the loop goes on, every display was announced, flushed, read or given up by what poll said, and dispatched at the end, and no read or transport failed; completion is tested before the reads, between the displays, and not after them |
| `DispatchLoop.DispatchAll` | lib/wayland/wayland_connection.cpp:252-261 | dispatches every display, and tests for completion in between only if asked to |
| `TextInputModel.SerialCountsCommits` | lib/wayland/text_input_service.cpp:394-397 | in every run the serial is the number of commits on the current object modulo 2^32, and each enable is followed at once by the full state and a commit |
| `TextInputModel.EnableIsOneGroup` | lib/wayland/text_input_service.cpp:317-331 | enabling sends enable, all state requests, commit and surface commit as one group |
| `TextInputWire.WireCommitsDiffer` | lib/wayland/text_input_service.cpp:369-397 | in every run the enables and state commits on the wire, in order, are the last marks kept but for the enters, and of two state commits with no enable or enter between them the later differs |
| `TextInputModel.StateCommitsDiffer` | lib/wayland/text_input_service.cpp:369-373 | the second half of it, for the marks |
| `TextInputModel.OnlyActiveClientActivated` | lib/wayland/text_input_service.cpp:154-223 | at any time exactly the stored active client has been told that it is active, across transfers too |
| `TextInputModel.DoneDeliversFold` | lib/wayland/text_input_service.cpp:274-309 | the edit handed over at done is the fold of the events since the last reset, and goes to the active client only |
| `TextInputModel.TransferOnlyInsideEdit` | lib/wayland/text_input_service.cpp:209-223 | outside the application of an edit a transfer does nothing |
| `TextInputModel.OpKeeps` | lib/wayland/text_input_service.cpp:154-309 | every call and event keeps the invariant, with whatever the client does while it applies an edit |
| `TextInputFocus.EnabledIsOnTheWire` | lib/wayland/text_input_service.cpp:317-344 | in every run the last enable or disable on the wire is an enable while the service holds the method enabled; in a run in which no operation, at any depth, loses the flag, that is so exactly then |
| `TextInputFocus.OpStaleExactly` | lib/wayland/text_input_service.cpp:154-272 | from a state in which wire and flag agree, an operation leads to an enabled compositor and a lowered flag if and only if it leaves the entered surface, or drops the active client, or replaces it by one that cannot be enabled, while its surface does not accept |
| `TextInputFocus.DroppingSaysDisable` | lib/wayland/text_input_service.cpp:189-200 | after any run, dropping the active client while it is enabled and its surface accepts says disable, commit and the commit of that surface, and nothing else |
| `TextInputFocus.ReplacingSaysDisable` | lib/wayland/text_input_service.cpp:154-187 | after any run, replacing it says the same first, and then only, where the new surface accepts, enable with all the state of the new client |
| `TextInputFocus.FocusEnables` | lib/wayland/text_input_service.cpp:225-260 | after any run, a new focus, a keyboard focus or an enter enables the active client wherever its surface then accepts, on the wire too, and its state is the one committed last |
| `TextInputFocus.EditStartsAnew` | lib/wayland/text_input_service.cpp:253-272 | entering, leaving, dropping the client and cleaning up leave nothing of the events before in the pending edit |
| `TextInputEffects.SignatureMeans` | lib/wayland/text_input_service.cpp:354-373 | a commit holds the state as the protocol allows it: text up to 4000 bytes, a rectangle of at least one by one, the preedit hint from version 2 on |
| `TextInputEffects.CommitsExactly` | lib/wayland/text_input_service.cpp:346-392 | a state is sent if and only if an enabled client on an accepting surface has one that is not the last one committed |
| `TextInputEffects.DoneCommitsExactly` | lib/wayland/text_input_service.cpp:292-309 | after an edit the state is committed if and only if the edit did not fail and the serial is that of the last commit, as an input-method change |
| `TextInputEffects.LastEventCounts` | lib/wayland/text_input_service.cpp:274-315 | of each kind of event the last one is in the edit |
| `TextInputEffects.OnlyEventsCount` | lib/wayland/text_input_service.cpp:274-315 | and without one the edit holds nothing of the kind |
| `TextInputEffects.AcceptsExactly` | lib/wayland/text_input_service.cpp:237-251 | a surface accepts input where it is entered, and otherwise only for a client that asked for activation by keyboard focus while that is on the surface or its parent |
| `TextInputEffects.OtherFocusIsSilent` | lib/wayland/text_input_service.cpp:225-272 | entering another surface, leaving, and losing the keyboard say nothing to the compositor |
| `TextInputEffects.CleanupForgets` | lib/wayland/text_input_service.cpp:130-150 | after a cleanup the service is as at the start but for the last state committed |
| `TextInputEffects.BindStartsClean` | lib/wayland/text_input_service.cpp:106-128 | binding the bound seat does nothing, any other starts with a clean object |
| `TextInputEffects.EditMayHandOver` | lib/wayland/text_input_service.cpp:209-223 | inside an edit the active client can hand over to any other on its surface, who are told while the compositor is not |
| `TextInputEffects.OthersMayNotHandOver` | lib/wayland/text_input_service.cpp:209-223 | no one else can, and not on another surface |
| `TextInput.TextInputService.SetFocused` | lib/wayland/text_input_service.cpp:154-187 | the method updates the service as specified |
| `TextInput.TextInputService.ClearFocused` | lib/wayland/text_input_service.cpp:189-200 | the method updates the service as specified |
| `TextInput.TextInputService.Transfer` | lib/wayland/text_input_service.cpp:209-223 | the method updates the service as specified and says whether it did |
| `TextInput.TextInputService.OnKeyboardFocus` | lib/wayland/text_input_service.cpp:225-235 | the method updates the service as specified |
| `TextInput.TextInputService.HandleEnter` | lib/wayland/text_input_service.cpp:253-260 | the method updates the service as specified |
| `TextInput.TextInputService.HandleLeave` | lib/wayland/text_input_service.cpp:262-272 | the method updates the service as specified |
| `TextInput.TextInputService.HandleImeEvent` | lib/wayland/text_input_service.cpp:274-315 | events gather in the pending edit |
| `TextInput.TextInputService.OnDone` | lib/wayland/text_input_service.cpp:292-309 | the edit is handed over with the applying flag set and restored, also when the client throws, and only a matching serial commits |
| `TextInput.TextInputService.EnableActiveClient` | lib/wayland/text_input_service.cpp:317-331 | the method sends the specified requests |
| `TextInput.TextInputService.DisableActiveClient` | lib/wayland/text_input_service.cpp:333-344 | the method sends the specified requests |
| `TextInput.TextInputService.CommitActive` | lib/wayland/text_input_service.cpp:346-392 | the method sends the specified requests unless the state is the one last committed |
| `TextInput.TextInputService.Clean` | lib/wayland/text_input_service.cpp:130-150 | the object goes, the client is deactivated and the serial restarts |
| `DragTraces.DragsLeaveNoTraceExactly` | lib/ui/drag_drop_controller.cpp:98-227 | in every run, whoever paints what and whenever, a node has at every moment without a drag the opacity and layout participation it would have had without any drag, if and only if every end of a gesture finds its saved look, if it is held, and its own opacity, if it is the source that is dragged, as they would be without drags, or, where the source goes, finds it looking so |
| `DragTraces.DragsLeaveNoTrace` | lib/ui/drag_drop_controller.cpp:98-227 | so it does in every run from a start in which a source looks as its own opacity has it, and in which no one paints the node while it is held, or paints a source otherwise than by its own opacity; a held source gets a new opacity only in its own gesture, and is dragged before that ends or has the saved opacity again or gets a new preview level; and no source goes while its drag shows the node otherwise |
| `DragTraces.RunDims` | lib/ui/drag_drop_controller.cpp:347-364 | in every run in which no one else sets the held node's look, that node has its saved look until the drag starts, and then the dimmed or lifted one, or without a preview the dragged source's |
| `DragTraces.UnregisteringRestoresExactly` | lib/ui/drag_drop_controller.cpp:200-217 | in every such run, when the source goes at any time while it is dragged, the preview target looks as when armed if and only if the drag has not changed it, by the branch that dims, lifts or leaves it |
| `DragGestures.NewOpacityIsKeptExactly` | lib/ui/controls/drag_source.cpp:112-115 | a new opacity that a source gets at any time during a gesture is there after the gesture, whatever happens in between but a new setting of that source, and whichever way the gesture ends while its active source lives, if and only if the source is not held, or is itself being dragged at the end, or the value is the saved one, or the end is a new preview level of that source |
| `DragGestures.NewOpacityIsKeptWhenSourceGoesExactly` | lib/ui/drag_drop_controller.cpp:200-217 | where the gesture ends because the active source goes, the new opacity of another source is there if and only if no drag has started since, or it is not shown by a preview, or the preview leaves the same opacity |
| `DragGestures.TapLosesNewOpacity` | lib/ui/drag_drop_controller.cpp:139-153 | concretely: set while the source is pressed, it is lost on a tap |
| `DragGestures.DragKeepsNewOpacity` | lib/ui/drag_drop_controller.cpp:118-172 | and kept when the same press becomes a drag |
| `DragGestures.PaintIsKeptExactly` | lib/ui/drag_drop_controller.cpp:393-424 | a look that anyone gives any node at any time during a gesture is there after it, unless that look is set again meanwhile and whichever way the gesture ends while its active source lives, if and only if it agrees with what the end puts back: the saved look of the held node, and its own opacity on a source that is dragged or gets a new preview level |
| `DragGestures.PaintIsKeptWhenSourceGoesExactly` | lib/ui/drag_drop_controller.cpp:200-217 | where the active source goes, it is there if and only if no drag has started since, or the start made the same look of it |
| `DragGestures.EndLooks` | lib/ui/drag_drop_controller.cpp:98-244 | every operation that ends a gesture, by releasing, arming again, cancelling or changing a participant, makes of every node what is stated of it once; only a source that goes leaves all looks as they are |
| `DragGestures.RunSteady` | lib/ui/drag_drop_controller.cpp:118-137 | as long as a gesture goes on, whatever else happens, a node that no one sets looks as before, or as the start of the drag has made it look |
| `DragGestures.DraggedSourceLooks` | lib/ui/controls/drag_source.cpp:188-190 | a dragged source that is not shown by a preview is dimmed to 0.55 of its opacity, unless it previews an ancestor |
| `DragGestures.CancelLooks` | lib/ui/drag_drop_controller.cpp:414-424 | what clearing the state makes of every node |
| `DragRuns.RunKeeps` | lib/ui/drag_drop_controller.cpp:98-244 | in every run: active source unchanged since it was armed, hovered zone enabled and accepting with the kept value, drag marks on exactly the active source and hovered zone, held node the safe preview target |
| `DragRuns.PreviewNeverReachesItself` | lib/ui/drag_drop_controller.cpp:347-364 | a hovered zone or a preview means that a drag is on, and what the preview shows is on the source's chain and never holds the overlay |
| `DragCallbacks.CallbacksFollowGestures` | lib/ui/drag_drop_controller.cpp:139-172 | in every run callbacks come only after their gesture has ended, at most one for each arming, a drop with the armed payload |
| `DragCallbacks.ReleaseDropsExactly` | lib/ui/drag_drop_controller.cpp:155-171 | a release calls back if and only if the point aims at a zone with a drop name and a callback is set, with the zone's name and value and the source's payload |
| `DragRuns.SourceSetterSets` | lib/ui/controls/drag_source.cpp:61-136 | a setter of a source sets its property, whatever gesture it cancels on the way, and no other |
| `DragRuns.ZoneSetterSets` | lib/ui/controls/drop_zone.cpp:29-71 | so does a setter of a zone |
| `DragRuns.SubtreeCancelsExactly` | lib/ui/drag_drop_controller.cpp:229-244 | removing a subtree ends a gesture if and only if its source, hovered zone or held node lies in it, and otherwise changes nothing |
| `DragRuns.OverlayIsSet` | lib/ui/drag_drop_controller.cpp:90-96 | the overlay is stored, and a changed one ends the gesture |
| `DragCallbacks.ReleaseClicksExactly` | lib/ui/drag_drop_controller.cpp:139-153 | a release before the drag starts ends the gesture and clicks the source if and only if it is inside it |
| `SceneTree.SafeTargetIsHighest` | lib/ui/drag_drop_controller.cpp:29-49 | the preview target is the highest node from the source towards the requested one whose subtree excludes the overlay root; none if and only if the source holds the overlay |
| `SceneTree.IsAncestorOrSelf` | lib/ui/drag_drop_controller.cpp:17-27 | the parent walk decides ancestry |
| `SceneTree.SafePreviewTarget` | lib/ui/drag_drop_controller.cpp:29-49 | the parent walk, tied to the function the lemma speaks about |
| `SceneTree.AncestorAt` | lib/ui/controls/drag_source.cpp:138-144 | walks the given number of levels up, or to the root |
| `SceneTree.AncestorExactly` | lib/ui/controls/drag_source.cpp:138-144 | it is that place of the parent chain, or the root of a shorter one |
| `DropTargets.ClosestIsNearest` | lib/ui/drag_drop_controller.cpp:266-312 | the zone found is eligible and no eligible zone is nearer, or as near and deeper; none only if none is eligible |
| `DropTargets.NearestExactly` | lib/ui/drag_drop_controller.cpp:266-312 | the zone found is shown, enabled, takes what is dragged, and holds the point in its box widened by its slop, as do all its ancestors; of all such zones it is at the least distance, and of those one with the most ancestors |
| `DropTargets.ReachIsFound` | lib/ui/drag_drop_controller.cpp:266-312 | if some zone is in reach, one is found |
| `DropTargets.DistanceIsLeast` | lib/ui/drag_drop_controller.cpp:280-300 | the distance compared is that to the closest point of the zone's box, squared |
| `DropTargets.TargetIsFirstHit` | lib/ui/drag_drop_controller.cpp:313-321 | without a zone in reach, the first usable one on the chain of the node that is hit is aimed at |
| `DropTargets.TargetIsUsable` | lib/ui/drag_drop_controller.cpp:252-321 | a zone aimed at is enabled and accepts what is dragged, by either search |
| `DropTargets.TargetAt` | lib/ui/drag_drop_controller.cpp:252-321 | both searches, tied to the function the lemmas speak about |
| `DragDrop.DragDropController.Arm` | lib/ui/drag_drop_controller.cpp:98-116 | cancels first, refuses a disabled or empty source, and saves the look of the safe preview target |
| `DragDrop.DragDropController.Motion` | lib/ui/drag_drop_controller.cpp:118-137 | starts the drag at the threshold, then follows the target |
| `DragDrop.DragDropController.Release` | lib/ui/drag_drop_controller.cpp:139-172 | tap, or drop after the state is cleared |
| `DragDrop.DragDropController.ClearState` | lib/ui/drag_drop_controller.cpp:414-424 | clears target, preview, source mark and state, in place |
| `DragDrop.DragDropController.CreatePreview` | lib/ui/drag_drop_controller.cpp:347-364 | dims or lifts the preview target once |
| `DragDrop.DragDropController.ClearPreview` | lib/ui/drag_drop_controller.cpp:393-412 | restores the saved look, with or without a preview |
| `DragDrop.DragDropController.UpdateTarget` | lib/ui/drag_drop_controller.cpp:323-337 | moves the hover mark from the old zone to the new one |
| `DragDrop.DragDropController.UnregisterSource` | lib/ui/drag_drop_controller.cpp:200-217 | drops the preview target before it clears, so nothing is restored |
| `DragDrop.DragDropController.UnregisterDropZone` | lib/ui/drag_drop_controller.cpp:219-227 | cancels if the zone was hovered |
| `DragDrop.DragDropController.CancelIfParticipantIn` | lib/ui/drag_drop_controller.cpp:229-244 | cancels if and only if source, target or preview target lies in the subtree |
| `DragDrop.DragDropController.SetOverlayRoot` | lib/ui/drag_drop_controller.cpp:90-96 | cancels when the overlay changes |
| `DragDrop.DragDropController.ChangeSource` | lib/ui/controls/drag_source.cpp:61-136 | a setter of the source cancels its gesture before the value changes |
| `DragDrop.DragDropController.ChangeZone` | lib/ui/controls/drop_zone.cpp:29-71 | a setter of the zone cancels its gesture before the value changes |
| `RenderPaths.FramePaints` | lib/render/render_context.cpp:310-528 | a frame paints exactly the nodes that single calls, one move at a time, arrive at, with their arguments |
| `RenderMeaning.FramePaintsOnce` | lib/render/render_context.cpp:310-528 | two draws of a frame are reached by different calls |
| `RenderMeaning.FrameMeans` | lib/render/render_context.cpp:310-528 | what is painted is visible with only visible nodes on its path, has the product of the opacities on its path but for a proxy's source, and is clipped to exactly what the clipping nodes on its path have in common |
| `RenderMeaning.EveryVisibleNodeIsPainted` | lib/render/render_context.cpp:472-527 | every such node is painted |
| `RenderMeaning.ArrivesExactly` | lib/render/render_context.cpp:495-511 | a call reaches a node if and only if all nodes on the way are visible and the clips on the way share a point |
| `RenderMeaning.FrameIsInOrder` | lib/render/render_context.cpp:472-527 | of two nodes painted, an ancestor comes first, and of siblings' subtrees the smaller z index, then the earlier child |
| `PaintOrder.SkippingTheSortKeepsOrder` | lib/render/render_context.cpp:472-493 | skipping the sort when no adjacent pair is inverted gives the one stable order that always sorting gives |
| `PaintOrder.StableIsUnique` | lib/render/render_context.cpp:486-493 | there is only one stable order |
| `RenderNode.WalkMeetsAncestors` | lib/render/render_context.cpp:437-443 | the proxy's parent walk meets the source if and only if the source is the proxy or an ancestor |
| `RenderTermination.BoundedExactly` | lib/render/render_context.cpp:434-527 | for every scene, the depth of calls is bounded if and only if no proxy that can be reached shows itself, directly or through other proxies |
| `RenderTermination.RankableExactly` | lib/render/render_context.cpp:434-527 | the ranks that the recursive renderer's termination rests on exist under the same condition and no other |
| `RenderTermination.CallsAreBoundedExactly` | lib/render/render_context.cpp:434-527 | under it the calls of every frame are bounded, whatever is visible or clipped; in a scene where nothing is hidden or clipped only under it |
| `RenderTermination.OneProxyEnds` | lib/render/render_context.cpp:434-452 | with one proxy rendering ends, and no chain of calls is longer than twice the height of the tree |
| `RenderTermination.MutualProxiesAreCircular` | lib/render/render_context.cpp:434-452 | a concrete scene of two proxies that show each other's subtrees breaks the condition |
| `DirectoryWalk.Walk` | lib/util/file_utils.h:481-511 | ends on every finite directory graph; every entry of every entered directory is visited once unless an error ends the walk; a directory is reported exactly when it is new and resolves |
| `DirectoryWalk.WalkReportsExactlyTheReachable` | lib/util/file_utils.h:481-511 | a walk without error reports exactly the directories reachable from the root through accepted ones |
| `DirectoryWalk.EachDirectoryOnce` | lib/util/file_utils.h:488-493 | no directory is reported twice and the root never, whatever links there are |
| `DirectoryWalk.ReportIsReachable` | lib/util/file_utils.h:481-511 | whatever is reported is reachable, even if the walk ended early |
| `LanguageTag.NormalizeIsIdempotent` | lib/i18n/language_tag.cpp:162-203 | normalising twice changes nothing more |
| `LanguageTag.SameTagExactly` | lib/i18n/language_tag.cpp:162-203 | two names that have a tag have the same tag if and only if they agree up to case, separators, codeset and modifier |
| `LanguageTag.SplitUndoesJoin` | lib/i18n/language_tag.cpp:54-78 | splitting joined parts gives the parts back |
| `LanguageTag.JoinUndoesSplit` | lib/i18n/language_tag.cpp:54-78 | joining the parts of a name gives the name back |
| `LanguageTag.CasedMeans` | lib/i18n/language_tag.cpp:24-52 | a subtag keeps its class and its text up to case, and its case depends on nothing else |
| `LanguageTag.CasedLooks` | lib/i18n/language_tag.cpp:24-52 | a script begins with a capital, a region is in capitals, anything else has none |
| `LanguageTag.SubtagClasses` | lib/i18n/language_tag.cpp:24-52 | two letters or three digits are a region, four letters a script, and mixtures neither |
| `LanguageTag.Normalize` | lib/i18n/language_tag.cpp:162-203 | the loops equal the specified normal form |
| `LanguageTag.SplitTag` | lib/i18n/language_tag.cpp:54-67 | the search loop equals the specified split |
| `TagCandidates.CandidatesMean` | lib/i18n/language_tag.cpp:214-242 | the candidates of a name with a tag have no duplicates, are normal forms of the same language, and include the tag |
| `TagCandidates.CandidatesEndWithLanguage` | lib/i18n/language_tag.cpp:214-242 | the last candidate is the bare language |
| `TagCandidates.CandidatesWithRegion` | lib/i18n/language_tag.cpp:119-134 | a language with a region gives that name and the language; Chinese with one of six regions first the name with the script implied, and then both and the language with that script |
| `TagCandidates.CandidatesWithScriptAndRegion` | lib/i18n/language_tag.cpp:214-242 | with a script and a region the name comes first, then without the script, then without the region, then the language |
| `TagCandidates.CandidatesWithoutRegion` | lib/i18n/language_tag.cpp:214-242 | without a region, the language with its script if it has one, and the language |
| `TagCandidates.CatalogLanguageCandidates` | lib/i18n/language_tag.cpp:214-242 | the method gives the specified list |
| `TagCandidates.ParseTag` | lib/i18n/language_tag.cpp:97-117 | one pass finds the first script and the first region |

## Left out

- Application wiring, process start-up, D-Bus and IPC handlers: they depend on code outside the modelled files.
- EGL and GL calls, text measurement, colours and the drawing of each node kind: a painted node is one event of the frame.
- Frame times, animation deltas, profiling counters and log messages: they decide no branch that is modelled.
- `LockSurface` and other overrides of `render`: only `Surface::render` is modelled.
- `FrameProgress.NoLostFrameWork`: assumes the surroundings keep the surface able to draw and follow a discard by a request or renderNow; the cases without that are the exact lemmas beside it.
- `FrameTicks.NoLostTick`: besides what `FrameProgress.NoLostFrameWork` assumes, the compositor grants frame callbacks, and a discard inside a prepare callback run by a drain is followed by a redraw request or renderNow.
- `FrameProgress.ProcessNeglectsExactly`: the three lemmas of this kind leave out callbacks that discard, destroy or render their own surface, and those that reach it through the callbacks of another one.
- `FrameQueues.DrainAnswersEveryFlag`: a drain that is started inside a drain, and a surface that is freed during one, are not part of this model; destroying the Wayland side of a surface is.
- `StripMerge.Tessellate`: rows are any function to segments over the reals; the corner curves (square roots and radii) and float rounding are not modelled.
- `TimerManagement.TimerManager.Tick`: a callback that itself calls tick is not modelled, nor is the wrap-around of 64-bit ids; the hash map's iteration order is a parameter.
- `DuplicateClusters.Clusters`: issue numbers are assumed distinct, titles come as token sets, and the similarity quotient is compared over the reals, without floating-point rounding.
- `NaturalOrder.Compare`: ASCII classes and case only; the locale's effect on `tolower` and `isdigit` is not modelled.
- `Base64.Encode`: the `|` of byte fields that do not overlap is written as `+`.
- `DeferredCalls.DeferredCall.CallLater`: the pipe is assumed to exist, and a write to fail only when the pipe is full or interrupted; fairness of the scheduler is not modelled. The main loop's own steps are not among those between a producer's; `WakeModel` has all interleavings.
- `TextInput.TextInputService.OnDone`: a client calls back into the service only while it applies an edit; calls from inside its activated, deactivated or reset notifications are not modelled.
- `DispatchLoop.DispatchUntil`: the displays, poll, the clock and the completion test are an arbitrary finite list of answers, followed by a passed deadline, with handlers that do not call the loop again; error texts are not modelled.
- `DragDrop.DragDropController.Motion`: coordinates, the drag threshold and the scene's hit tests are inputs; the preview's position and the expansion of hovered zones are not modelled.
- `DragTraces.DragsLeaveNoTraceExactly`: a node's look is an entry of a map, not an object, and stays when its source is destroyed; the tree does not change during a run.
- `DragRuns.RunKeeps`: the sets of registered sources and zones serve only to detach them when the controller goes, which is not modelled.
- `RenderMeaning.FrameMeans`: nodes that are culled because their paint is contained in bounds outside the clip are not modelled; transforms are lists of factors, with any function for the bounds.
- `RenderTermination.BoundedExactly`: counts paths of calls whatever is visible or clipped; for actual calls the condition is exact where nothing is hidden or clipped. Nodes are named by their place in one tree, so a source outside the rendered tree is not modelled.
- `DirectoryWalk.Walk`: the file system does not change during the walk, and the callback's answer is a function of the entry.
- `LanguageTag.Normalize`: ASCII case only; `isRtlLanguage` would only add a table.
- Output scale, popup geometry, `Signal`, the frame rate limiter, fingerprint guards and the other scripts in `tools/`: easy next to the above.
