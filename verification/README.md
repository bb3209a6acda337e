# Verified model of the audio transport stack

The audio stack under `lib/audio_pipeline` moves bytes between elements: threads that take commands, each reading from
one ring buffer and writing to the next. A pipeline links elements through ring buffers, breaks the chain up and
relinks it while some elements are at work, stops the elements and waits for them, and starts them again. Events go
from elements to listeners through message queues and queue sets. One more unit, `lib/audio_hal/audio_volume.c`, turns
user volumes into codec registers. This project models the five of them in Dafny and proves what they keep.

| files | what they model |
|---|---|
| `ringbuf.dfy` | the ring buffer as an object over an array, refining a byte queue, with nobody else running |
| `ring_protocol.dfy`, `ring_transfer.dfy`, `ring_stream.dfy`, `ring_signals.dfy`, `ring_solo.dfy` | one reader, one writer and any number of signallers as a transition system in which each locked section is a step; its progress, over one transfer and over a whole stream; how signals get the two out of their calls; its agreement with the sequential model |
| `pipeline_spec.dfy`, `pipeline_class.dfy` | link, unlink, breakup and relink as functions, and as loops over the two lists that refine them |
| `pipeline_chain.dfy`, `pipeline_relink.dfy`, `pipeline_link.dfy`, `pipeline_runs.dfy`, `pipeline_refs.dfy`, `pipeline_sizes.dfy` | the linker's invariant, the chains it makes, runs of calls, when an element may come to refer to a destroyed buffer, and which sizes buffers have |
| `element_spec.dfy`, `element_class.dfy`, `element_runs.dfy` | the life cycle of an element: its handlers as functions and as methods that refine them, and all runs |
| `pipeline_control.dfy`, `restart.dfy` | run, resume, pause, stop and terminate as loops over the elements of a pipeline; stopping it, waiting, and running it again |
| `event_delivery.dfy`, `event_cleanup.dfy`, `event_iface.dfy` | queue sets and delivery; when a clean-up ends; taking a listener's set down and building it up again |
| `volume.dfy`, `item_status.dfy` | volumes and registers, over the reals; counting which elements have reached a status |

`dafny verify dfyconfig.toml` checks the project.

## What is assumed

- Every section under the ring buffer's lock is one step, and so is every give, every wait and every flag that is set
  outside it. The one exception is the done flag, which may change between the two tests the reader makes of it.
  `rb_reset` takes no lock, so it is a step only while nobody is inside.
- A wait may time out at any moment at which it would block.
- Each call on an element, each command it takes and each call of its process function is one step; a reset of its
  state may also fall into the call of process. What the user's open and process functions return is arbitrary.
- The function-static "last buffer" of link and of relink is an arbitrary input of each call, since any other
  pipeline may have left something there.
- Elements are registered before the first link, with distinct handles; registration flags them as linked.
- FreeRTOS: a send to a member queue leaves one token in the set; adding needs an empty queue that is in no set;
  removing fails on a queue that has messages or is not a member; deleting a set forgets its tokens.

## What the proofs bring out

- `rb_done_write` gives only the reader's token. A writer parked on a full buffer is not woken by it, and no other
  news is ever missed.
- That both sides are never parked without a token holds for every size. What a size of at least 4 buys is progress:
  below it the word rounding lets the two pass tokens back and forth for ever.
- RB_DONE can leave up to 3 bytes behind, if writing becomes done between the two tests of the flag.
- A read that aborts after moving bytes reports the abort and not the bytes.
- A pseudo read (null destination) that is split in two copies its second chunk to an address nobody supplied, since
  the null pointer has been advanced by the first.
- Breakup is documented to keep the working elements up to `kept_ctx_el`, and none if that is NULL
  (`include/audio_pipeline.h:420-435`). The code keeps the first linked element that has an output, if it is working,
  even for NULL, and `kept_ctx_el`; not those in between.
- An element can be left referring to a destroyed buffer in two ways only: when the pipeline is unlinked it holds a
  buffer while it is not linked and hosts none, or a call with a single tag, or a relink that cannot create its first
  buffer, hands on a stale static.
- Linking a pipeline that was broken up, instead of relinking it, leaves elements hosting buffers they do not use, and
  unlinking with a kept element left aside leaves it flagged kept with nothing kept. No reference dangles for that.
- A relink hands an element any unused buffer without a host, whatever its size, and passes over an element for which
  there is none and none can be created, without answering that.
- An element linked by a single tag stays flagged linked over a breakup.
- The last element of a relinked chain may claim an unused buffer it has no use for; link and relink with a
  single tag hand on a stale buffer.
- After wait-for-stop every element is closed and not running, whatever is pending, except for a resume command ahead of
  a destroy command; an `audio_pipeline_resume` that timed out leaves one there, and the element opens again.
- It need not be in INIT: the stop command is usually still in its queue, and taking it puts the element into STOPPED.
  The next run starts it all the same. It does not start one that a pending finish command has put into FINISHED, and
  reports success.
- A run fails, puts the pipeline into ERROR and tells all its elements to end as soon as one cannot be resumed in time;
  one that was paused when its thread ended never can.
- Resetting the state of an element that is open makes it open twice. The pipeline's own wait never does so; its breakup
  does, to any element it lets go that is still at work.
- Setting the same listener twice fails and leaves two entries for one queue, which is in the set because the first was
  added. The next clean-up takes the queue out at the first entry and never gets past the second. The same goes for a
  listener that is set to an event while another one listens to it.

## Model

| member | source | states |
|---|---|---|
| RingBuffer.RingBuf.Create | lib/audio_pipeline/ringbuf.c:56-87 | no buffer for blocks under two bytes; otherwise an empty one of `blockSize * blocks` bytes with clear flags and no token |
| RingBuffer.RingBuf.Reset | lib/audio_pipeline/ringbuf.c:115-128 | empty and flag-clear again, both positions back at the start, tokens untouched |
| RingBuffer.RingBuf.Abort | lib/audio_pipeline/ringbuf.c:324-352 | both abort flags and both tokens are set, nothing else changes |
| RingBuffer.RingBuf.DoneWrite | lib/audio_pipeline/ringbuf.c:362-370 | the done flag and the reader's token are set; the writer's token is not |
| RingBuffer.RingBuf.UnblockReader | lib/audio_pipeline/ringbuf.c:372-380 | the unblock flag and the reader's token are set |
| RingBuffer.RingBuf.CopyOut | lib/audio_pipeline/ringbuf.c:212-226 | one copy or two around the end of the array put precisely the `n` bytes of the circle from the read position on into the destination |
| RingBuffer.RingBuf.CopyIn | lib/audio_pipeline/ringbuf.c:293-303 | one copy or two lay the source over the circle from the write position on |
| RingBuffer.RingBuf.TakeChunk | lib/audio_pipeline/ringbuf.c:212-230 | a locked read section removes a prefix of the queue; the position invariant, with 0 and `size` both allowed, is kept |
| RingBuffer.RingBuf.PutChunk | lib/audio_pipeline/ringbuf.c:293-307 | a locked write section appends to the queue; the position invariant is kept |
| RingBuffer.RingBuf.Read | lib/audio_pipeline/ringbuf.c:150-246 | a whole call, chunk by chunk, has the effect on the queue, flags and tokens, the bytes copied out and the result that `ReadAfter` and `ReadReturn` give; the properties of these are the lemmas below |
| RingBuffer.RingBuf.Write | lib/audio_pipeline/ringbuf.c:248-322 | a whole call appends the prefix that fits and has the tokens and the result that `WriteAfter` and `WriteReturn` give |
| RingBuffer.ArcSplit | lib/audio_pipeline/ringbuf.c:212-226 | a stretch of the circle is its first part followed by the rest, wherever it wraps |
| RingBuffer.ArcWritten | lib/audio_pipeline/ringbuf.c:293-303 | writing into the free part leaves every queued byte alone and puts the new ones right behind them |
| RingTypes.WordsIsTheMultipleBelow | lib/audio_pipeline/ringbuf.c:174 | the mask takes the greatest multiple of 4 that is not above the fill count |
| RingTypes.SplitInTwoChunks | lib/audio_pipeline/ringbuf.c:167-235 | exactly when one undisturbed read copies twice: writing is done and whole words and then a ragged tail are taken |
| RingTypes.DoneDrainsEverything | lib/audio_pipeline/ringbuf.c:167-188 | once writing is done, reads of any lengths hand over every queued byte in order, the ragged tail included |
| RingTypes.ReadReturnTellsBytesUnlessAborted | lib/audio_pipeline/ringbuf.c:236-245 | the result tells the bytes moved unless and only unless the read aborts after moving some; a short one is a multiple of 4 while writing is not done |
| RingTypes.ReadReturnTellsWhy | lib/audio_pipeline/ringbuf.c:182-246 | for each code, exactly when a read answers it: RB_DONE for something asked of an empty buffer once writing is done, RB_ABORT for more than is there after an abort while it is not, RB_TIMEOUT for more than is there, and less than a word, with neither |
| RingTypes.WriteReturnTellsBytesUnlessAborted | lib/audio_pipeline/ringbuf.c:309-321 | a write that fits answers its length; one that does not answers the room there was, unless and only unless it is aborted while writing is not done |
| RingTypes.WriteReturnTellsWhy | lib/audio_pipeline/ringbuf.c:270-321 | for each code, exactly when a write answers it |
| RingTypes.WriteThenReadIsFifo | lib/audio_pipeline/ringbuf.c:150-322 | a write and then a read of everything give back the old bytes and then the new ones |
| RingProtocol.StepKeepsInv | lib/audio_pipeline/ringbuf.c:150-380 | every locked section, give, wait, time-out, flag and reset keeps conservation, whole words and both wake-up invariants |
| RingProtocol.EveryRunIsSafe | lib/audio_pipeline/ringbuf.c:160-322 | over every interleaving, for any size: bytes in are bytes out followed by the queue; a reader or writer parked without a token truly has nothing to do or is owed a give; both are never parked without a token |
| RingProtocol.OwedReadGiveArrives | lib/audio_pipeline/ringbuf.c:258-316 | a give the writer owes a parked reader cannot be held up and gets nearer with each of its steps |
| RingProtocol.OwedWriteGiveArrives | lib/audio_pipeline/ringbuf.c:160-239 | the same for the give the reader owes the writer |
| RingProtocol.ShortReadIsWholeWords | lib/audio_pipeline/ringbuf.c:167-188 | in every reachable state a short read while writing is not done has moved a multiple of 4 bytes, through any number of chunks |
| RingProtocol.DoneMeansDrained | lib/audio_pipeline/ringbuf.c:182-188 | RB_DONE is decided only under the lock with nothing to take: on an empty queue if writing was done when the section began, with at most 3 bytes left if it became done between its two tests of the flag |
| RingProtocol.DoneCanLeaveThree | lib/audio_pipeline/ringbuf.c:175-188 | a run that does leave 3 bytes behind RB_DONE |
| RingProtocol.StrandedOnlyByDone | lib/audio_pipeline/ringbuf.c:270-291 | of a parked writer that nobody will wake: its next section would not park again exactly if writing is done |
| RingProtocol.DoneStrandsTheWriter | lib/audio_pipeline/ringbuf.c:362-370 | for every size, a run in which `rb_done_write` leaves the writer parked for good |
| RingProtocol.ParkedPairCanMove | lib/audio_pipeline/ringbuf.c:204-210 | with room for a word, of two parked callers one has a token and something to do with it |
| RingSignals.SignalAnswersReader | lib/audio_pipeline/ringbuf.c:180-203 | a reader waiting with nothing to take is out of its loop three steps after `rb_done_write`, an abort or `rb_unblock_reader`, with RB_DONE, RB_ABORT or RB_TIMEOUT, unless a signal that weighs more has gone before |
| RingSignals.AbortAnswersWriter | lib/audio_pipeline/ringbuf.c:270-281 | a writer waiting on a full buffer is out of its loop with RB_ABORT two steps after the second half of an abort |
| RingSignals.AbortRunsThrough | lib/audio_pipeline/ringbuf.c:324-352 | an abort as four sections leaves both abort flags and both tokens set, and nothing else changed |
| RingSignals.SignalFreesReader | lib/audio_pipeline/ringbuf.c:160-246 | over every interleaving: once any of the three signals has been given the reader is out of its loop within as many steps of its own as bytes it still wants and four, and is held up by nothing but a give on its way |
| RingSignals.AbortFreesWriter | lib/audio_pipeline/ringbuf.c:256-316 | over every interleaving the same of the writer after the second half of an abort |
| RingSignals.ResetReaderWaits | lib/audio_pipeline/ringbuf.c:115-128 | after a reset of whatever quiet buffer a read finds nothing and goes to wait: bytes and flags are forgotten |
| RingSignals.ResetWriterWaits | lib/audio_pipeline/ringbuf.c:115-128 | after a reset a write of more than the size fills the buffer whole and goes to wait |
| RingSignals.UnblockIsForOneCall | lib/audio_pipeline/ringbuf.c:244 | the unblock flag is down when the call it was meant for has returned, and no other flag is touched |
| RingTransfer.TransferCompletes | lib/audio_pipeline/ringbuf.c:150-322 | with a size of at least 4, every schedule of a write against an equally long read is bounded and ends with both returned and all bytes out in order |
| RingTransfer.SmallRingNeverCompletes | lib/audio_pipeline/ringbuf.c:174-210 | below 4 a transfer longer than the buffer is caught: under every schedule not one more byte moves once the writer has filled it |
| RingStream.StreamCompletes | lib/audio_pipeline/ringbuf.c:150-370 | from any point of a stream on, any number of writes and then `rb_done_write` against reads of any lengths until RB_DONE, with a size of at least 4: every schedule is bounded and ends only when the reader has been told of the end; it has then read every byte in order but at most three, and all of them if writing was done when its last section began |
| RingStream.WholeStream | lib/audio_pipeline/ringbuf.c:150-370 | so from a new buffer on, in a number of steps in proportion to the bytes and the calls |
| RingSolo.WriteAlone | lib/audio_pipeline/ringbuf.c:248-322 | with no reader inside, the interleaved writer reaches the contents, flags, tokens, bytes and returned value of the sequential write |
| RingSolo.ReadAlone | lib/audio_pipeline/ringbuf.c:150-246 | the interleaved reader left alone reaches the contents, flags, tokens, bytes and returned value of the sequential read: the two models agree |
| PipelineLists.Pipeline.ItemByTag | lib/audio_pipeline/audio_pipeline.c:74-84 | the loop finds the first element carrying the tag, regardless of case |
| PipelineRelink.SameTagIff | lib/audio_pipeline/audio_pipeline.c:74-84 | two tags are the same exactly if they differ in the case of letters at most |
| PipelineLists.Pipeline.LinkElem | lib/audio_pipeline/audio_pipeline.c:461-490 | one turn of link leaves the lists, the books and the carried buffer as the helper of the specification does |
| PipelineLists.Pipeline.Link | lib/audio_pipeline/audio_pipeline.c:492-518 | the loop refines the specification of link, its failures part of the way included |
| PipelineLists.Pipeline.DestroyItems | lib/audio_pipeline/audio_pipeline.c:538-550 | every listed buffer is destroyed once, in order, and precisely the elements hosting one are detached |
| PipelineLists.Pipeline.Unlink | lib/audio_pipeline/audio_pipeline.c:520-554 | both loops together refine the specification of unlink |
| PipelineLists.Pipeline.DropElem | lib/audio_pipeline/audio_pipeline.c:805-827 | the search for the output of an element that is let go has the effect of its closed form: only the first buffer of the list is ever recognised |
| PipelineLists.Pipeline.KeepElem | lib/audio_pipeline/audio_pipeline.c:829-849 | the search for the output of an element that may be kept has the effect of its closed form, and tells whether it was found |
| PipelineLists.Pipeline.BreakupElements | lib/audio_pipeline/audio_pipeline.c:782-862 | the nested loops refine the specification of breakup |
| PipelineLists.Pipeline.ClaimItem | lib/audio_pipeline/audio_pipeline.c:888-904 | the search takes the first unused buffer without a host and un-hosts the unused ones it passes |
| PipelineLists.Pipeline.RelinkElem | lib/audio_pipeline/audio_pipeline.c:864-934 | one turn of relink leaves the lists, the books and the carried buffer as the helper of the specification does |
| PipelineLists.Pipeline.Relink | lib/audio_pipeline/audio_pipeline.c:936-980 | the loop refines the specification of relink, its failures included |
| PipelineLink.LinkBuildsChain | lib/audio_pipeline/audio_pipeline.c:461-518 | for two or more distinct registered elements, from any state and any carried buffer: each output is the next input, through new distinct buffers hosted by their elements, each of the size its element asks for, empty, with no flag and no token; the input of the first, the output of the last and all other elements are left alone |
| PipelineLink.SingleLinkIsStale | lib/audio_pipeline/audio_pipeline.c:465-466 | with one tag the element gets as input whatever the previous call left in the static |
| PipelineLink.LinkFailsIff | lib/audio_pipeline/audio_pipeline.c:492-518 | link succeeds, and leaves the pipeline linked, exactly if every tag is known and every element but the last asks for two bytes or more; the first position to fail that decides between ESP_FAIL and ESP_ERR_NO_MEM; repeated tags included |
| PipelineLink.RelinkFailsIff | lib/audio_pipeline/audio_pipeline.c:936-980 | relink succeeds exactly if the pipeline is not linked and every tag is known, whatever becomes of the buffers |
| PipelineLink.LinkIsGood | lib/audio_pipeline/audio_pipeline.c:492-518 | linking a pipeline that is linked with nothing kept, or has no buffers yet, keeps the linker's invariant |
| PipelineLink.UnlinkIsGoodIff | lib/audio_pipeline/audio_pipeline.c:520-554 | unlinking keeps the linker's invariant exactly if no kept element has been left aside |
| PipelineLink.UnlinkLeavesDangling | lib/audio_pipeline/audio_pipeline.c:527-546 | exactly which elements still refer to a destroyed buffer after an unlink; these are left alone, and a callback stays one |
| PipelineLink.UnlinkOutputsGone | lib/audio_pipeline/audio_pipeline.c:527-546 | no output refers to a destroyed buffer after an unlink |
| PipelineLink.LinkAfterBreakupIsStale | lib/audio_pipeline/audio_pipeline.c:461-518 | linking instead of relinking a broken-up pipeline: an element that still hosts a buffer gets a new output, while a search by host finds the old one |
| PipelineChain.BreakupKeeps | lib/audio_pipeline/audio_pipeline.c:782-862 | which elements a breakup keeps, and which it leaves with their input, for every element; kept buffers keep their bytes, all others end up unused, empty and flag-clear |
| PipelineChain.BreakupLeavesHosts | lib/audio_pipeline/audio_pipeline.c:782-862 | every buffer but the first of the list keeps its host, and that one has it or has none |
| PipelineChain.DropLooksAtFirst | lib/audio_pipeline/audio_pipeline.c:805-827 | from any state: an element let go whose output is not the first buffer loses both ports, and stays flagged linked exactly if there is no second buffer |
| PipelineChain.BreakupWithoutBuffers | lib/audio_pipeline/audio_pipeline.c:782-862 | with no buffers a breakup changes no element: one linked by a single tag stays flagged linked |
| PipelineChain.NullKeepsNoneIff | include/audio_pipeline.h:420-435 | the documented rule for a NULL `kept_ctx_el`, that nothing is kept, is met exactly if the first linked element with an output is not at work |
| PipelineChain.KeptRuleIff | include/audio_pipeline.h:420-435 | the documented rule for an element, that the working ones up to it are kept, is met exactly if no working element with an output stands before it but the first with an output, and that one does not stand behind it at work |
| PipelineRelink.RelinkRestoresKept | lib/audio_pipeline/audio_pipeline.c:864-980 | relinking joins the elements through distinct buffers whatever the carried static; kept ones have their own buffer with its bytes, other links are empty and flag-clear; the chain begins and ends with the ports it had there |
| PipelineSizes.LinkSized | lib/audio_pipeline/audio_pipeline.c:461-518 | link, failures included, adds only buffers made for an element, of the size it asks for, empty and clear |
| PipelineSizes.RelinkSized | lib/audio_pipeline/audio_pipeline.c:864-980 | so does relink; buffers that were there keep place, size and tokens, and those in use are left alone |
| PipelineSizes.RelinkedSize | lib/audio_pipeline/audio_pipeline.c:864-980 | each output of a relinked chain is an old buffer with its old size or a new one of the size its element asks for |
| PipelineSizes.FirstGetsAnySize | lib/audio_pipeline/audio_pipeline.c:888-901 | the first element of a relink, unless kept, gets the first unused buffer without a host whatever its size, and so has the size it asks for exactly if that buffer happens to have it |
| PipelineSizes.RelinkPassesOver | lib/audio_pipeline/audio_pipeline.c:905-922 | an element for which no buffer is found or can be created is passed over with its ports as they were, and that is not answered |
| PipelineRuns.BreakupThenRelink | lib/audio_pipeline/audio_pipeline.c:782-980 | from before the breakup to after the relink: kept elements in non-last positions have the same output with precisely its pending bytes, other links start empty and clear, outputs are pairwise distinct |
| PipelineRuns.ApplyAccounts | lib/audio_pipeline/audio_pipeline.c:461-554 | no call loses a buffer; only unlinking a linked pipeline destroys any, and then all that are listed |
| PipelineRuns.OwnershipOverAnyRun | lib/audio_pipeline/audio_pipeline.c:461-980 | over any sequence of calls, failing ones included: every buffer ever created is listed once or destroyed once, never both |
| PipelineRuns.ApplyKeepsHeld | lib/audio_pipeline/audio_pipeline.c:461-980 | each call made where it may be keeps the linker's invariant and succeeds, unless it relinks a linked pipeline |
| PipelineRuns.RunKeepsInv | lib/audio_pipeline/audio_pipeline.c:461-980 | so does any run of such calls, from registration on |
| PipelineRuns.FirstLinkIsHeld | lib/audio_pipeline/audio_pipeline.c:103-114 | the flags that registration sets do no harm: the first link establishes the invariant |
| PipelineRefs.NothingDanglesOverAnyRun | lib/audio_pipeline/audio_pipeline.c:461-980 | over any run of calls, failing ones, unknown and repeated tags, linking after a breakup and kept elements left aside included: no element refers to a destroyed buffer, if each unlink of a linked pipeline finds no loose reference and no call begins by handing on a stale static |
| PipelineRefs.UnlinkRefsIff | lib/audio_pipeline/audio_pipeline.c:520-554 | unlinking a linked pipeline leaves every input and output referring to a listed buffer, or to none, exactly if every element that holds a buffer is linked or hosts one |
| PipelineRefs.SingleTagRefsIff | lib/audio_pipeline/audio_pipeline.c:461-490 | linking a single tag does so exactly if the static it hands on is in order |
| PipelineRefs.StrayInputDangles | lib/audio_pipeline/audio_pipeline.c:829-849 | a way to a loose reference: a last element that hosts nothing, named as the one to keep, keeps its input, and after a relink without it and an unlink refers to a destroyed buffer |
| ElementObject.Element.ProcessInit | lib/audio_pipeline/audio_element.c:166-197 | opening by its four results: running, or closed and halted in STOPPED or ERROR |
| ElementObject.Element.OnCmdStop | lib/audio_pipeline/audio_element.c:222-248 | the whole new state after a stop, in all three branches |
| ElementObject.Element.OnCmdResume | lib/audio_pipeline/audio_element.c:267-288 | the whole new state after a resume, failed opens and the calls on the ring buffers included |
| ElementObject.Element.OnCmd | lib/audio_pipeline/audio_element.c:290-328 | dispatch of the commands, refining the specification the run theorems are about |
| ElementObject.Element.LookForCommand | lib/audio_pipeline/audio_element.c:475-485 | first half of a turn of the thread's loop, the way out of it included |
| ElementObject.Element.ProcessRunning | lib/audio_pipeline/audio_element.c:330-371 | second half of a turn, for every result of process and a reset during it; the output is marked done at the end of the input |
| ElementObject.Element.Run | lib/audio_pipeline/audio_element.c:1077-1112 | a new thread starts in INIT with an empty queue; if none can be created the element is in ERROR; a running one is left alone |
| ElementObject.Element.Terminate | lib/audio_pipeline/audio_element.c:1114-1144 | sends the destroy command, failing only on a full queue or a late answer |
| ElementObject.Element.Pause | lib/audio_pipeline/audio_element.c:1160-1187 | forces PAUSED from there on up, sends a command otherwise, failing on a full queue or a late answer |
| ElementObject.Element.Resume | lib/audio_pipeline/audio_element.c:1189-1222 | refuses in ERROR, has nothing to do in RUNNING and FINISHED, refuses a threshold outside [0, 1], sends a command otherwise, failing on a full queue or a late answer |
| ElementObject.Element.Stop | lib/audio_pipeline/audio_element.c:1237-1277 | aborts both ring buffers of a running element, sends one stop command at a time and takes the request back if the queue is full |
| ElementRuns.StepKeepsAlways | lib/audio_pipeline/audio_element.c:166-503 | any step, with any result and any reset: running is being open, the stopped bit is down while running, a pending request has its command in the queue, and opening an open element is the one thing that spoils the call history |
| ElementRuns.HistoryIsSoundIff | lib/audio_pipeline/audio_element.c:166-371 | over every run: open and close strictly alternate with process only in between, exactly if no step opens an open element |
| ElementRuns.LifeCycleIsSound | lib/audio_pipeline/audio_element.c:166-503 | with no reset of an open element: strict alternation, and `is_open`, `is_running` and RUNNING coincide after every step |
| ElementRuns.ResetThenResumeBreaks | lib/audio_pipeline/audio_element.c:267-288 | resetting an open element and resuming it opens it twice |
| ElementRuns.ResetInProcessOpensTwice | lib/audio_pipeline/audio_element.c:344-348 | so does a reset during the call of process that meets the end of the input, three steps from a new element |
| ElementRuns.QuietUntilResume | lib/audio_pipeline/audio_element.c:1279-1291 | once a wait for stop has returned, none of the user's functions is called until a resume command is taken |
| ElementRuns.StopIsQueued | lib/audio_pipeline/audio_element.c:1237-1277 | a stop of a running element is pending and queued, unless and only unless the queue is full; both its ring buffers are aborted in any case |
| ElementRuns.StopIsObeyed | lib/audio_pipeline/audio_element.c:475-485 | a queued stop is reached: the thread never waits meanwhile, and the element is at rest at the latest when it has taken it |
| ElementRuns.RestIsTold | lib/audio_pipeline/audio_element.c:209-285 | any step that ends the running of an element raises the stopped bit, or pauses it |
| ElementRuns.StopIsTold | lib/audio_pipeline/audio_element.c:1279-1291 | a caller that waits for the stopped bit itself gets it at the latest when the queued stop command has been taken, over every run, also if the element is paused or ended meanwhile |
| ElementRuns.RunKeepsTold | lib/audio_pipeline/audio_element.c:166-503 | over every run an element in STOPPED or FINISHED has the stopped bit up |
| ElementRuns.StopOfResting | lib/audio_pipeline/audio_element.c:1237-1256 | a stop of an element that is not running raises the bit at once, sends nothing, and sets a paused one polling |
| ElementRuns.HaltedSleeps | lib/audio_pipeline/audio_element.c:475-485 | an element paused, stopped or finished by its last command waits for the next one instead of going round |
| ElementRuns.RunningGoesRound | lib/audio_pipeline/audio_element.c:475-490 | a running element without commands calls process once in every turn of its thread |
| ElementRuns.CommandIsAchieved | lib/audio_pipeline/audio_element.c:290-328 | what taking each command brings about, in the element, in every bit waiters look at and on its ring buffers, from any state an element can be in; only the destroy command ends the thread |
| ElementRuns.FirstHaltStands | lib/audio_pipeline/audio_element.c:209-265 | neither an error nor the end of the input takes an element out of STOPPED, nor the end out of ERROR |
| ElementRuns.ResultIsSettled | lib/audio_pipeline/audio_element.c:337-369 | which calls, on the user's functions and on the ring buffers, and which state and bits follow each result of process |
| ElementRuns.DestroyIsObeyed | lib/audio_pipeline/audio_element.c:1114-1130 | a queued destroy command ends the thread at the latest when it has been taken, whatever else happens |
| ElementRuns.CallsSendTheirCommand | lib/audio_pipeline/audio_element.c:1114-1222 | which command terminate, pause and resume put at the end of the queue, exactly when each of them succeeds in any state, and that nothing else changes but the bit they wait for |
| ElementRuns.CallsWithoutThread | lib/audio_pipeline/audio_element.c:1114-1277 | without a thread terminate has nothing to do, and pause, resume and stop fail, all without effect |
| ElementRuns.StartBegins | lib/audio_pipeline/audio_element.c:1077-1112 | a new thread begins with no command, in INIT, with the stopped bit down; failing to create one leaves ERROR and no command; a thread that is there is left alone |
| ElementRuns.FiveCommandsFit | lib/audio_pipeline/audio_element.c:945-946 | of commands sent while the thread takes none precisely the first five are queued, in order |
| PipelineControl.Control.Run | lib/audio_pipeline/audio_pipeline.c:342-372 | two loops over the elements do to each linked one what start and then resume would; exactly if one cannot be resumed, or not in time, it fails, with the pipeline in ERROR and all linked ones told to end |
| PipelineControl.Control.Resume | lib/audio_pipeline/audio_pipeline.c:306-326 | every linked element is resumed, no other touched; success exactly if each of them succeeds in time |
| PipelineControl.Control.Pause | lib/audio_pipeline/audio_pipeline.c:328-340 | every linked element is asked to pause, no other touched |
| PipelineControl.Control.Stop | lib/audio_pipeline/audio_pipeline.c:399-413 | in RUNNING every linked element is asked to stop, no other touched; otherwise it fails and none is |
| PipelineControl.Control.Terminate | lib/audio_pipeline/audio_pipeline.c:374-384 | every linked element is asked to end, no other touched |
| Restart.WaiterIsTame | lib/audio_pipeline/audio_pipeline.c:415-433 | wait-for-stop resets an element only when it is closed, whatever is pending, and leaves it at rest: not running and closed |
| Restart.WaitForStopIsSound | lib/audio_pipeline/audio_pipeline.c:415-446 | whatever the elements and other callers do meanwhile, with any commands pending but a resume ahead of a destroy: the pipeline is back in INIT, and after `ESP_OK` every linked element is at rest |
| Restart.WaitPutsIntoInit | lib/audio_pipeline/audio_pipeline.c:415-433 | each wait that returns in time puts precisely its element into INIT; one that times out changes none |
| Restart.RestLastsIff | lib/audio_pipeline/audio_element.c:475-485 | that condition is exact: an element at rest stays so exactly if no resume command comes before a destroy command |
| Restart.InitIffNothingPending | lib/audio_pipeline/audio_pipeline.c:422-427 | the state after the next look for a command is still INIT exactly if none is pending, or a destroy or an unknown one |
| Restart.PendingIsProcessed | lib/audio_pipeline/audio_element.c:475-503 | what has become of an element at rest after any run of its thread, as a function of the pending commands it has taken |
| Restart.AbortLeavesStopPending | lib/audio_pipeline/audio_element.c:1237-1277 | the usual stop, in which process is aborted, does leave the stop command pending when the wait returns |
| Restart.RestartOpens | lib/audio_pipeline/audio_pipeline.c:342-372 | when an element has taken the commands up to the resume command of a run, it has opened |
| Restart.RunStartsIff | lib/audio_pipeline/audio_pipeline.c:342-372 | of an element at rest, whatever is pending: a run makes it open, however its thread goes on, exactly if it has a thread, room, no destroy command pending and is not in FINISHED or ERROR, or is without a thread and gets one; in FINISHED the run reports success and does nothing |
| Restart.StartsWheneverRunIff | lib/audio_pipeline/audio_pipeline.c:342-446 | for which pending commands the run after a wait starts an element, whenever it comes: exactly if there is room, no destroy command, and no first few of them lead to FINISHED |
| Restart.RunAfterWait | lib/audio_pipeline/audio_pipeline.c:342-446 | wait and run together: after a wait that returned `ESP_OK` the run starts a linked element exactly by that condition, and one it does not start calls nothing for ever |
| EventDelivery.EveryMessageOnceInOrder | lib/audio_pipeline/audio_event_iface.c:143-155 | over every run of sends and reads: one token per message, never more than the capacity, and what was read is a prefix of what was posted, in posting order over all queues |
| EventDelivery.SendIsAcceptedIff | lib/audio_pipeline/audio_event_iface.c:269-278 | a queue takes a message exactly if it has room, and it is posted to the listener with one token exactly if the queue is also a member |
| EventDelivery.AcceptedIsRead | lib/audio_pipeline/audio_event_iface.c:143-155 | over every run: an accepted message is read, from its queue and in its place, once there have been more reads than messages were waiting |
| EventDelivery.ReadFindsIff | lib/audio_pipeline/audio_event_iface.c:143-155 | a read finds a message exactly if some member queue has one |
| EventIface.Iface.ReadAll | lib/audio_pipeline/audio_event_iface.c:107 | reading until a read fails comes to its specification, stopping at the first token without a message |
| EventIface.Iface.Discard | lib/audio_pipeline/audio_event_iface.c:280-293 | the listener's own queues and no others are emptied, and then the set is read until a read fails |
| EventCleanup.DrainedFacts | lib/audio_pipeline/audio_event_iface.c:107-110 | such draining uses up tokens, if any, keeps the rest of the messages backed by tokens and touches no queue without one |
| EventCleanup.CleanupEndsIff | lib/audio_pipeline/audio_event_iface.c:101-118 | with messages backed by tokens, the clean-up ends exactly if the listed queues are distinct and all in the set; otherwise some entry is never passed |
| EventCleanup.PassedStayOut | lib/audio_pipeline/audio_event_iface.c:107-111 | however far it gets, every entry it has passed is out of the set with its queue empty |
| EventIface.DrainedGetsAll | lib/audio_pipeline/audio_event_iface.c:107 | with exactly one token for each message, reading until a read fails empties every member queue and the set, and no other queue |
| EventIface.ReadsAgree | lib/audio_pipeline/audio_event_iface.c:143-155 | the reads of the clean-up are those of delivery |
| EventIface.Iface.TakeDownItem | lib/audio_pipeline/audio_event_iface.c:107-111 | the inner loops of the clean-up end, leave the queue empty and out of the set, and make the turns of the machine that says when they do |
| EventIface.Iface.CleanupListener | lib/audio_pipeline/audio_event_iface.c:101-118 | where it ends: all listed queues are empty and out of the set, the set is gone, other queues are left alone but for the listener's own, which are emptied; the final state is one the machine reaches |
| EventIface.Iface.UpdateListener | lib/audio_pipeline/audio_event_iface.c:120-141 | succeeds exactly if the listed queues are distinct and in no set; the new set then has all of them, empty, and room for the sum of their sizes |
| EventIface.Iface.SetListener | lib/audio_pipeline/audio_event_iface.c:179-196 | fails exactly if the queue is in a set already, is refused exactly if it has no size; on success the listener has every queue of the longer list, empty, in a new set; on failure the list is longer all the same, the old entries are in the new set, and the next clean-up does not end |
| EventIface.ExtraEntryIsNeverPassed | lib/audio_pipeline/audio_event_iface.c:108-111 | from the state a failing set leaves, whatever has been sent since, no clean-up gets past the extra entry, as long as its queue stays in the other set or is listed before |
| EventIface.Iface.RemoveListener | lib/audio_pipeline/audio_event_iface.c:216-233 | takes the queue off the list; the set is made anew for what is left, all of it empty |
| EventIface.Iface.SetThenRemove | lib/audio_pipeline/audio_event_iface.c:179-233 | setting a listener and removing it again gives back the list, every queue of it in a new set and empty |
| EventIface.SetRemoveRestores | lib/audio_pipeline/audio_event_iface.c:179-233 | adding an unlisted queue to the list and removing it gives back the list there was |
| EventIface.NewSetDelivers | lib/audio_pipeline/audio_event_iface.c:120-141 | a set newly built satisfies the invariant that delivery starts from |
| Volume.RoundTrip | lib/audio_hal/audio_volume.c:110-135 | with a level of at least 0: within one step of the volume asked for, below it for symbol +1 and above it for -1 |
| Volume.RoundTripBelowZero | lib/audio_hal/audio_volume.c:113 | between -1 and 0 the error is on the other side |
| Volume.ScaleAnchored | lib/audio_hal/audio_volume.c:110-135 | 0 dB is at the register configured for it, and each register away is one step of the accuracy in the direction of the symbol |
| Volume.GainBound | lib/audio_hal/audio_volume.c:150-161 | DAC and amplifier together stay within the gain of the route for +1, and less than one step over it for -1 |
| Volume.WithinIff | lib/audio_hal/audio_volume.c:150-161 | for -1, any volume with a defined register stays within the gain exactly if that register is not below where the limit lies on the scale |
| Volume.AllWithinIff | lib/audio_hal/audio_volume.c:150-161 | every volume from 1 on does exactly if full volume does |
| Volume.RegistersKeepOrder | lib/audio_hal/audio_volume.c:110-135 | registers keep the order of the volumes, reversed for -1; recovered volumes keep it in either case |
| Volume.HalfDbSteps | lib/audio_hal/audio_volume.c:77-106 | one step of the user volume is half a dB, down from the limit of the route at 100, cut off at the maximum of the codec; 0 and below give its minimum |
| Volume.LouderIsNotSofter | lib/audio_hal/audio_volume.c:137-165 | any two integers from 1 on: the larger never gives a softer recovered volume |
| Volume.LouderFromZeroIff | lib/audio_hal/audio_volume.c:149-161 | over all integers that holds exactly if the minimum of the codec is less than a step above what comes back at volume 1 for +1, and not above it for -1 unless that is register 0; it is enough that it is not above what is asked for at volume 1 |
| Volume.Handle.GetDacRegValue | lib/audio_hal/audio_volume.c:137-165 | clamping step by step comes to the specified volume and register, which the handle then holds |
| Volume.Handle.CalDacVolume | lib/audio_hal/audio_volume.c:130-135 | what comes back is within one step of the DAC volume the register was last set for, below it for symbol +1 and above it for -1 |
| ItemStatus.Items.CheckItemsState | lib/audio_pipeline/audio_pipeline.c:651-719 | the counting loop answers `ESP_OK` exactly if some element is linked and every linked one's record, refreshed from its state if it has halted, is accepted for the wanted status |
| ItemStatus.Items.ResetItemsState | lib/audio_pipeline/audio_pipeline.c:721-731 | the records of linked elements, and only those, are forgotten |
| ItemStatus.HaltedCounts | lib/audio_pipeline/audio_pipeline.c:668-680 | for which wanted statuses an element that has halted counts, whatever it last reported |
| ItemStatus.RecordServes | lib/audio_pipeline/audio_pipeline.c:686-712 | for every record and every wanted status, exactly when it counts, by what the record says |
| ItemStatus.OkFromTheCompletingReport | lib/audio_pipeline/audio_pipeline.c:651-731 | after a reset, with no element halted: `ESP_OK` exactly from the report on that completes the set of linked elements |

## Left out

- RingBuffer.RingBuf.Read: the null destination just advances, so the stray second copy of a split pseudo read is not modelled; `RingTypes.SplitInTwoChunks` says exactly when it happens.
- RingBuffer.RingBuf.Write: null handles and null sources, which return RB_FAIL at once, are excluded by its types.
- Volume.Handle.GetDacRegValue: a level outside (-1, 256) has no defined conversion to `uint8_t`, and the method then stores nothing; the table of offsets is the built-in one; floating point is replaced by the reals.
- ItemStatus.Items.CheckItemsState: a report by an element that is not in the list, which dereferences null, is excluded by its index.
- ElementObject.Element.Resume: how long the input takes to reach the threshold is an input of the call, `late`, as are the other waits of run, pause, resume and terminate.
- EventIface.Iface.CleanupListener: sends during the clean-up are not modelled; the method is for listeners whose clean-up ends, which `EventCleanup.CleanupEndsIff` tells for all.
- EventIface.Iface.RemoveListener: the same, since it begins with a clean-up.
- Memory allocation failures, other than the size that `rb_create` refuses.
- Listeners inside the pipeline calls (`audio_pipeline_set_listener` and its counterpart).
- Multi-input and multi-output buffers, elements without a thread of their own or without an open function, the `_more` twins of link and relink, `audio_pipeline_link_insert`, unregistering, handles reused after deinit.
- What the calls of an element's handlers on its ring buffers (abort, done, reset) do there: they are recorded in order, and `ringbuf.dfy` has the calls themselves; the events an element reports.
- Tick counts: a time-out is a step that may happen.
- PipelineControl.Control.Run: the elements' threads do not run in between its steps; `restart.dfy` lets them run during the wait and after the run.
- Instruction-level races on flags written without the lock.
- Wake-up sources, VoIP and Ethernet glue, the flash tone player, `audio_mutex.c`, `audio_hal.c` and `json_utils.c`: thin wrappers over libraries that are not part of this model.
