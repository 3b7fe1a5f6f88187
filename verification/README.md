# Verified models of the operating-systems course programs

Dafny models of the parts of this repository whose correctness is not visible from one function: the active-object
pipeline, the encrypted page and the page sequence, the reactor and its server, the stream copy loops, the shell's
token loop and two small tools. Code that changes state is modelled as classes and methods with loops, each proved
against a specification function; what that function means is proved as lemmas. Concurrent code is a step system in
which a scheduler, or the kernel, picks every step, and the theorems are about all runs.

Check everything with `dafny verify dfyconfig.toml`.

| file | what it models |
|---|---|
| PrimeCheck.dfy | trial division |
| BlockingQueue.dfy | the queue with mutex and condition variable, refining an atomic FIFO |
| Pipeline.dfy | the four-stage pipeline as a step system, and its invariant |
| PipelineRuns.dfy | conservation, order, values, termination and absence of deadlock of every run |
| PipelineStop.dfy | what the stop sequence does to items on their way, and exactly when it loses none |
| LockedPipeline.dfy, LockedRuns.dfy | the pipeline over four such queues with their locks and sleepers: it shows exactly the runs of the pipeline with atomic queues |
| ActiveObjects.dfy | the same pipeline as objects whose methods are the steps of the threads |
| PageSequence.dfy | the linked list of pages with its wrapping read cursor |
| Encryption.dfy, CharDevice.dfy | the repeating-key encryption and the device that stores a page under a changing key |
| Reactor.dfy, ReactServer.dfy | the select loop whose handlers change it, and the server with its slot table |
| PipeCopy.dfy, SocketCopy.dfy | copying through a pipe, a FIFO and a socket, and the checksum |
| Shell.dfy | the shell's token loop with its persistent argv and descriptors |
| FileCompare.dfy, CodecB.dfy | the comparison and the shifting codec |

## What the proofs say about the programs

Some promises of the code or its documentation hold only under a condition; the condition is proved exact.

* The pipeline always ends with all four workers joined, after at most 10N + 25 steps. It completes all N items under
  every schedule exactly when, at the first stop call, stages 1 and 2 are empty and idle and stage 3 has at most the
  one item its waiting worker will take (`StopLosesNothingIffSafe`). Nothing in the code enforces this; for every
  N >= 1 some complete run loses an item (`SomeRunLosesAnItem`), contrary to Assignment-5/README.md.
* All this holds with the real queues too: mutexes, sleeping and waking add no behaviour and no deadlock
  (`VisibleRunsAreThePipelines`, `EveryLockedRunEndsJoined`), and lose the item as well (`SomeLockedRunLosesAnItem`).
* A write to the encrypted device puts its bytes into the plaintext exactly when the key's bytes repeat as the place
  and length of the write need (`WriteSoundIffKeyFits`): under every key, when it is empty or covers whole words at a
  word boundary (`WriteSoundIffAligned`).
* The server gets past its next select exactly while no client has left without its descriptor being reused
  (`ServerLastsUntilADeparture`), so a disconnecting client ends it (`DisconnectEndsServer`), and it never has more
  than ten clients, although Assignment-4/README.md promises an unlimited number.
* A file sent over a socket is delivered exactly when the kernel takes each of its buffers whole
  (`DeliveredIffTaken`); a send that merely leaves a byte over loses it (`ShortSendLosesData`).
* `cmp` takes two files for equal also when the first is the second plus one character, but not the other way round.
* Decoding an encoded string restores it exactly when it contains no `}`.
* The checksum of a file changes with any one of its bytes (`OneByteShows`), but not with the order of its parts.
* A command before a bar sees exactly its own arguments only if the reused argv has a null right behind them.

## Model

| member | source | states |
|---|---|---|
| PrimeCheck.IsPrime | Assignment-5/PrimeCheck.hpp:6-23 | the result is true exactly for primes, for every 32-bit number |
| PrimeCheck.SmallDivisorExists | Assignment-5/PrimeCheck.hpp:13-14 | a composite has a divisor no greater than its truncated square root, so the loop bound is enough |
| BlockingQueue.Queue.Enqueue | Assignment-5/Queue.hpp:12-18 | the item goes to the end of what is pending and of the history of what entered |
| BlockingQueue.Queue.Dequeue | Assignment-5/Queue.hpp:20-28 | returns and removes the oldest pending item |
| BlockingQueue.Queue.IsEmpty | Assignment-5/Queue.hpp:30-34 | true exactly when nothing is pending |
| BlockingQueue.StepKeepsExclusion | Assignment-5/Queue.hpp:14-27 | every step of the locked protocol keeps mutual exclusion: the owner of the mutex alone is inside |
| BlockingQueue.StepKeepsWakeup | Assignment-5/Queue.hpp:14-27 | no lost wakeup: the consumer sleeps on a nonempty queue only while a producer has pushed and not yet notified |
| BlockingQueue.RunRefines | Assignment-5/Queue.hpp:12-28 | every interleaving of producers and consumer is a run of the atomic FIFO with the same operations in the same order |
| BlockingQueue.EveryRunIsFifo | Assignment-5/Queue.hpp:12-28 | in every run what entered is what left followed by what is pending, with exclusion and no lost wakeup |
| BlockingQueue.HistoryOfActions | Assignment-5/Queue.hpp:12-28 | what has entered are the items put in, what has left those taken out, and the pending ones followed by those put in are those taken out followed by those still pending |
| BlockingQueue.EveryCallIsServedOnce | Assignment-5/Queue.hpp:12-28 | in every run each item enters as often as enqueue was called with it, but for calls yet to push, and each call of dequeue takes one item or is under way |
| BlockingQueue.ContinuingRunsAreShort | Assignment-5/Queue.hpp:12-28 | calls already made are finished in boundedly many steps, without relying on spurious wakeups |
| BlockingQueue.StuckIffSettled | Assignment-5/Queue.hpp:12-28 | the protocol can go on by itself exactly until every call has returned or the consumer sleeps on an empty queue |
| Pipeline.Generate | Assignment-5/StPipeline.hpp:87-90 | the number has six digits and is 100000 more than rand() modulo 900000 |
| Pipeline.InitInv | Assignment-5/StPipeline.hpp:18-31 | the pipeline as created meets the invariant |
| Pipeline.MainKeeps | Assignment-5/StPipeline.hpp:35-76 | a step of the main thread (generate, store a flag, wake a worker, join) keeps flow, control and values of the pipeline |
| Pipeline.TakeKeeps | Assignment-5/ActiveObject.hpp:30 | a dequeue keeps them, whichever worker makes it |
| Pipeline.BodyKeeps | Assignment-5/StPipeline.hpp:40-57 | running a stage body, which updates the number and hands the item on, keeps them |
| Pipeline.CheckKeeps | Assignment-5/ActiveObject.hpp:33-35 | checking the stop flag keeps them |
| Pipeline.BodyAdvances | Assignment-5/StPipeline.hpp:42-56 | each body takes an item's number and printed trace to those of the next stage, with no unsigned wrap |
| Pipeline.RunKeeps | Assignment-5/StPipeline.hpp:16-77 | the invariant holds after every run |
| PipelineRuns.Conservation | Assignment-5/StPipeline.hpp:35-59 | in every reachable state, completed, held and queued items read from the far end are the generated items in order |
| PipelineRuns.ExactlyOnePlace | Assignment-5/StPipeline.hpp:35-59 | every generated item is in exactly one place, and nothing else is anywhere |
| PipelineRuns.PrefixOrder | Assignment-5/StPipeline.hpp:40-59 | items started at a stage are a prefix of those started at the stage before, and those of generation order |
| PipelineRuns.NumberIsFixed | Assignment-5/StPipeline.hpp:87-90 | exactly one six-digit number is congruent to 100000 + rand() modulo 900000, the generated one |
| PipelineRuns.LocationFixesValue | Assignment-5/StPipeline.hpp:40-57 | for the number g that rand() leads to, an item's number and trace are fixed by its location: g, g+11, g-2, finally g, with correct verdicts on the first three, always within 99998..1000010 |
| PipelineRuns.StepWeight | Assignment-5/StPipeline.hpp:16-77 | every step of any thread uses up exactly one unit of the measure |
| PipelineRuns.StuckIffJoined | Assignment-5/ActiveObject.hpp:27-51 | no reachable state deadlocks: no step is possible exactly when all four workers are joined |
| PipelineRuns.EveryRunEndsJoined | Assignment-5/StPipeline.hpp:16-77 | every run has at most 10N + 25 steps, and one that cannot go on has joined everything |
| PipelineRuns.Completion | Assignment-5/StPipeline.hpp:66-76 | from every reachable state some schedule finishes |
| PipelineStop.AfterFlagAtMostOneTask | Assignment-5/ActiveObject.hpp:29-43 | once its flag is set a worker takes at most the head of its queue, and nothing unless it is about to dequeue |
| PipelineStop.BehindSentinelNeverRuns | Assignment-5/ActiveObject.hpp:39-43 | what is queued behind a sentinel is still queued after every run |
| PipelineStop.SafeStopCompletes | Assignment-5/StPipeline.hpp:66-76 | from a safe state every complete run completes all N items |
| PipelineStop.UnsafeStopCanLose | Assignment-5/StPipeline.hpp:66-76 | from any other state some complete run does not |
| PipelineStop.StopLosesNothingIffSafe | Assignment-5/StPipeline.hpp:66-76 | the stops lose no item under any schedule exactly when they start in a safe state |
| PipelineStop.SomeRunLosesAnItem | Assignment-5/StPipeline.hpp:35-76 | for every positive N some complete run does not complete all items |
| PipelineStop.QuiescentStopCompletes | Assignment-5/StPipeline.hpp:66-76 | if the stops start with empty queues and idle workers, every item completes each of the three stages exactly once, in order |
| LockedPipeline.MoveRefines | Assignment-5/Queue.hpp:12-28 | every access to a mutex, condition variable or queue, and all a thread does in between, completes one pipeline step or is invisible |
| LockedPipeline.LockedRunRefines | Assignment-5/StPipeline.hpp:35-76 | from any matching state, every run over the real queues is a run of the pipeline with atomic queues |
| LockedRuns.LockedStuckIffDone | Assignment-5/Queue.hpp:12-28 | no deadlock of mutexes, sleeping workers and joins: unless all is joined, something other than a spurious wakeup can happen |
| LockedRuns.LockedRunsAreShort | Assignment-5/StPipeline.hpp:16-77 | a run over the real queues has at most 90N + 305 moves, and four more for each spurious wakeup |
| LockedRuns.EveryLockedRunEndsJoined | Assignment-5/StPipeline.hpp:16-77 | it stops only with all workers joined, with the numbers and the printed lines of a pipeline run |
| LockedRuns.VisibleRunsAreThePipelines | Assignment-5/Queue.hpp:12-28 | a sequence of steps is a run of the pipeline if and only if some run over the real queues shows it |
| LockedRuns.SomeLockedRunLosesAnItem | Assignment-5/StPipeline.hpp:66-76 | for every positive N some run over the real queues joins all workers with an item unfinished |
| ActiveObjects.ActiveObject.TakeTask | Assignment-5/ActiveObject.hpp:30 | the worker holds the head of its queue, which is gone from the queue |
| ActiveObjects.ActiveObject.CheckStop | Assignment-5/ActiveObject.hpp:33-35 | the worker leaves its loop exactly if its flag is set |
| ActiveObjects.StPipeline.constructor | Assignment-5/StPipeline.hpp:18-33 | four separate workers on four separate empty queues |
| ActiveObjects.StPipeline.MainStep | Assignment-5/StPipeline.hpp:35-76 | one step of the main thread on the objects is the step of the step system |
| ActiveObjects.StPipeline.TakeStep | Assignment-5/ActiveObject.hpp:30 | a dequeue on the objects is that step of the step system |
| ActiveObjects.StPipeline.RunStage | Assignment-5/StPipeline.hpp:40-57 | a stage body updates, prints and hands on exactly its item |
| ActiveObjects.StPipeline.BodyStep | Assignment-5/ActiveObject.hpp:31 | running a dequeued closure is the body step of the step system |
| ActiveObjects.StPipeline.CheckStep | Assignment-5/ActiveObject.hpp:33-35 | the flag check is that step of the step system |
| ActiveObjects.MovingIsRun | Assignment-5/StPipeline.hpp:16-77 | passing over threads that cannot move turns any schedule into a run, and leaves it alone exactly if it is one |
| ActiveObjects.StPipeline.Execute | Assignment-5/StPipeline.hpp:16-77 | under any schedule the objects make exactly the steps that are possible at their turn, a run of the step system, and end in its last state; so they make every run of the step system |
| PageSequence.Sequence.Init | Assignment-6/sequence.c:16-21 | a new sequence is empty |
| PageSequence.Sequence.Write | Assignment-6/sequence.c:37-62 | on success the sequence has one more page, which starts with the given bytes, behind the pages it had, and the cursor is where it was; fails, changing nothing, when too long or out of memory |
| PageSequence.Sequence.Read | Assignment-6/sequence.c:64-80 | returns the requested bytes of the page at the cursor and moves the cursor on, from the last page to the first; all its ways to fail leave the contents alone |
| PageSequence.Sequence.Destroy | Assignment-6/sequence.c:23-35 | frees every node of the list exactly once, in order, and uses none after it was freed |
| PageSequence.PagesAreTheWritten | Assignment-6/sequence.c:37-62 | after any reads and writes the pages are those the sequence had followed by those written |
| PageSequence.LapReadsInOrder | Assignment-6/sequence.c:49-77 | until the cursor wraps the reads return consecutive pages of those the sequence had followed by those written meanwhile, in write order |
| PageSequence.FullLap | Assignment-6/sequence.c:49-77 | from the first page to the read that wraps, the reads return every page it had and every page written meanwhile, each once, in write order |
| PageSequence.ReadsGoRound | Assignment-6/sequence.c:64-80 | without writes the n-th read from any cursor returns the page n places on, counted around the end, for any number of laps |
| Encryption.XorWordByBytes | Assignment-6/encryption.h:12-13 | exclusive or on a word is exclusive or on its four bytes |
| Encryption.EncryptMemory | Assignment-6/encryption.h:6-14 | the word loop combines byte i with key byte i mod 4 up to the last whole word and leaves all else alone |
| Encryption.DecryptMemory | Assignment-6/encryption.h:16-19 | decryption has the same effect as encryption |
| Encryption.DecryptUndoesEncrypt | Assignment-6/encryption.h:6-19 | decryption after encryption with the same key is the identity, for every length and key |
| CharDevice.ByteCount | Assignment-6/char_device.c:32-35 | the count modulo 2^32, or a page if that is more than a page: the int conversion, and the cap by an unsigned comparison |
| CharDevice.Device.constructor | Assignment-6/char_device.c:123-135 | initial encryption with key 0 leaves the fresh buffer as plaintext |
| CharDevice.Device.Read | Assignment-6/char_device.c:30-42 | returns the stored bytes from the offset on, as many as the capped count, and the advanced offset |
| CharDevice.Device.Write | Assignment-6/char_device.c:44-58 | byte by byte: whole words of the user's bytes under the key from its start, what is left of them as given, all else as it was; on a fault, whatever arrived stays there unencrypted |
| CharDevice.Device.Ioctl | Assignment-6/char_device.c:60-80 | re-encrypts the page under a new key; an unknown command changes nothing |
| CharDevice.KeyChainCollapses | Assignment-6/char_device.c:66-74 | any chain of key changes equals one change to the last key, and returning to the first key restores the buffer |
| CharDevice.WriteSoundIffKeyFits | Assignment-6/char_device.c:51-54 | under a given key a write puts exactly its bytes into the plaintext if and only if the key bytes at its place repeat as it needs |
| CharDevice.WriteSoundIffAligned | Assignment-6/char_device.c:51-54 | a write puts exactly its bytes into the plaintext, whatever the key, if and only if it is empty or word-aligned in place and length |
| CharDevice.RunFollowsIffKeysFit | Assignment-6/char_device.c:30-80 | all along a run the buffer is one plaintext page, which only the writes change, under the current key, if and only if each write fits the key in force |
| CharDevice.RunFollowsClearPage | Assignment-6/char_device.c:30-80 | so it is in every run of key changes, reads and aligned writes |
| Reactor.Reactor.constructor | Assignment-4/reactor.c:19-34 | a new reactor has nothing registered |
| Reactor.Reactor.Add | Assignment-4/reactor.c:66-74 | adds the descriptor, puts its handler into the table, raises max_fd to it if it is larger, and changes nothing else |
| Reactor.Reactor.Stop | Assignment-4/reactor.c:36-39 | clears the running flag and nothing else |
| Reactor.Reactor.Dispatch | Assignment-4/reactor.c:52-62 | the inner loop, whose bound and table its handlers change, makes the calls of the specified round and ends |
| Reactor.Reactor.Start | Assignment-4/reactor.c:41-64 | the outer loop makes the specified rounds, one per successful select |
| Reactor.RoundCallsReadyOnce | Assignment-4/reactor.c:46-62 | a round calls each ready descriptor exactly once in ascending order and none registered during the round |
| Reactor.RoundUsesTheTable | Assignment-4/reactor.c:56-60 | unless a handler registers a ready descriptor anew, each is served by the handler registered for it |
| Reactor.RoundIsReplay | Assignment-4/reactor.c:52-62 | a round does to reactor and handlers exactly what its calls do, one after the other |
| Reactor.StopFinishesTheRound | Assignment-4/reactor.c:36-64 | the first round serves all its ready descriptors, and it is the last one if and only if one of its handler calls asked for a stop |
| Reactor.LoopAnswersSelects | Assignment-4/reactor.c:41-64 | every successful select is answered by a round of calls to what it selected, and the loop ends only at a failing select or after a stop |
| Reactor.LoopIsReplay | Assignment-4/reactor.c:41-64 | the loop does to reactor and handlers exactly what its calls do, one after the other |
| Reactor.LoopKeepsConsistent | Assignment-4/reactor.c:41-74 | over whole runs max_fd is the maximum of what is registered, every registered descriptor has a handler, and none is removed |
| ReactServer.SlotTable.Claim | Assignment-4/react_server.c:70-79 | takes the first free slot, or none when all are taken |
| ReactServer.SlotTable.Release | Assignment-4/react_server.c:40-47 | clears the first slot that holds the descriptor |
| ReactServer.SlotTable.AcceptClient | Assignment-4/react_server.c:56-92 | if a slot is free the accepted descriptor goes into the first one and is registered with the client handler; if none is, it is closed and nothing changes; nor does anything if accept fails |
| ReactServer.SlotTable.HandleClient | Assignment-4/react_server.c:24-54 | a recv of 0, and nothing else, closes the client and clears its first slot, leaving the others |
| ReactServer.AcceptAdmitsIffFree | Assignment-4/react_server.c:56-92 | a descriptor that accept returns holds a slot, is open and is registered right after the call if and only if a slot was free |
| ReactServer.RoundAdmitsIffFree | Assignment-4/react_server.c:56-92 | so it is at the end of a round in which the listening socket was ready, by the slots free when its turn came |
| ReactServer.FirstClientAdmitted | Assignment-4/react_server.c:56-92 | the first client of a fresh server is admitted |
| ReactServer.RoundKeeps | Assignment-4/react_server.c:24-92 | a whole round of handler calls keeps the server's invariant |
| ReactServer.ServeIsLoop | Assignment-4/reactor.c:41-64 | the server's rounds are those of the reactor's loop with its handlers, which never stop it and end it only by a failing select |
| ReactServer.OpenClientsAreTheSlots | Assignment-4/react_server.c:24-92 | in every run the open clients are exactly the nonzero slots, which are distinct and at most ten |
| ReactServer.RegisteredDescriptors | Assignment-4/react_server.c:84-85 | in every run the server, the clients and those that once held a slot are what is registered, with the right handlers, and max_fd is their maximum |
| ReactServer.ServerLastsUntilADeparture | Assignment-4/reactor.c:47-51 | in every run the next select fails exactly when some descriptor once held a slot and no longer does |
| ReactServer.DisconnectEndsServer | Assignment-4/react_server.c:34-48 | a client above the listening socket that disconnects makes the next select fail |
| PipeCopy.StepKeepsTransit | Assignment-3/stnc.c:904-956 | no step of either process changes the bytes in transit, read from the destination back to the source |
| PipeCopy.EveryRunCopies | Assignment-3/stnc.c:904-956 | for all chunk sizes, capacities and interleavings: the run is finite, cannot deadlock, and ends with the destination equal to the source |
| PipeCopy.KeptOpenHangs | Assignment-3/stnc.c:940 | a reader that kept its own write end open would copy everything in every run and then wait for ever |
| PipeCopy.SenderLoop | Assignment-3/stnc.c:926-933 | the sender writes exactly the file, however its reads are fragmented, or what precedes the first read that fails (also lines 1135-1138) |
| PipeCopy.ReceiverLoop | Assignment-3/stnc.c:1101-1104 | the receiver stores exactly what comes through, or what precedes the first read that fails (also lines 950-953) |
| PipeCopy.FailureEndsTheLoop | Assignment-3/stnc.c:926-933 | a read that fails ends the loop with what the reads before it brought (also lines 950-953, 1101-1104, 1135-1138) |
| SocketCopy.GetMinimum | Assignment-3/stnc.c:959-962 | the smaller of two numbers |
| SocketCopy.Chunks | Assignment-3/stnc.c:734 | the buffers fread fills are nonempty, all full but the last, and together the file |
| SocketCopy.DeliveredIffTaken | Assignment-3/stnc.c:732-749 | the file is delivered if and only if the kernel takes each of its buffers whole; otherwise less than the file is |
| SocketCopy.SentIsTakenParts | Assignment-3/stnc.c:732-749 | what is delivered is, of each buffer up to the first failing send, the part the kernel took, in order |
| SocketCopy.ShortSendLosesData | Assignment-3/stnc.c:732-749 | a kernel whose sends never fail but may leave one byte over loses data of every file of two bytes or more |
| SocketCopy.SendFile | Assignment-3/stnc.c:732-749 | delivers of each buffer the prefix the kernel takes, up to the first failing send, so the file exactly if all are taken whole |
| SocketCopy.ReceiveFile | Assignment-3/stnc.c:804-812 | writes the first bytes of the stream in order, however recv fragments it, up to the announced size, its end, or a recv that does fail |
| SocketCopy.ReceiverStops | Assignment-3/stnc.c:804-812 | the receiver keeps what the calls so far brought when it has enough, at the end of the stream, and when a recv fails |
| SocketCopy.Transfer | Assignment-3/stnc.c:732-812 | the copy is the file if and only if the kernel takes each buffer whole and no recv fails, whatever the fragments; otherwise it is shorter |
| SocketCopy.CalculateChecksum | Assignment-3/stnc.c:634-660 | the chunked loop computes the sum of the sign-extended bytes modulo 2^32 for every chunk size |
| SocketCopy.ChecksumOfSignedBytes | Assignment-3/stnc.c:647-654 | the checksum is the plain sum of the bytes less 256 for each byte from 128 on, modulo 2^32 |
| SocketCopy.ChecksumConcat | Assignment-3/stnc.c:647-654 | the checksum of a file is the sum of those of its parts |
| SocketCopy.ChecksumIgnoresOrder | Assignment-3/stnc.c:647-654 | exchanging two parts of a file leaves its checksum unchanged |
| SocketCopy.OneByteShows | Assignment-3/stnc.c:647-654 | changing one byte of a file always changes its checksum |
| Shell.Session.RunLine | Assignment-2/stshell.c:77-128 | a line changes argv, descriptors and the log of executions as specified |
| Shell.EveryLineIsPipeline | Assignment-2/stshell.c:79-112 | every line is commands with bars between them, the last of which ends with the line, at a redirection or at its ninth argument |
| Shell.PipelineRuns | Assignment-2/stshell.c:77-128 | m bars cause m + 1 executions in order (m if nothing stands behind the last bar), each reading the previous pipe, the last with exactly its own tokens and, after `>` or `>>`, into the file truncated or extended; descriptors carry over only if the last command is missing |
| Shell.RestIgnored | Assignment-2/stshell.c:80-95 | nothing behind the file of a redirection or behind the ninth argument has an effect |
| Shell.RedirectedCommand | Assignment-2/stshell.c:82-124 | a redirected command sees its own tokens and writes the file, truncated for `>` alone, and both descriptors are reset; without a command the file stays the next one's output |
| Shell.OwnTokensIffNullBehind | Assignment-2/stshell.c:96-112 | a command before a bar sees exactly its own tokens if and only if argv held a null behind them |
| FileCompare.Cmp | Assignment-2/cmp.c:61-115 | the result and, when verbose, the line and character of the first mismatch |
| FileCompare.Verdict | Assignment-2/cmp.c:61-95 | equal as judged means: same contents, or one extra character in the first file |
| FileCompare.CaseIgnored | Assignment-2/cmp.c:63-67 | ignoring case identifies two characters exactly when they are equal or the two cases of one letter |
| FileCompare.NewlinesAreCounted | Assignment-2/cmp.c:81-85 | the count behind the reported line is the number of newlines before the mismatch |
| FileCompare.SinceNewlineIsColumn | Assignment-2/cmp.c:81-89 | the count behind the reported character is the distance to the last newline before the mismatch, or to the start |
| CodecB.Encode | Assignment-2/codecB.c:1-7 | moves every byte before the NUL up by 3 modulo 128 and leaves the rest |
| CodecB.Decode | Assignment-2/codecB.c:9-15 | moves every byte before the NUL up by 125 modulo 128 and leaves the rest |
| CodecB.DecodeAfterEncode | Assignment-2/codecB.c:1-15 | decoding restores exactly what precedes the first 125, so it is the identity if and only if there is none |
| CodecB.EncodeAfterDecode | Assignment-2/codecB.c:1-15 | encoding after decoding is the identity if and only if there is no byte 3 |

## Left out

- ActiveObjects.StPipeline.RunStage: each item has a cell of its own that lives as long as the item; the code captures a loop-local variable by reference, whose storage may be reused.
- PipelineRuns.LocationFixesValue: the same, so it is the value of the number each item was meant to have.
- ActiveObjects.StPipeline.Execute: the pauses of the generation loop and the interleaving of console output are not modelled; what is printed is kept per item.
- BlockingQueue.Queue.Dequeue: runs once the wait is over; waiting, sleeping and waking are the steps of the protocol in the same file.
- PrimeCheck.IsPrime: the square root is the exact truncated one, which the floating-point function yields for all 32-bit numbers.
- PageSequence.Sequence.Read: a read of an empty sequence is reported as an outcome; what the kernel does after following the null link is not part of this model.
- CharDevice.Device.Read: the offset and count must stay within the page, which the code does not check.
- CharDevice.Device.Write: the same; and the key is the decoded 32-bit value.
- Reactor.Reactor.Dispatch: handlers register only descriptors below 1024 and non-null functions; a handler's own effects are an arbitrary function.
- ReactServer.SlotTable.AcceptClient: accept returns a descriptor that is not open, not zero and below 1024, or fails; the mutex is not modelled because one thread runs all handlers.
- PipeCopy.SenderLoop: the file does not change while it is copied and has at most 2^31 - 1 bytes; what write returns, which the code ignores, is taken to be success.
- PipeCopy.ReceiverLoop: the same for its writes.
- SocketCopy.SendFile: fread does not fail and the file has at most 2^31 - 1 bytes.
- SocketCopy.CalculateChecksum: char is signed, as on the platforms the makefile targets.
- Shell.Session.RunLine: argument texts are identified by line and position, so what a leftover argument of an earlier line reads as in the overwritten command buffer is not modelled; neither are failures of pipe, open and fork, nor commands that block because the shell keeps all pipe ends open.
- FileCompare.Cmp: ASCII files only; bytes from 128 on depend on the signedness of char.
- CodecB.Encode: ASCII strings only, for the same reason.
- The control handshake, connection set-up, option parsing, mmap transfers and progress messages of stnc, partA and partB.
- Kernel module registration, the sysfs entry and the ioctl number headers.
- The remaining small programs (copy, encode, decode, basic_shell, codecA, keyGenerator, the device test program), which would add only easy members.
