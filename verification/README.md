# Verification of the runtime's algorithms and protocols

This project models the self-contained algorithms and state machines of a single-threaded I/O
runtime and proves what they promise, over all inputs and over whole runs.

| file | what it models |
|---|---|
| `WaitQueues.dfy` | a bounded queue, a one-waiter slot and a round-based notifier sharing caller-owned waiters, on a heap of objects, with an account of every waker |
| `SipHasher.dfy`, `MachineWords.dfy` | the streaming SipHash with its partial-word tail, and the machine arithmetic it needs |
| `KeyedRandom.dfy` | lanes, seeds and the four-round keyed permutation |
| `HostName.dfy`, `QueryFrame.dfy`, `CookieOptions.dfy` | DNS names, query frames built in place, and the option parser |
| `RefreshSchedule.dfy`, `Freshness.dfy` | the freshness machine of a discovery: revisions, staleness, expiry, retry, stop |
| `Sequence.dfy` | directly issued and block-claimed identities from one cursor |
| `FiberLowering.dfy` | the tree visitor that brands awaits |
| `Terminal.dfy`, `Arming.dfy`, `ConnectionSetup.dfy`, `RouteLease.dfy` | ownership machines: terminal convergence, operation arming, connection setup, route leases |
| `Combinators.dfy`, `FairSelection.dfy` | race, join and task under a credit budget; fair selection among work slots |
| `Outcomes.dfy` | option and result |

Where the source updates an object, a class keeps the same fields and each method's contract gives
the whole new state as a function of the old one. Runs, invariants and round trips are then proved
about those functions. Calls into code outside the modelled files become parameters: what a lane,
a clock, a kernel operation or a flight answers is an input of the step, so every theorem holds for
every such answer.

How the parts are read:

- Wait queues. `World` is the value of all endpoints and waiters together with an account: every
  accepted waker has a ticket whose fate is held, unregistered, or the number of the wake call that
  used it. `Driver.Valid` says the heap agrees with it.
- SipHash. `Sip` carries the absorbed bytes as a ghost; `Valid` makes every field a function of
  them, so any interleaving of writes that absorbs the same bytes gives the same hasher.
- Discovery. `PollStep` is one poll. The lane is busy from a successful start to its completion.
- Combinators. A fiber is a tree whose leaves follow arbitrary scripts. All descents of a poll hand on
  one `Turn`, which counts polls of completed elementary fibers, races and joins even when they are dropped
  at once.
- Answers. What one call does is a function of the old state; lemmas named `...Means`, `...Reports`,
  `...Returns` or `...ByName` then say it again case by case in the terms of the caller, without that function,
  its tables or its constants.
- Lowering. Syntax is reduced to what lowering tells apart; `Faults` lists everything it objects to
  in the order it meets it, and the visitor is shown to report the first.

## Model

| member | source | states |
|---|---|---|
| `WaitQueues.Waiter.Replace` | layer2/fiber/src/wait/mod.rs:352-367 | asking again at the same endpoint keeps the place; with the same waker no call is made and nothing changes at all, with another one exactly the old waker is called and the seat stays; anywhere else nothing changes and the waker comes back |
| `WaitQueues.Waiter.Renew` | layer2/fiber/src/wait/mod.rs:355-359 | the waker in a registration changes, the seat stays, and the old waker is called |
| `WaitQueues.Waiter.Vacate` | layer2/fiber/src/wait/mod.rs:369-375 | the waiter leaves the one endpoint its registration names and hands back its waker; line, counter, slot and record agree afterwards |
| `WaitQueues.Waiter.Unlink` | layer2/fiber/src/wait/mod.rs:377-392 | dispatches on the endpoint: the queue loses one link and one count, or the slot empties |
| `WaitQueues.Waiter.Enqueue` | layer2/fiber/src/wait/mod.rs:311-320 | a vacant waiter joins the back of a queue, with link, counter and record written together |
| `WaitQueues.Waiter.Bind` | layer2/fiber/src/wait/mod.rs:322-330 | a vacant waiter fills an empty slot |
| `WaitQueues.Waiter.Unregister` | layer2/fiber/src/wait/mod.rs:394-396 | the registration ends without a wake; the same happens when the waiter is dropped |
| `WaitQueues.Queue.TryRegister` | layer2/fiber/src/wait/mod.rs:107-128 | the new world is the specified registration; a full queue refuses with its capacity and the waker and leaves every old registration standing |
| `WaitQueues.Queue.Admit` | layer2/fiber/src/wait/mod.rs:122-127 | moving in from another endpoint: leave, join at the back, then call the replaced waker |
| `WaitQueues.Queue.Detach` | layer2/fiber/src/wait/mod.rs:164-168 | one entry is unlinked and the counter falls by one |
| `WaitQueues.Queue.Pop` | layer2/fiber/src/wait/mod.rs:170-175 | the front waiter, and no other, leaves the line with its waker |
| `WaitQueues.Queue.WakeOne` | layer2/fiber/src/wait/mod.rs:149-158 | one budgeted wake of the front waiter; pending is reported exactly when credit ran out before a non-empty line |
| `WaitQueues.Queue.Wake` | layer2/fiber/src/wait/mod.rs:130-140 | wakes waiters front first while credit lasts; the ghost count says how many, and pending means some remain |
| `WaitQueues.Queue.WakeAll` | layer2/fiber/src/wait/mod.rs:143-147 | empties the line, calling every waker in order |
| `WaitQueues.Slot.TryRegister` | layer2/fiber/src/wait/mod.rs:246-264 | the specified registration at a slot; an occupied one refuses and changes nothing |
| `WaitQueues.Slot.Admit` | layer2/fiber/src/wait/mod.rs:258-262 | a move into the slot, the replaced waker called last |
| `WaitQueues.Slot.TakeAndWake` | layer2/fiber/src/wait/mod.rs:266-288 | the slot empties and its waker is called once |
| `WaitQueues.Slot.WakeOne` | layer2/fiber/src/wait/mod.rs:272-281 | the budgeted form, pending exactly when credit ran out with the slot occupied; a wake costs one credit |
| `WaitQueues.Notifier.TryRegister` | layer2/fiber/src/wait/mod.rs:193-199 | a notifier registers waiters in its queue, with the queue's refusal when that is full |
| `WaitQueues.Notifier.Notify` | layer2/fiber/src/wait/mod.rs:202-204 | a round starts with the number of waiters now queued |
| `WaitQueues.Notifier.Spend` | layer2/fiber/src/wait/mod.rs:209-212 | one wake is taken off the round, which never outlasts the line |
| `WaitQueues.Notifier.Flush` | layer2/fiber/src/wait/mod.rs:207-213 | at most one wake per flush; the round shrinks by one and never exceeds the line |
| `WaitQueues.StepIsGood` | layer2/fiber/src/wait/mod.rs:107-405 | every operation keeps line, counter, slot, record and accounts in agreement |
| `WaitQueues.RunKeepsOnePlace` | layer2/fiber/src/wait/mod.rs:107-405 | over any run: counters equal line lengths within capacity, and each waiter stands in exactly the endpoint its record names, once, or in none |
| `WaitQueues.RunKeepsTheBooks` | layer2/fiber/src/wait/mod.rs:107-405 | over any run: every accepted waker is exactly one of still registered, unregistered, or called, and each call belongs to one of them |
| `WaitQueues.StepFate` | layer2/fiber/src/wait/mod.rs:107-405 | one operation changes the fate only of wakers it moves, wakes or unregisters |
| `WaitQueues.RunFate` | layer2/fiber/src/wait/mod.rs:107-405 | a settled waker stays settled; a held one is lost only to a wake or an explicit leave |
| `WaitQueues.StepRound` | layer2/fiber/src/wait/mod.rs:201-217 | between two notifications only a notifier's own flushes change its round, funded ones shrink it, unfunded ones spend nothing, and what is spent are wake calls |
| `WaitQueues.RunRound` | layer2/fiber/src/wait/mod.rs:201-217 | until the next notification all flushes of a round together make at most as many wake calls as its snapshot, however waiters re-register, and funded flushes run it down |
| `WaitQueues.RoundIsOver` | layer2/fiber/src/wait/mod.rs:201-217 | a round with nothing left has released every waiter it found and still holds none of them |
| `WaitQueues.NotifyReleases` | layer2/fiber/src/wait/mod.rs:201-217 | after enough funded flushes every waiter queued at the notification that stayed registered has been woken, by no more wakes than there were waiters |
| `WaitQueues.StepPlace` | layer2/fiber/src/wait/mod.rs:107-405 | a place in line ends only by its holder leaving or really moving, or at the front by a call of the holder's present waker |
| `WaitQueues.SeatIsNotRetaken` | layer2/fiber/src/wait/mod.rs:311-320 | a place that has ended is never held again |
| `WaitQueues.StepFifo` | layer2/fiber/src/wait/mod.rs:130-176 | while an earlier place is held, no call but its holder's own ends a later one |
| `WaitQueues.RunFifo` | layer2/fiber/src/wait/mod.rs:130-176 | over any run, as long as the earlier of two places in a queue is held so is the later one, whose holder may ask again in place as often as it likes |
| `WaitQueues.EndedByCall` | layer2/fiber/src/wait/mod.rs:130-176 | a place its holder did not give up ends by a call of the waker it is registered with by then |
| `WaitQueues.ReleasedInOrder` | layer2/fiber/src/wait/mod.rs:130-176 | over any run, of two places that end so the earlier one is called first |
| `WaitQueues.NotifyWakesInOrder` | layer2/fiber/src/wait/mod.rs:201-217 | a round with enough funded flushes calls two waiters in line at the notification that stay, in order and each with its present waker, also when they ask again in place meanwhile |
| `WaitQueues.AskingAgainMeans` | layer2/fiber/src/wait/mod.rs:352-367 | asking again in place, room or not: nobody is moved and the seat stays; the same waker makes no call and changes nothing, another one calls exactly the old waker |
| `WaitQueues.RefusalMeans` | layer2/fiber/src/wait/mod.rs:107-128 | at an endpoint without room nothing happens to a waiter that stands elsewhere or nowhere |
| `WaitQueues.MoveMeans` | layer2/fiber/src/wait/mod.rs:107-128 | where there is room a waiter from elsewhere gets a fresh seat under its new waker, the one it had elsewhere is called and no other, and nobody else is moved |
| `WaitQueues.LineAfterMove` | layer2/fiber/src/wait/mod.rs:107-128 | a move adds the waiter at the back of its new line, closes up the one it left and keeps every other |
| `WaitQueues.CellAfterMove` | layer2/fiber/src/wait/mod.rs:246-264 | a move into a slot fills it, a move out of one empties it, other slots stay |
| `WaitQueues.LeavingMeans` | layer2/fiber/src/wait/mod.rs:394-405 | unregistering or dropping makes no call and touches no other waiter; only a dropped one is forgotten |
| `WaitQueues.LineAfterLeaving` | layer2/fiber/src/wait/mod.rs:394-405 | its place in line is closed up and every other line stays |
| `WaitQueues.WakeMeans` | layer2/fiber/src/wait/mod.rs:149-176 | a wake takes the front waiter's registration and place, calls its waker, and does nothing at an empty endpoint |
| `WaitQueues.NotifyMeans` | layer2/fiber/src/wait/mod.rs:202-204 | a notification counts the line and changes nothing else |
| `WaitQueues.FlushMeans` | layer2/fiber/src/wait/mod.rs:207-213 | a flush is nothing without a round or without budget for a waiting line, else one wake of the front and one less left, at most those still in line |
| `WaitQueues.RegisteredAccount` | layer2/fiber/src/wait/mod.rs:352-367 | which accounts a registration leaves: untouched, one waker exchanged in place, one exchanged on a move, or one added, by where the waiter stood and whether there was room |
| `WaitQueues.PoppedManyIsRun` | layer2/fiber/src/wait/mod.rs:130-147 | waking many in one call is a run of as many single wakes, so all that holds of runs reaches it |
| `WaitQueues.PoppedInLineOrder` | layer2/fiber/src/wait/mod.rs:130-176 | popping k times takes the first k of the line, in order, and leaves the rest as it was |
| `SipHasher.FoldJoins` | layer1/runtime/src/random/sip.rs:76-82 | compressing two whole-word strings one after the other is compressing their concatenation |
| `SipHasher.WholeGrows` | layer1/runtime/src/random/sip.rs:84-93 | completing the partial word compresses exactly one more word and leaves the rest as the tail |
| `SipHasher.TailGrows` | layer1/runtime/src/random/sip.rs:84-93 | bytes that do not fill the word only extend the tail |
| `SipHasher.ResumeAtWord` | layer1/runtime/src/random/sip.rs:113-128 | from a word boundary more bytes append words and replace the tail |
| `SipHasher.ClosingIsPadding` | layer1/runtime/src/random/sip.rs:104-111 | the closing word of length byte and tail is the zero padding with the length on top |
| `SipHasher.PaddedFold` | layer1/runtime/src/random/sip.rs:104-111 | whole words then the closing word compress to the same state as the padded message of section 2 of the SipHash paper |
| `SipHasher.MergeFits` | layer1/runtime/src/random/sip.rs:88-88 | shifting a value in above the tail reads as appending its bytes |
| `SipHasher.MergeSpills` | layer1/runtime/src/random/sip.rs:88-92 | what the left shift loses is exactly what the right shift recovers as the next tail |
| `SipHasher.Merge` | layer1/runtime/src/random/sip.rs:88-88 | the merged word is the little-endian reading of the tail and the bytes that fit |
| `SipHasher.Spilled` | layer1/runtime/src/random/sip.rs:91-91 | the new tail is the reading of the bytes that did not fit |
| `SipHasher.Pack` | layer1/runtime/src/random/sip.rs:57-74 | up to seven bytes, read in pieces of four, two and one, give their little-endian value |
| `SipHasher.Blocks` | layer1/runtime/src/random/sip.rs:76-82 | full words are compressed in order; fewer than eight bytes remain |
| `SipHasher.Close` | layer1/runtime/src/random/sip.rs:104-106 | length byte and tail make the specified closing word even after the length has wrapped |
| `SipHasher.Sip.ShortWrite` | layer1/runtime/src/random/sip.rs:84-93 | a value of one to eight bytes absorbs exactly its little-endian bytes |
| `SipHasher.Sip.Absorbed` | layer1/runtime/src/random/sip.rs:88-92 | state and tail after a value are those of the longer byte string |
| `SipHasher.Sip.Extended` | layer1/runtime/src/random/sip.rs:113-128 | state and tail after a byte string, by topping up, whole words and rest, are those of the longer byte string |
| `SipHasher.Sip.ToppedUp` | layer1/runtime/src/random/sip.rs:116-124 | a chunk on top of the partial word either extends the tail or completes one word |
| `SipHasher.Sip.WriteU8` | layer1/runtime/src/random/sip.rs:130-132 | absorbs one byte |
| `SipHasher.Sip.WriteU16` | layer1/runtime/src/random/sip.rs:134-136 | absorbs the two little-endian bytes |
| `SipHasher.Sip.WriteU32` | layer1/runtime/src/random/sip.rs:138-140 | absorbs the four little-endian bytes |
| `SipHasher.Sip.WriteU64` | layer1/runtime/src/random/sip.rs:142-144 | absorbs the eight little-endian bytes |
| `SipHasher.Sip.WriteUsize` | layer1/runtime/src/random/sip.rs:146-148 | absorbs the eight little-endian bytes of a machine word |
| `SipHasher.Sip.Write` | layer1/runtime/src/random/sip.rs:113-128 | absorbs exactly the given bytes, whatever was in the partial word |
| `SipHasher.Sip.Finish` | layer1/runtime/src/random/sip.rs:104-111 | the digest of all bytes absorbed, independent of how they were chunked |
| `SipHasher.Sip.Hash` | layer1/runtime/src/random/sip.rs:95-100 | the one-shot path gives the same digest as absorbing and finishing |
| `SipHasher.RoundIsUndone` | layer1/runtime/src/random/sip.rs:31-43 | a round can be taken apart again step by step, so no two states mix to the same one |
| `SipHasher.CompressIsUndone` | layer1/runtime/src/random/sip.rs:51-55 | from a compressed state and its word the state before is recovered: the word goes into the last part before the rounds and the first part after them |
| `SipHasher.FinalizeMeans` | layer1/runtime/src/random/sip.rs:104-111 | the hash combines the four parts after the closing rounds, which start with 255 laid over the third |
| `SipHasher.SeededSpells` | layer1/runtime/src/random/sip.rs:17-28 | the initial state lays the key over the phrase of the SipHash paper |
| `KeyedRandom.UsesAreSeparate` | layer1/runtime/src/random/mod.rs:294-299 | uses of a key hash equal bytes only if lane, kind and input are equal |
| `KeyedRandom.Lane` | layer1/runtime/src/random/mod.rs:294-299 | a lane hasher has absorbed the lane number and the kind byte |
| `KeyedRandom.HashOnLane` | layer1/runtime/src/random/mod.rs:271-275 | an input hashed on a copy of the lane leaves the lane as it was |
| `KeyedRandom.WordAt` | layer1/runtime/src/random/mod.rs:271-275 | a keyed word is the digest of lane, kind zero and input |
| `KeyedRandom.SeedAt` | layer1/runtime/src/random/mod.rs:253-269 | the two words of a derived seed are the digests of inputs zero and one on the seed lane |
| `KeyedRandom.RoundHash` | layer1/runtime/src/random/mod.rs:283-287 | a round's output is the low half of the digest of round number and right half |
| `KeyedRandom.Permute` | layer1/runtime/src/random/mod.rs:277-292 | the loop computes the four-round network of the lane's round function |
| `KeyedRandom.BackwardUndoesForward` | layer1/runtime/src/random/mod.rs:277-292 | running the rounds backwards from the fourth undoes them, from any starting round and for any round function |
| `KeyedRandom.ForwardUndoesBackward` | layer1/runtime/src/random/mod.rs:277-292 | running the rounds forward undoes the backward run, for any round function |
| `KeyedRandom.PermuteIsBijection` | layer1/runtime/src/random/mod.rs:277-292 | the permutation has a two-sided inverse on all 64-bit values |
| `KeyedRandom.KeyedPermutation` | layer1/runtime/src/random/mod.rs:277-292 | for every key and lane no two values share an image and every value is one |
| `KeyedRandom.LaneHashMeans` | layer1/runtime/src/random/mod.rs:294-299 | a keyed hash is SipHash-2-4 of the lane, the kind and the input in seventeen bytes, each number little-endian |
| `KeyedRandom.RoundOutputMeans` | layer1/runtime/src/random/mod.rs:283-287 | a round's output is the low half of the kind-one hash of round number above right half |
| `KeyedRandom.FourRounds` | layer1/runtime/src/random/mod.rs:277-292 | the permutation written out: four rounds, the halves in turn |
| `HostName.JoinAfterSplit` | layer2/dns/src/host.rs:159-161 | joining the labels of a text gives the text back |
| `HostName.SplitAfterJoin` | layer2/dns/src/host.rs:159-161 | splitting joined dot-free labels gives the labels back |
| `HostName.CheckPiece` | layer2/dns/src/host.rs:120-138 | accepts exactly well-formed labels, and otherwise names the first thing wrong: the ends before the bytes, then the first bad byte |
| `HostName.CopyLowered` | layer2/dns/src/host.rs:143-145 | writes the lower-case label at its offset and nothing before it |
| `HostName.AppendLabel` | layer2/dns/src/host.rs:105-146 | one round of the loop: separator, checks, then the copy, staying inside the output |
| `HostName.Assemble` | layer2/dns/src/host.rs:91-152 | succeeds exactly on label lists that form a name, with the lower-case joined text; otherwise the error describes the first fault |
| `HostName.Parse` | layer2/dns/src/host.rs:76-82 | accepts exactly names of well-formed labels after one trailing dot is dropped; the result is that text, at most 253 bytes, byte for byte with capital letters lowered; every error is the one the input explains |
| `HostName.ExplanationIsUnique` | layer2/dns/src/host.rs:91-152 | no input has two explanations, so an explained error is the one the checks come upon first |
| `HostName.NameByteMeans` | layer2/dns/src/host.rs:120-145 | name characters are letters, digits, hyphen and underscore, and only capital letters are lowered |
| `HostName.LabelMeans` | layer2/dns/src/host.rs:105-138 | a label has one to sixty-three of them and no hyphen at an end |
| `HostName.JoinMeans` | layer2/dns/src/host.rs:113-119 | labels are joined by dots |
| `HostName.LoweredIsName` | layer2/dns/src/host.rs:91-152 | what parsing stores is again a name |
| `HostName.NameIsCanonical` | layer2/dns/src/host.rs:76-82 | a stored name parses to itself |
| `QueryFrame.CountedIsPrefixed` | layer2/dns/src/wire/frames.rs:122-133 | at every step of the backwards pass the counter is the length of the first label so far, at most 63, and the bytes behind it are the prefixed labels |
| `QueryFrame.CountedOne` | layer2/dns/src/wire/frames.rs:122-133 | one step of the pass: a dot takes the counter and clears it, any other byte counts |
| `QueryFrame.CountBack` | layer2/dns/src/wire/frames.rs:122-133 | the in-place loop leaves the bytes the pass specifies and touches nothing else |
| `QueryFrame.LaidIsPrefixed` | layer2/dns/src/wire/frames.rs:122-133 | header byte and rewritten name together are the length-prefixed labels of section 3.1 of RFC 1035 |
| `QueryFrame.LabelsRoundTrip` | layer2/dns/src/wire/frames.rs:122-133 | reading the prefixed labels with their terminator gives the labels back |
| `QueryFrame.MessageRoundTrip` | layer2/dns/src/wire/frames.rs:51-94 | a reader that checks every count, type and length of the message recovers the question and the options |
| `QueryFrame.FixedBytes` | layer2/dns/src/wire/frames.rs:66-79 | header, question and option record, byte by byte |
| `QueryFrame.HeaderBytes` | layer2/dns/src/wire/frames.rs:66-70 | the thirteen header bytes: identifier, recursion desired, one question, one additional record |
| `QueryFrame.TailBytes` | layer2/dns/src/wire/frames.rs:71-75 | the fixed bytes behind the name: terminator, type, class, OPT record, payload size |
| `QueryFrame.UdpTail` | layer2/dns/src/wire/frames.rs:71-79 | the three lengths of the cookie option and the client cookie in place |
| `QueryFrame.Fill` | layer2/dns/src/wire/frames.rs:80-88 | header, rewritten name, tail and server cookie lie one behind the other |
| `QueryFrame.Udp` | layer2/dns/src/wire/frames.rs:51-94 | the buffer holds exactly the message for identifier, name, family and cookies |
| `QueryFrame.Tcp` | layer2/dns/src/wire/frames.rs:96-120 | the frame is the 16-bit length of the message followed by the message |
| `QueryFrame.UdpIsUnderstood` | layer2/dns/src/wire/frames.rs:51-94 | the datagram is read back whole with identifier, name, address type and payload size as asked, fits 512 bytes, and its options give a client exactly the server cookie that was put in |
| `QueryFrame.TcpIsUnderstood` | layer2/dns/src/wire/frames.rs:96-120 | the stream message is read back whole with identifier, name and address type as asked, and its length is the constant arithmetic of the builder |
| `CookieOptions.NextOpt` | layer2/dns/src/wire/cookies.rs:42-44 | reads code, length and data, or reports the first read that falls short and by how much |
| `CookieOptions.CheckCookie` | layer2/dns/src/wire/cookies.rs:48-69 | one cookie is decided as specified; which cookies that accepts is `CheckedMeans` |
| `CookieOptions.FromOptions` | layer2/dns/src/wire/cookies.rs:34-74 | the cursor loop computes the specified answer; which bytes that accepts is `AnswersExactly` |
| `CookieOptions.ScanEncoded` | layer2/dns/src/wire/cookies.rs:41-71 | on an encoded list the scan stops at its end and is decided by the first cookie option |
| `CookieOptions.WellFormedOptions` | layer2/dns/src/wire/cookies.rs:34-74 | from the start of any well-formed list only the first cookie option is checked |
| `CookieOptions.CookieRoundTrip` | layer2/dns/src/wire/cookies.rs:34-74 | an echoed option with a cookie of 8 to 32 bytes yields exactly that cookie, whatever options follow |
| `CookieOptions.AcceptedIsEncoding` | layer2/dns/src/wire/cookies.rs:34-74 | success means the bytes were an option list of section 6.1.2 of RFC 6891 |
| `CookieOptions.AcceptsExactly` | layer2/dns/src/wire/cookies.rs:34-74 | accepted exactly when the bytes are such a list whose first cookie option, if any, checks |
| `CookieOptions.CheckedMeans` | layer2/dns/src/wire/cookies.rs:45-69 | a cookie is accepted exactly when it is the client's own eight bytes and eight to thirty-two more, which are the server's; each refusal has exactly its condition |
| `CookieOptions.OptionBytes` | layer2/dns/src/wire/cookies.rs:41-45 | the layout of one option, byte by byte |
| `CookieOptions.AnswersExactly` | layer2/dns/src/wire/cookies.rs:34-74 | over 65535 bytes are refused; else a server cookie comes out exactly of whole options the first cookie of which echoes the client, none exactly of whole options without one, and each error exactly of a first cookie with that defect, or of options cut short there with no cookie refused before |
| `RefreshSchedule.Schedule.Request` | layer2/dns/src/lookup/schedule.rs:46-62 | a pending failure reason is not displaced by startup or schedule; a stopped schedule ignores requests |
| `RefreshSchedule.Schedule.Delay` | layer2/dns/src/lookup/schedule.rs:81-86 | sets the earliest next lookup in every state |
| `RefreshSchedule.Schedule.Allow` | layer2/dns/src/lookup/schedule.rs:88-95 | sets it only where none is set |
| `RefreshSchedule.Schedule.Fail` | layer2/dns/src/lookup/schedule.rs:97-105 | hands out the old count and counts up to the limit |
| `RefreshSchedule.Schedule.Stop` | layer2/dns/src/lookup/schedule.rs:111-115 | forgets requests and failures for good |
| `RefreshSchedule.Schedule.Advance` | layer2/dns/src/lookup/schedule.rs:117-146 | ages the snapshot by its two deadlines |
| `RefreshSchedule.Schedule.Install` | layer2/dns/src/lookup/schedule.rs:148-164 | a publication resets the failures and installs the new deadlines |
| `RefreshSchedule.Schedule.Expire` | layer2/dns/src/lookup/schedule.rs:166-169 | withdrawal keeps the earliest next lookup and asks for one now |
| `Freshness.Discovery.TryPublication` | layer2/dns/src/lookup/mod.rs:125-132 | a query's publication needs this revision and one in reserve |
| `Freshness.Discovery.Fail` | layer2/dns/src/lookup/mod.rs:141-169 | terminal failures stop, others count, request again and back off |
| `Freshness.Discovery.Publish` | layer2/dns/src/lookup/mod.rs:171-261 | revision, timing and metadata in this order, each failing as specified; success installs the snapshot |
| `Freshness.Discovery.Expire` | layer2/dns/src/lookup/mod.rs:263-290 | withdrawal takes the next revision |
| `Freshness.Discovery.Resolve` | layer2/dns/src/lookup/mod.rs:292-328 | a literal is published on the spot for a day |
| `Freshness.Discovery.Settle` | layer2/dns/src/lookup/mod.rs:392-424 | a completed lookup publishes or fails, unless the civil clock does |
| `Freshness.Discovery.Look` | layer2/dns/src/lookup/mod.rs:451-491 | the order of checks that decides whether a lookup starts |
| `Freshness.Discovery.PollAt` | layer2/dns/src/lookup/mod.rs:373-492 | one poll is one step of the machine and keeps its invariant |
| `Freshness.Discovery.RefreshAt` | layer2/dns/src/lookup/mod.rs:345-357 | an outside request is one step of the machine |
| `Freshness.FailedLookupReports` | layer2/dns/src/lookup/mod.rs:392-424 | a failed lookup is reported with its own cause, read clock or not |
| `Freshness.FailedLookupStops` | layer2/dns/src/lookup/mod.rs:141-169 | its cause alone decides whether the machine goes on: a final one stops it, any other leaves it running |
| `Freshness.AnsweredLookupReports` | layer2/dns/src/lookup/mod.rs:171-261 | an answer is published unless the civil clock, the revisions, the range of instants or its own times forbid it, each with its own error |
| `Freshness.QueryLookReports` | layer2/dns/src/lookup/mod.rs:463-491 | a look that is due starts a lookup unless no revision is left, the clock cannot be read or the lane refuses, each with its own error |
| `Freshness.LiteralLookReports` | layer2/dns/src/lookup/mod.rs:292-328 | a literal is published on the spot: its address, a day, no refresh, the next revision; each refusal has its condition and error |
| `Freshness.WaitingChangesNothing` | layer2/dns/src/lookup/mod.rs:448-462 | too early or without a request a poll only waits, and notes a refresh that has come due |
| `Freshness.FlightChangesNothing` | layer2/dns/src/lookup/mod.rs:443-447 | a lookup in flight is waited for, until the moment the lane names or the snapshot next ages |
| `Freshness.TurningStaleMeans` | layer2/dns/src/lookup/mod.rs:424-438 | a snapshot turns stale exactly between its two deadlines; a refresh is then asked for unless one is in flight |
| `Freshness.WithdrawalMeans` | layer2/dns/src/lookup/mod.rs:263-290 | it is withdrawn exactly past the second one, under the next revision, and a lookup is due at once |
| `Freshness.PublishedRefresh` | layer2/dns/src/lookup/mod.rs:207-261 | the refresh moment, its report and the moment to come back, exactly |
| `Freshness.FinalFailureMeans` | layer2/dns/src/lookup/mod.rs:152-155 | a final failure clears the schedule and keeps the snapshot's deadlines |
| `Freshness.RetriedLookupMeans` | layer2/dns/src/lookup/mod.rs:156-168 | any other failure of a lookup is counted up to sixteen and asked for again after its delay, exactly |
| `Freshness.RetriedLookMeans` | layer2/dns/src/lookup/mod.rs:156-168 | so is one of a look |
| `Freshness.NextPollIsEarlier` | layer2/dns/src/lookup/mod.rs:134-139 | the moment to come back is the earlier of the given one and the snapshot's deadline |
| `Freshness.RefreshMeans` | layer2/dns/src/lookup/mod.rs:345-357 | a request is taken up unless the machine has stopped, and allows a first lookup at once |
| `Freshness.GoodKept` | layer2/dns/src/lookup/mod.rs:373-492 | every step keeps: stopped means idle with nothing asked, and a live snapshot leaves room for its withdrawal revision |
| `Freshness.RunIsGood` | layer2/dns/src/lookup/mod.rs:373-492 | so does every run |
| `Freshness.ExpiryIsNeverRefused` | layer2/dns/src/lookup/mod.rs:263-290 | the exhausted branch of the withdrawal is unreachable |
| `Freshness.RevisionsCountUp` | layer2/dns/src/lookup/mod.rs:125-132 | over any run publications and withdrawals report consecutive revisions |
| `Freshness.SnapshotLife` | layer2/dns/src/lookup/mod.rs:424-442 | between publications a snapshot turns stale at most once, inside its window, and is withdrawn at most once, not before its end |
| `Freshness.PublishedMeans` | layer2/dns/src/lookup/mod.rs:207-250 | a query publishes only a finished lookup; validity, refresh moment and next lookup follow from answer and configuration |
| `Freshness.PublishedLives` | layer2/dns/src/lookup/mod.rs:171-261 | from a publication on, the life of its snapshot is bounded by the deadlines of its own answer |
| `Freshness.RequestOwes` | layer2/dns/src/lookup/mod.rs:345-357 | an accepted request makes the machine owe a lookup |
| `Freshness.OwedKept` | layer2/dns/src/lookup/mod.rs:373-492 | every step keeps a lookup in flight, requested or scheduled |
| `Freshness.RunOwes` | layer2/dns/src/lookup/mod.rs:373-492 | over any run no refresh is lost unless the machine stops |
| `Freshness.FailureReasonKept` | layer2/dns/src/lookup/mod.rs:141-169 | a requested failure reason stays until a lookup takes it up or the machine stops |
| `Freshness.PollRecalls` | layer2/dns/src/lookup/mod.rs:134-139 | every poll with nothing in flight names a moment to come back, never after the next deadline of the snapshot |
| `Freshness.OneOfThreePollsActs` | layer2/dns/src/lookup/mod.rs:451-491 | of three polls made no earlier than asked, one acts |
| `Freshness.RetryDelayGrows` | layer2/dns/src/lookup/mod.rs:120-123 | delays start at the base, never shrink with failures and never pass the maximum |
| `Freshness.DelayDoubles` | layer2/dns/src/lookup/mod.rs:120-123 | each failure doubles the delay until the maximum takes over |
| `Freshness.DelaysGrow` | layer2/dns/src/lookup/mod.rs:141-169 | over any run up to the next publication later failures wait at least as long |
| `Freshness.BackoffIsRespected` | layer2/dns/src/lookup/mod.rs:141-169 | after a failure no lookup starts before its delay is over, whatever is requested meanwhile |
| `Freshness.MinimumIsRespected` | layer2/dns/src/lookup/mod.rs:207-220 | after a publication no lookup starts before the configured minimum |
| `Freshness.TerminalStops` | layer2/dns/src/lookup/mod.rs:152-155 | a failure stops the machine exactly when it is one of the listed final ones |
| `Freshness.StoppedForGood` | layer2/dns/src/lookup/mod.rs:152-155 | a stopped machine never publishes, fails or looks up again |
| `Sequence.ClaimRefusedExactly` | layer0/core/src/driver/schedule/sequence.rs:17-23 | a claim gives the nearest aligned range, and is refused exactly when none is left |
| `Sequence.Owner.Claim` | layer0/core/src/driver/schedule/sequence.rs:17-23 | claims that range and moves the cursor past it; a refusal leaves the cursor |
| `Sequence.Owner.Next` | layer0/core/src/driver/schedule/sequence.rs:25-29 | issues the cursor and advances it, ending at the last identity |
| `Sequence.Block.constructor` | layer0/core/src/driver/schedule/sequence.rs:63-69 | a block opens with a claim that may come up empty |
| `Sequence.Block.TryNext` | layer0/core/src/driver/schedule/sequence.rs:71-85 | issues from the block, claiming anew when it is spent, and reports exhaustion |
| `Sequence.RunIsGood` | layer0/core/src/driver/schedule/sequence.rs:17-85 | over any run reserved ranges are disjoint, below the cursor, and hold nothing issued |
| `Sequence.NeverTwice` | layer0/core/src/driver/schedule/sequence.rs:17-85 | no identity is issued twice, directly or through any number of blocks |
| `Sequence.DirectMeans` | layer0/core/src/driver/schedule/sequence.rs:25-29 | a direct issue takes the identity at the cursor |
| `Sequence.DirectCounts` | layer0/core/src/driver/schedule/sequence.rs:25-29 | direct issues from the start are one, two, three and so on to the last 64-bit identity |
| `Sequence.BlockIssueMeans` | layer0/core/src/driver/schedule/sequence.rs:71-85 | a block issues what it has left, else the start of a claimed range; with neither it changes nothing |
| `Sequence.OpenMeans` | layer0/core/src/driver/schedule/sequence.rs:63-69 | a block opens with a claim and issues nothing |
| `Sequence.RefusalIsFinal` | layer0/core/src/driver/schedule/sequence.rs:71-85 | once refused, claims stay refused, and exactly blocks without a rest report it |
| `Sequence.SpentIsFinal` | layer0/core/src/driver/schedule/sequence.rs:25-29 | a cursor that ran out stays out |
| `Sequence.BlockIssuesItsRange` | layer0/core/src/driver/schedule/sequence.rs:71-85 | a claimed range is issued whole, in order, up to the last 64-bit identity |
| `FiberLowering.FaultsExactly` | layer1/gen/src/fiber/lower.rs:134-255 | lowering objects to nothing exactly in admissible syntax, which is spelled by names and shapes and not by the table of macros |
| `FiberLowering.AttrFaultsExactly` | layer1/gen/src/fiber/lower.rs:43-80 | attributes pass exactly when each is listed, or a conditional list of such |
| `FiberLowering.HarmlessByName` | layer1/gen/src/fiber/lower.rs:47-65 | the twelve attributes that pass, by name |
| `FiberLowering.LoggingByName` | layer1/gen/src/fiber/lower.rs:385-396 | the five logging calls, by name |
| `FiberLowering.ListingByName` | layer1/gen/src/fiber/lower.rs:280-346 | what the table of macros says of each: its homes, and which names read as matches, match assertions, vectors, expressions, or are not looked into |
| `FiberLowering.RootedByName` | layer1/gen/src/fiber/lower.rs:362-383 | a listed macro is named under its home, a bare one under core before std; and only nine names are not looked into |
| `FiberLowering.MisreadByName` | layer1/gen/src/fiber/lower.rs:331-346 | which input the macro of each name reads, and what is reported when it cannot |
| `FiberLowering.Blames` | layer1/gen/src/fiber/lower.rs:134-255 | the failure reported of an expression is what is to blame in it: which syntax, attribute or macro, and of several the first in source order |
| `FiberLowering.LoweringKeepsSkeleton` | layer1/gen/src/fiber/lower.rs:134-195 | the lowered tree and the original have the same skeleton: brands, closures and macro roots apart, every operand in its place |
| `FiberLowering.SkeletonIsTree` | layer1/gen/src/fiber/lower.rs:134-195 | a written tree whose macros are logging calls or named under their home is its own skeleton |
| `FiberLowering.ErasingUndoesLowering` | layer1/gen/src/fiber/lower.rs:134-195 | erasing what lowering wrote gives such a tree back exactly, and any other up to the home of its macros |
| `FiberLowering.RootedIsFixed` | layer1/gen/src/fiber/lower.rs:316-383 | a macro moved under its home is listed there and stays there |
| `FiberLowering.LoweringBrands` | layer1/gen/src/fiber/lower.rs:134-255 | in a lowered body, looking into every macro but those of nine names, each await lends the brand or stands on an immediate scope, and no other async syntax or unlisted macro is left; logging arguments neither suspend nor leave |
| `FiberLowering.Lower.TryMeta` | layer1/gen/src/fiber/lower.rs:47-80 | the first objection to one attribute |
| `FiberLowering.Lower.TryAttrs` | layer1/gen/src/fiber/lower.rs:43-45 | the first objection to a list of attributes |
| `FiberLowering.Lower.VisitAttributes` | layer1/gen/src/fiber/lower.rs:126-130 | attributes are checked only before the first failure |
| `FiberLowering.Lower.Reject` | layer1/gen/src/fiber/lower.rs:82-86 | the first failure is kept |
| `FiberLowering.Lower.VisitScope` | layer1/gen/src/fiber/lower.rs:90-99 | an immediately awaited scope has only its block lowered |
| `FiberLowering.Lower.TryLogging` | layer1/gen/src/fiber/lower.rs:102-122 | logging arguments are lowered as synchronous, attributes first |
| `FiberLowering.Lower.TryMacro` | layer1/gen/src/fiber/lower.rs:316-346 | listed macros are read by their kind, lowered operand by operand and rooted |
| `FiberLowering.Lower.VisitAwait` | layer1/gen/src/fiber/lower.rs:166-188 | an await is wrapped unless it stands on an immediate scope without attributes |
| `FiberLowering.Lower.VisitExpr` | layer1/gen/src/fiber/lower.rs:134-195 | visiting keeps the first failure in source order, and without one yields the lowered tree |
| `FiberLowering.Lower.TryLower` | layer1/gen/src/fiber/lower.rs:23-36 | succeeds exactly on admissible bodies with the branded, order-preserving result; otherwise reports the failure of the first part to blame |
| `Terminal.State.CommitSend` | layer1/net/src/wire/terminal.rs:152-169 | a send-side value is committed only before any other |
| `Terminal.State.CommitBoth` | layer1/net/src/wire/terminal.rs:172-199 | a value for both directions only while open |
| `Terminal.State.EndInput` | layer1/net/src/wire/terminal.rs:182-188 | input ends only while open |
| `Terminal.State.Drain` | layer1/net/src/wire/terminal.rs:203-210 | one failure of terminal output is recorded beside the first cause |
| `Terminal.State.RecvFinished` | layer1/net/src/wire/terminal.rs:249-281 | the receive transition of every phase |
| `Terminal.State.SendFinished` | layer1/net/src/wire/terminal.rs:283-311 | the send transition of every phase and its wake |
| `Terminal.CleanConverges` | layer1/net/src/wire/terminal.rs:249-311 | after a clean commit: delivered once with the first receive, done exactly when both directions are |
| `Terminal.CommitMeans` | layer1/net/src/wire/terminal.rs:152-199 | a commit puts exactly its value, clean or failed, on the send side while nothing is committed and on both sides while open; later ones change nothing |
| `Terminal.DrainMeans` | layer1/net/src/wire/terminal.rs:203-210 | only the first drain failure is noted, beside the first cause |
| `Terminal.InputEndIsTold` | layer1/net/src/wire/terminal.rs:182-188 | after the input has ended the next completed receive is told so |
| `Terminal.WakesExactly` | layer1/net/src/wire/terminal.rs:283-311 | a completed send wakes the receiver exactly when it was told to wait, or the commit was by the send side |
| `Terminal.FailureConverges` | layer1/net/src/wire/terminal.rs:249-311 | after a failure: delivered once, only after a send completes, with its first cause; done exactly with that delivery |
| `Terminal.RecvSendRecvFinishes` | layer1/net/src/wire/terminal.rs:249-311 | any schedule with receive, send, receive in this order is done |
| `Terminal.NothingBeforeCommit` | layer1/net/src/wire/terminal.rs:213-232 | without a commit nothing is delivered |
| `Terminal.DeliveredOnce` | layer1/net/src/wire/terminal.rs:213-311 | over any run from the opening at most one terminal value is delivered, none before a commit, and a done connection has delivered one |
| `Terminal.EndIsAnnouncedOnce` | layer1/net/src/wire/terminal.rs:249-258 | the end of input is announced once |
| `Terminal.CommittedForever` | layer1/net/src/wire/terminal.rs:218-232 | after a commit no admission opens again |
| `Terminal.WaitingIsWoken` | layer1/net/src/wire/terminal.rs:249-311 | a receiver told to wait is woken by the next send completion |
| `Arming.State.Begin` | layer0/core/src/driver/retained/arm.rs:69-75 | lends the operation out only when ready or deferred |
| `Arming.State.BeginRetry` | layer0/core/src/driver/retained/arm.rs:189-198 | lends it out as a probe |
| `Arming.State.Apply` | layer0/core/src/driver/retained/arm.rs:85-115 | installs the outcome of a submission; no flight is there to be overwritten |
| `Arming.State.Stop` | layer0/core/src/driver/retained/arm.rs:117-125 | stops at once without a flight, otherwise cancels it |
| `Arming.State.TryCancel` | layer0/core/src/driver/retained/arm.rs:141-157 | asked only with a flight at hand; a put-off cancellation can be retried |
| `Arming.State.Finish` | layer0/core/src/driver/retained/arm.rs:134-139 | drops the flight and idles |
| `Arming.State.Complete` | layer0/core/src/driver/retained/arm.rs:233-259 | only the last completion of the held flight retires it, with the disposition of its phase |
| `Arming.State.Restart` | layer0/core/src/driver/retained/arm.rs:213-217 | restarts only once idle |
| `Arming.State.TryResume` | layer0/core/src/driver/retained/arm.rs:219-225 | resumes only what waits |
| `Arming.State.SettleProbe` | layer0/core/src/driver/retained/arm.rs:227-231 | a settled probe is an ordinary flight |
| `Arming.RunIsSound` | layer0/core/src/driver/retained/arm.rs:69-259 | over any run a flight is held exactly in the four flying phases, flights never overlap or vanish, and each settles at most one cancellation |
| `Arming.CompletionMeans` | layer0/core/src/driver/retained/arm.rs:233-259 | an armed flight delivers, a probing one is a sign of life, a cancelled one only retires; the last part ends it |
| `Arming.SubmissionMeans` | layer0/core/src/driver/retained/arm.rs:69-115 | a submission takes off armed or probing as asked, is put off without room, and is over without identities |
| `Arming.NoSubmission` | layer0/core/src/driver/retained/arm.rs:69-75 | nowhere else is anything submitted |
| `Arming.StopMeans` | layer0/core/src/driver/retained/arm.rs:117-157 | a stop cancels a flight, keeps asking while told later, and idles at once without one |
| `Arming.MovesMean` | layer0/core/src/driver/retained/arm.rs:201-231 | waiting, resuming, restarting, settling a probe and finishing |
| `Arming.SubmitsAlone` | layer0/core/src/driver/retained/arm.rs:69-115 | a flight starts only while none is out |
| `Arming.NothingAfterStop` | layer0/core/src/driver/retained/arm.rs:117-217 | from a stop to the next effective restart nothing is submitted and nothing delivered |
| `Arming.StaleChangesNothing` | layer0/core/src/driver/retained/arm.rs:233-259 | completions of other or pending flights change nothing |
| `Arming.DeferredCancelIsRetried` | layer0/core/src/driver/retained/arm.rs:141-157 | a put-off cancellation is settled by the next stop, and the flight's last completion then idles the operation |
| `ConnectionSetup.Cell.Take` | layer1/net/src/link/setup.rs:84-87 | taking a setup leaves its ready handle behind |
| `ConnectionSetup.TransitionsKeepTitle` | layer1/net/src/link/setup.rs:93-223 | no transition drops, swaps or makes up a socket or its target |
| `ConnectionSetup.StaleChangesNothing` | layer1/net/src/link/setup.rs:93-223 | completions of another operation are handed back unchanged, and none is taken by both directions |
| `ConnectionSetup.RestoreUndoesRetire` | layer1/net/src/link/setup.rs:251-265 | retiring is ready exactly with no operation pending, and restoring gives the same setup back |
| `ConnectionSetup.RetireUndoesRestore` | layer1/net/src/link/setup.rs:366-374 | and the other way round |
| `ConnectionSetup.RunIsGood` | layer1/net/src/link/setup.rs:84-385 | over any run the one setup is in one place and its running operation is the kernel's |
| `ConnectionSetup.OwnedOnce` | layer1/net/src/link/setup.rs:84-385 | from a creation as from an accepted socket, the socket and its target have exactly one holder and are released once; nothing runs for what is closing |
| `ConnectionSetup.ReadyIsEstablished` | layer1/net/src/link/setup.rs:93-223 | ready is reported exactly for an error-free completion of an operation still wanted, and each report leaves the matching setup |
| `ConnectionSetup.CreatedMeans` | layer1/net/src/link/setup.rs:130-165 | the created socket goes into its connection with its target; a refusal is reported with its cause |
| `ConnectionSetup.FailureIsReported` | layer1/net/src/link/setup.rs:93-223 | a failed completion reports the kernel's own error |
| `ConnectionSetup.CancelMeans` | layer1/net/src/link/setup.rs:283-325 | a cancellation without room is retried; an accepted or declined one is settled, and a success after it is reported cancelled |
| `ConnectionSetup.CancelledIsNeverReady` | layer1/net/src/link/setup.rs:283-325 | no operation settles two cancellations: one that did is never put to the kernel again, and never reported ready |
| `Combinators.PollIsSafe` | layer2/fiber/src/abi/task.rs:21-37 | one poll of any composition, in any turn, polls no elementary fiber, race or join that has completed; one that becomes ready is completed by then |
| `Combinators.MisuseIsRecorded` | layer2/fiber/src/abi/race.rs:9 | polling a completed elementary fiber, race or join always goes on the turn's record, which outlives the fiber |
| `Combinators.NeverPolledAfterReady` | layer2/fiber/src/abi/task.rs:21-51 | neither does any run of polls under any budgets, for any nesting of race, join and task, up to the root's completion |
| `Combinators.CreditsAreConserved` | layer2/fiber/src/context/pollcall.rs:17-26 | credits are only paid or spent, and in all no more are paid than races and joins are polled |
| `Combinators.OnePollOneCredit` | layer2/fiber/src/context/pollcall.rs:17-26 | beyond what its children pay, one poll of a race or join pays one credit if it makes two descents and none otherwise |
| `Combinators.RequeueStays` | layer2/fiber/src/context/mod.rs:244-248 | a request to be polled again survives the rest of the turn |
| `Combinators.RacePolls` | layer2/fiber/src/abi/race.rs:36-76 | the preferred child is always polled; a skipped one is preferred next and asks for another poll |
| `Combinators.RaceIsFair` | layer2/fiber/src/abi/race.rs:36-76 | two polls in a row poll both children of an undecided race |
| `Combinators.RaceReturns` | layer2/fiber/src/abi/race.rs:36-76 | a race returns the output of the child it turns to first on that child's side if it completes, else of the other on the other side if it is reached and completes, else nothing |
| `Combinators.RaceSteps` | layer2/fiber/src/abi/race.rs:36-76 | what a race leaves of its children, its turn and its preference |
| `Combinators.RaceFiber.PollWith` | layer2/fiber/src/abi/race.rs:36-76 | the in-place poll is the specified one; what it returns is `RaceReturns` |
| `Combinators.JoinSteps` | layer2/fiber/src/abi/join.rs:65-85 | both children are visited in order and the second continues the turn of the first; the sides alternate |
| `Combinators.JoinPolls` | layer2/fiber/src/abi/join.rs:65-85 | the child turned to first is polled if it runs, the other unless credit is short, and then it asks again; kept outputs stay |
| `Combinators.JoinIsFair` | layer2/fiber/src/abi/join.rs:65-85 | two polls in a row poll every child that is still running after them |
| `Combinators.JoinReturnsBoth` | layer2/fiber/src/abi/join.rs:65-85 | a join is ready exactly with the outputs its two children keep or give in the turn each is handed, left one first |
| `Combinators.StagedIsReturned` | layer2/fiber/src/abi/join.rs:65-85 | an output kept from an earlier poll is the one returned in the end, on its own side |
| `Combinators.JoinFiber.PollChild` | layer2/fiber/src/abi/join.rs:33-54 | only a running child is polled, on the join's credit the first time and on a new one after |
| `Combinators.JoinFiber.TakeBoth` | layer2/fiber/src/abi/join.rs:79-84 | both outputs are taken once both are there |
| `Combinators.JoinFiber.PollWith` | layer2/fiber/src/abi/join.rs:65-85 | the in-place poll is the specified one |
| `Combinators.SlotPolls` | layer2/fiber/src/task/storage/slots/raw.rs:47-110 | a staged output is kept and never polled; a live slot counts each poll |
| `Combinators.TaskReturns` | layer2/fiber/src/abi/task.rs:21-51 | a task returns what its fiber returns and is emptied by it; emptied it stays pending |
| `Combinators.LeafReturns` | layer2/fiber/src/context/mod.rs:216-248 | an elementary fiber spends what it asks for as far as credit goes, and asks to be polled again where that falls short |
| `Combinators.TaskFiber.PollWith` | layer2/fiber/src/abi/task.rs:21-51 | a completed task drops its fiber and stays pending |
| `Combinators.Context.TryContinue` | layer2/fiber/src/context/mod.rs:216-224 | one credit, or a request to be polled again |
| `FairSelection.OneFullCycle` | layer1/gen/src/work.rs:81-84 | the generated successors form one cycle through all slots |
| `FairSelection.NextInCycle` | layer1/gen/src/work.rs:81-84 | a successor is one step further in the cycle, or the start again after the last |
| `FairSelection.EverySlotIsReached` | layer1/gen/src/work.rs:81-84 | every slot is a definite number of steps, fewer than the slots, from any other |
| `FairSelection.Arbiter.Take` | layer1/runtime/src/executor/work.rs:28-32 | takes the current slot and advances once |
| `FairSelection.Arbiter.Find` | layer1/runtime/src/executor/work.rs:35-47 | the first ready slot from the cursor, each asked at most once in order, or none if none is ready |
| `FairSelection.Arbiter.Select` | layer1/runtime/src/executor/work.rs:50-54 | the same slot, with the cursor just behind it |
| `FairSelection.Arbiter.Admit` | layer1/runtime/src/executor/work.rs:57-78 | the first source that is not empty, each asked at most once in order; only an item moves the cursor |
| `FairSelection.Arbiter.Account` | layer1/runtime/src/executor/work.rs:80-82 | the cursor moves just behind the given slot |
| `FairSelection.Nearer` | layer1/runtime/src/executor/work.rs:28-54 | passing a ready slot over brings the cursor nearer to it |
| `FairSelection.ReadySlotIsChosen` | layer1/runtime/src/executor/work.rs:28-54 | in any run of choices a slot that stays ready is chosen within as many choices as there are slots |
| `RouteLease.OneRouteChanges` | layer0/core/src/driver/route/lease.rs:38-60 | setting or clearing a route's bit changes that route and no other |
| `RouteLease.AndMask` | layer0/core/src/driver/route/lease.rs:51-53 | the occupancy test reads exactly the route's bit |
| `RouteLease.Registry.TryReserve` | layer0/core/src/driver/route/lease.rs:48-60 | reserves a free route and refuses an occupied one |
| `RouteLease.Registry.Release` | layer0/core/src/driver/route/lease.rs:38-44 | frees one route |
| `RouteLease.Driver.TryReserve` | layer0/core/src/driver/route/lease.rs:133-139 | one step of the machine, refused exactly while the route is live |
| `RouteLease.Driver.Commit` | layer0/core/src/driver/route/lease.rs:202-204 | a reservation becomes an owner |
| `RouteLease.Driver.Free` | layer0/core/src/driver/route/lease.rs:111-114 | rollback, release and the drop of a reservation free the route at once |
| `RouteLease.Driver.Defer` | layer0/core/src/driver/route/lease.rs:71-77 | dropping a claim or an owner defers the route |
| `RouteLease.Driver.AdvanceTo` | layer0/core/src/driver/route/lease.rs:152-160 | the floor becomes the larger of two, or exhausted |
| `RouteLease.RunIsGood` | layer0/core/src/driver/route/lease.rs:31-217 | over any run a route is live exactly when one claim, deferred entry or popped retirement exists |
| `RouteLease.OneHolderPerRoute` | layer0/core/src/driver/route/lease.rs:31-217 | two holders of a route never coexist, and a reservation is refused exactly while one is left |
| `RouteLease.ReserveMeans` | layer0/core/src/driver/route/lease.rs:133-139 | a free route is reserved or claimed under a new handle, a live one refused |
| `RouteLease.HoldMeans` | layer0/core/src/driver/route/lease.rs:93-99 | a reservation becomes a claim or an owner, a claim an owner, with the same route |
| `RouteLease.GivingBackMeans` | layer0/core/src/driver/route/lease.rs:66-115 | dropping a reservation frees at once, dropping a claim or an owner only defers, rollback and release free |
| `RouteLease.FreedIsReservable` | layer0/core/src/driver/route/lease.rs:66-115 | what was freed can be reserved again, what was only deferred cannot |
| `RouteLease.AdvanceMeans` | layer0/core/src/driver/route/lease.rs:152-160 | the floor becomes the larger of the two, none if either is, and other floors stay |
| `RouteLease.FloorsNeverFall` | layer0/core/src/driver/route/lease.rs:152-160 | floors never fall and exhaustion is permanent |
| `RouteLease.IssuedStaysBelowFloor` | layer0/core/src/driver/route/lease.rs:152-160 | what an owner has issued binds every later holder |
| `RouteLease.Pending.Defer` | layer0/core/src/driver/route/queues.rs:61-64 | marks one more route |
| `RouteLease.Pending.Pop` | layer0/core/src/driver/route/queues.rs:66-75 | takes the first marked route from the cursor on and moves the cursor past it |
| `RouteLease.Driver.PopRetired` | layer0/core/src/driver/route/queues.rs:66-75 | one step of the machine, whichever route it takes |
| `RouteLease.PopComesNearer` | layer0/core/src/driver/route/queues.rs:66-75 | popping another route brings the cursor nearer to a waiting one |
| `RouteLease.PopMeans` | layer0/core/src/driver/route/queues.rs:66-75 | a pop hands out the nearest deferred route, still live, and moves the cursor behind it |
| `RouteLease.DeferredIsPoppedSoon` | layer0/core/src/driver/route/queues.rs:66-75 | a deferred route is popped before 256 pops have passed |

## Left out

- The linked list behind a queue is not shown in the repository; a queue holds its waiters as a sequence, so pointer surgery inside that list is not modelled. The tag bit in an endpoint pointer is a datatype.
- A turn's work budget is a count of credits; whether an empty attempt gives its credit back is a parameter, so both behaviours are covered. An index error of waiter tables belongs to `layer2/fiber/src/wait/slots.rs`, which is not part of this model.
- Hashing assumes a little-endian target with 64-bit sizes; on others the byte order conversions and the width of `write_usize` differ. Inputs longer than the address space do not exist, so lengths wrap at 64 bits only.
- Whether the hash is hard to predict is not a subject here; the round is tied to an inverse written out from its end, and published test values are not evaluated. Key derivation by domain is not part of this model.
- Decoding names from packets shares `Assemble`, which is proved for every label list; the packet cursor itself is not part of this model.
- A client cookie is kept as its eight bytes instead of the big-endian number they denote. Allocation epochs of a datagram, which do not reach the wire, are left out.
- Discovery: transport causes are one case with a flag for being terminal, civil timestamps are dropped, and binding addresses to the port is left out. A monotonic clock that starts at zero stands for the platform's; the one subtraction that could leave its range is modelled with both outcomes. Whether a service failure maps to a reason is a parameter.
- Sequences: the driver brand of an identity has no run-time behaviour.
- Lowering: patterns, types and items other than functions are generic nodes. Macro input carries its expressions in source order and the shape it reads as, instead of tokens to be parsed; input that would read as several shapes is given the one its macro expects. Spans and message texts are left out. A failed lowering discards the tree, so the half-rewritten tree is not described.
- Read-only accessors of the state machines (`kind`, `has_send`, `is_pending`, `progress`, `is_live`, `fd`, `established`) only read a phase and are left out.
- Terminal: produced output travels beside the state and is left out; an affine permission is the right to make the one call it allows.
- Arming: the readiness check before an accept that gives the loan back unused is an abandoned loan. What a flight answers to a cancellation, and whether it is still pending, are inputs.
- Connection setup: a creation and the descriptor it becomes are one socket, named by the ready handle both report. Closing a setup whose creation is still under way detaches the creation; its kernel side is not modelled.
- Route leases: the bitmap of deferred routes is not shown in the repository and is a set whose pop takes the first element from the cursor on, going around. Move semantics make handles exclusive; here a handle that was consumed simply no longer exists.
- Combinators: streams, and the inline requeue of fixed storage, are left out; a leaf fiber takes credits as its script says.
- Arbiter: readiness is asked once per slot and call, so the asking closure is a table of answers. `account` on its own is excluded from the fairness theorem, as it moves the cursor without a choice.
- The kernel backends, descriptors, memory mappings, signals and timers are foreign calls. Executor and topology wiring and the code generation of applications pass values on without deciding anything; settings, refresh policies and packed route tokens are lookups and bit fields that none of the protocols above depends on beyond the values they are given.
