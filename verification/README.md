# Verified model of the enum reflection engine and the coroutine network layer

This project models two parts of the library and proves properties of the models with Dafny.

**Enum reflection** (`src/Misc/MagicEnum.hpp`). An enum is a finite set of integers with
names; the machinery that the C++ compiler runs is modelled as ordinary functions, loops and
arrays over it. A signed or unsigned integer type is its range; machine words are bit
patterns with an explicit number of bits.

- `Bits`: binary numerals (shift, mask, or, and, logarithm).
- `EnumFuse`: `enum_fuse`, the packing of several values in one word.
- `EnumSwitch`: the hash switch: duplicate test, case labels, chain of 256-entry pages.
- `Crc32`: the string hash of the switch, against its bit-serial definition (section 8 of
  RFC 1952).
- `NameHashes`: the secondary string hash, and the lookup of names by both.
- `EnumFlags`: printing, parsing and casting of flag combinations.
- `EnumValues`: the value table, dense and sparse lookups, and `Timeouts`, which uses them as
  array indices.

**Tasks, events and the proxy** (`src/Coroutine`, `src/Network`). Every strand runs posted
closures in order, each up to its next suspension; steps of different strands come in any
order, and operations of the network end at any time and in any way. Each class is modelled
with its fields and methods; each method is proved against a step function on values, and the
properties are proved of that function over every run.

- `CoroutineTask`: the life of one task. `StopPropagation`: stops spreading over a graph of
  tasks, cyclic or not.
- `AwaitableEvent`: the latch. `AsyncProxyProvider`: responses matched to waiting requests.
- `ProxyDataSession`: two coupled relays. `SocketHandover`: `Socket` and `Session`, moving a
  live socket. `Proxy`: serving two sessions and linking the pair.
- `Client`: the reconnect loop.

`Wrappers` holds `Option`, `Sequences` the orders on sequences.

## Where the code falls short of what it promises

Each is proved with the exact condition under which the code is right, and with an input or a
run in which it is not.

- `enum_fuse` is documented as bijective. It is injective only for the counts that `Fusable`
  describes (`EnumFuse.FuseInjectiveIffFusable`); counts 5 and 2 collide
  (`EnumFuse.FiveByTwoCollides`).
- The hash switch over an enum compiles only if the type has room above the last value for all
  dead labels but one (`EnumSwitch.EnumSwitchCompilesIff`). Over a type of one byte that is:
  the last value, counted from the minimum of the type, is at most the number of values
  (`EnumSwitch.ByteSwitchCompilesIff`). Sparse enums and, for `enum_index`, all flags enums are
  switched on, so the unsigned flags 1, 2 and 4 do not compile, nor do 0 and 2 over a signed
  byte (`EnumSwitch.UnsignedByteFlagsDoNotCompile`, `EnumSwitch.SignedByteValuesDoNotCompile`).
- If both hashes repeat somewhere in a list, the switch misses a value that is in the list
  (`EnumSwitch.DispatchIsLinearSearchIff`, for names `NameHashes.NameLookupIsLinearSearchIff`).
  That takes more than one page. With 257 names, of which `codding` and `gnu` share their CRC
  and `altarage` and `zinke` their secondary hash, it happens: `zinke` is not found
  (`NameHashes.LastNameIsNotFound`).
- The range test of a dense flags enum accepts values that are no combination of flags, unless
  the lowest flag is bit 0 or the only one (`EnumFlags.DenseCastAgreesIff`); otherwise the value
  above the lowest flag is one (`EnumFlags.StrayValueAccepted`).
- A response handed to a request that was canceled before, or whose start then fails, is lost
  (`AsyncProxyProvider.DeliveredUnlessCanceledFirst`, with one run for each way,
  `AsyncProxyProvider.SessionBeforeFailedStartIsLost` and
  `AsyncProxyProvider.SessionAfterCancellationIsLost`).
- The pair of relays closes its sockets only if one side sees the other's notice before it
  leaves (`ProxyDataSession.ExactlyOneClosesIffNoticedInTime`); the notices may cross
  (`ProxyDataSession.NoticesMayCross`).
- A close that was bound to a socket before the socket was handed over still closes it
  (`SocketHandover.OldSessionClosesIffBoundBefore`, `SocketHandover.OldSessionCanCloseMovedSocket`).
- When a proxy fails after it switched a session's auto-close off, nothing closes that session's
  connection through `co_close`; only its destruction ends it. For the first session that is
  every failure but one while getting the second session
  (`Proxy.FailureLeavesFirstOpenIff`), for the second session a failure while it is served
  (`Proxy.FailureLeavesSecondOpenIff`). It happens from two new sessions, at either stage
  (`Proxy.FailuresHappen`).

## Model

| member | source | states |
|---|---|---|
| Bits.Log2Brackets | src/Misc/MagicEnum.hpp:350-358 | the shift-counting logarithm is the exponent of the largest power of two not above the value |
| EnumFuse.FuseDefinedIffAllKnown | src/Misc/MagicEnum.hpp:1235-1253 | a fused word exists exactly when every argument is a declared value |
| EnumFuse.FuseIsFused | src/Misc/MagicEnum.hpp:1235-1253 | on declared values the optional chain of folds gives the plain fused word |
| EnumFuse.WordBits | src/Misc/MagicEnum.hpp:1235-1253 | a bit of the word is set if and only if it is a bit of some argument's index, shifted by the widths of the arguments before it and within the word |
| EnumFuse.TightExactly | src/Misc/MagicEnum.hpp:1235-1243 | an argument fits the bits reserved for it exactly when its count is a power of two or one below |
| EnumFuse.DefuseFused | src/Misc/MagicEnum.hpp:1235-1253 | round trip: the indices are read back from the fused word, which stays in the reserved bits, where neighbours do not overlap |
| EnumFuse.FuseInjectiveIffFusable | src/Misc/MagicEnum.hpp:1267-1279 | under the static assertions the word tells all tuples apart if and only if an enum is empty or the counts are fusable |
| EnumFuse.TightFuseFits | src/Misc/MagicEnum.hpp:1272 | for counts that fit their bits the word never outgrows the sum the assertion bounds, hence the machine word |
| EnumFuse.FiveByTwoCollides | src/Misc/MagicEnum.hpp:1267-1279 | counts 5 and 2 pass the assertions and two different pairs get the same word |
| EnumFuse.OverlapAnywhereCollides | src/Misc/MagicEnum.hpp:1235-1253 | one overflowing argument next to an enum of two or more values, anywhere, makes two tuples collide |
| EnumFuse.TruncationCollides | src/Misc/MagicEnum.hpp:1235-1253 | an overflowing last argument of a full word is cut off and collides with the zero tuple |
| EnumSwitch.Sink | src/Misc/MagicEnum.hpp:785-797 | the inner loop inserts the new hash into the sorted ones, keeping them sorted and the same elements, and gives up exactly when it was there |
| EnumSwitch.NoDuplicate | src/Misc/MagicEnum.hpp:778-799 | the insertion sort answers yes if and only if all hashes are pairwise different, for lists of any length |
| EnumSwitch.FillLive | src/Misc/MagicEnum.hpp:737-743 | the first labels of a page are the hashes of its values |
| EnumSwitch.FillUpwards | src/Misc/MagicEnum.hpp:745-747 | dead labels count up from the last live one until the page or the type ends |
| EnumSwitch.WrapAround | src/Misc/MagicEnum.hpp:749-754 | every slot left gets the same value, the first one from the minimum that the labels skip |
| EnumSwitch.CalculateCases | src/Misc/MagicEnum.hpp:730-757 | the three loops together give the page's label table that the switch results are proved about |
| EnumSwitch.LabelsDistinctIff | src/Misc/MagicEnum.hpp:730-757 | for any page, ordered or not, the 256 labels are pairwise distinct if and only if the hashes differ, none lies among the dead labels above the last, and the wrap-around loop has nothing to fill, or one slot and a new value for it |
| EnumSwitch.AscendingLabelsDistinctIff | src/Misc/MagicEnum.hpp:739-756 | on a strictly ascending page that comes down to at most one slot left to the wrap-around loop |
| EnumSwitch.DeadCaseMisses | src/Misc/MagicEnum.hpp:810-830 | jumping to a dead label falls through to the default result |
| EnumSwitch.CasesOfHash | src/Misc/MagicEnum.hpp:848-851 | where labels differ, a hash on the page meets its own live case, and other hashes meet dead cases of the last page only |
| EnumSwitch.SwitchFollowsFirstHash | src/Misc/MagicEnum.hpp:833-859 | over all pages the first value with the searched hash decides alone; the caller's predicate counts on the first page only |
| EnumSwitch.SwitchIsLinearSearchIff | src/Misc/MagicEnum.hpp:833-859 | for a list of any length the switch is linear search if and only if no two different values share the hash |
| EnumSwitch.OnePageSwitchIsLinearSearch | src/Misc/MagicEnum.hpp:833-859 | a list of at most 256 values needs no condition but that the switch compiles |
| EnumSwitch.DispatchIsLinearSearchIff | src/Misc/MagicEnum.hpp:845-859 | with the fallback to the secondary hash the search is right if and only if one of the two hashes repeats nowhere |
| EnumSwitch.PageOfAscending | src/Misc/MagicEnum.hpp:730-757 | of an ascending enum every full page has distinct labels, the last one if and only if there is room above |
| EnumSwitch.EnumSwitchCompilesIff | src/Misc/MagicEnum.hpp:739-756 | the switch over an ascending enum compiles if and only if the type has room above the last value for the dead labels but one |
| EnumSwitch.ByteSwitchCompilesIff | src/Misc/MagicEnum.hpp:739-756 | over a one-byte type the switch compiles if and only if the last value, counted from the minimum, is at most the number of values |
| EnumSwitch.TwoByteValuesDoNotCompile | src/Misc/MagicEnum.hpp:749-754 | the enum of 1 and 255 in an unsigned byte does not compile |
| EnumSwitch.UnsignedByteFlagsDoNotCompile | src/Misc/MagicEnum.hpp:749-754 | nor do the flags 1, 2 and 4 |
| EnumSwitch.SignedByteValuesDoNotCompile | src/Misc/MagicEnum.hpp:749-754 | nor 0 and 2 in a signed byte |
| Crc32.TableEntry | src/Misc/MagicEnum.hpp:674-707 | each of the 256 table constants is eight shift-and-feedback steps on its index |
| Crc32.StepLinear | src/Misc/MagicEnum.hpp:708-714 | one bit-serial step distributes over exclusive or |
| Crc32.EightStepsAreOneLookup | src/Misc/MagicEnum.hpp:708-714 | on every 32-bit word eight steps equal one shift by a byte and one table lookup |
| Crc32.LookupFeedsByte | src/Misc/MagicEnum.hpp:710-712 | one turn of the loop feeds the eight bits of the character, signed or unsigned |
| Crc32.Hash | src/Misc/MagicEnum.hpp:708-714 | the hash of every byte string is its bit-serial CRC-32 |
| Crc32.CrcOfNothing | src/Misc/MagicEnum.hpp:708-714 | the code of the empty string is zero |
| Crc32.CheckValue | src/Misc/MagicEnum.hpp:708-714 | the code of the digits 1 to 9 is the check value of CRC-32, 0xcbf43926 |
| Crc32.CodeLeavesResidue | src/Misc/MagicEnum.hpp:708-714 | a message followed by its code, low byte first, leaves the same register, whatever the message |
| NameHashes.SecondaryHash | src/Misc/MagicEnum.hpp:716-725 | the loop folds the characters in from the first to the last, each by an exclusive or and a product masked to 32 bits |
| NameHashes.WidenIsCast | src/Misc/MagicEnum.hpp:720 | a signed character from 128 up enters the 64-bit product less 256, any other as itself |
| NameHashes.NameLookupIsLinearSearchIff | src/Misc/MagicEnum.hpp:1128-1137 | the lookup of a name, where it compiles, is linear search if and only if the CRC or the secondary hash repeats nowhere on the list |
| NameHashes.CrcRepeats | src/Misc/MagicEnum.hpp:708-714 | two different names have the same CRC |
| NameHashes.SecondaryHashes | src/Misc/MagicEnum.hpp:716-725 | on the list of 257 names the secondary hash differs on the first page and repeats on the second |
| NameHashes.LastNameIsNotFound | src/Misc/MagicEnum.hpp:1128-1137 | that list compiles and its last name is not found, whether characters are signed or not |
| EnumFlags.GatheredAllIffCombination | src/Misc/MagicEnum.hpp:1015-1031 | the flags found make up the whole value, and not nothing, if and only if the value is a non-zero OR of declared flags |
| EnumFlags.CastSparse | src/Misc/MagicEnum.hpp:1061-1073 | the sparse cast accepts exactly the non-zero ORs of declared flags |
| EnumFlags.ValuesOrs | src/Misc/MagicEnum.hpp:610-620 | the loop gives the OR of all flags, the upper bound of the dense cast |
| EnumFlags.DenseCastAgreesIff | src/Misc/MagicEnum.hpp:1080-1087 | for consecutive flags the range test accepts exactly the combinations if and only if the lowest flag is bit 0 or the only one |
| EnumFlags.StrayValueAccepted | src/Misc/MagicEnum.hpp:1080-1087 | with more than one flag and none at bit 0 the range test accepts the lowest flag plus one, which is no combination |
| EnumFlags.FlagsName | src/Misc/MagicEnum.hpp:1010-1033 | the printer gives the printed form of a combination, and the empty string for any other value |
| EnumFlags.PrintedIsJoin | src/Misc/MagicEnum.hpp:1015-1027 | with non-empty names the printed form is the names of the value's flags joined by bars |
| EnumFlags.PrintedIffCombination | src/Misc/MagicEnum.hpp:1029-1033 | with non-empty names a value prints as something if and only if it is a non-zero OR of declared flags |
| EnumFlags.FindFlag | src/Misc/MagicEnum.hpp:1109-1116 | the inner loop finds the first flag the token names, or nothing |
| EnumFlags.CastString | src/Misc/MagicEnum.hpp:1104-1126 | the loop over the bars gives the parse that the round trips are proved about |
| EnumFlags.ParseSucceedsIff | src/Misc/MagicEnum.hpp:1104-1126 | a string is accepted if and only if it is not empty and every token names a flag; a bar at the end is ignored |
| EnumFlags.ParsedBits | src/Misc/MagicEnum.hpp:1104-1126 | an accepted value is not zero and has exactly the bits of the flags named |
| EnumFlags.RespelledParsesTheSame | src/Misc/MagicEnum.hpp:1104-1126 | under any equivalence of characters, such as ignoring case, every respelling of a text with the bars in place parses to the same |
| EnumFlags.PrintThenParse | src/Misc/MagicEnum.hpp:1104-1126 | printing a combination and parsing the text gives the value back, for any reflexive comparison |
| EnumFlags.ParseThenPrint | src/Misc/MagicEnum.hpp:1010-1033 | every accepted string, with repeats, any order or a bar at the end, gives a combination whose printed form parses back to it |
| EnumFlags.RoundTripsIffReadable | src/Misc/MagicEnum.hpp:1010-1033 | the round trip holds for every combination if and only if the names are non-empty, distinct and free of the bar |
| EnumValues.ValuesCount | src/Misc/MagicEnum.hpp:481-490 | the count is the number of valid candidates |
| EnumValues.Values | src/Misc/MagicEnum.hpp:492-511 | the scan fills the table and stops inside the range of candidates |
| EnumValues.TableExact | src/Misc/MagicEnum.hpp:492-511 | the table holds exactly the valid values, strictly ascending |
| EnumValues.TableEntries | src/Misc/MagicEnum.hpp:497-506 | an entry of a flags table is two to the power of its place, of another table the minimum plus its place |
| EnumValues.DenseIffConsecutive | src/Misc/MagicEnum.hpp:597-605 | an enum is not sparse if and only if its valid candidates are consecutive |
| EnumValues.EnumValueIsTable | src/Misc/MagicEnum.hpp:929-941 | the arithmetic shortcut of a dense enum is the table lookup |
| EnumValues.LookupsAreSearch | src/Misc/MagicEnum.hpp:966-985 | dense or sparse, the index is what linear search finds, and the integer cast of a non-flags enum accepts exactly the table's values |
| EnumValues.IndexAndValueAreInverse | src/Misc/MagicEnum.hpp:929-985 | index and value undo each other, both ways |
| EnumValues.CastFlags | src/Misc/MagicEnum.hpp:1054-1089 | the flags cast is the range test where the flags are consecutive and the exact test elsewhere |
| EnumValues.DenseFlagsCastExactIff | src/Misc/MagicEnum.hpp:1080-1087 | the range test of a dense flags enum is exact if and only if its lowest value is 1 or its only one |
| EnumValues.PowerOfTwoIff | src/Misc/MagicEnum.hpp:544 | a positive number shares no bit with its predecessor if and only if it is a power of two |
| EnumValues.IsFlagsEnum | src/Misc/MagicEnum.hpp:525-551 | an enum counts as flags if and only if it has flag values, no more plain ones than those, and all plain ones are zero or powers of two |
| EnumValues.Timeouts.constructor | src/Misc/Timeouts.hpp:35 | no timeout is set at first |
| EnumValues.PrettyName | src/Misc/MagicEnum.hpp:229-253 | the name is the longest tail of name characters if that starts like a name, else empty; it is of name characters only and never holds a bar |
| EnumValues.NameCharacters | src/Misc/MagicEnum.hpp:230-250 | names are of ASCII letters, digits and underscores, and do not start with a digit |
| EnumValues.Timeouts.SetTimeout | src/Misc/Timeouts.hpp:18-24 | setting one timeout changes that one and no other |
| EnumValues.Timeouts.GetTimeout | src/Misc/Timeouts.hpp:14-16 | reading gives the duration kept for that value |
| CoroutineTask.Task.constructor | src/Coroutine/CoroutineTask.hpp:14-15 | a new task is in its initial state with nothing posted |
| CoroutineTask.Task.PostClosure | src/Coroutine/CoroutineTask.hpp:22-37 | a start or a stop is appended to the strand's queue |
| CoroutineTask.Task.ExecuteNext | src/Coroutine/CoroutineTask.hpp:33-43 | the head of the queue runs: a start throws exactly if the task is not initial, a second stop does nothing |
| CoroutineTask.Task.FinishRun | src/Coroutine/CoroutineTask.hpp:84-107 | the end of `run()` posts a stop if canceled, on no other exception, and marks the task done unless stopped |
| CoroutineTask.Task.FinishOnStop | src/Coroutine/CoroutineTask.hpp:44-50 | after `onStop()` the cancellation is emitted exactly if the task was ever started, and the stop signal fires |
| CoroutineTask.StepKeepsGood | src/Coroutine/CoroutineTask.hpp:33-107 | every step keeps the counts of entries, stops and signals in step with the state, and none leaves the stopped state |
| CoroutineTask.LifecycleOverAllRuns | src/Coroutine/CoroutineTask.hpp:33-107 | in every run `run()` is entered at most once, `onStop()` is called once if and only if the task is stopped, and the signal fires once after it |
| CoroutineTask.StoppedIsForever | src/Coroutine/CoroutineTask.hpp:38-42 | a stopped task stays stopped, against its exit guard too, and never enters `run()` again |
| CoroutineTask.DrainedStateIsHistory | src/Coroutine/CoroutineTask.hpp:33-107 | in every run that leaves nothing to run the state is decided by the history: stopped if and only if a stop was posted or `run()` ended canceled; else initial, running or done by what was posted first and whether `run()` ended |
| CoroutineTask.CanceledRunEndsStopped | src/Coroutine/CoroutineTask.hpp:96-107 | a run that ends canceled leaves the task stopped with `onStop()` called exactly once, when the strand is drained |
| CoroutineTask.CanceledPassesThroughDone | src/Coroutine/CoroutineTask.hpp:84-107 | before that it may be seen as done |
| StopPropagation.BeginKeeps | src/Network/Session/Proxy/ProxyDataSession.cpp:29-38 | starting one stop neither stops without a reason nor loses one |
| StopPropagation.FinishKeeps | src/Coroutine/CoroutineTask.hpp:70-73 | nor does firing the slots that `registerStop` connected |
| StopPropagation.RunOne | src/Coroutine/CoroutineTask.hpp:33-50 | any pending job may run next, and each shrinks the measure: tasks not stopped, then jobs pending |
| StopPropagation.Drain | src/Coroutine/CoroutineTask.hpp:33-52 | on every graph and in every order draining ends, with exactly the tasks stopped that were before or are reached by a chain of stops, each called back exactly once |
| StopPropagation.DrainedIsReached | src/Network/Server.cpp:31-52 | once nothing is pending the stopped tasks are the reached ones, whatever order led there |
| AwaitableEvent.AwaitableEvent.constructor | src/Coroutine/AwaitableEvent.cpp:8-10 | a new event is not set and has no operation |
| AwaitableEvent.AwaitableEvent.Finalize | src/Coroutine/AwaitableEvent.cpp:60-72 | an operation is unlinked and its handler posted, unless it was finalized before |
| AwaitableEvent.AwaitableEvent.SetEvent | src/Coroutine/AwaitableEvent.cpp:21-28 | the event is set and the waiters finalized from the front of the list |
| AwaitableEvent.AwaitableEvent.CoWait | src/Coroutine/AwaitableEvent.cpp:30-49 | a wait completes at once on a set event, and is linked and made cancellable on another |
| AwaitableEvent.AwaitableEvent.CancelSlot | src/Coroutine/AwaitableEvent.cpp:41-44 | a cancellation finalizes an operation that was linked |
| AwaitableEvent.ClearedPostsAll | src/Coroutine/AwaitableEvent.cpp:25-27 | setting posts every waiter with success, in list order, and leaves none linked |
| AwaitableEvent.AlwaysConsistent | src/Coroutine/AwaitableEvent.cpp:21-72 | after every history each operation is linked, finalized and posted exactly as the history decided |
| AwaitableEvent.LatchOverAllInterleavings | src/Coroutine/AwaitableEvent.cpp:21-72 | in every interleaving each handler is posted at most once, with success if and only if the set came first, canceled if and only if a cancellation did; linked is waiting undecided |
| AwaitableEvent.SetIsNotLost | src/Coroutine/AwaitableEvent.cpp:36-38 | after a set no waiter is linked and a later wait completes with success |
| AwaitableEvent.SuccessesComeInWaitOrder | src/Coroutine/AwaitableEvent.cpp:25-39 | operations succeed in the order in which they began to wait, before the set or after it |
| AsyncProxyProvider.AsyncProxyProvider.constructor | src/Network/Session/Proxy/AsyncProxyProvider.cpp:9-11 | a new provider has no requests |
| AsyncProxyProvider.AsyncProxyProvider.GetStarts | src/Network/Session/Proxy/AsyncProxyProvider.cpp:38-53 | a request joins the back of its class's queue |
| AsyncProxyProvider.AsyncProxyProvider.Leave | src/Network/Session/Proxy/AsyncProxyProvider.cpp:48 | leaving `get` destroys the request, which unlinks itself |
| AsyncProxyProvider.AsyncProxyProvider.StartFinished | src/Network/Session/Proxy/AsyncProxyProvider.cpp:57-63 | the start's answer leads on to the wait, or out with an unreachable host |
| AsyncProxyProvider.AsyncProxyProvider.StartThrew | src/Network/Session/Proxy/AsyncProxyProvider.cpp:57 | a start that throws ends the request |
| AsyncProxyProvider.AsyncProxyProvider.AsyncResponse | src/Network/Session/Proxy/AsyncProxyProvider.cpp:16-35 | a response is handed to the head of its class's queue, or dropped if that is empty |
| AsyncProxyProvider.AsyncProxyProvider.CancelWaiting | src/Network/Session/Proxy/AsyncProxyProvider.cpp:63 | a cancellation reaches the request's event |
| AsyncProxyProvider.AsyncProxyProvider.HandlerRuns | src/Network/Session/Proxy/AsyncProxyProvider.cpp:63-71 | the end of the wait gives the session, an unreachable host for a null one, or the cancellation |
| AsyncProxyProvider.RunKeepsGood | src/Network/Session/Proxy/AsyncProxyProvider.cpp:16-73 | every run keeps the queues to exactly the linked requests, oldest first, and the record of matches to the requests |
| AsyncProxyProvider.ResponseGoesToOldest | src/Network/Session/Proxy/AsyncProxyProvider.cpp:26-33 | in every reachable state a response goes to the oldest linked request of its class, and is dropped only if there is none |
| AsyncProxyProvider.EveryResponseIsRecorded | src/Network/Session/Proxy/AsyncProxyProvider.cpp:16-35 | the record of matches holds every response of a run once, in order |
| AsyncProxyProvider.MatchingIsConservative | src/Network/Session/Proxy/AsyncProxyProvider.cpp:16-73 | no request gets two responses, a request returns only a session handed to it, and no session is returned to two requests if the responses of the run bring different ones |
| AsyncProxyProvider.DeliveredUnlessCanceledFirst | src/Network/Session/Proxy/AsyncProxyProvider.cpp:57-71 | a session handed over is returned if and only if the wait began and was not canceled before it came |
| AsyncProxyProvider.RequestsAreCalls | src/Network/Session/Proxy/AsyncProxyProvider.cpp:38-53 | in every run the requests are the calls of `get`, in order and each with its class |
| AsyncProxyProvider.ResultIsDecided | src/Network/Session/Proxy/AsyncProxyProvider.cpp:57-71 | every `get` ends unreachable if its start was refused, with the start's exception if that threw, and after its wait canceled, unreachable for a null response or with the session, by what came first |
| AsyncProxyProvider.SessionBeforeFailedStartIsLost | src/Network/Session/Proxy/AsyncProxyProvider.cpp:57-60 | in some run a session comes before the start fails, and is lost |
| AsyncProxyProvider.SessionAfterCancellationIsLost | src/Network/Session/Proxy/AsyncProxyProvider.cpp:63 | in some run a session comes between the cancellation of a wait and its end, and is lost |
| ProxyDataSession.ProxyDataSession.constructor | src/Network/Session/Proxy/ProxyDataSession.cpp:9-19 | a new relay is not done, not coupled, and last read |
| ProxyDataSession.ProxyDataSession.Leave | src/Network/Session/Proxy/ProxyDataSession.cpp:68-81 | leaving the loop closes both sockets if the other's notice was seen, and sends a notice otherwise |
| ProxyDataSession.ProxyDataSession.LoopTest | src/Network/Session/Proxy/ProxyDataSession.cpp:83-86 | the loop goes on exactly while the task is running and the other is not known to be done |
| ProxyDataSession.ProxyDataSession.StartRun | src/Network/Session/Session.cpp:66-77 | the started task goes on to start its socket |
| ProxyDataSession.ProxyDataSession.OnConnectError | src/Network/Session/Session.cpp:75-82 | a socket that does not start ends the session before the relay, without a notice |
| ProxyDataSession.ProxyDataSession.EnterWork | src/Network/Session/Proxy/ProxyDataSession.cpp:59-86 | entering `work` leads to the first read, or straight out if the task was stopped meanwhile or the other is done |
| ProxyDataSession.ProxyDataSession.OnRead | src/Network/Session/Proxy/ProxyDataSession.cpp:86-89 | what was read is the chunk being written to the other socket |
| ProxyDataSession.ProxyDataSession.OnReadError | src/Network/Session/Proxy/ProxyDataSession.cpp:86 | a failed read leaves the loop in the reading state |
| ProxyDataSession.ProxyDataSession.OnWritten | src/Network/Session/Proxy/ProxyDataSession.cpp:83-90 | a finished write adds the chunk to the other's output and tests the loop |
| ProxyDataSession.ProxyDataSession.OnWriteError | src/Network/Session/Proxy/ProxyDataSession.cpp:89 | a failed write leaves the loop with part of the chunk written |
| ProxyDataSession.ProxyDataSession.ExecuteNext | src/Network/Session/Proxy/ProxyDataSession.cpp:29-57 | a notice marks the other as done, and stops this side if the other failed in reading; a stop is passed on once |
| ProxyDataSession.RunKeepsGood | src/Network/Session/Proxy/ProxyDataSession.cpp:29-93 | every run keeps one notice on its way or seen for each side that left without closing, and the bytes conserved |
| ProxyDataSession.ClosedOnlyAfterBothLoops | src/Network/Session/Proxy/ProxyDataSession.cpp:68-81 | in every reachable state the sockets were closed by the pair only if both loops have ended, and by one side at most |
| ProxyDataSession.ExactlyOneClosesIffNoticedInTime | src/Network/Session/Proxy/ProxyDataSession.cpp:40-81 | in every reachable state exactly one side has closed the sockets if and only if one of them saw the other's notice before it left, and neither has otherwise |
| ProxyDataSession.NoticesMayCross | src/Network/Session/Proxy/ProxyDataSession.cpp:68-81 | there is a run in which the notices cross and neither side closes |
| ProxyDataSession.OutputIsPrefixOfInput | src/Network/Session/Proxy/ProxyDataSession.cpp:83-90 | at every time what was written is a prefix of what was read, short only of the chunk on its way |
| ProxyDataSession.StopReachesBoth | src/Network/Session/Proxy/ProxyDataSession.cpp:29-38 | when the strands are drained both sides are stopped or neither is |
| ProxyDataSession.StoppedExactlyForAReason | src/Network/Session/Proxy/ProxyDataSession.cpp:40-57 | when the strands are drained a side is stopped if and only if a stop or a cancellation came from outside or a loop that did not close ended in a read; an end in a write stops nobody |
| ProxyDataSession.NoticesArrive | src/Network/Session/Proxy/ProxyDataSession.cpp:68-81 | when the strands are drained a side knows the other is done if and only if that left its loop without closing |
| ProxyDataSession.BytesAreHistory | src/Network/Session/Proxy/ProxyDataSession.cpp:83-90 | in every run a side's input is its completed reads, and the other's socket got all of it but what is being written or a failed write left over |
| ProxyDataSession.LoopEndsForAReason | src/Network/Session/Proxy/ProxyDataSession.cpp:83 | a loop that ends without a failed operation ends because its side is stopped or the other is done |
| ProxyDataSession.NoReadBeginsAfterStop | src/Network/Session/Proxy/ProxyDataSession.cpp:83-86 | after a stop or a notice the read in progress completes at most, and no other begins |
| ProxyDataSession.RelayIsATask | src/Coroutine/CoroutineTask.hpp:33-108 | in every run each side's task is where some run of a task is, so what holds of all tasks holds of relays |
| SocketHandover.Socket.constructor | src/Network/Socket/Socket.cpp:3-6 | a new socket is neither started nor closed |
| SocketHandover.Socket.CoStart | src/Network/Socket/Socket.cpp:11-17 | the virtual start is called exactly from the initial state |
| SocketHandover.Socket.CoClose | src/Network/Socket/Socket.cpp:19-26 | the virtual close is called exactly from the started state |
| SocketHandover.Session.constructor | src/Network/Session/Session.cpp:16-26 | a new session owns the socket given and closes it by itself |
| SocketHandover.Session.ReleaseSocket | src/Network/Session/Session.cpp:32-36 | the socket is handed out and replaced by a new one |
| SocketHandover.Session.MutateTo | src/Network/Session/Session.hpp:32-36 | the new session is on the old one's socket, the old one on a new socket and otherwise as it was |
| SocketHandover.Session.CoStart | src/Coroutine/CoroutineTask.hpp:22-27 | starting posts a closure and begins nothing yet |
| SocketHandover.Session.ExecuteStart | src/Coroutine/CoroutineTask.hpp:76-93 | that closure begins `run()` the first time and throws later |
| SocketHandover.Session.Close | src/Network/Session/Session.cpp:87-97 | closing posts a closure and touches no socket yet |
| SocketHandover.Session.ExecuteClose | src/Network/Session/Session.cpp:88-90 | that closure closes the socket the session owns when it runs |
| SocketHandover.Session.Leave | src/Network/Session/Session.cpp:69-73 | the end of `run()` posts a close exactly if auto-close is on |
| SocketHandover.Session.AfterPrepare | src/Network/Session/Session.cpp:75-77 | after a successful `prepare()` the start is bound to the socket owned now |
| SocketHandover.Session.AfterStart | src/Network/Session/Session.cpp:77-82 | a start that succeeded leads to `work()`, one that failed or timed out to the end |
| SocketHandover.StepKeepsNoneShared | src/Network/Session/Session.hpp:32-36 | no step makes two sessions own one socket |
| SocketHandover.StepKeepsOrderly | src/Network/Socket/Socket.cpp:11-26 | every step keeps starts and closes in step with the socket's state |
| SocketHandover.SocketsOverAllRuns | src/Network/Socket/Socket.cpp:11-26 | in every reachable state no two sessions own one socket, and each socket was started at most once, closed at most once, and closed only after it was started |
| SocketHandover.EndedIsForever | src/Network/Session/Session.cpp:66-85 | once its `run()` is over a session never runs again |
| SocketHandover.OnlyPreparedIsStarted | src/Network/Session/Session.cpp:75-77 | no socket is started in a run in which no session's `prepare()` succeeds |
| SocketHandover.ClosuresAreUsedUp | src/Network/Session/Session.cpp:69-97 | in every run each start and each close posted runs once, the exit guard adds one close at most, and each call bound begins or is dropped once |
| SocketHandover.MutateMovesTheSocket | src/Network/Session/Session.cpp:32-36 | moving a socket changes no other session, socket or call, and of the old session only what it owns |
| SocketHandover.RunKeepsCutOff | src/Network/Session/Session.cpp:87-97 | a session that neither owns a socket nor has a close bound to it never closes it, in any run |
| SocketHandover.OldSessionClosesIffBoundBefore | src/Network/Session/Session.cpp:32-36 | after a hand-over some run has the old session close the moved socket if and only if a close of it had been bound before |
| SocketHandover.OldSessionCanCloseMovedSocket | src/Network/Session/Session.cpp:87-97 | in some run from no sessions the old session closes the socket after it was moved |
| Proxy.ServedStays | src/Network/Session/Session.cpp:66-85 | a session with auto-close off that nobody else handles keeps its socket, started once it is past its start, and nothing waits to close it |
| Proxy.OwnsStays | src/Network/Session/Session.cpp:32-36 | a relay keeps its started socket, and no other session closes it |
| Proxy.LinkKeepsKept | src/Network/Session/Proxy/Proxy.cpp:43-48 | moving both sockets and linking the relays makes each relay the owner of one started connection |
| Proxy.LinkStartsBoth | src/Network/Session/Proxy/Proxy.cpp:43-50 | both relays come with auto-close off and a start posted |
| Proxy.LinkedPairOwnsConnections | src/Network/Session/Proxy/Proxy.cpp:33-51 | whenever the pair is linked and ever after, each relay owns the connection one of the sessions came with, started once and closed by no one else, and the links are mutual |
| Proxy.UntouchedClosesIff | src/Network/Session/Session.cpp:66-97 | a session nobody started yet can still close its socket, in some run, if and only if its auto-close is on |
| Proxy.EveryEndCloses | src/Network/Session/Session.cpp:69-73 | however `run()` ends, in a failed `prepare()`, start or `work()` or in success, a session with auto-close on can close its started socket then |
| Proxy.EndClosesIff | src/Network/Session/Session.cpp:69-73 | and with no other close on its way if and only if auto-close is on |
| Proxy.CloseRequestCloses | src/Network/Session/Session.cpp:87-97 | a session asked to close its started socket can |
| Proxy.ConnectedCloses | src/Network/Session/Session.cpp:16-26 | a session that just connected can close its socket when it is over |
| Proxy.RearmedClosesIff | src/Network/Session/Session.cpp:38-40 | what auto-close was switched to last, on or off, decides |
| Proxy.FailsExactly | src/Network/Session/Proxy/Proxy.cpp:33-41 | a proxy fails if and only if it gets no second session, a session's work fails or times out, or one it starts was started before |
| Proxy.LinksExactly | src/Network/Session/Proxy/Proxy.cpp:33-51 | it links if and only if two awaited works succeeded, one after the other |
| Proxy.LinkedSessionsWorked | src/Network/Session/Proxy/Proxy.cpp:38-43 | a pair is linked only after the `work()` of both sessions ended in success |
| Proxy.FailureLeavesFirstOpenIff | src/Network/Session/Proxy/Proxy.cpp:33-41 | whatever fails the proxy, some later run closes the first connection if and only if the proxy was still getting the second session and the first came with auto-close on |
| Proxy.FailureLeavesSecondOpenIff | src/Network/Session/Proxy/Proxy.cpp:37-42 | some later run closes the second connection if and only if the proxy failed while serving the first and the second came with auto-close on |
| Proxy.OpenConnectionStaysOpen | src/Network/Session/Proxy/Proxy.cpp:35-41 | a connection started when the proxy fails stays open in every later run |
| Proxy.FailuresHappen | src/Network/Session/Proxy/Proxy.cpp:35-41 | from two sessions that just connected, runs fail while the first is served and while the second is, with the first connection open for good |
| Proxy.EveryProxyCanLink | src/Network/Session/Proxy/Proxy.cpp:33-51 | from every beginning, with any session not yet started as the second, some run serves the first, some comes to the second, and some links a pair |
| Proxy.Proxy.constructor | src/Network/Session/Proxy/Proxy.cpp:14-23 | a new proxy holds its first session and no second |
| Proxy.Proxy.OnSession | src/Network/Session/Proxy/Proxy.cpp:35-38 | the first session is started with its auto-close off |
| Proxy.Proxy.OnFirstServed | src/Network/Session/Proxy/Proxy.cpp:40-41 | and so is the second |
| Proxy.Proxy.HandOver | src/Network/Session/Proxy/Proxy.cpp:43-50 | the two relays are on the two sockets, linked to each other, auto-close off and started; the old sessions are on new sockets and let go |
| Client.Client.constructor | src/Network/Client.cpp:19-28 | a new client has no session |
| Client.Client.ServeManaged | src/Network/Client.cpp:90-111 | one managed session is announced while connected, and completed while not, however it ends |
| Client.Client.TakeTurn | src/Network/Client.cpp:51-127 | one turn of the loop emits and ends as its connect, session and wait say |
| Client.Client.Run | src/Network/Client.cpp:47-132 | the loop over any attempts emits and ends as the turns one after another do, up to the first that ends |
| Client.ManagedTraceBrackets | src/Network/Client.cpp:90-126 | in every managed run the two signals strictly alternate with matching sessions, each runs once in between and is completed, `connected()` is true exactly there, and there is a wait between two connects |
| Client.ManagedEndsOnlyWhenStopped | src/Network/Client.cpp:62-131 | a managed client never returns a session, announces one per connection, and makes attempts up to exactly the first in which something was canceled or the wait failed: it ends canceled in the first case, with an error in the other |
| Client.UnmanagedMakesOneAttempt | src/Network/Client.cpp:62-117 | an unmanaged client makes one attempt: it returns the session it announced if it connects, and ends canceled or with the error if not |

## Left out

- Compiler strings and templates: names and sets of valid values are parameters; the
  workarounds for old compilers, non-ASCII names and enums over `bool` are not modelled.
- Overflow in `is_sparse` and of `v - 1` on the minimum of a signed type: the scan range of an
  enum keeps values away from it.
- Printing and parsing of enums that are not flags, `enum_contains`, `enum_for_each`, names of
  types and stream operators: thin wrappers over the lookups modelled.
- EnumSwitch.Switch: gives the position found; that the lambda is then called with that
  constant is not modelled.
- EnumValues.LookupsAreSearch: assumes that the switch compiles where it is used, the
  condition of `EnumSwitch.EnumSwitchCompilesIff`.
- StopPropagation.Drain: a strand's order is contained in the arbitrary order of pending jobs;
  a stop that a cancellation causes in a nested task is one more request; the graph does not
  change while it drains, so a session that a server registers after its stop signal fired is
  not reached; an `onStop()` that throws is not modelled.
- CoroutineTask.CanceledRunEndsStopped: assumes like the code that `onStop()` does not throw.
- ProxyDataSession.ExactlyOneClosesIffNoticedInTime: the other session is alive, as it is while
  its own `work` holds a reference; a relay without a partner, which throws at once, is not
  modelled.
- AsyncProxyProvider.AsyncProxyProvider.AsyncResponse: the class of a session is a parameter.
- Proxy.LinkedPairOwnsConnections: for runs in which nobody else closes, re-arms or moves the
  sessions the proxy holds, and the second session comes unstarted from its provider.
- Proxy.Proxy.HandOver: the suspensions of `run` are steps of `Proxy.Acted`; the object's
  methods are the code between them.
- Proxy.FailureLeavesFirstOpenIff: the later runs are those in which nobody else closes, re-arms
  or moves the session; anybody who did could close the socket.
- Client.Client.Run: slots do not throw, and the session is alive while it is served; which
  error ends the run is kept only as far as canceled, other, or not running. A run that never
  ends is covered by its beginnings, turn by turn.
- Memory: objects are not destroyed. In particular the operating system's close when a socket
  is destroyed, and handlers dropped with a destroyed executor, are not modelled.
- Asio itself, timers and timeouts (a timeout is a failing step), TCP and TLS sockets, the
  thread pool, signals, configuration, loggers and factories: input and output, or thin
  wrappers.
