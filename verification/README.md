# Verification of the Wi-Fi test app and its iperf3

A Dafny model of an Android Wi-Fi test app and of the copy of iperf3 it carries, with proofs about the model.  It
covers:

- the JSON library: trees, the two-pass printer with its buffers, the recursive-descent parser with its pointers, both
  against the grammar of RFC 8259, the decoding of escapes, and the linked lists of children;
- the timers: sorted and recycled linked lists and the run loop;
- the control protocol of one test: both event loops, the control channel, the listener's queue, data streams of bounded
  capacity and other clients, as a transition system with every interleaving;
- the bytes on a socket: Nread and Nwrite over chunks of any size, and the frames that carry JSON;
- what is exchanged over it: the parameters, over any history of tests, and the results;
- the accounting: pacing, limits on bytes and blocks, interval statistics, UDP loss;
- the merge of scan results in the Android activity.

## Files

| file | what it holds |
|---|---|
| CText.dfy | C strings |
| JsonPrint.dfy, JsonPrinter.dfy | JSON values, their text, and the printer that measures, allocates and writes |
| Transcode.dfy, Words.dfy | UTF-8 and surrogates as the parser computes them, in integers and in the code's words of 32 bits |
| JsonParse.dfy, JsonParser.dfy | the grammar as functions, and the parser over pointers |
| JsonBuffer.dfy | what the decoding of a string writes against what was allocated, for any escapes |
| JsonRoundTrip.dfy, JsonStrings.dfy | parsing undoes printing; what escapes become |
| JsonGrammar.dfy | the texts of RFC 8259 as trees of concrete syntax: what is printed is one, and each is parsed to its meaning |
| JsonList.dfy | the children of an array or object |
| TimerSpec.dfy, TimerRun.dfy, TimerQueue.dfy | a timer queue as a sequence, what a run promises, and the linked lists that refine it |
| Protocol.dfy, ProtocolSafety.dfy, ProtocolLiveness.dfy | the protocol, what holds in every run, and that runs end |
| ProtocolRuns.dfy | what runs are possible: data can move, and a test ends only when it is over |
| Net.dfy | sockets and frames |
| Settings.dfy, Results.dfy | the exchange of parameters and of results |
| UdpCount.dfy, Streams.dfy, Sending.dfy | UDP counters, streams, and the loops over them |
| ScanMerge.dfy | the list of networks |

## How the code is modelled

Code that works step by step is modelled by methods on classes and arrays, each proved against a function on values, and
the properties are proved about those functions.  Foreign calls (sockets, clocks, select, sort) are nondeterministic
choices or parameters.  Integers are unbounded except where the code's width matters: the parser's 64-bit arithmetic
wraps, a frame's length is cut to 32 bits, and the bit operations of the decoder are also given on 32-bit words.

In the protocol a step is one action of one loop: one message read together with what the handler answers, one
connection accepted, one chunk of a block moved.  The invariant and the termination order range over all interleavings
of these, all chunk sizes, all capacities and any number of other clients.

## Where the code departs from what it is for

Each of these is proved with the exact condition under which it matters:

- `cjson.c` line 285 joins a surrogate pair with `0x10000 |` where an addition is meant: pairs of even planes come out
  one plane too low (`Transcode.SurrogatesCorrectIffOddPlane`, `JsonStrings.EscapedTextCorrectIff`).
- `cjson.c` line 270 steps over four characters behind `\u` however many digits there are: the buffer of a string
  suffices for every text behind the string if and only if no such step reaches the closing quote and each `\u` has a
  value, read from a digit or left in the variable by an earlier `\u` of the string (`JsonBuffer.SecondPassFitsIff`;
  `JsonBuffer.OneDigitEscape` is an input where it does not, `JsonBuffer.KeptValue` one without digits where it does).
- A run of the timers skips due timers when a callback resets the timer that the loop goes to next
  (`TimerRun.ResetterMissesIff`; `TimerRun.ResetterMissesIffNow` when that is the timer behind it before the run).
- A run that is late calls a periodic timer again only if the timer behind it is due no later than the next expiration
  (`TimerRun.CalledAgainIff`, and for a timer alone in the list `TimerRun.LoneTimerCatchesUpIff`).
- A second -R on the client's command line turns its direction back but not the server's (`Settings.OneEndSendsIff`).
- An interval during which the counters are reset records the errors since the reset only if the interval before had
  ended without any; otherwise their number is wrong, and may be negative (`Streams.IntervalAcrossReset`).
- A UDP packet that arrives twice makes the loss count too low (`UdpCount.LostExactIff`).
- The inner `break` at a limit leaves only the loop over the streams: every call stays within a block of the limit only
  with one round and one stream, and the bound of rounds + streams - 1 blocks is reached (`Sending.OvershootIff`).
- A burst without a rate (`-b 0/10`) has all lights checked against a rate of zero, and no timer to turn them green again:
  a test with a limit ends if and only if its first call reaches the limit (`Sending.Test.BurstLoop`).

Three more are shown without such a condition.  Two periodic timers with interval zero keep a run going for ever
(`TimerRun.ZeroPeriodsCycle`); the other theorems about runs ask for positive intervals.  A reset leaves the amount to
send, the TOS and the flow label of an earlier client in place (`Settings.ServerFollowsClient` says what the server then
has).  And the throttle divides by the time since the start: a check before the clock has moved may set the light either
way (`Streams.Stream.CheckThrottle`), so that only the bound of one burst holds until the next one (`Sending.Test.Send`).

## Model

| member | source | states |
|---|---|---|
| JsonRoundTrip.ValueRoundTrip | iperf_jni/jni/iperf/src/cjson.c:423-734 | Parsing undoes printing for every tree, at any depth, in both formats and before any following text that does not continue a number: the same tree comes back and exactly the following text is left. |
| JsonRoundTrip.ParseUndoesPrint | iperf_jni/jni/iperf/src/cjson.c:396-419 | cJSON_Parse of what cJSON_Print or cJSON_PrintUnformatted made of a tree is that tree. |
| JsonRoundTrip.ParsedPrintable | iperf_jni/jni/iperf/src/cjson.c:423-734 | A tree that was parsed from any text can be printed if and only if its numbers are integers in the range that is printed exactly: names and strings never have a NUL in them. |
| JsonRoundTrip.PrintUndoesParse | iperf_jni/jni/iperf/src/cjson.c:396-419 | What was parsed from any text, printed in either format and parsed again, is the same tree. |
| JsonRoundTrip.PrintInjective | iperf_jni/jni/iperf/src/cjson.c:412-419 | Two trees never print to the same text, whatever their depths and formats. |
| JsonRoundTrip.NumberRoundTripExact | iperf_jni/jni/iperf/src/cjson.c:141-228 | An integer is read back with exactly the text behind it if and only if that text does not continue the number (a zero may be followed by a zero). |
| JsonRoundTrip.StringRoundTrip | iperf_jni/jni/iperf/src/cjson.c:231-368 | A string is read back from its escaped form, control characters included. |
| JsonRoundTrip.ArrayRoundTrip | iperf_jni/jni/iperf/src/cjson.c:476-580 | The items of an array, separated as the printer separates them, are read back in order. |
| JsonRoundTrip.ObjectRoundTrip | iperf_jni/jni/iperf/src/cjson.c:584-734 | The members of an object, with or without indentation, are read back in order with their names. |
| JsonGrammar.PrintIsJson | iperf_jni/jni/iperf/src/cjson.c:208-734 | What is printed of any tree, at any depth and in both formats, is a text of the grammar of RFC 8259 that means the tree: no character below a blank inside a string, short escapes for the seven characters that have one and need one and `\u00xx` for the other control characters, and outside strings the blanks of the format only, none when unformatted. |
| JsonGrammar.JsonIsParsed | iperf_jni/jni/iperf/src/cjson.c:396-408 | Every text of the grammar of RFC 8259, with any blanks, escapes, fractions and exponents, is parsed to what it means, with the text behind it left, if it has no U+0000, no pair of an even plane and only integers within int64_t. |
| JsonGrammar.TextIsParsed | iperf_jni/jni/iperf/src/cjson.c:396-734 | The same for what the parser takes beyond the standard: control characters as blanks and inside strings, any letter behind a backslash, a zero in front of other digits, a minus alone. |
| JsonGrammar.DroppedUnit | iperf_jni/jni/iperf/src/cjson.c:271-274 | A unit that is zero, or a second half without a first, stands for nothing. |
| JsonGrammar.DroppedHalf | iperf_jni/jni/iperf/src/cjson.c:276-279 | So does a first half behind which no unit comes. |
| JsonGrammar.DroppedPair | iperf_jni/jni/iperf/src/cjson.c:276-285 | So do a first half and the unit behind it that is no second half, both together. |
| JsonGrammar.NoValue | iperf_jni/jni/iperf/src/cjson.c:423-452 | Where no value begins, the error is at that place. |
| JsonGrammar.ItemsFail | iperf_jni/jni/iperf/src/cjson.c:476-512 | Behind any number of items with neither a comma nor the bracket, the error is where one should be. |
| JsonGrammar.NoColon | iperf_jni/jni/iperf/src/cjson.c:584-638 | Behind a name without a colon, the error is where it should be. |
| JsonGrammar.EntriesFail | iperf_jni/jni/iperf/src/cjson.c:584-638 | Behind any number of members with neither a comma nor the brace, the error is where one should be. |
| JsonPrinter.PrintStringPtr | iperf_jni/jni/iperf/src/cjson.c:320-368 | The measuring pass is exact: the buffer holds the quoted string and its terminator with no byte to spare. |
| JsonPrinter.MeasureString | iperf_jni/jni/iperf/src/cjson.c:320-340 | The first pass computes the length of the escaped string. |
| JsonPrinter.DecimalFits | iperf_jni/jni/iperf/src/cjson.c:208-228 | The 64 bytes allocated for an integer hold its digits, sign and terminator. |
| JsonPrinter.PrintArray | iperf_jni/jni/iperf/src/cjson.c:516-580 | Everything written for an array, separators and terminator included, fits the buffer of the measured size. |
| JsonPrinter.EntriesFit | iperf_jni/jni/iperf/src/cjson.c:530-575 | What is written between the brackets is never longer than the sum that was measured. |
| JsonPrinter.PrintObject | iperf_jni/jni/iperf/src/cjson.c:642-734 | Everything written for an object, tabs and terminator included, fits the buffer of the measured size. |
| JsonPrinter.LinesFit | iperf_jni/jni/iperf/src/cjson.c:660-730 | What is written for the members, indentation included, is never longer than the sum that was measured. |
| JsonPrinter.PrintValue | iperf_jni/jni/iperf/src/cjson.c:456-472 | The two-pass routines produce the text of the tree as a C string. |
| JsonPrinter.PrintNulFree | iperf_jni/jni/iperf/src/cjson.c:456-472 | A printed text has no NUL in it, so that strlen of it is its length. |
| JsonParser.ParseText | iperf_jni/jni/iperf/src/cjson.c:396-408 | The parser over pointers returns the item, the end pointer and the error pointer that the grammar functions give. |
| JsonParser.ReadValue | iperf_jni/jni/iperf/src/cjson.c:423-452 | Recursive descent by pointers agrees with the grammar at every position. |
| JsonParser.ReadNumber | iperf_jni/jni/iperf/src/cjson.c:141-204 | The number loops agree with the functions that fold the digits, in 64-bit arithmetic with wrap-around. |
| JsonParser.ReadString | iperf_jni/jni/iperf/src/cjson.c:231-316 | Both passes of parse_string agree with the function that decodes the string, for every text; where escapes are malformed the outcome is Undefined. |
| JsonParser.ReadArray | iperf_jni/jni/iperf/src/cjson.c:476-512 | The loop over the items agrees with the grammar, also where it fails. |
| JsonParser.ReadObject | iperf_jni/jni/iperf/src/cjson.c:584-638 | The loop over the members agrees with the grammar, also where it fails. |
| JsonBuffer.SecondPassFitsIff | iperf_jni/jni/iperf/src/cjson.c:231-316 | For the inside of any string, escapes of any form included: the second pass of parse_string stays within what the first pass counted, for every text behind the string, if and only if its steps stay inside the string and each \u has a value, from a digit or left by an earlier \u. |
| JsonBuffer.SecondPassFits | iperf_jni/jni/iperf/src/cjson.c:231-316 | With well-formed escapes the second pass never writes more than the first pass counted. |
| JsonBuffer.OneDigitEscape | iperf_jni/jni/iperf/src/cjson.c:267-270 | A string with one digit behind \u: two bytes are counted, and as many are written as the text behind it is long. |
| JsonBuffer.KeptValue | iperf_jni/jni/iperf/src/cjson.c:237-270 | A \u without digits behind one with four: the variable keeps what it had, and both write the same letter, whatever follows the string. |
| JsonParser.ParsedIffWellFormed | iperf_jni/jni/iperf/src/cjson.c:231-316 | The parser's model gives a string exactly when no backslash stands at the end and every \u, also that of a second half, has four hexadecimal digits. |
| JsonParser.ParsedNulFree | iperf_jni/jni/iperf/src/cjson.c:255-316 | With well-formed escapes, what parse_string stores is a C string: no escape produces a NUL. |
| JsonStrings.UnitEscape | iperf_jni/jni/iperf/src/cjson.c:271-300 | A \uXXXX that is no surrogate and not zero becomes the UTF-8 form of its scalar value (section 3 of RFC 3629). |
| JsonStrings.PairEscape | iperf_jni/jni/iperf/src/cjson.c:276-300 | A surrogate pair decodes as section 2.2 of RFC 2781 says if and only if the plane of its code point is odd. |
| JsonStrings.EscapedTextCorrectIff | iperf_jni/jni/iperf/src/cjson.c:255-312 | A whole text of escapes arrives as its UTF-8 form if and only if none of its code points is on an even plane above 0. |
| JsonStrings.EscapedTextParses | iperf_jni/jni/iperf/src/cjson.c:255-312 | What such a text arrives as in every case: code points of even planes above 0 fall to the plane below. |
| Transcode.Utf8Correct | iperf_jni/jni/iperf/src/cjson.c:287-300 | The bytes stored for a scalar value decode to it. |
| Transcode.SurrogatesCorrectIffOddPlane | iperf_jni/jni/iperf/src/cjson.c:276-286 | An OR with 0x10000 in place of an addition: right exactly for odd planes, one plane too low otherwise. |
| Words.Utf8Words | iperf_jni/jni/iperf/src/cjson.c:287-300 | The bytes that the switch stores with its ORs, masks and shifts of a 32-bit word are those of the integer form. |
| Words.SurrogateWord | iperf_jni/jni/iperf/src/cjson.c:285 | The expression with its masks, shift and ORs on 32-bit words has the value that the integer form gives. |
| JsonList.StrCaseCmp | iperf_jni/jni/iperf/src/cjson.c:52-63 | Names compare equal exactly when they differ in case only. |
| JsonList.LowerCase | iperf_jni/jni/iperf/src/cjson.c:52-63 | The case of letters is that of the 26 letters of the alphabet; no other character changes. |
| JsonList.Parent.GetArrayItem | iperf_jni/jni/iperf/src/cjson.c:749-757 | The walk finds the child at an index; a negative index selects the first. |
| JsonList.Parent.GetObjectItem | iperf_jni/jni/iperf/src/cjson.c:760-766 | The first child whose name matches in any case, or NULL. |
| JsonList.Parent.AddItemToArray | iperf_jni/jni/iperf/src/cjson.c:792-803 | The linked list refines a sequence: an item is appended, and the links stay right in both directions. |
| JsonList.Parent.DetachItemFromArray | iperf_jni/jni/iperf/src/cjson.c:826-842 | The child at the index is taken out of the sequence and leaves unlinked; past the end nothing changes. |
| JsonList.Parent.DetachItemFromObject | iperf_jni/jni/iperf/src/cjson.c:849-860 | The first child with the name is taken out, in any case of letters. |
| JsonList.Parent.ReplaceItemInArray | iperf_jni/jni/iperf/src/cjson.c:868-886 | One place of the sequence is replaced, and the replaced child ends unlinked. |
| JsonList.Parent.ReplaceItemInObject | iperf_jni/jni/iperf/src/cjson.c:889-901 | The first match is replaced and the new child takes the name given. |
| JsonList.AddThenDetach | iperf_jni/jni/iperf/src/cjson.c:792-842 | Adding a child and detaching the last one restores list and child. |
| TimerQueue.AddUsecsExact | iperf_jni/jni/iperf/src/timer.c:107-116 | add_usecs adds exactly for every interval; the result is normalised for intervals that are not negative, and exactly when the microseconds do not become negative. |
| TimerQueue.TimerQueue.ListAdd | iperf_jni/jni/iperf/src/timer.c:42-82 | A stable sorted insert: the timer goes behind all that are due no later. |
| TimerQueue.TimerQueue.ListRemove | iperf_jni/jni/iperf/src/timer.c:85-94 | The timer is unlinked, the others keep their order and links. |
| TimerQueue.TimerQueue.ListResort | iperf_jni/jni/iperf/src/timer.c:97-104 | Removing and inserting a timer anew is the move of the sequence model. |
| TimerQueue.TimerQueue.TmrCreate | iperf_jni/jni/iperf/src/timer.c:119-149 | A timer is recycled from the free list or fresh, and inserted at now plus its interval. |
| TimerQueue.TimerQueue.TmrTimeout | iperf_jni/jni/iperf/src/timer.c:151-169 | The timeout is exactly the larger of zero and the time to the earliest timer, so no timer is due sooner. |
| TimerQueue.TimerQueue.TmrReset | iperf_jni/jni/iperf/src/timer.c:200-209 | The timer moves to one interval from now; active and free timers stay the same. |
| TimerQueue.TimerQueue.TmrCancel | iperf_jni/jni/iperf/src/timer.c:212-221 | The timer leaves the active list and heads the free list. |
| TimerQueue.TimerQueue.Round | iperf_jni/jni/iperf/src/timer.c:180-196 | One round of the loop with the successor read first, for callbacks that reset other timers: the cached pointer is still active, and the pending expirations fall. |
| TimerQueue.TimerQueue.TmrRun | iperf_jni/jni/iperf/src/timer.c:172-197 | The loop over the linked list makes exactly the callbacks of the sequence model and frees exactly its one-shots; it terminates, also when callbacks reset other timers. |
| TimerQueue.TimerQueue.TmrCleanup | iperf_jni/jni/iperf/src/timer.c:224-234 | Only the free list is emptied. |
| TimerQueue.TimerQueue.TmrDestroy | iperf_jni/jni/iperf/src/timer.c:237-243 | Both lists end empty. |
| TimerRun.RunKeeps | iperf_jni/jni/iperf/src/timer.c:172-197 | A run makes no more callbacks than expirations were pending, and the queue stays sorted without repeats. |
| TimerRun.RunOrdered | iperf_jni/jni/iperf/src/timer.c:172-197 | No callback comes before it is due, and due times never go back. |
| TimerRun.RunConserves | iperf_jni/jni/iperf/src/timer.c:172-197 | Exactly the one-shots that fired leave the active list, each after one callback; no periodic timer leaves. |
| TimerRun.RunMissesNothing | iperf_jni/jni/iperf/src/timer.c:180-196 | If callbacks reset no timer that is due, every timer due on entry fires, although the successor is cached before the list is re-sorted. |
| TimerRun.RunAdvances | iperf_jni/jni/iperf/src/timer.c:184-192 | A periodic timer advances by one interval for each callback: its phase does not drift. |
| TimerRun.LoneTimerCatchesUpIff | iperf_jni/jni/iperf/src/timer.c:180-196 | A timer alone in the list is called once in a run, so that it is made up for if and only if one expiration was pending. |
| TimerRun.CalledAgainIff | iperf_jni/jni/iperf/src/timer.c:180-196 | When callbacks reset no due timer, a periodic timer is called again in the same run if and only if it is still due and the timer behind it is due no later than its next expiration. |
| TimerRun.RunCatchesUp | iperf_jni/jni/iperf/src/timer.c:172-197 | After a run with quiet callbacks a one-shot, or a timer with one expiration pending, is gone or not due. |
| TimerRun.ZeroPeriodsCycle | iperf_jni/jni/iperf/src/timer.c:180-196 | Two periodic timers with interval zero and the same time bring the loop back to where it was: the reason why intervals must be positive. |
| TimerRun.ResetterMissesIff | iperf_jni/jni/iperf/src/timer.c:180-196 | A timer anywhere in the list, one-shot or periodic, has a callback that resets others (as the omit timer's does), and no other callback resets a due timer: every other due timer that is not reset gets its callback, if and only if that callback does not reset the timer that the loop goes to next with a due one, not reset, behind it. |
| TimerRun.ResetterMissesIffNow | iperf_jni/jni/iperf/src/timer.c:180-196 | The same with the timer that stands behind it before the run, when no timer in front of it is due again after its callback (at the head, for one). |
| TimerRun.TurnDecides | iperf_jni/jni/iperf/src/timer.c:180-196 | From that timer's turn on, a due timer behind it that is not reset gets its callback, unless the next timer is reset, and then gets none. |
| Protocol.ClientStep | iperf_jni/jni/iperf/src/iperf_client_api.c:371-472 | A step of the client leaves all of the server's variables, and all pipes' number, as they are. |
| Protocol.ServerStep | iperf_jni/jni/iperf/src/iperf_server_api.c:467-596 | A step of the server leaves all of the client's variables as they are. |
| ProtocolSafety.StepInv | iperf_jni/jni/iperf/src/iperf_server_api.c:467-596 | Every step of either loop, of a timer or of another client keeps the invariant of the test. |
| ProtocolSafety.ReachInv | iperf_jni/jni/iperf/src/iperf_server_api.c:467-596 | The invariant holds in every state of every run, with any chunk sizes, pipe capacities and other clients. |
| ProtocolSafety.FramingIsKept | iperf_jni/jni/iperf/src/iperf_api.c:1030-1095 | No side ever takes a cookie or a JSON frame for a state byte or the reverse; what is in flight is exactly the part of each side's script sent and not yet read. |
| ProtocolSafety.ClientHandlesKeeps | iperf_jni/jni/iperf/src/iperf_client_api.c:170-256 | Each message of the server finds the client in the state that handles it. |
| ProtocolSafety.ServerHandlesKeeps | iperf_jni/jni/iperf/src/iperf_server_api.c:161-230 | Each message of the client finds the server in the state that handles it. |
| ProtocolSafety.ClientFollowsServer | iperf_jni/jni/iperf/src/iperf_client_api.c:170-256 | The states of the two ends in every reachable state: no transfer before all streams are accepted, results only after TEST_END. |
| ProtocolSafety.AcceptStreamKeeps | iperf_jni/jni/iperf/src/iperf_server_api.c:502-570 | The listener counts a connection exactly if it has the test's cookie and turns it away otherwise, and the last stream sends TEST_START and TEST_RUNNING. |
| ProtocolSafety.OneTestAtATime | iperf_jni/jni/iperf/src/iperf_server_api.c:109-157 | From accept on, the control connection and the cookie are the first client's; TEST_START has been sent exactly when all streams, with its cookie, are accepted; no connection of that client is turned away. |
| ProtocolSafety.OthersAreDenied | iperf_jni/jni/iperf/src/iperf_server_api.c:145-157 | Every connection of another client is turned away or still waits. |
| ProtocolSafety.ReceivedAtMostSent | iperf_jni/jni/iperf/src/net.c:162-184 | No stream delivers more than was written to it, nor holds more than its capacity. |
| ProtocolSafety.ReportedBytes | iperf_jni/jni/iperf/src/iperf_api.c:1076-1095 | From the client's reading of EXCHANGE_RESULTS on, no step moves data any more, and every stream stands at whole blocks with no more read than written: the bytes that are reported. |
| ProtocolSafety.SendKeeps | iperf_jni/jni/iperf/src/iperf_api.c:887-938 | A step of iperf_send keeps the accounts of its pipe in whole blocks. |
| ProtocolSafety.ReceiveKeeps | iperf_jni/jni/iperf/src/iperf_api.c:940-959 | A step of iperf_recv keeps the accounts of its pipe in whole blocks, and a reader begins a block only when there is something to read. |
| ProtocolLiveness.Progress | iperf_jni/jni/iperf/src/iperf_client_api.c:371-472 | No reachable state short of the end is a deadlock, in either direction and with pipes of any capacity. |
| ProtocolLiveness.StuckReader | iperf_jni/jni/iperf/src/net.c:162-184 | A reader waits inside a block only while its sender is inside a block of the same stream and has room. |
| ProtocolLiveness.OnlyDrainingHelps | iperf_jni/jni/iperf/src/iperf_client_api.c:463-472 | With the server blocked on a full pipe in reverse mode, only the client's reads after TEST_END can go on. |
| ProtocolLiveness.ClientLess | iperf_jni/jni/iperf/src/iperf_client_api.c:371-472 | Once the test is over, every action of the client brings the end nearer in a well-founded order. |
| ProtocolLiveness.ServerLess | iperf_jni/jni/iperf/src/iperf_server_api.c:467-596 | Once the test is over, every action of the server brings the end nearer in the same order. |
| ProtocolLiveness.BothFinish | iperf_jni/jni/iperf/src/iperf_client_api.c:371-472 | Once the test is over, every schedule of actions, by time and state, brings both ends out of their loops at IPERF_DONE, with nothing left unread on the control channel. |
| ProtocolLiveness.TestStarts | iperf_jni/jni/iperf/src/iperf_client_api.c:170-256 | From the start of both programs, with any number of other clients, every schedule of actions brings the client to TEST_RUNNING, with all its streams accepted. |
| ProtocolRuns.EndsOnlyWhenOver | iperf_jni/jni/iperf/src/iperf_client_api.c:441-451 | In every run TEST_END is announced only when the test is over, and it is over only by the timer or a limit reached while the client was in TEST_RUNNING. |
| ProtocolRuns.ClientTransfersIff | iperf_jni/jni/iperf/src/iperf_client_api.c:415-472 | In its loop, with nothing to read or its message read, the client starts a call on a stream if and only if it is in TEST_RUNNING, or in TEST_END with the direction reversed, and the stream has room, or bytes to read. |
| ProtocolRuns.ServerTransfersIff | iperf_jni/jni/iperf/src/iperf_server_api.c:573-590 | So does the server, if and only if it is in TEST_RUNNING. |
| ProtocolRuns.BusyServerDenies | iperf_jni/jni/iperf/src/iperf_server_api.c:481-497 | A server with a client turns away the first connection that waits, whatever its control socket holds, unless it is creating streams; it then may read that socket in the same round, or leave it. |
| ProtocolRuns.BlockGoesOnIff | iperf_jni/jni/iperf/src/net.c:162-216 | Between blocks a sender may always begin one, a receiver only with bytes to read; inside a block any chunk moves that is left and has room, or has arrived. |
| ProtocolRuns.AnythingIsCarried | iperf_jni/jni/iperf/src/iperf_client_api.c:371-472 | For any number of blocks for each stream, either direction and any capacity there is a run from the start that carries just these whole blocks, the test still going on. |
| Net.Nread | iperf_jni/jni/iperf/src/net.c:162-184 | Whatever the chunks, the bytes wanted arrive in order, fewer only at the end of the stream, and what follows stays unread; interrupted calls are made again. |
| Net.Nwrite | iperf_jni/jni/iperf/src/net.c:189-216 | Whatever the chunks, all bytes go out in order; a fault leaves a first part of them, whose length a result that is not negative tells. |
| Net.JsonWrite | iperf_jni/jni/iperf/src/iperf_api.c:1380-1402 | A frame is the length in four bytes and the unformatted text. |
| Net.JsonRead | iperf_jni/jni/iperf/src/iperf_api.c:1406-1425 | Exactly one frame is taken from the input. |
| Net.FrameRoundTrip | iperf_jni/jni/iperf/src/iperf_api.c:1380-1425 | A tree written as a frame is read back, and the reader stops where the frame ends. |
| Net.NtohlHtonl | iperf_jni/jni/iperf/src/iperf_api.c:1388-1412 | The length survives network byte order. |
| Net.NetworkOrder | iperf_jni/jni/iperf/src/iperf_api.c:1388-1412 | The bytes of a number go out with the highest first. |
| Settings.Test.SetTestRole | iperf_jni/jni/iperf/src/iperf_api.c:305-316 | A client sends and a server does not, unless the direction is reversed. |
| Settings.Test.SetTestReverse | iperf_jni/jni/iperf/src/iperf_api.c:324-331 | Each call turns the direction round, also a second one. |
| Settings.ParseArguments | iperf_jni/jni/iperf/src/iperf_api.c:305-331 | Any sequence of -c and -R options on a client's command line leaves the direction and the role of the function that OneEndSendsIff is about, all else at its defaults. |
| Settings.OneEndSendsIff | iperf_jni/jni/iperf/src/iperf_api.c:305-331 | Exactly one end sends if and only if the -R flags before and after -c come to what one flag or none would do. |
| Settings.Test.SendParameters | iperf_jni/jni/iperf/src/iperf_api.c:1099-1154 | The object that is sent: names in order, zero numbers and unset flags left out. |
| Settings.Test.GetParameters | iperf_jni/jni/iperf/src/iperf_api.c:1158-1216 | Each field is set when its name is there and kept otherwise. |
| Settings.GetSent | iperf_jni/jni/iperf/src/iperf_api.c:1158-1216 | Every parameter sent is found under its name and no other's, names being compared without case. |
| Settings.LearnsAll | iperf_jni/jni/iperf/src/iperf_api.c:1099-1216 | What the receiving end has after reading what the other end sent, field by field. |
| Settings.ParametersArrive | iperf_jni/jni/iperf/src/iperf_api.c:1099-1216 | The same through the printer, the frame and the parser, whatever follows on the channel. |
| Settings.Test.ResetTest | iperf_jni/jni/iperf/src/iperf_api.c:1679-1758 | The fields a reset clears, and the four it does not. |
| Settings.ServerFollowsClient | iperf_jni/jni/iperf/src/iperf_api.c:1679-1758 | Over any history of tests the server has its client's settings and the opposite role; bytes, blocks, TOS and flow label are the last that were not zero. |
| Results.End.AddStream | iperf_jni/jni/iperf/src/iperf_api.c:2383-2402 | The ids are 1, 3, 4, ... by position. |
| Results.IdsDistinct | iperf_jni/jni/iperf/src/iperf_api.c:2383-2402 | No two streams of a test share an id, and n streams have the ids from 1 to n + 1 except 2. |
| Results.End.SendResults | iperf_jni/jni/iperf/src/iperf_api.c:1220-1280 | The report: for each stream its id and what this end counted. |
| Results.End.GetResults | iperf_jni/jni/iperf/src/iperf_api.c:1284-1376 | What is taken from a report, stream by stream, and when it is refused. |
| Results.TakesAll | iperf_jni/jni/iperf/src/iperf_api.c:1284-1376 | A report of the other end is taken over whole: each stream finds its item. |
| Results.ExchangeAgrees | iperf_jni/jni/iperf/src/iperf_api.c:1076-1095 | What the two reports make of the streams: the sender's bytes sent and the receiver's bytes received, errors, packets and jitter are at both ends for every stream; the sender keeps its retransmissions, and the receiver has them if the sender counts them and -1 otherwise. |
| Results.Exchange | iperf_jni/jni/iperf/src/iperf_api.c:1076-1095 | send_results and get_results run on both ends, in either direction: neither report is refused, the ends agree on every stream, retransmissions included, and each has the other's CPU figures; whether retransmissions are counted is at both ends what the sender says. |
| Results.ReceivedAtMostSent | iperf_jni/jni/iperf/src/iperf_api.c:1076-1095 | Without an omitted period no stream is reported, at either end, to have received more than was sent on it. |
| Results.ReportArrives | iperf_jni/jni/iperf/src/iperf_api.c:1220-1376 | A report survives printing, framing and parsing. |
| UdpCount.CountsBalance | iperf_jni/jni/iperf/src/iperf_udp.c:61-70 | Over any arrivals and resets: packets received since the reset, less those out of order, plus errors, are the numbers passed since the reset. |
| UdpCount.CountersAre | iperf_jni/jni/iperf/src/iperf_udp.c:61-70 | Each counter on its own, over any arrivals and resets: the highest number so far; out of order, the arrivals since the reset that are not above all before them; as errors, the numbers passed since the reset less the arrivals that are above all before them. |
| UdpCount.LostExactIff | iperf_jni/jni/iperf/src/iperf_udp.c:61-70 | Errors less packets out of order are the numbers up to the highest that never arrived, if and only if no packet arrived twice. |
| UdpCount.HeaderRoundTrip | iperf_jni/jni/iperf/src/iperf_udp.c:51-58 | The receiver reads the time and the number that the sender wrote. |
| Streams.Stream.UdpReceive | iperf_jni/jni/iperf/src/iperf_udp.c:36-86 | One packet: the counters, the bytes, the transit time without its sign, and the jitter. |
| Streams.Stream.NextHeader | iperf_jni/jni/iperf/src/iperf_udp.c:102-110 | The header of a packet carries the next number. |
| Streams.Stream.Headers | iperf_jni/jni/iperf/src/iperf_udp.c:102-110 | The packets of a run are numbered consecutively, a new stream's from one. |
| Streams.GreenIff | iperf_jni/jni/iperf/src/iperf_api.c:870-887 | Comparing the truncated quotient with the rate tells exactly whether less was sent than the rate allows. |
| Streams.Stream.CheckThrottle | iperf_jni/jni/iperf/src/iperf_api.c:870-887 | The light is green exactly while less has been sent than the rate allows for the time between start and now, in either order; it is unchanged once the test is done, and may come out either way when no time has passed. |
| Streams.CountsTelescope | iperf_jni/jni/iperf/src/iperf_api.c:1833-1845 | The counts of the intervals add up to the running counters. |
| Streams.IntervalAcrossReset | iperf_jni/jni/iperf/src/iperf_api.c:1765-1845 | Packets, a reset, packets and the end of the interval: the errors recorded are those counted since the reset if and only if the interval before had ended with a count of zero. |
| Streams.Stream.GatherStats | iperf_jni/jni/iperf/src/iperf_api.c:1800-1852 | An interval is recorded with the bytes and the counts since the last one; intervals abut, their bytes and the interval that has begun hold all bytes since the last reset. |
| Streams.Stream.ResetStats | iperf_jni/jni/iperf/src/iperf_api.c:1765-1790 | The stream's counters start again, and its conservation law with them. |
| Sending.Test.Send | iperf_jni/jni/iperf/src/iperf_api.c:889-938 | 8 * bytes_sent never exceeds rate * elapsed + 8 * blksize * max(1, burst) on any stream, also before the clock has moved, and a limit on bytes or blocks is passed by less than rounds + streams - 1 blocks; the total is the sum over the streams; with whole blocks and no limit each stream that is ready and green sends a block in every round, and whatever the limits no other stream sends; after a burst, or with a rate, the lights are what the checks make them; when nothing holds a stream up, the counters are those of the function that OvershootIff is about; a burst without a rate leaves no light green, and then later calls send nothing. |
| Sending.OvershootIff | iperf_jni/jni/iperf/src/iperf_api.c:896-926 | A call that starts one byte short of a limit goes all the way to the bound, and calls end within a block of the limit, wherever they start, if and only if there is one round and one stream. |
| Sending.Test.constructor | iperf_jni/jni/iperf/src/iperf_api.c:961-1022 | A test whose streams have been initialised and may be sent to: its totals are right and every stream is within its pace. |
| Sending.Test.SendLoop | iperf_jni/jni/iperf/src/iperf_client_api.c:371-462 | A client's test with limits, its timers running between the sends: when the loop ends because a limit is reached, also after an omitted period, the counters are past it by less than rounds + streams - 1 blocks, and every stream is within its pace throughout; unpaced and unhindered it does end, after at most as many turns as there are blocks to the limit. |
| Sending.Test.BurstLoop | iperf_jni/jni/iperf/src/iperf_api.c:927-931 | A burst without a rate: after the first call no stream is sent to any more, so that the test ends if and only if that call reaches a limit, however many turns follow. |
| Sending.Test.RunTimers | iperf_jni/jni/iperf/src/iperf_client_api.c:430-439 | Any number of checks of lights (with a rate only), of statistics and, while a period is omitted, of the reset at its end: totals and pacing are kept. |
| Sending.Test.SendRound | iperf_jni/jni/iperf/src/iperf_api.c:903-926 | Each stream that has had its turn, is ready and green sends at most one block, the whole one when the network takes it, and any other stream nothing; a round that is not the last stops at a limit after one block; without limits all streams have a turn; when nothing holds a stream up the round counts as many blocks as its function says, the last round one for every stream. |
| Sending.Test.Turn | iperf_jni/jni/iperf/src/iperf_api.c:905-921 | The turn of one stream: no other stream's bytes or light change; it sends only if ready and green, at most a block and the whole one when the network takes it, and then its light is set by the rate and the clock. |
| Sending.Test.SendTimer | iperf_jni/jni/iperf/src/iperf_api.c:987-998 | The timer sets the light of its own stream by the rate and leaves the others; the bound of pacing is kept, also with a time from before the stream's start, when nothing has been sent since. |
| Sending.Test.CheckAll | iperf_jni/jni/iperf/src/iperf_api.c:927-931 | With bursts, the checks after the call set every light by the rate and restore the bound. |
| Sending.Test.LimitsHold | iperf_jni/jni/iperf/src/iperf_api.c:896-926 | The arithmetic of the limits over all rounds. |
| Sending.Test.Receive | iperf_jni/jni/iperf/src/iperf_api.c:940-959 | Each stream that is ready reads at most a block, the whole one when it has arrived, and the others nothing; blocks are counted with them, and the receiver's total is the sum over its streams. |
| Sending.Test.ResetStats | iperf_jni/jni/iperf/src/iperf_api.c:1765-1790 | A reset keeps the totals equal to the sums and every stream paced. |
| Sending.Test.GatherStats | iperf_jni/jni/iperf/src/iperf_api.c:1800-1852 | Every stream records one interval, with its own bytes and counts, and totals and pacing are untouched. |
| ScanMerge.FrequencySupport | WifiTest/app/src/main/java/com/example/wifitest/AgingTestActivity.java:519-527 | The bit for 2.4 GHz or 5 GHz, or none. |
| ScanMerge.SortIsStable | WifiTest/app/src/main/java/com/example/wifitest/AgingTestActivity.java:566-572 | The results are ordered by strength, none is lost, and equals keep their order. |
| ScanMerge.WifiInfo.Join | WifiTest/app/src/main/java/com/example/wifitest/AgingTestActivity.java:587-613 | The bands of an entry become the union with those of the result. |
| ScanMerge.MergeScan | WifiTest/app/src/main/java/com/example/wifitest/AgingTestActivity.java:574-630 | The nested loops over objects hold exactly the merged entries. |
| ScanMerge.MergeLists | WifiTest/app/src/main/java/com/example/wifitest/AgingTestActivity.java:579-630 | One entry for each name, with the first result and the bands of all results of the name. |
| ScanMerge.ListIsRight | WifiTest/app/src/main/java/com/example/wifitest/AgingTestActivity.java:566-633 | For any scan: entries in order of strength, each name that is not empty once, shown by a strongest result and with exactly the bands it was seen on. |

## Left out

- JsonParser.ReadString: for malformed escapes the parser's model has the outcome Undefined.  A backslash at the end, or a `\u` without a digit before any value was read, has no defined result in the code; otherwise the code goes on with the digits there are, or the value of an earlier `\u`, and what it then writes is counted in JsonBuffer.  Round trips meet none of these.
- JsonGrammar.JsonIsParsed: texts with U+0000, which is dropped, pairs of even planes and integers beyond int64_t have other outcomes (DroppedUnit, JsonStrings.EscapedTextParses, JsonParser.ReadNumber).
- JsonBuffer.SecondPassFitsIff: the count of bytes is modelled for malformed escapes, the bytes are not; the prefix 0x without a digit behind it counts as no digit.
- Numbers with a fraction or an exponent: they are parsed to their exact decimal value, where the code rounds to a double; printing them with `%g`, and so jitter and CPU figures that are not whole, are not modelled.
- Integers whose double is outside the range of int64_t, for which the printer does not use `%lld`.
- Failure of malloc, also malloc of zero bytes for an empty array.
- JsonParser.ReadArray: the parser builds values; that its items are linked as JsonList's lists are is not part of it.
- JsonList.Parent.ReplaceItemInArray: the replaced child is left unlinked where the code deletes it.
- References between items (create_reference), and deep deletion.
- TimerQueue.TimerQueue.TmrRun: callbacks may reset other active timers that have positive intervals, with the time that the run was given; callbacks that create or cancel timers are not modelled, and the periodic timers have positive intervals.
- TimerQueue.TimerQueue.IsActive: the walk stands for the pointers that the code sets to NULL when a timer is gone.
- Protocol.Apply: the event loops are steps of a transition system on values, since it is their interleavings that matter; what a loop updates in place is a field of the state.
- Protocol.ClientStep: connecting a stream and sending its cookie are one step, and a client's messages are whole; errors of the calls, lost connections, signals and the terminate messages are not modelled; neither is the mode with SIGALRM in which streams are written to without select.
- Protocol.ServerStep: TCP only; the listener that is closed and opened anew for nodelay, MSS or window is one listener; other clients connect after the first one does, and send their cookie.
- ProtocolLiveness.BothFinish: a test is over when its timer or limit says so; that this happens is the environment's part.
- Net.JsonRead: reads that are cut short by the end of the stream leave the length undefined in the code; the model asks for a whole frame.  Texts of 4 GiB and more do not survive the cut of their length to 32 bits.
- Settings.ParametersArrive: retransmission flags, affinity and the choice of a congestion algorithm have no effect in the model.
- Results.Exchange: CPU figures and jitter are whole numbers.
- Results.ReceivedAtMostSent: that the counters of the results are the bytes of the pipes is a hypothesis; the protocol's model counts bytes and does not make the reports.
- Streams.GreenIff: the quotient is exact where the code divides doubles.
- Streams.Stream.CheckThrottle: the product in unsigned 64-bit arithmetic does not wrap.
- Sending.Test.Send: sending from a file (-F), and streams that are added or removed during a call.  Before the clock has moved since a stream's start the lights may come out either way, and only the bound of one burst is kept.
- Sending.Test.SendLoop: the first turn, and the one after a reset, start at a later microsecond than the streams did; the periods of the timers are not modelled, they may run in any turn and order.  That a paced test ends is not stated, since it takes the timers to run.
- UdpCount.LostExactIff: numbers stay below 2^31, where the packet's unsigned number and the stream's signed counter agree.
- ScanMerge.SortIsStable: Collections.sort is modelled by an insertion sort, since the library only promises a stable order.
- UDP and SCTP connection set-up, congestion and affinity options, option parsing, units, locale, error texts, reports, and the rest of the Android user interface.
