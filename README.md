# LibCurlHttpContentFetcher, modelled in Dafny

`LibCurlHttpContentFetcher` is the AVS Device SDK's one-shot HTTP fetch. One
call of `getContent` configures a libcurl easy handle and starts a background
thread. The caller gets back futures for the response's status code and its
content type. A full-body fetch also returns an attachment that the body
streams into. Two libcurl callbacks do the work during the transfer:

- `headerCallback` reads the status code from every header line whose
  lower-cased form starts with `http`, and the media type from every
  `content-type` line.
- `bodyCallback` pushes each body chunk into an attachment writer. It
  honours the writer's status codes and the fetcher's `done` flag.

The destructor sets the `done` and shutdown flags, and those flags end both
loops.

The project models each part of that object:

- `HeaderParsing`: the header line classifier.
  - `tolower` in the "C" locale.
  - `std::istringstream` word extraction.
  - `iss >> long` with the clamping of `strtol`, for a 64-bit `long`.
  - The `;` cut of the media type.
  - The two last-seen fields it updates.
- `WriteBridge`: the bounded write loop of `bodyCallback`, as a total
  function of the chunk, the sink's scripted replies and the write during
  which the destructor lands. There is also a `Sink` class that plays an
  attachment writer.
- `TransportScript`: the transport as a script of multi-handle steps.
  - Each step has a perform result, the callbacks libcurl makes during it,
    the transfers left, the response code and content type `getinfo` would
    report, and whether `wait` succeeds.
  - `ProbeFrom` is the reference definition of the CONTENT_TYPE loop, and
    `BodyLoopFrom` of the ENTIRE_BODY loop.
  - `PlayAll` is the reference definition of what the callbacks do to the
    fetcher and its sink.
- `ContentFetcher`: the class itself, with the same fields.
  - The two callbacks.
  - `getContent`'s single-use flag, its configuration chain in source order
    and its mode selection.
  - The bodies of the two driver threads, the write-once promises and the
    destructor's flag stores.
- `Scenarios`: concrete runs written as lemmas about the model, for example
  a redirect followed to a 200, or a body of `"hello"` in two chunks
  streamed into a local attachment.

Points where the code's behaviour is easy to miss, and which the model keeps:

- Any header whose name starts with `http`, in any case, overwrites the
  status code. For example, `HTTP2-Settings: …` stores 0.
- Text glued to the code is ignored (`200OK` reads as 200).
- A content type read before a later status line survives it.
- The full-body driver reports the last values the header callback stored.
  It does not ask `getinfo`.
- When the multi handle cannot be created in full-body mode, both promises
  get 0 and "". The writer is not closed and `done` is not set.
- `getContent` returns the attachment's stream only when it created the
  writer itself (lines 273-278 and 349-350 of `LibCurlHttpContentFetcher.cpp`).
  With a writer supplied by the caller, the returned `HttpContent` has no
  stream. The model does the same.
- `OK_BUFFER_FULL` makes the body callback report 0 bytes, even after a
  partial write.
- The write that is in progress when the destructor runs still
  completes. The loop then ends because it sees `done`.

## Model

| member | source | states |
|---|---|---|
| HeaderParsing.LowerChar | AVSCommon/Utils/src/LibcurlUtils/LibCurlHttpContentFetcher.cpp:56 | `::tolower` in the "C" locale: only `A`-`Z` change, each to its lower-case letter; characterised by `Lower` and `LowerHasNoCapitals` |
| HeaderParsing.Lower | AVSCommon/Utils/src/LibcurlUtils/LibCurlHttpContentFetcher.cpp:55-56 | the lower-cased line has the same length and each character is the "C"-locale `tolower` of the original one |
| HeaderParsing.LowerHasNoCapitals | AVSCommon/Utils/src/LibcurlUtils/LibCurlHttpContentFetcher.cpp:55-56 | no upper-case ASCII letter is left after lower-casing |
| HeaderParsing.IsSpace | AVSCommon/Utils/src/LibcurlUtils/LibCurlHttpContentFetcher.cpp:59-62 | the six characters `isspace` accepts in the "C" locale, which stream extraction skips and stops at; characterised through `SpaceCount`, `SkipSpaces` and `WordPrefix` |
| HeaderParsing.SpaceCount | AVSCommon/Utils/src/LibcurlUtils/LibCurlHttpContentFetcher.cpp:59-62 | the number of characters skipped before a word: all of them are whitespace and the next one is not |
| HeaderParsing.SkipSpaces | AVSCommon/Utils/src/LibcurlUtils/LibCurlHttpContentFetcher.cpp:59-62 | stream extraction skips exactly a whitespace prefix and stops at the first non-whitespace character |
| HeaderParsing.WordPrefix | AVSCommon/Utils/src/LibcurlUtils/LibCurlHttpContentFetcher.cpp:59-62 | an extracted word is the longest whitespace-free prefix |
| HeaderParsing.Extract | AVSCommon/Utils/src/LibcurlUtils/LibCurlHttpContentFetcher.cpp:59-62 | one `>> string`: skip whitespace, take the word, leave the rest; characterised by `ExtractDecomposes`, `ExtractWordRunsOn` and `ExtractKeepsNoCapitals` |
| HeaderParsing.SecondWord | AVSCommon/Utils/src/LibcurlUtils/LibCurlHttpContentFetcher.cpp:67-70 | `iss >> contentTypeBeginning >> contentType`: the second extraction from the line; characterised by `SecondWordOf` |
| HeaderParsing.ExtractDecomposes | AVSCommon/Utils/src/LibcurlUtils/LibCurlHttpContentFetcher.cpp:59-62 | `>> string` on whitespace, a word and a rest that starts with whitespace yields that word and leaves that rest |
| HeaderParsing.DigitRun | AVSCommon/Utils/src/LibcurlUtils/LibCurlHttpContentFetcher.cpp:62 | the digits `>> long` consumes are the longest digit prefix |
| HeaderParsing.ReadLong | AVSCommon/Utils/src/LibcurlUtils/LibCurlHttpContentFetcher.cpp:62 | the status code read is always inside the range of a 64-bit `long` |
| HeaderParsing.DigitsValueOfDecimal | AVSCommon/Utils/src/LibcurlUtils/LibCurlHttpContentFetcher.cpp:62 | the decimal digits of a number have that number as their value |
| HeaderParsing.ReadLongRoundTrip | AVSCommon/Utils/src/LibcurlUtils/LibCurlHttpContentFetcher.cpp:62 | reading a long from whitespace, the decimal spelling of n and a rest not starting with a digit gives back n |
| HeaderParsing.ReadUnsigned | AVSCommon/Utils/src/LibcurlUtils/LibCurlHttpContentFetcher.cpp:62 | an unsigned digit run within the range of `long`, after whitespace, reads as its decimal value |
| HeaderParsing.ReadLongWithoutDigits | AVSCommon/Utils/src/LibcurlUtils/LibCurlHttpContentFetcher.cpp:61-62 | when no sign or digit follows the whitespace, the model's read gives 0 |
| HeaderParsing.CutAtSemicolon | AVSCommon/Utils/src/LibcurlUtils/LibCurlHttpContentFetcher.cpp:72-76 | the stored media type is a `;`-free prefix of the word that stops exactly at its first `;` |
| HeaderParsing.CutBeforeSeparator | AVSCommon/Utils/src/LibcurlUtils/LibCurlHttpContentFetcher.cpp:72-76 | a `;`-free value followed by nothing or by `;` parameters is kept whole |
| HeaderParsing.Classify | AVSCommon/Utils/src/LibcurlUtils/LibCurlHttpContentFetcher.cpp:55-79 | the three-way branch on the lower-cased line: `http` first, then `content-type`, else nothing; characterised by `ClassifyIgnoresCase`, `ContentTypeIsNotHttp`, `StatusLineReadsCode`, `ContentTypeLineReadsValue` and `HttpNamedHeaderStoresZero` |
| HeaderParsing.Update | AVSCommon/Utils/src/LibcurlUtils/LibCurlHttpContentFetcher.cpp:57-79 | the field write of one header line, `m_lastStatusCode` at 64 or `m_lastContentType` at 78; characterised by `UpdateTouchesOneField`, `StatusLineEffect` and `ContentTypeLineEffect` |
| HeaderParsing.UpdateAll | AVSCommon/Utils/src/LibcurlUtils/LibCurlHttpContentFetcher.cpp:50-81 | the header callback applied to each header line in delivery order; characterised by `TransportScript.PlayedMetadata` and `Scenarios.ContentTypeSurvivesRedirect` |
| HeaderParsing.UpdateTouchesOneField | AVSCommon/Utils/src/LibcurlUtils/LibCurlHttpContentFetcher.cpp:57-79 | an `http` line changes only the status code, a `content-type` line changes only the content type, and any other line changes nothing |
| HeaderParsing.ClassifyIgnoresCase | AVSCommon/Utils/src/LibcurlUtils/LibCurlHttpContentFetcher.cpp:55-65 | the classification of a line does not depend on letter case |
| HeaderParsing.ExtractKeepsNoCapitals | AVSCommon/Utils/src/LibcurlUtils/LibCurlHttpContentFetcher.cpp:59-70 | extracting words from a lower-cased line leaves no capital letters in the word or the rest |
| HeaderParsing.ContentTypeIsClean | AVSCommon/Utils/src/LibcurlUtils/LibCurlHttpContentFetcher.cpp:65-78 | a stored content type holds no `;` and no capitals, and is a prefix of the second word of the lower-cased line |
| HeaderParsing.StatusLineEffect | AVSCommon/Utils/src/LibcurlUtils/LibCurlHttpContentFetcher.cpp:57-64 | a line starting with `http` stores the long read after its first word, and keeps the content type |
| HeaderParsing.ContentTypeLineEffect | AVSCommon/Utils/src/LibcurlUtils/LibCurlHttpContentFetcher.cpp:65-78 | a `content-type` line stores the `;`-cut second word, and keeps the status code |
| HeaderParsing.ExtractWordRunsOn | AVSCommon/Utils/src/LibcurlUtils/LibCurlHttpContentFetcher.cpp:59-62 | the first extracted word runs on through any non-whitespace that follows it |
| HeaderParsing.SecondWordOf | AVSCommon/Utils/src/LibcurlUtils/LibCurlHttpContentFetcher.cpp:67-70 | the second extraction from a line yields its second whitespace-separated word |
| HeaderParsing.LowerOfLine | AVSCommon/Utils/src/LibcurlUtils/LibCurlHttpContentFetcher.cpp:55-56 | lower-casing a line lower-cases each of its parts in place |
| HeaderParsing.StatusLineReadsCode | AVSCommon/Utils/src/LibcurlUtils/LibCurlHttpContentFetcher.cpp:57-64 | a line `<http…> <code><non-digit…>` stores exactly that code and keeps the content type |
| HeaderParsing.HttpNamedHeaderStoresZero | AVSCommon/Utils/src/LibcurlUtils/LibCurlHttpContentFetcher.cpp:57-64 | any header whose name starts with `http` and whose value starts with neither a digit nor a sign resets the status code to 0 |
| HeaderParsing.CodeAfterVersion | AVSCommon/Utils/src/LibcurlUtils/LibCurlHttpContentFetcher.cpp:59-62 | after the version word, reading a long from a space, the code's digits and a lower-cased non-digit rest gives the code |
| HeaderParsing.ContentTypeLineReadsValue | AVSCommon/Utils/src/LibcurlUtils/LibCurlHttpContentFetcher.cpp:65-78 | a line `<content-type…> <value>[;params]` stores the lower-cased value and keeps the status code |
| HeaderParsing.ContentTypeIsNotHttp | AVSCommon/Utils/src/LibcurlUtils/LibCurlHttpContentFetcher.cpp:57-65 | helper of `ContentTypeLineEffect`: a `content-type` line never takes the `http` branch, so the `else if` at 65 is the one that runs |
| HeaderParsing.ParametersFollowValue | AVSCommon/Utils/src/LibcurlUtils/LibCurlHttpContentFetcher.cpp:67-76 | after the value, the word either ends or runs on into the `;` parameters |
| WriteBridge.Answer | AVSCommon/Utils/src/LibcurlUtils/LibCurlHttpContentFetcher.cpp:103-107 | a write never takes more than requested; an exhausted sink answers 0 bytes and CLOSED |
| WriteBridge.DeliverFrom | AVSCommon/Utils/src/LibcurlUtils/LibCurlHttpContentFetcher.cpp:99-128 | the bytes accepted lie between those already written and the chunk's size; the callback returns them, or 0 after a rejecting status |
| WriteBridge.DeliverFromStep | AVSCommon/Utils/src/LibcurlUtils/LibCurlHttpContentFetcher.cpp:99-126 | one write decides the delivery by its status: CLOSED and the errors end it with the bytes written, OK_BUFFER_FULL and unknown statuses end it with 0, OK and TIMEDOUT stop on the done flag or go round with the rest of the chunk |
| WriteBridge.Deliver | AVSCommon/Utils/src/LibcurlUtils/LibCurlHttpContentFetcher.cpp:96-128 | the write loop of one body callback, from nothing written and no write made; `ContentFetcher.LibCurlHttpContentFetcher.PushChunk` is proved to compute it, and `UninterruptedDeliveryIsWhole`, `NormalEndReturnsWholeChunk` and `CooperativeSinkTakesChunk` characterise it |
| WriteBridge.EndsDelivery | AVSCommon/Utils/src/LibcurlUtils/LibCurlHttpContentFetcher.cpp:112-115 | CLOSED, ERROR_BYTES_LESS_THAN_WORD_SIZE and ERROR_INTERNAL, after which the callback returns the bytes written; used by `DeliverFromStep`, `DeliveryExits` and `DeliveryStatuses` |
| WriteBridge.RejectsDelivery | AVSCommon/Utils/src/LibcurlUtils/LibCurlHttpContentFetcher.cpp:120-125 | OK_BUFFER_FULL and any status the switch does not list, after which the callback returns 0; used by `DeliverFromStep`, `DeliveryExits` and `DeliveryStatuses` |
| WriteBridge.Retries | AVSCommon/Utils/src/LibcurlUtils/LibCurlHttpContentFetcher.cpp:116-119 | TIMEDOUT and OK, after which the loop goes round again; `DeliveryStatuses` proves every write but the last had one of them |
| WriteBridge.InterruptedWithin | AVSCommon/Utils/src/LibcurlUtils/LibCurlHttpContentFetcher.cpp:355-359 | the destructor's `m_done` store has landed within the writes made so far, which the loop condition then sees; used by `DeliveryExits`, `NormalEndReturnsWholeChunk` and `PushChunk` |
| WriteBridge.DeliveryExits | AVSCommon/Utils/src/LibcurlUtils/LibCurlHttpContentFetcher.cpp:99-128 | a completed delivery took the whole chunk; a stopped one ended right after the write during which done was set; no write happens for an empty rest or after done is set; the write count is bounded by the replies |
| WriteBridge.DeliveryStatuses | AVSCommon/Utils/src/LibcurlUtils/LibCurlHttpContentFetcher.cpp:111-125 | every write before the last reported OK or TIMEDOUT, and a delivery ended by the sink ended on its last write's status |
| WriteBridge.UninterruptedDeliveryIsWhole | AVSCommon/Utils/src/LibcurlUtils/LibCurlHttpContentFetcher.cpp:99-128 | without the destructor the loop never stops on done, and a completed delivery returns the whole chunk |
| WriteBridge.NormalEndReturnsWholeChunk | AVSCommon/Utils/src/LibcurlUtils/LibCurlHttpContentFetcher.cpp:99-128 | the loop stops short only if done was set during it; otherwise a delivery ended by the loop condition returns every byte |
| WriteBridge.TimeoutIsRetry | AVSCommon/Utils/src/LibcurlUtils/LibCurlHttpContentFetcher.cpp:116-119 | a TIMEDOUT write with nothing taken is as if it never happened |
| WriteBridge.CooperativeSinkTakesChunk | AVSCommon/Utils/src/LibcurlUtils/LibCurlHttpContentFetcher.cpp:103-119 | a sink that accepts the whole chunk with OK gets exactly one write and the callback returns the chunk's size |
| WriteBridge.Sink.constructor | AVSCommon/Utils/src/LibcurlUtils/LibCurlHttpContentFetcher.cpp:275-277 | a new attachment writer is open, empty and named by the URL given |
| WriteBridge.Sink.Write | AVSCommon/Utils/src/LibcurlUtils/LibCurlHttpContentFetcher.cpp:103-107 | a write appends the bytes it reports, a prefix of the offered data, and uses up one reply |
| WriteBridge.Sink.Close | AVSCommon/Utils/src/LibcurlUtils/LibCurlHttpContentFetcher.cpp:331-333 | closing leaves the writer closed |
| TransportScript.ProbeFrom | AVSCommon/Utils/src/LibcurlUtils/LibCurlHttpContentFetcher.cpp:218-266 | a resolved probe ended on a successful perform whose code is final; a non-empty content type comes from that step; a shutdown probe used the whole script |
| TransportScript.IsFinalResponse | AVSCommon/Utils/src/LibcurlUtils/LibCurlHttpContentFetcher.cpp:237-238 | a response code is final when it is non-zero and outside 300..399, the redirection range; `ProbeStopsAtFirstFinal` and `ProbeReachesFinal` use it in both directions |
| TransportScript.ContentTypeRun | AVSCommon/Utils/src/LibcurlUtils/LibCurlHttpContentFetcher.cpp:218-222 | the CONTENT_TYPE loop as it starts, with one transfer left and code 0; characterised by `ProbeCodeComesFromTransport` and by `RunContentTypeDriver`, which fulfils its code and type |
| TransportScript.ProbeStopsAtFirstFinal | AVSCommon/Utils/src/LibcurlUtils/LibCurlHttpContentFetcher.cpp:222-250 | no step before the last one read a final code, and the reported code is the start value or one the transport reported |
| TransportScript.ProbeReachesFinal | AVSCommon/Utils/src/LibcurlUtils/LibCurlHttpContentFetcher.cpp:222-266 | when every earlier step goes round again and a step reads a final code, the probe ends there with that code and that step's content type, or "" |
| TransportScript.ProbeCodeComesFromTransport | AVSCommon/Utils/src/LibcurlUtils/LibCurlHttpContentFetcher.cpp:219-261 | the status code of a CONTENT_TYPE fetch is 0 or a code the transport reported |
| TransportScript.BodyLoopFrom | AVSCommon/Utils/src/LibcurlUtils/LibCurlHttpContentFetcher.cpp:305-323 | the ENTIRE_BODY loop ends on no transfers left, shutdown, a perform error or a wait error, never on a response code |
| TransportScript.EntireBodyRun | AVSCommon/Utils/src/LibcurlUtils/LibCurlHttpContentFetcher.cpp:305-306 | the ENTIRE_BODY loop as it starts, with one transfer left; `LiveStreamRunsUntilShutdown` and `PerformUntilDone` characterise it |
| TransportScript.LiveStreamRunsUntilShutdown | AVSCommon/Utils/src/LibcurlUtils/LibCurlHttpContentFetcher.cpp:305-339 | while the transport keeps a transfer open and no call fails, the body loop runs until the shutdown flag ends it |
| TransportScript.PlayedMetadata | AVSCommon/Utils/src/LibcurlUtils/LibCurlHttpContentFetcher.cpp:50-81 | after any run of callbacks, the last-seen metadata is the header lines applied in order; body chunks do not touch it |
| TransportScript.Play | AVSCommon/Utils/src/LibcurlUtils/LibCurlHttpContentFetcher.cpp:50-129 | one callback: a header line is applied by `Update`, a body chunk goes through `Deliver` into the sink; `ContentFetcher.LibCurlHttpContentFetcher.Dispatch` is proved to do it, and `PlayHeaderKeepsSink` and `PlayCooperativeChunk` characterise it |
| TransportScript.PlayAll | AVSCommon/Utils/src/LibcurlUtils/LibCurlHttpContentFetcher.cpp:305-323 | the callbacks of a run applied in order; characterised by `PlayedMetadata`, `FullBodyRoundTrip`, `RoundTripUnderBackpressure`, `PlayAllSnoc` and `PlayAllAppend`, and computed by `PerformUntilDone` |
| TransportScript.FullBodyRoundTrip | AVSCommon/Utils/src/LibcurlUtils/LibCurlHttpContentFetcher.cpp:96-128 | with a cooperative sink, the writer's log is exactly the body bytes delivered, in order, and one reply is used per non-empty chunk |
| TransportScript.RoundTripUnderBackpressure | AVSCommon/Utils/src/LibcurlUtils/LibCurlHttpContentFetcher.cpp:96-128 | when each chunk's write loop runs to completion, however many partial writes and TIMEDOUT answers it takes, the writer's log is exactly the body bytes delivered, in order |
| TransportScript.ExtendByChunk | AVSCommon/Utils/src/LibcurlUtils/LibCurlHttpContentFetcher.cpp:96-128 | the round trip extends by one more cooperatively written chunk |
| TransportScript.PlayHeaderKeepsSink | AVSCommon/Utils/src/LibcurlUtils/LibCurlHttpContentFetcher.cpp:50-81 | a header line never writes to the sink |
| TransportScript.PlayCooperativeChunk | AVSCommon/Utils/src/LibcurlUtils/LibCurlHttpContentFetcher.cpp:99-119 | a chunk that a cooperative sink accepts at once is appended whole and uses one reply |
| ContentFetcher.FailIndex | AVSCommon/Utils/src/LibcurlUtils/LibCurlHttpContentFetcher.cpp:150-184 | the position where a configuration chain stops: every earlier step succeeds, and the step there fails |
| ContentFetcher.ModePlan | AVSCommon/Utils/src/LibcurlUtils/LibCurlHttpContentFetcher.cpp:194-293 | the mode steps: the no-op write function for CONTENT_TYPE; for ENTIRE_BODY the writer creation only when none was given, then the body and header callbacks; `ConfigureMode` is proved to try them in this order |
| ContentFetcher.ConfigPlan | AVSCommon/Utils/src/LibcurlUtils/LibCurlHttpContentFetcher.cpp:150-293 | every configuration step of one call: the six transport options of `CommonPlan` (URL, FOLLOWLOCATION, AUTOREFERER, COOKIEFILE, connection timeout, USERAGENT), then the mode steps; `ConfigureAndStart` and `FailIndexAppend` characterise it |
| ContentFetcher.Attempted | AVSCommon/Utils/src/LibcurlUtils/LibCurlHttpContentFetcher.cpp:150-293 | the steps a call tries: all of them, or those up to and including the first rejected one; `ConfigureTransport`, `ConfigureAndStart` and `AttemptedAppend` characterise it |
| ContentFetcher.FirstFailure | AVSCommon/Utils/src/LibcurlUtils/LibCurlHttpContentFetcher.cpp:150-293 | the step whose rejection makes `getContent` return null, if any; `ConfigureAndStart` reports it as the error, and `AttemptedAppend` and `Scenarios.RejectedAutoReferer` characterise it |
| ContentFetcher.FailIndexIsUnique | AVSCommon/Utils/src/LibcurlUtils/LibCurlHttpContentFetcher.cpp:150-184 | any position with those two properties is the stopping position |
| ContentFetcher.FailIndexAppend | AVSCommon/Utils/src/LibcurlUtils/LibCurlHttpContentFetcher.cpp:150-293 | the transport options and then the mode steps stop in the first chain, or else where the second one stops |
| ContentFetcher.AttemptedAppend | AVSCommon/Utils/src/LibcurlUtils/LibCurlHttpContentFetcher.cpp:150-293 | the steps tried and the failing step of the whole chain, in terms of its two parts |
| ContentFetcher.LibCurlHttpContentFetcher.constructor | AVSCommon/Utils/src/LibcurlUtils/LibCurlHttpContentFetcher.cpp:135-141 | a new fetcher is unused, with code 0, an empty content type, clear flags, no writer, no thread and unfulfilled promises |
| ContentFetcher.LibCurlHttpContentFetcher.HeaderCallback | AVSCommon/Utils/src/LibcurlUtils/LibCurlHttpContentFetcher.cpp:50-81 | without user data it returns 0 and changes nothing; otherwise the last-seen fields become the line's update and it returns `size * nmemb` |
| ContentFetcher.LibCurlHttpContentFetcher.BodyCallback | AVSCommon/Utils/src/LibcurlUtils/LibCurlHttpContentFetcher.cpp:83-129 | without user data, once done, or without a writer it returns 0 and changes nothing; otherwise the writer's log grows by the accepted prefix of the chunk and the result is the delivery's outcome |
| ContentFetcher.LibCurlHttpContentFetcher.PushChunk | AVSCommon/Utils/src/LibcurlUtils/LibCurlHttpContentFetcher.cpp:96-128 | the write loop appends exactly the accepted prefix, uses one reply per write, sets done only if the destructor lands, and returns what `Deliver` says |
| ContentFetcher.LibCurlHttpContentFetcher.Turn | AVSCommon/Utils/src/LibcurlUtils/LibCurlHttpContentFetcher.cpp:103-125 | one turn of the write loop appends what the writer took, uses one reply, sets done exactly when the destructor lands in this write, and a result it returns is what the whole delivery returns; otherwise the delivery goes on from the new position or has stopped on done |
| ContentFetcher.LibCurlHttpContentFetcher.WriteRest | AVSCommon/Utils/src/LibcurlUtils/LibCurlHttpContentFetcher.cpp:103-109 | one write offers the rest of the chunk, takes the sink's next answer, and lets the destructor's stores land during that write only |
| ContentFetcher.LibCurlHttpContentFetcher.Configure | AVSCommon/Utils/src/LibcurlUtils/LibCurlHttpContentFetcher.cpp:150-184 | one configuration call is recorded and succeeds unless the transport rejects it |
| ContentFetcher.LibCurlHttpContentFetcher.ConfigureTransport | AVSCommon/Utils/src/LibcurlUtils/LibCurlHttpContentFetcher.cpp:150-184 | the six transport options are set in order up to and including the first rejected one, and that one is reported |
| ContentFetcher.LibCurlHttpContentFetcher.ConfigureMode | AVSCommon/Utils/src/LibcurlUtils/LibCurlHttpContentFetcher.cpp:194-293 | the mode steps are tried in order; only full success starts the matching thread; the writer is the caller's or a fresh local one named by the URL; the stream is returned only for a local writer |
| ContentFetcher.LibCurlHttpContentFetcher.ConfigureAndStart | AVSCommon/Utils/src/LibcurlUtils/LibCurlHttpContentFetcher.cpp:150-293 | the transport options and then the mode steps are tried in order up to the first rejected one, which is the error reported; full success starts the thread of the chosen mode, and only a full-body fetch with a writer of its own returns the stream |
| ContentFetcher.LibCurlHttpContentFetcher.GetContent | AVSCommon/Utils/src/LibcurlUtils/LibCurlHttpContentFetcher.cpp:143-351 | a second call fails and changes nothing; a first call sets the used flag, makes the configuration calls in order, fails exactly when one is rejected, and starts the mode's thread only on success |
| ContentFetcher.LibCurlHttpContentFetcher.FulfilStatusCode | AVSCommon/Utils/src/LibcurlUtils/LibCurlHttpContentFetcher.cpp:261 | the status-code promise is set once, to the value given |
| ContentFetcher.LibCurlHttpContentFetcher.FulfilContentType | AVSCommon/Utils/src/LibcurlUtils/LibCurlHttpContentFetcher.cpp:262-266 | the content-type promise is set once, to the value given |
| ContentFetcher.LibCurlHttpContentFetcher.Destroy | AVSCommon/Utils/src/LibcurlUtils/LibCurlHttpContentFetcher.cpp:353-360 | with a thread started, done and shutdown are set; otherwise nothing changes |
| ContentFetcher.LibCurlHttpContentFetcher.RunContentTypeDriver | AVSCommon/Utils/src/LibcurlUtils/LibCurlHttpContentFetcher.cpp:207-270 | without a multi handle both promises get 0 and ""; otherwise they get the probe's code and content type, and shutdown is set only by the destructor |
| ContentFetcher.LibCurlHttpContentFetcher.Dispatch | AVSCommon/Utils/src/LibcurlUtils/LibCurlHttpContentFetcher.cpp:50-129 | one callback changes the fetcher and its sink as `Play` says, and leaves the flags and the writer's open state alone |
| ContentFetcher.LibCurlHttpContentFetcher.PerformStep | AVSCommon/Utils/src/LibcurlUtils/LibCurlHttpContentFetcher.cpp:307 | one perform makes that step's callbacks in order and reports its result and transfers left |
| ContentFetcher.LibCurlHttpContentFetcher.RunEntireBodyDriver | AVSCommon/Utils/src/LibcurlUtils/LibCurlHttpContentFetcher.cpp:294-344 | without a multi handle, promises 0 and "" and nothing else changes; otherwise the fetcher and sink show exactly the callbacks of the performs made, the promises get the last-seen values, done is set, and the writer is closed only if it was local |
| ContentFetcher.LibCurlHttpContentFetcher.PerformUntilDone | AVSCommon/Utils/src/LibcurlUtils/LibCurlHttpContentFetcher.cpp:305-323 | the perform loop replays exactly the callbacks of the performs it ran, and sets shutdown only when the destructor stopped it |
| ContentFetcher.LibCurlHttpContentFetcher.FinishEntireBody | AVSCommon/Utils/src/LibcurlUtils/LibCurlHttpContentFetcher.cpp:325-340 | after the loop both promises get the last-seen code and content type, a locally created writer is closed, a caller's writer stays as it was, and done is set |
| ContentFetcher.PlayAllSnoc | AVSCommon/Utils/src/LibcurlUtils/LibCurlHttpContentFetcher.cpp:307 | one more callback extends the replayed run by one step |
| ContentFetcher.PlayAllAppend | AVSCommon/Utils/src/LibcurlUtils/LibCurlHttpContentFetcher.cpp:306-323 | two runs of callbacks one after the other are the concatenated run |
| ContentFetcher.SecondGetContentFails | AVSCommon/Utils/src/LibcurlUtils/LibCurlHttpContentFetcher.cpp:146-149 | whatever the first call did, a second `getContent` on the same fetcher fails |
| Scenarios.ContentTypeWithCharset | AVSCommon/Utils/src/LibcurlUtils/LibCurlHttpContentFetcher.cpp:65-78 | `Content-Type: text/plain; charset=utf-8` stores `text/plain` |
| Scenarios.ContentTypeHtml | AVSCommon/Utils/src/LibcurlUtils/LibCurlHttpContentFetcher.cpp:65-78 | `Content-Type: text/html` stores `text/html` |
| Scenarios.StatusLineOk | AVSCommon/Utils/src/LibcurlUtils/LibCurlHttpContentFetcher.cpp:57-64 | `HTTP/1.1 200 OK` stores 200 |
| Scenarios.StatusLineMoved | AVSCommon/Utils/src/LibcurlUtils/LibCurlHttpContentFetcher.cpp:57-64 | `HTTP/1.1 301 Moved` stores 301 |
| Scenarios.StatusLineRunTogether | AVSCommon/Utils/src/LibcurlUtils/LibCurlHttpContentFetcher.cpp:57-64 | `HTTP/1.1 200OK` still stores 200 |
| Scenarios.StatusLineWithoutCode | AVSCommon/Utils/src/LibcurlUtils/LibCurlHttpContentFetcher.cpp:57-64 | `HTTP/1.1 OK`, with no number after the version, resets the code to 0 |
| Scenarios.HeaderNamedLikeStatusLine | AVSCommon/Utils/src/LibcurlUtils/LibCurlHttpContentFetcher.cpp:57-64 | `HTTP2-Settings: AAMA` resets the code to 0 |
| Scenarios.OtherHeaderIgnored | AVSCommon/Utils/src/LibcurlUtils/LibCurlHttpContentFetcher.cpp:57-80 | `Content-Length: 42` changes nothing |
| Scenarios.ContentTypeSurvivesRedirect | AVSCommon/Utils/src/LibcurlUtils/LibCurlHttpContentFetcher.cpp:57-78 | a 301, a content type and a 200 leave code 200 with the redirect's content type |
| Scenarios.BackpressureLosesNothing | AVSCommon/Utils/src/LibcurlUtils/LibCurlHttpContentFetcher.cpp:99-119 | `hello` written 2 bytes, then a timeout, then 3 bytes is delivered whole in three writes |
| Scenarios.BufferFullReportsNothing | AVSCommon/Utils/src/LibcurlUtils/LibCurlHttpContentFetcher.cpp:120-122 | OK_BUFFER_FULL after a partial write makes the callback report 0 |
| Scenarios.ShutdownStopsWriting | AVSCommon/Utils/src/LibcurlUtils/LibCurlHttpContentFetcher.cpp:99-119 | the destructor landing during the first write stops the loop after 2 bytes |
| Scenarios.ChunkedBodyRoundTrip | AVSCommon/Utils/src/LibcurlUtils/LibCurlHttpContentFetcher.cpp:96-128 | chunks `he` and `llo` leave `hello` in the writer and use two replies |
| Scenarios.ProbeFollowsRedirect | AVSCommon/Utils/src/LibcurlUtils/LibCurlHttpContentFetcher.cpp:222-266 | a 301 then a 200 with a content type resolves to 200 and that type |
| Scenarios.ProbeWithoutContentType | AVSCommon/Utils/src/LibcurlUtils/LibCurlHttpContentFetcher.cpp:237-266 | a final code without a content type resolves with "" |
| Scenarios.ProbeEndsOnRedirect | AVSCommon/Utils/src/LibcurlUtils/LibCurlHttpContentFetcher.cpp:222-266 | a transfer that ends on a 302 reports 302 and "" |
| Scenarios.HelloPlayback | AVSCommon/Utils/src/LibcurlUtils/LibCurlHttpContentFetcher.cpp:306-326 | two performs with a 200 line, a content type and two chunks leave code 200, `text/html` and `hello` |
| Scenarios.FetchHello | AVSCommon/Utils/src/LibcurlUtils/LibCurlHttpContentFetcher.cpp:272-351 | a full-body fetch into a local attachment yields 200 and `text/html`, and the stream `getContent` returned is closed and holds `hello` |
| Scenarios.FetchHelloIntoCallerWriter | AVSCommon/Utils/src/LibcurlUtils/LibCurlHttpContentFetcher.cpp:272-340 | with the caller's writer, no stream is returned, and the writer holds `hello` and stays open |
| Scenarios.FullBodyWithoutMultiHandle | AVSCommon/Utils/src/LibcurlUtils/LibCurlHttpContentFetcher.cpp:294-302 | a failed multi handle gives 0 and "" and leaves the writer open and done clear |
| Scenarios.BodyAfterDestructor | AVSCommon/Utils/src/LibcurlUtils/LibCurlHttpContentFetcher.cpp:89-92 | after the destructor, a body chunk is refused with 0 and nothing is written |
| Scenarios.ProbeRedirectedUrl | AVSCommon/Utils/src/LibcurlUtils/LibCurlHttpContentFetcher.cpp:207-270 | the CONTENT_TYPE thread on a redirect to a 200 JSON response fulfils 200 and `application/json` |
| Scenarios.RejectedAutoReferer | AVSCommon/Utils/src/LibcurlUtils/LibCurlHttpContentFetcher.cpp:159-165 | a rejected AUTOREFERER fails `getContent` after exactly URL, FOLLOWLOCATION and AUTOREFERER were tried |

## Left out

- libcurl itself: `setopt` and `getinfo` results are the `failing` set and the step script. The multi handle's `perform`, `wait`, `addHandle` and `removeHandle` are script entries or are not modelled. `CurlMultiHandleWrapper` and `CurlEasyHandleWrapper` are not part of this model.
- Threads, `join`, the atomic `test_and_set`, and blocking on a future. Each driver runs as a method. The destructor's stores happen at two points: when the script is used up, or during the write named by `interruptAt`.
- ContentFetcher.LibCurlHttpContentFetcher.RunEntireBodyDriver: its callbacks run with `interruptAt` set to None. A destructor landing inside a body write is modelled only in `BodyCallback` and `PushChunk`.
- ContentFetcher.LibCurlHttpContentFetcher.RunContentTypeDriver: the body callbacks of the CONTENT_TYPE mode go to `noopCallback`, so the driver ignores each step's deliveries.
- `noopCallback` (lines 131-133): it returns 0, so libcurl aborts the body transfer. That abort is part of the script, not of the model.
- ContentFetcher.LibCurlHttpContentFetcher.BodyCallback: `size * nmemb` is unbounded. The `size_t` wrap-around of the product is not modelled.
- HeaderParsing.ReadLong: `long` is taken to be 64 bits, as on LP64 targets. Stream state after a failed read does not matter, because each line gets a new stream.
- HeaderParsing.ReadLong: when only whitespace follows the first word, as in a bare `HTTP/1.1` line, the source never writes its local `statusCode` and stores an uninitialised value. The model stores 0 there; `HttpNamedHeaderStoresZero` and the scenarios claim 0 only when non-numeric text follows.
- Logging, the user-agent string and the timeout constants. They do not affect any result.
- The unreachable `default:` branch of the mode switch, and its null return. `FetchOption` has only two values.
- A failed `getinfo` for the response code leaves the code as it was, and the model does the same. The redirect range 300-399 is written out here because `HttpResponseCodes.h` is not part of this model.
- The attachment's buffer, readers and word-size rules (`InProcessAttachment`, `SharedDataStream`) are not part of this model. The sink answers from a script of replies, and an exhausted script answers 0 bytes with CLOSED.
- The futures are modelled by the promise fields; the returned `HttpContent` carries only the stream.
