/**
 * LibCurlHttpContentFetcher: a one-shot fetch of a URL that hands back
 * futures for the response's status code and content type (and, for a
 * full-body fetch, a stream of the body) while a background driver runs
 * the transfer.
 *
 * The class keeps the fetcher's fields and its operations: the header and
 * body callbacks libcurl calls, getContent with its single-use guard,
 * configuration chain and mode selection, the bodies of the two driver
 * threads, and the flag stores of the destructor. libcurl, the sink and
 * the interleaving with the owner's thread are scripts given as parameters.
 */
module ContentFetcher {
  import opened Base
  import opened HeaderParsing
  import opened WriteBridge
  import opened TransportScript

  /** FetchOptions: only the response's metadata, or the whole body too. */
  datatype FetchOption = ContentTypeOnly | EntireBody

  /** The configuration calls getContent makes before starting a driver; each can fail. */
  datatype ConfigStep =
    | SetUrl
    | FollowRedirects      // CURLOPT_FOLLOWLOCATION
    | AutoReferer          // CURLOPT_AUTOREFERER
    | CookieEngine         // CURLOPT_COOKIEFILE ""
    | ConnectionTimeout
    | SetUserAgent         // CURLOPT_USERAGENT
    | SetNoopWriteFunction // CONTENT_TYPE: CURLOPT_WRITEFUNCTION = noopCallback
    | CreateWriter         // ENTIRE_BODY without a writer: the local attachment's writer
    | SetWriteCallback     // ENTIRE_BODY: bodyCallback
    | SetHeaderCallback    // ENTIRE_BODY: headerCallback

  /** Why getContent returned no content (it returns a null pointer in every case). */
  datatype FetchError = AlreadyUsed | ConfigurationFailed(step: ConfigStep)

  datatype Result<T> = Success(value: T) | Failure(error: FetchError)

  /** The driver thread getContent starts, with what its lambda captures. */
  datatype Driver = ContentTypeDriver | EntireBodyDriver(writerWasCreatedLocally: bool)

  /**
   * What getContent returns: the futures are the read ends of the fetcher's
   * two promises; the stream is the locally created attachment, or null.
   */
  datatype HttpContent = HttpContent(stream: Sink?)

  /** The transport options both modes set, in order. */
  const CommonPlan: seq<ConfigStep> :=
    [SetUrl, FollowRedirects, AutoReferer, CookieEngine, ConnectionTimeout, SetUserAgent]

  /** The mode-specific steps that follow; a local writer is created only when none was given. */
  function ModePlan(option: FetchOption, writerGiven: bool): seq<ConfigStep> {
    match option
    case ContentTypeOnly => [SetNoopWriteFunction]
    case EntireBody => (if writerGiven then [] else [CreateWriter]) + [SetWriteCallback, SetHeaderCallback]
  }

  /** The configuration steps of one getContent call, in the order it makes them. */
  function ConfigPlan(option: FetchOption, writerGiven: bool): seq<ConfigStep> {
    CommonPlan + ModePlan(option, writerGiven)
  }

  /** The position of the first step of `plan` that fails, or |plan| when none does. */
  function FailIndex(plan: seq<ConfigStep>, failing: set<ConfigStep>): (k: nat)
    ensures k <= |plan|
    ensures forall i :: 0 <= i < k ==> plan[i] !in failing
    ensures k < |plan| ==> plan[k] in failing
  {
    if plan == [] || plan[0] in failing then 0 else 1 + FailIndex(plan[1..], failing)
  }

  /** The steps getContent tries: all of them, or up to and including the first that fails. */
  function Attempted(plan: seq<ConfigStep>, failing: set<ConfigStep>): seq<ConfigStep> {
    var k := FailIndex(plan, failing);
    if k < |plan| then plan[..k + 1] else plan
  }

  /** The step that makes getContent give up, if any. */
  function FirstFailure(plan: seq<ConfigStep>, failing: set<ConfigStep>): Option<ConfigStep> {
    var k := FailIndex(plan, failing);
    if k < |plan| then Some(plan[k]) else None
  }

  /** The first failing step is the one a configuration chain stops at: every step before it succeeds. */
  lemma FailIndexIsUnique(plan: seq<ConfigStep>, failing: set<ConfigStep>, k: nat)
    requires k <= |plan|
    requires forall i :: 0 <= i < k ==> plan[i] !in failing
    requires k < |plan| ==> plan[k] in failing
    ensures FailIndex(plan, failing) == k
  {
  }

  /** A chain made of two chains fails in the first one, or else where the second one fails. */
  lemma FailIndexAppend(a: seq<ConfigStep>, b: seq<ConfigStep>, failing: set<ConfigStep>)
    ensures FailIndex(a + b, failing) ==
            if FailIndex(a, failing) < |a| then FailIndex(a, failing) else |a| + FailIndex(b, failing)
  {
    var ka := FailIndex(a, failing);
    if ka < |a| {
      assert forall i :: 0 <= i <= ka ==> (a + b)[i] == a[i];
      FailIndexIsUnique(a + b, failing, ka);
    } else {
      var kb := FailIndex(b, failing);
      assert forall i :: 0 <= i < |a| ==> (a + b)[i] == a[i];
      assert forall i :: |a| <= i < |a| + |b| ==> (a + b)[i] == b[i - |a|];
      FailIndexIsUnique(a + b, failing, |a| + kb);
    }
  }

  /** What a two-part chain attempts, and where it fails, in terms of its parts. */
  lemma AttemptedAppend(a: seq<ConfigStep>, b: seq<ConfigStep>, failing: set<ConfigStep>)
    ensures FirstFailure(a, failing).Some? ==>
              Attempted(a + b, failing) == Attempted(a, failing) &&
              FirstFailure(a + b, failing) == FirstFailure(a, failing)
    ensures FirstFailure(a, failing).None? ==>
              Attempted(a + b, failing) == a + Attempted(b, failing) &&
              FirstFailure(a + b, failing) == FirstFailure(b, failing)
  {
    FailIndexAppend(a, b, failing);
    var ab, ka := a + b, FailIndex(a, failing);
    if ka < |a| {
      assert FailIndex(ab, failing) == ka;
      assert ab[..ka + 1] == a[..ka + 1] && ab[ka] == a[ka];
    } else {
      var kb := FailIndex(b, failing);
      assert FailIndex(ab, failing) == |a| + kb;
      if kb < |b| {
        assert ab[..|a| + kb + 1] == a + b[..kb + 1] && ab[|a| + kb] == b[kb];
      } else {
        assert Attempted(ab, failing) == ab;
      }
    }
  }

  class LibCurlHttpContentFetcher {
    const url: string
    var lastStatusCode: int
    var lastContentType: string
    var done: bool
    var isShutdown: bool
    var hasObjectBeenUsed: bool
    var streamWriter: Sink?
    /** The two promises; a present value is a fulfilled promise. */
    var statusCodePromise: Option<int>
    var contentTypePromise: Option<string>
    /** The background thread, once getContent has started one. */
    var thread: Option<Driver>
    /** The configuration calls made on the transport handle, in order. */
    ghost var configured: seq<ConfigStep>

    /**
     * The object invariant: a thread is only started by a call that set the
     * used flag; a full-body thread always has a writer; the promises are
     * only fulfilled by a thread; the shutdown flag comes with the done flag,
     * and done without shutdown only after a full-body driver has finished.
     */
    ghost predicate Valid()
      reads this
    {
      (thread.Some? ==> hasObjectBeenUsed) &&
      (thread.Some? && thread.value.EntireBodyDriver? ==> streamWriter != null) &&
      (thread.None? ==> statusCodePromise.None? && contentTypePromise.None?) &&
      (isShutdown ==> done) &&
      (done && !isShutdown ==> statusCodePromise.Some? && contentTypePromise.Some?)
    }

    /** The last-seen metadata together with the sink's log and unused replies. */
    ghost function Observe(): Observed
      reads this`lastStatusCode, this`lastContentType, this`streamWriter, streamWriter`log, streamWriter`replies
      requires streamWriter != null
    {
      Observed(LastSeen(lastStatusCode, lastContentType), streamWriter.log, streamWriter.replies)
    }

    constructor (url: string)
      ensures Valid()
      ensures this.url == url && lastStatusCode == 0 && lastContentType == ""
      ensures !done && !isShutdown && !hasObjectBeenUsed
      ensures streamWriter == null && thread == None
      ensures statusCodePromise == None && contentTypePromise == None
      ensures configured == []
    {
      this.url := url;
      lastStatusCode := 0;
      lastContentType := "";
      done := false;
      isShutdown := false;
      hasObjectBeenUsed := false;
      streamWriter := null;
      statusCodePromise := None;
      contentTypePromise := None;
      thread := None;
      configured := [];
    }

    // -------------------------------------------------------------------------
    // Callbacks
    // -------------------------------------------------------------------------

    /**
     * headerCallback: `size * nmemb` characters of one header line. Without
     * the user-data pointer it returns 0 and touches nothing; otherwise it
     * applies the line to the last-seen metadata and reports the whole line
     * consumed.
     */
    method HeaderCallback(data: string, size: nat, nmemb: nat, hasUserData: bool) returns (r: nat)
      requires |data| == size * nmemb
      modifies this`lastStatusCode, this`lastContentType
      ensures r == if hasUserData then size * nmemb else 0
      ensures hasUserData ==>
                LastSeen(lastStatusCode, lastContentType) == Update(old(LastSeen(lastStatusCode, lastContentType)), data)
      ensures !hasUserData ==> lastStatusCode == old(lastStatusCode) && lastContentType == old(lastContentType)
    {
      if !hasUserData {
        return 0;
      }
      var line := Lower(data);
      if StartsWith(line, "http") {
        lastStatusCode := ReadLong(Extract(line).1);
      } else if StartsWith(line, "content-type") {
        lastContentType := CutAtSemicolon(SecondWord(line));
      }
      return size * nmemb;
    }

    /**
     * bodyCallback: `size * nmemb` bytes of the body. Without the user-data
     * pointer, once the done flag is set, or without a stream writer it
     * returns 0 and touches nothing; otherwise it pushes the chunk into the
     * writer. `interruptAt` says whether the
     * owner's destructor sets the done and shutdown flags while one of the
     * writes is blocked.
     */
    method BodyCallback(chunk: seq<uint8>, size: nat, nmemb: nat, hasUserData: bool, interruptAt: Option<nat>)
      returns (r: nat)
      requires |chunk| == size * nmemb
      modifies this`done, this`isShutdown, streamWriter
      ensures !hasUserData || old(done) || streamWriter == null ==>
                r == 0 && done == old(done) && isShutdown == old(isShutdown) &&
                (streamWriter != null ==> unchanged(streamWriter))
      ensures hasUserData && !old(done) && streamWriter != null ==>
                var o := Deliver(chunk, old(streamWriter.replies), interruptAt);
                r == o.returned &&
                streamWriter.log == old(streamWriter.log) + chunk[..o.accepted] &&
                streamWriter.replies == Drop(old(streamWriter.replies), o.calls) &&
                streamWriter.closed == old(streamWriter.closed) &&
                done == InterruptedWithin(interruptAt, o.calls) &&
                isShutdown == (old(isShutdown) || done)
    {
      if !hasUserData {
        return 0;
      }
      if done {
        return 0;
      }
      var writer := streamWriter;
      var totalBytesWritten := 0;
      if writer != null {
        totalBytesWritten := PushChunk(writer, chunk, interruptAt);
      }
      return totalBytesWritten;
    }

    /**
     * The write loop of bodyCallback: what is left of the chunk is offered
     * to the writer until all of it is taken or the done flag is seen; OK
     * and TIMEDOUT go round again, CLOSED and the errors return the bytes
     * written so far, OK_BUFFER_FULL and an unknown status return 0.
     */
    method PushChunk(writer: Sink, chunk: seq<uint8>, interruptAt: Option<nat>) returns (r: nat)
      requires !done
      modifies this`done, this`isShutdown, writer
      ensures var o := Deliver(chunk, old(writer.replies), interruptAt);
              r == o.returned &&
              writer.log == old(writer.log) + chunk[..o.accepted] &&
              writer.replies == Drop(old(writer.replies), o.calls) &&
              done == InterruptedWithin(interruptAt, o.calls)
      ensures writer.closed == old(writer.closed)
      ensures isShutdown == (old(isShutdown) || done)
    {
      var totalBytesWritten := 0;
      var targetNumBytes := |chunk|;
      ghost var replies0, log0 := writer.replies, writer.log;
      ghost var outcome := Deliver(chunk, replies0, interruptAt);
      // the environment's clock: the write calls made so far
      var calls := 0;
      while totalBytesWritten < targetNumBytes && !done
        invariant 0 <= totalBytesWritten <= targetNumBytes
        invariant writer.log == log0 + chunk[..totalBytesWritten]
        invariant writer.replies == Drop(replies0, calls)
        invariant writer.closed == old(writer.closed)
        invariant done == InterruptedWithin(interruptAt, calls)
        invariant isShutdown == (old(isShutdown) || done)
        invariant !done ==> outcome == DeliverFrom(chunk, totalBytesWritten, writer.replies, interruptAt, calls)
        invariant done ==>
                    outcome == WriteOutcome(totalBytesWritten, totalBytesWritten, calls, Stopped) ||
                    (totalBytesWritten == targetNumBytes &&
                     outcome == WriteOutcome(totalBytesWritten, totalBytesWritten, calls, Completed))
        decreases |writer.replies|, targetNumBytes - totalBytesWritten, if done then 0 else 1
      {
        var stop;
        totalBytesWritten, stop := Turn(writer, chunk, totalBytesWritten, interruptAt, calls, replies0, log0);
        calls := calls + 1;
        if stop.Some? {
          return stop.value;
        }
      }
      return totalBytesWritten;
    }

    /**
     * One turn of the write loop and the switch on the status the writer
     * reported: `stop` is what the callback returns when that status ends
     * the loop, `None` when the loop goes round again.
     */
    method Turn(writer: Sink, chunk: seq<uint8>, total: nat, interruptAt: Option<nat>, calls: nat,
                ghost replies0: seq<WriteReply>, ghost log0: seq<uint8>)
      returns (total': nat, stop: Option<nat>)
      requires total < |chunk| && !done && !InterruptedWithin(interruptAt, calls)
      requires writer.log == log0 + chunk[..total] && writer.replies == Drop(replies0, calls)
      modifies this`done, this`isShutdown, writer`replies, writer`log
      ensures total' <= |chunk| && writer.log == log0 + chunk[..total']
      ensures writer.replies == Drop(replies0, calls + 1)
      ensures done == InterruptedWithin(interruptAt, calls + 1) && isShutdown == (old(isShutdown) || done)
      ensures var o := DeliverFrom(chunk, total, old(writer.replies), interruptAt, calls);
              (stop.Some? ==> stop.value == o.returned && total' == o.accepted && o.calls == calls + 1) &&
              (stop.None? && !done ==> o == DeliverFrom(chunk, total', writer.replies, interruptAt, calls + 1)) &&
              (stop.None? && done ==>
                 o == WriteOutcome(total', total', calls + 1, Stopped) ||
                 (total' == |chunk| && o == WriteOutcome(total', total', calls + 1, Completed)))
    {
      ghost var before := writer.replies;
      var numBytesWritten, writeStatus := WriteRest(writer, chunk, total, interruptAt, calls);
      PrefixGrows(log0, chunk, total, numBytesWritten);
      DeliverFromStep(chunk, total, before, interruptAt, calls, numBytesWritten, writeStatus);
      assert Drop(before, 1) == Drop(replies0, calls + 1);
      total' := total + numBytesWritten;
      match writeStatus
      case Closed | ErrorBytesLessThanWordSize | ErrorInternal =>
        stop := Some(total');
      case TimedOut | Ok =>
        // might still have bytes to write
        stop := None;
      case OkBufferFull | Unrecognized =>
        stop := Some(0);
    }

    /**
     * One turn of the write loop: what is left of the chunk after `total`
     * bytes is offered to the writer, and the destructor's stores land if
     * this is the write, number `calls`, during which it runs.
     */
    method WriteRest(writer: Sink, chunk: seq<uint8>, total: nat, interruptAt: Option<nat>, calls: nat)
      returns (n: nat, status: WriteStatus)
      requires total < |chunk|
      modifies this`done, this`isShutdown, writer`replies, writer`log
      ensures WriteReply(n, status) == Answer(old(writer.replies), |chunk| - total)
      ensures total + n <= |chunk| && writer.log == old(writer.log) + chunk[total..][..n]
      ensures writer.replies == Drop(old(writer.replies), 1)
      ensures interruptAt == Some(calls) ==> done && isShutdown
      ensures interruptAt != Some(calls) ==> done == old(done) && isShutdown == old(isShutdown)
    {
      n, status := writer.Write(chunk[total..]);
      if interruptAt == Some(calls) {
        // the destructor's stores land while this write is blocked
        done := true;
        isShutdown := true;
      }
    }

    // -------------------------------------------------------------------------
    // getContent
    // -------------------------------------------------------------------------

    /** One configuration call on the transport handle; it fails when the transport rejects it. */
    method Configure(step: ConfigStep, failing: set<ConfigStep>) returns (ok: bool)
      modifies this`configured
      ensures configured == old(configured) + [step]
      ensures ok == (step !in failing)
    {
      configured := configured + [step];
      ok := step !in failing;
    }

    /** The transport options of getContent, in order, up to the first one the transport rejects. */
    method ConfigureTransport(failing: set<ConfigStep>) returns (failure: Option<ConfigStep>)
      modifies this`configured
      ensures configured == old(configured) + Attempted(CommonPlan, failing)
      ensures failure == FirstFailure(CommonPlan, failing)
    {
      var ok := Configure(SetUrl, failing);
      if !ok {
        FailIndexIsUnique(CommonPlan, failing, 0);
        return Some(SetUrl);
      }
      ok := Configure(FollowRedirects, failing);
      if !ok {
        FailIndexIsUnique(CommonPlan, failing, 1);
        return Some(FollowRedirects);
      }
      ok := Configure(AutoReferer, failing);
      if !ok {
        FailIndexIsUnique(CommonPlan, failing, 2);
        return Some(AutoReferer);
      }
      ok := Configure(CookieEngine, failing);
      if !ok {
        FailIndexIsUnique(CommonPlan, failing, 3);
        return Some(CookieEngine);
      }
      ok := Configure(ConnectionTimeout, failing);
      if !ok {
        FailIndexIsUnique(CommonPlan, failing, 4);
        return Some(ConnectionTimeout);
      }
      ok := Configure(SetUserAgent, failing);
      if !ok {
        FailIndexIsUnique(CommonPlan, failing, 5);
        return Some(SetUserAgent);
      }
      FailIndexIsUnique(CommonPlan, failing, 6);
      return None;
    }

    /**
     * The mode selection of getContent. CONTENT_TYPE discards the body;
     * ENTIRE_BODY uses the caller's writer, or creates a local attachment and
     * its writer, and installs both callbacks. The thread is started only
     * when every step succeeds.
     */
    method ConfigureMode(option: FetchOption, writer: Sink?, failing: set<ConfigStep>, localReplies: seq<WriteReply>)
      returns (failure: Option<ConfigStep>, stream: Sink?)
      modifies this`configured, this`streamWriter, this`thread
      ensures configured == old(configured) + Attempted(ModePlan(option, writer != null), failing)
      ensures failure == FirstFailure(ModePlan(option, writer != null), failing)
      ensures failure.Some? ==> thread == old(thread)
      ensures failure.None? ==>
                thread == Some(if option == ContentTypeOnly then ContentTypeDriver else EntireBodyDriver(writer == null))
      ensures stream == (if option == EntireBody && writer == null then streamWriter else null)
      ensures option == ContentTypeOnly ==> streamWriter == old(streamWriter)
      ensures option == EntireBody && writer != null ==> streamWriter == writer
      ensures option == EntireBody && writer == null && CreateWriter in failing ==> streamWriter == null
      ensures option == EntireBody && writer == null && CreateWriter !in failing ==>
                streamWriter != null && fresh(streamWriter) && streamWriter.name == url &&
                streamWriter.replies == localReplies && streamWriter.log == [] && !streamWriter.closed
      ensures thread.Some? && thread.value.EntireBodyDriver? && thread != old(thread) ==> streamWriter != null
    {
      ghost var plan := ModePlan(option, writer != null);
      stream := null;
      // stays false when the caller passed in their own writer
      var writerWasCreatedLocally := false;
      match option {
        case ContentTypeOnly =>
          var ok := Configure(SetNoopWriteFunction, failing);
          if !ok {
            FailIndexIsUnique(plan, failing, 0);
            return Some(SetNoopWriteFunction), stream;
          }
          FailIndexIsUnique(plan, failing, 1);
          thread := Some(ContentTypeDriver);
        case EntireBody =>
          var w := writer;
          var k := 0;
          if w == null {
            var ok := Configure(CreateWriter, failing);
            if ok {
              // the attachment is identified by the URL
              w := new Sink(url, localReplies);
              stream := w;
            }
            writerWasCreatedLocally := true;
            k := 1;
          }
          streamWriter := w;
          if streamWriter == null {
            FailIndexIsUnique(plan, failing, 0);
            return Some(CreateWriter), stream;
          }
          var ok := Configure(SetWriteCallback, failing);
          if !ok {
            FailIndexIsUnique(plan, failing, k);
            return Some(SetWriteCallback), stream;
          }
          ok := Configure(SetHeaderCallback, failing);
          if !ok {
            FailIndexIsUnique(plan, failing, k + 1);
            return Some(SetHeaderCallback), stream;
          }
          FailIndexIsUnique(plan, failing, k + 2);
          thread := Some(EntireBodyDriver(writerWasCreatedLocally));
      }
      return None, stream;
    }

    /**
     * getContent. The used flag is set before anything else, so every call
     * after the first fails at once and changes nothing. The first call makes
     * the configuration calls of ConfigPlan in order and gives up at the
     * first that fails. Only a call whose every step succeeds starts a driver
     * thread. `failing` is the set of configuration calls the transport
     * rejects; `localReplies` scripts a locally created sink.
     */
    method GetContent(option: FetchOption, writer: Sink?, failing: set<ConfigStep>, localReplies: seq<WriteReply>)
      returns (r: Result<HttpContent>)
      requires Valid()
      modifies this`hasObjectBeenUsed, this`configured, this`streamWriter, this`thread
      ensures Valid() && hasObjectBeenUsed
      ensures old(hasObjectBeenUsed) ==> r == Failure(AlreadyUsed) && unchanged(this)
      ensures !old(hasObjectBeenUsed) ==>
                var plan := ConfigPlan(option, writer != null);
                configured == old(configured) + Attempted(plan, failing) &&
                (r.Failure? <==> FirstFailure(plan, failing).Some?) &&
                (r.Failure? ==> r.error == ConfigurationFailed(FirstFailure(plan, failing).value) &&
                                thread == old(thread)) &&
                (r.Success? ==> thread == Some(if option == ContentTypeOnly then ContentTypeDriver
                                               else EntireBodyDriver(writer == null)))
      ensures !old(hasObjectBeenUsed) && option == EntireBody && FirstFailure(CommonPlan, failing).None? ==>
                (writer != null ==> streamWriter == writer) &&
                (writer == null && CreateWriter in failing ==> streamWriter == null) &&
                (writer == null && CreateWriter !in failing ==>
                   streamWriter != null && fresh(streamWriter) && streamWriter.name == url &&
                   streamWriter.replies == localReplies && streamWriter.log == [] && !streamWriter.closed)
      ensures !(option == EntireBody && FirstFailure(CommonPlan, failing).None?) ==>
                streamWriter == old(streamWriter)
      ensures r.Success? ==>
                r.value.stream == (if option == EntireBody && writer == null then streamWriter else null)
    {
      if hasObjectBeenUsed {
        return Failure(AlreadyUsed);
      }
      hasObjectBeenUsed := true;
      r := ConfigureAndStart(option, writer, failing, localReplies);
    }

    /**
     * The part of getContent after the used flag: the transport options, then
     * the mode's steps, giving up at the first call that fails; only when
     * every call succeeds is the driver thread started.
     */
    method ConfigureAndStart(option: FetchOption, writer: Sink?, failing: set<ConfigStep>, localReplies: seq<WriteReply>)
      returns (r: Result<HttpContent>)
      modifies this`configured, this`streamWriter, this`thread
      ensures var plan := ConfigPlan(option, writer != null);
              configured == old(configured) + Attempted(plan, failing) &&
              (r.Failure? <==> FirstFailure(plan, failing).Some?) &&
              (r.Failure? ==> r.error == ConfigurationFailed(FirstFailure(plan, failing).value) &&
                              thread == old(thread)) &&
              (r.Success? ==> thread == Some(if option == ContentTypeOnly then ContentTypeDriver
                                             else EntireBodyDriver(writer == null)))
      ensures option == EntireBody && FirstFailure(CommonPlan, failing).None? ==>
                (writer != null ==> streamWriter == writer) &&
                (writer == null && CreateWriter in failing ==> streamWriter == null) &&
                (writer == null && CreateWriter !in failing ==>
                   streamWriter != null && fresh(streamWriter) && streamWriter.name == url &&
                   streamWriter.replies == localReplies && streamWriter.log == [] && !streamWriter.closed)
      ensures !(option == EntireBody && FirstFailure(CommonPlan, failing).None?) ==>
                streamWriter == old(streamWriter)
      ensures r.Success? ==>
                r.value.stream == (if option == EntireBody && writer == null then streamWriter else null)
      ensures thread.Some? && thread.value.EntireBodyDriver? && thread != old(thread) ==> streamWriter != null
    {
      AttemptedAppend(CommonPlan, ModePlan(option, writer != null), failing);
      var failure := ConfigureTransport(failing);
      if failure.Some? {
        return Failure(ConfigurationFailed(failure.value));
      }
      var stream;
      failure, stream := ConfigureMode(option, writer, failing, localReplies);
      if failure.Some? {
        return Failure(ConfigurationFailed(failure.value));
      }
      return Success(HttpContent(stream));
    }

    // -------------------------------------------------------------------------
    // The promises and the destructor
    // -------------------------------------------------------------------------

    /** m_statusCodePromise.set_value: a promise is fulfilled at most once. */
    method FulfilStatusCode(code: int)
      requires statusCodePromise.None?
      modifies this`statusCodePromise
      ensures statusCodePromise == Some(code)
    {
      statusCodePromise := Some(code);
    }

    /** m_contentTypePromise.set_value: a promise is fulfilled at most once. */
    method FulfilContentType(contentType: string)
      requires contentTypePromise.None?
      modifies this`contentTypePromise
      ensures contentTypePromise == Some(contentType)
    {
      contentTypePromise := Some(contentType);
    }

    /** The destructor's flag stores: only when a thread was started, it sets done and shutdown. */
    method Destroy()
      modifies this`done, this`isShutdown
      ensures thread.Some? ==> done && isShutdown
      ensures thread.None? ==> done == old(done) && isShutdown == old(isShutdown)
    {
      if thread.Some? {
        done := true;
        isShutdown := true;
      }
    }

    // -------------------------------------------------------------------------
    // The driver threads
    // -------------------------------------------------------------------------

    /**
     * The CONTENT_TYPE thread. If the multi handle cannot be created both
     * promises get 0 and "". Otherwise the loop runs the script until no
     * transfer is left, the shutdown flag is seen, a call fails, or a final
     * response code is read (then the content type is queried); every exit
     * fulfils each promise exactly once, the content type falling back to "".
     */
    method RunContentTypeDriver(multiHandleCreated: bool, steps: seq<Step>)
      requires Valid() && thread == Some(ContentTypeDriver)
      requires statusCodePromise.None? && contentTypePromise.None?
      modifies this`statusCodePromise, this`contentTypePromise, this`done, this`isShutdown
      ensures Valid()
      ensures !multiHandleCreated ==>
                statusCodePromise == Some(0) && contentTypePromise == Some("") &&
                done == old(done) && isShutdown == old(isShutdown)
      ensures multiHandleCreated ==>
                var p := ContentTypeRun(if old(isShutdown) then [] else steps);
                statusCodePromise == Some(p.code) && contentTypePromise == Some(p.contentType) &&
                isShutdown == (old(isShutdown) || p.end == ShutDown) &&
                done == (old(done) || p.end == ShutDown)
    {
      if !multiHandleCreated {
        FulfilStatusCode(0);
        FulfilContentType("");
        return;
      }
      ghost var script := if isShutdown then [] else steps;
      ghost var probe := ContentTypeRun(script);
      var numTransfersLeft := 1;
      var finalResponseCode := 0;
      var contentType: Option<string> := None;
      var i := 0;
      while numTransfersLeft != 0 && !isShutdown
        invariant 0 <= i <= |steps|
        invariant !isShutdown ==> script == steps && !old(isShutdown) && done == old(done)
        invariant !isShutdown ==> probe == ProbeFrom(steps, i, numTransfersLeft, finalResponseCode)
        invariant isShutdown ==> probe == Probe(finalResponseCode, "", |script|, ShutDown)
        invariant isShutdown ==> done
        invariant contentType == None
        invariant statusCodePromise.None? && contentTypePromise.None?
        decreases |steps| - i, if isShutdown then 0 else 1
      {
        if i == |steps| {
          // the script is used up: the owner's destructor runs
          Destroy();
          continue;
        }
        var s := steps[i];
        i := i + 1;
        var result := s.perform;
        numTransfersLeft := s.transfersLeft;
        if result == CallMultiPerform {
          continue;
        } else if result != PerformOk {
          break;
        }
        if s.responseCode.None? {
          break;
        }
        finalResponseCode := s.responseCode.value;
        if IsFinalResponse(finalResponseCode) {
          contentType := s.contentType;
          break;
        }
        if !s.waitOk {
          break;
        }
      }
      FulfilStatusCode(finalResponseCode);
      if contentType.Some? {
        FulfilContentType(contentType.value);
      } else {
        FulfilContentType("");
      }
    }

    /** libcurl hands one header line or one body chunk to the matching callback. */
    method Dispatch(d: Delivery)
      requires streamWriter != null && !done
      modifies this`lastStatusCode, this`lastContentType, this`done, this`isShutdown, streamWriter
      ensures Observe() == Play(old(Observe()), d)
      ensures done == old(done) && isShutdown == old(isShutdown)
      ensures streamWriter.closed == old(streamWriter.closed)
    {
      match d
      case HeaderData(line) =>
        var _ := HeaderCallback(line, 1, |line|, true);
      case BodyData(chunk) =>
        var _ := BodyCallback(chunk, 1, |chunk|, true, None);
    }

    /** One perform of the ENTIRE_BODY thread: libcurl makes this step's callbacks, in order. */
    method PerformStep(s: Step) returns (result: PerformResult, transfersLeft: int)
      requires streamWriter != null && !done
      modifies this`lastStatusCode, this`lastContentType, this`done, this`isShutdown, streamWriter
      ensures result == s.perform && transfersLeft == s.transfersLeft
      ensures Observe() == PlayAll(old(Observe()), s.deliveries)
      ensures done == old(done) && isShutdown == old(isShutdown)
      ensures streamWriter.closed == old(streamWriter.closed)
    {
      var ds := s.deliveries;
      var j := 0;
      while j < |ds|
        invariant 0 <= j <= |ds|
        invariant Observe() == PlayAll(old(Observe()), ds[..j])
        invariant done == old(done) && isShutdown == old(isShutdown)
        invariant streamWriter.closed == old(streamWriter.closed)
      {
        Dispatch(ds[j]);
        PlayAllSnoc(old(Observe()), ds, j);
        j := j + 1;
      }
      assert ds[..j] == ds;
      result, transfersLeft := s.perform, s.transfersLeft;
    }

    /**
     * The ENTIRE_BODY thread. If the multi handle cannot be created both
     * promises get 0 and "", and neither the writer is closed nor done set.
     * Otherwise the loop performs until no transfer is left, the shutdown
     * flag is seen, or a call fails; then the promises get the last-seen
     * status code and content type, the writer is closed only if it was
     * created locally, and done is set.
     */
    method RunEntireBodyDriver(multiHandleCreated: bool, steps: seq<Step>)
      requires Valid() && thread.Some? && thread.value.EntireBodyDriver?
      requires statusCodePromise.None? && contentTypePromise.None?
      modifies this`lastStatusCode, this`lastContentType, this`done, this`isShutdown
      modifies this`statusCodePromise, this`contentTypePromise, streamWriter
      ensures Valid()
      ensures !multiHandleCreated ==>
                statusCodePromise == Some(0) && contentTypePromise == Some("") &&
                done == old(done) && isShutdown == old(isShutdown) && unchanged(streamWriter) &&
                lastStatusCode == old(lastStatusCode) && lastContentType == old(lastContentType)
      ensures multiHandleCreated ==>
                var script := if old(isShutdown) then [] else steps;
                Observe() == PlayAll(old(Observe()), AllDeliveries(script[..EntireBodyRun(script).performs]))
      ensures multiHandleCreated ==>
                isShutdown == (old(isShutdown) || EntireBodyRun(if old(isShutdown) then [] else steps).end == ShutDown)
      ensures multiHandleCreated ==>
                done && statusCodePromise == Some(lastStatusCode) && contentTypePromise == Some(lastContentType) &&
                streamWriter.closed == (old(streamWriter.closed) || thread.value.writerWasCreatedLocally)
    {
      if !multiHandleCreated {
        FulfilStatusCode(0);
        FulfilContentType("");
        return;
      }
      PerformUntilDone(steps);
      FinishEntireBody();
    }

    /**
     * The perform loop of the ENTIRE_BODY thread: it performs until no
     * transfer is left, the shutdown flag is seen, or a call fails, and the
     * callbacks of the performs it makes are played in order.
     */
    method PerformUntilDone(steps: seq<Step>)
      requires thread.Some? && streamWriter != null && done == isShutdown
      modifies this`lastStatusCode, this`lastContentType, this`done, this`isShutdown, streamWriter
      ensures var script := if old(isShutdown) then [] else steps;
              var run := EntireBodyRun(script);
              Observe() == PlayAll(old(Observe()), AllDeliveries(script[..run.performs])) &&
              isShutdown == (old(isShutdown) || run.end == ShutDown)
      ensures isShutdown ==> done
      ensures !isShutdown ==> done == old(done)
      ensures streamWriter.closed == old(streamWriter.closed)
    {
      ghost var script := if isShutdown then [] else steps;
      ghost var run := EntireBodyRun(script);
      ghost var start := Observe();
      var numTransfersLeft := 1;
      var i := 0;
      assert script[..0] == [];
      while numTransfersLeft != 0 && !isShutdown
        invariant 0 <= i <= |script| && |script| <= |steps|
        invariant !isShutdown ==> script == steps && !done && done == old(done) && run == BodyLoopFrom(steps, i, numTransfersLeft)
        invariant isShutdown ==> done && run == BodyRun(i, ShutDown)
        invariant Observe() == PlayAll(start, AllDeliveries(script[..i]))
        invariant streamWriter.closed == old(streamWriter.closed)
        decreases |steps| - i, if isShutdown then 0 else 1
      {
        if i == |steps| {
          // the script is used up: the owner's destructor runs
          Destroy();
          continue;
        }
        var result, transfersLeft := PerformStep(steps[i]);
        PlayAllAppend(start, AllDeliveries(steps[..i]), steps[i].deliveries);
        AllDeliveriesSnoc(steps, i);
        i := i + 1;
        numTransfersLeft := transfersLeft;
        if result == CallMultiPerform {
          continue;
        } else if result != PerformOk {
          assert run == BodyRun(i, PerformError);
          break;
        }
        if !steps[i - 1].waitOk {
          assert run == BodyRun(i, WaitError);
          break;
        }
      }
      assert run.performs == i && isShutdown == (old(isShutdown) || run.end == ShutDown);
    }

    /**
     * The end of the ENTIRE_BODY thread: the promises get the last-seen
     * status code and content type, a locally created writer is closed, and
     * done is set.
     */
    method FinishEntireBody()
      requires thread.Some? && thread.value.EntireBodyDriver? && streamWriter != null
      requires statusCodePromise.None? && contentTypePromise.None?
      modifies this`statusCodePromise, this`contentTypePromise, this`done, streamWriter`closed
      ensures statusCodePromise == Some(lastStatusCode) && contentTypePromise == Some(lastContentType) && done
      ensures streamWriter.closed == (old(streamWriter.closed) || thread.value.writerWasCreatedLocally)
      ensures Observe() == old(Observe())
    {
      FulfilStatusCode(lastStatusCode);
      FulfilContentType(lastContentType);
      if thread.value.writerWasCreatedLocally {
        streamWriter.Close();
      }
      // a writer the caller owns must be closed by the caller
      done := true;
    }
  }

  /** Taking `n` more bytes of a chunk extends the prefix taken so far. */
  lemma PrefixGrows(log: seq<uint8>, chunk: seq<uint8>, i: nat, n: nat)
    requires i + n <= |chunk|
    ensures (log + chunk[..i]) + chunk[i..][..n] == log + chunk[..i + n]
  {
    assert chunk[..i] + chunk[i..][..n] == chunk[..i + n];
  }

  lemma PlayAllSnoc(o: Observed, ds: seq<Delivery>, j: nat)
    requires j < |ds|
    ensures PlayAll(o, ds[..j + 1]) == Play(PlayAll(o, ds[..j]), ds[j])
  {
    assert ds[..j + 1][..j] == ds[..j];
  }

  /** Playing two runs of callbacks one after the other is playing them concatenated. */
  lemma {:induction false} PlayAllAppend(o: Observed, a: seq<Delivery>, b: seq<Delivery>)
    ensures PlayAll(PlayAll(o, a), b) == PlayAll(o, a + b)
    decreases |b|
  {
    if b == [] {
      assert a + b == a;
    } else {
      var ab, init, last := a + b, b[..|b| - 1], b[|b| - 1];
      assert ab[..|ab| - 1] == a + init && ab[|ab| - 1] == last;
      PlayAllAppend(o, a, init);
      PlayAllLast(o, ab);
      PlayAllLast(PlayAll(o, a), b);
    }
  }

  /** The last callback of a non-empty run is played after all the others. */
  lemma PlayAllLast(o: Observed, ds: seq<Delivery>)
    requires ds != []
    ensures PlayAll(o, ds) == Play(PlayAll(o, ds[..|ds| - 1]), ds[|ds| - 1])
  {
  }

  /**
   * Single use: whatever the first call of getContent did, a second call on
   * the same fetcher fails with AlreadyUsed.
   */
  method SecondGetContentFails(url: string, first: FetchOption, second: FetchOption,
                               writer: Sink?, failing: set<ConfigStep>, replies: seq<WriteReply>)
    returns (r: Result<HttpContent>)
    ensures r == Failure(AlreadyUsed)
  {
    var fetcher := new LibCurlHttpContentFetcher(url);
    var _ := fetcher.GetContent(first, writer, failing, replies);
    r := fetcher.GetContent(second, writer, failing, replies);
  }
}
