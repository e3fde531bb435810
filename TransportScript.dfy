/**
 * The transport as the two background drivers see it: a finite script of
 * steps, each the outcome of one `perform` on the multi handle (with the
 * header and body callbacks libcurl makes during it), one response-code
 * and content-type query, and one `wait`. Once the script is used up the
 * owner's destructor is taken to have run, which ends both loops.
 *
 * This module holds the pure specifications of the two driver loops and of
 * how the callbacks of a run fold into the last-seen metadata and the sink.
 */
module TransportScript {
  import opened Base
  import opened HeaderParsing
  import opened WriteBridge

  /**
   * The redirection class of HTTP status codes, HTTPResponseCode's
   * REDIRECTION_START_CODE and REDIRECTION_END_CODE.
   */
  const RedirectionStartCode: int := 300
  const RedirectionEndCode: int := 399

  /** A response code that ends the content-type probe: known and not a redirect. */
  predicate IsFinalResponse(code: int) {
    code != 0 && (code < RedirectionStartCode || code > RedirectionEndCode)
  }

  /** What `curl_multi_perform` returns. */
  datatype PerformResult = CallMultiPerform | PerformOk | PerformFailed

  /** A callback libcurl makes during a perform: one header line or one body chunk. */
  datatype Delivery = HeaderData(line: string) | BodyData(chunk: seq<uint8>)

  /** One round of a driver loop as the transport plays it. */
  datatype Step = Step(
    perform: PerformResult,
    transfersLeft: int,           // what perform stores into numTransfersLeft
    deliveries: seq<Delivery>,    // the callbacks made during this perform
    responseCode: Option<int>,    // CURLINFO_RESPONSE_CODE; None: getinfo failed
    contentType: Option<string>,  // CURLINFO_CONTENT_TYPE; None: failed or no header
    waitOk: bool)                 // whether curl_multi_wait returned CURLM_OK

  /** Why a driver loop ended. */
  datatype LoopEnd =
    | NoTransfersLeft
    | ShutDown      // the destructor's flag was seen
    | PerformError
    | InfoError     // the response-code query failed
    | WaitError
    | Resolved      // content-type mode: a final response code was seen

  // ---------------------------------------------------------------------------
  // The CONTENT_TYPE driver
  // ---------------------------------------------------------------------------

  /** The values the CONTENT_TYPE driver hands to its promises, and how its loop ended. */
  datatype Probe = Probe(code: int, contentType: string, performs: nat, end: LoopEnd)

  /**
   * The CONTENT_TYPE driver loop from step `i`, with `transfersLeft` and the
   * response code `code` read so far.
   */
  function ProbeFrom(steps: seq<Step>, i: nat, transfersLeft: int, code: int): (p: Probe)
    requires i <= |steps|
    decreases |steps| - i
    ensures i <= p.performs <= |steps|
    ensures p.end == Resolved ==>
              i < p.performs && IsFinalResponse(p.code) &&
              steps[p.performs - 1].perform == PerformOk &&
              steps[p.performs - 1].responseCode == Some(p.code)
    ensures p.contentType != "" ==>
              p.end == Resolved && steps[p.performs - 1].contentType == Some(p.contentType)
    ensures p.end == ShutDown ==> p.performs == |steps|
  {
    if transfersLeft == 0 then Probe(code, "", i, NoTransfersLeft)
    else if i == |steps| then Probe(code, "", i, ShutDown)
    else
      var s := steps[i];
      match s.perform
      case CallMultiPerform => ProbeFrom(steps, i + 1, s.transfersLeft, code)
      case PerformFailed => Probe(code, "", i + 1, PerformError)
      case PerformOk =>
        match s.responseCode
        case None => Probe(code, "", i + 1, InfoError)
        case Some(c) =>
          if IsFinalResponse(c) then Probe(c, s.contentType.GetOr(""), i + 1, Resolved)
          else if !s.waitOk then Probe(c, "", i + 1, WaitError)
          else ProbeFrom(steps, i + 1, s.transfersLeft, c)
  }

  /** The CONTENT_TYPE driver's loop as it starts: one transfer outstanding, response code 0. */
  function ContentTypeRun(steps: seq<Step>): Probe {
    ProbeFrom(steps, 0, 1, 0)
  }

  /** A step at which the CONTENT_TYPE driver reads a final response code. */
  predicate ResolvesAt(steps: seq<Step>, j: nat)
    requires j < |steps|
  {
    steps[j].perform == PerformOk && steps[j].responseCode.Some? &&
    IsFinalResponse(steps[j].responseCode.value)
  }

  /**
   * The probe stops at the first final response code: no step it performed
   * before its last one read a code that is non-zero and outside the
   * redirection range, and the code it reports is 0 or one the transport gave.
   */
  lemma {:induction false} ProbeStopsAtFirstFinal(steps: seq<Step>, i: nat, transfersLeft: int, code: int)
    requires i <= |steps|
    ensures var p := ProbeFrom(steps, i, transfersLeft, code);
            (forall j :: i <= j < p.performs - 1 ==> !ResolvesAt(steps, j)) &&
            (p.code == code || exists j :: i <= j < p.performs && steps[j].responseCode == Some(p.code))
    decreases |steps| - i
  {
    if transfersLeft != 0 && i < |steps| {
      var s := steps[i];
      if s.perform == CallMultiPerform {
        ProbeStopsAtFirstFinal(steps, i + 1, s.transfersLeft, code);
      } else if s.perform == PerformOk && s.responseCode.Some? {
        var c := s.responseCode.value;
        if !IsFinalResponse(c) && s.waitOk {
          ProbeStopsAtFirstFinal(steps, i + 1, s.transfersLeft, c);
          var p := ProbeFrom(steps, i + 1, s.transfersLeft, c);
          if p.code == c {
            assert steps[i].responseCode == Some(p.code);
          }
        }
      }
    }
  }

  /** A step after which the CONTENT_TYPE driver goes round again: a transfer is left and no final code was read. */
  predicate ProbeContinues(s: Step) {
    s.transfersLeft != 0 &&
    (s.perform == CallMultiPerform ||
     (s.perform == PerformOk && s.responseCode.Some? && !IsFinalResponse(s.responseCode.value) && s.waitOk))
  }

  /**
   * The converse of ProbeStopsAtFirstFinal: when every step before `j` lets
   * the loop go round again and step `j` reads a final code, the probe ends
   * at `j` with that code and the content type of that step, or "".
   */
  lemma {:induction false} ProbeReachesFinal(steps: seq<Step>, i: nat, transfersLeft: int, code: int, j: nat)
    requires i <= j < |steps| && transfersLeft != 0
    requires forall k :: i <= k < j ==> ProbeContinues(steps[k])
    requires ResolvesAt(steps, j)
    ensures ProbeFrom(steps, i, transfersLeft, code) ==
            Probe(steps[j].responseCode.value, steps[j].contentType.GetOr(""), j + 1, Resolved)
    decreases j - i
  {
    if i < j {
      var s := steps[i];
      assert ProbeContinues(s);
      if s.perform == CallMultiPerform {
        ProbeReachesFinal(steps, i + 1, s.transfersLeft, code, j);
      } else {
        ProbeReachesFinal(steps, i + 1, s.transfersLeft, s.responseCode.value, j);
      }
    }
  }

  /** The status code the CONTENT_TYPE driver reports is 0 unless the transport reported it. */
  lemma ProbeCodeComesFromTransport(steps: seq<Step>)
    ensures var p := ContentTypeRun(steps);
            p.code == 0 || exists j :: 0 <= j < p.performs && steps[j].responseCode == Some(p.code)
  {
    ProbeStopsAtFirstFinal(steps, 0, 1, 0);
  }

  // ---------------------------------------------------------------------------
  // The ENTIRE_BODY driver
  // ---------------------------------------------------------------------------

  /** How many performs the ENTIRE_BODY driver's loop makes, and why it ends. */
  datatype BodyRun = BodyRun(performs: nat, end: LoopEnd)

  function BodyLoopFrom(steps: seq<Step>, i: nat, transfersLeft: int): (b: BodyRun)
    requires i <= |steps|
    decreases |steps| - i
    ensures i <= b.performs <= |steps|
    ensures b.end == ShutDown ==> b.performs == |steps|
    ensures b.end != NoTransfersLeft && b.end != ShutDown ==> i < b.performs
    ensures b.end != Resolved && b.end != InfoError
  {
    if transfersLeft == 0 then BodyRun(i, NoTransfersLeft)
    else if i == |steps| then BodyRun(i, ShutDown)
    else
      var s := steps[i];
      match s.perform
      case CallMultiPerform => BodyLoopFrom(steps, i + 1, s.transfersLeft)
      case PerformFailed => BodyRun(i + 1, PerformError)
      case PerformOk =>
        if !s.waitOk then BodyRun(i + 1, WaitError)
        else BodyLoopFrom(steps, i + 1, s.transfersLeft)
  }

  function EntireBodyRun(steps: seq<Step>): BodyRun {
    BodyLoopFrom(steps, 0, 1)
  }

  /** A step after which the ENTIRE_BODY driver goes round again. */
  predicate BodyContinues(s: Step) {
    s.transfersLeft != 0 && (s.perform == CallMultiPerform || (s.perform == PerformOk && s.waitOk))
  }

  /**
   * A transfer that never finishes, such as a live stream, keeps the
   * ENTIRE_BODY driver performing until the owner's destructor sets the
   * shutdown flag: every step is performed and the loop ends on shutdown.
   */
  lemma {:induction false} LiveStreamRunsUntilShutdown(steps: seq<Step>, i: nat, transfersLeft: int)
    requires i <= |steps| && transfersLeft != 0
    requires forall k :: i <= k < |steps| ==> BodyContinues(steps[k])
    ensures BodyLoopFrom(steps, i, transfersLeft) == BodyRun(|steps|, ShutDown)
    decreases |steps| - i
  {
    if i < |steps| {
      var s := steps[i];
      assert BodyContinues(s);
      LiveStreamRunsUntilShutdown(steps, i + 1, s.transfersLeft);
    }
  }

  /** What the callbacks of a run have produced: the last-seen metadata, the sink's log and its unused replies. */
  datatype Observed = Observed(seen: LastSeen, log: seq<uint8>, replies: seq<WriteReply>)

  /** One callback: a header line updates the metadata, a body chunk is delivered to the sink. */
  function Play(o: Observed, d: Delivery): Observed {
    match d
    case HeaderData(line) => o.(seen := Update(o.seen, line))
    case BodyData(chunk) =>
      var w := Deliver(chunk, o.replies, None);
      o.(log := o.log + chunk[..w.accepted], replies := Drop(o.replies, w.calls))
  }

  /** The callbacks in the order the transport makes them. */
  function PlayAll(o: Observed, ds: seq<Delivery>): Observed
    decreases |ds|
  {
    if ds == [] then o else Play(PlayAll(o, ds[..|ds| - 1]), ds[|ds| - 1])
  }

  /** Every callback made during the given steps, in order. */
  function AllDeliveries(steps: seq<Step>): seq<Delivery>
    decreases |steps|
  {
    if steps == [] then [] else AllDeliveries(steps[..|steps| - 1]) + steps[|steps| - 1].deliveries
  }

  lemma AllDeliveriesSnoc(steps: seq<Step>, i: nat)
    requires i < |steps|
    ensures AllDeliveries(steps[..i + 1]) == AllDeliveries(steps[..i]) + steps[i].deliveries
  {
    assert steps[..i + 1][..i] == steps[..i];
  }

  /** The header lines among some callbacks. */
  function HeaderLines(ds: seq<Delivery>): seq<string>
    decreases |ds|
  {
    if ds == [] then []
    else HeaderLines(ds[..|ds| - 1]) + (if ds[|ds| - 1].HeaderData? then [ds[|ds| - 1].line] else [])
  }

  /** The body bytes among some callbacks, in order. */
  function BodyBytes(ds: seq<Delivery>): seq<uint8>
    decreases |ds|
  {
    if ds == [] then []
    else BodyBytes(ds[..|ds| - 1]) + (if ds[|ds| - 1].BodyData? then ds[|ds| - 1].chunk else [])
  }

  /** The non-empty body chunks among some callbacks: each costs one write when the sink is cooperative. */
  function ChunkCount(ds: seq<Delivery>): nat
    decreases |ds|
  {
    if ds == [] then 0
    else ChunkCount(ds[..|ds| - 1]) + (if ds[|ds| - 1].BodyData? && ds[|ds| - 1].chunk != [] then 1 else 0)
  }

  /** The metadata a run ends with is that of its header lines alone, applied in order. */
  lemma {:induction false} PlayedMetadata(o: Observed, ds: seq<Delivery>)
    ensures PlayAll(o, ds).seen == UpdateAll(o.seen, HeaderLines(ds))
    decreases |ds|
  {
    if ds != [] {
      var init, d := ds[..|ds| - 1], ds[|ds| - 1];
      PlayedMetadata(o, init);
      var mid := PlayAll(o, init);
      var lines := HeaderLines(ds);
      if d.HeaderData? {
        assert lines == HeaderLines(init) + [d.line];
        assert lines[..|lines| - 1] == HeaderLines(init);
        calc {
          PlayAll(o, ds).seen;
          Play(mid, d).seen;
          Update(mid.seen, d.line);
          Update(UpdateAll(o.seen, HeaderLines(init)), d.line);
          UpdateAll(o.seen, lines);
        }
      } else {
        assert lines == HeaderLines(init) + [] == HeaderLines(init);
        assert PlayAll(o, ds).seen == Play(mid, d).seen == mid.seen;
      }
    }
  }

  /** The sink in a generous mood: every reply is OK and takes at least `bound` bytes. */
  predicate Cooperative(replies: seq<WriteReply>, bound: nat) {
    forall i :: 0 <= i < |replies| ==> replies[i].status == Ok && replies[i].count >= bound
  }

  predicate ChunksAtMost(ds: seq<Delivery>, bound: nat) {
    forall i :: 0 <= i < |ds| ==> ds[i].BodyData? ==> |ds[i].chunk| <= bound
  }

  /**
   * The write/read round trip of a full-body fetch: with a sink that has an
   * OK reply for every chunk, taking each chunk whole, the reader sees
   * exactly the bytes the transport delivered, in order, with nothing
   * duplicated or skipped, and one reply is used per non-empty chunk.
   */
  lemma {:induction false} FullBodyRoundTrip(o: Observed, ds: seq<Delivery>, bound: nat)
    requires Cooperative(o.replies, bound) && ChunksAtMost(ds, bound)
    requires ChunkCount(ds) <= |o.replies|
    ensures PlayAll(o, ds).log == o.log + BodyBytes(ds)
    ensures PlayAll(o, ds).replies == o.replies[ChunkCount(ds)..]
    decreases |ds|
  {
    if ds == [] {
      assert o.replies[0..] == o.replies;
    } else {
      var init, d := ds[..|ds| - 1], ds[|ds| - 1];
      assert ChunksAtMost(init, bound);
      FullBodyRoundTrip(o, init, bound);
      var mid := PlayAll(o, init);
      var k := ChunkCount(init);
      assert PlayAll(o, ds) == Play(mid, d);
      if d.BodyData? {
        SplitLast(ds);
        assert d == BodyData(d.chunk);
        assert |d.chunk| <= bound by {
          assert ds[|ds| - 1] == d;
        }
        ExtendByChunk(o, init, d.chunk, bound);
      } else {
        assert d == HeaderData(d.line);
        PlayHeaderKeepsSink(mid, d.line);
        assert BodyBytes(ds) == BodyBytes(init) + [];
        assert ChunkCount(ds) == k + 0;
        assert PlayAll(o, ds).log == mid.log == o.log + BodyBytes(ds);
        assert PlayAll(o, ds).replies == mid.replies == o.replies[ChunkCount(ds)..];
      }
    }
  }

  /**
   * Every body chunk of a run is delivered to the end: the sink may take it
   * in parts and answer TIMEDOUT in between, but never ends or rejects it.
   */
  predicate RunCompletes(o: Observed, ds: seq<Delivery>) {
    forall j :: 0 <= j < |ds| && ds[j].BodyData? ==>
      Deliver(ds[j].chunk, PlayAll(o, ds[..j]).replies, None).exit == Completed
  }

  /**
   * The round trip under backpressure: when every chunk's write loop runs to
   * completion, however many partial writes and timeouts that takes, the
   * writer's log is exactly the body bytes delivered, in order.
   */
  lemma {:induction false} RoundTripUnderBackpressure(o: Observed, ds: seq<Delivery>)
    requires RunCompletes(o, ds)
    ensures PlayAll(o, ds).log == o.log + BodyBytes(ds)
    decreases |ds|
  {
    if ds != [] {
      var init, d := ds[..|ds| - 1], ds[|ds| - 1];
      assert RunCompletes(o, init) by {
        forall j | 0 <= j < |init| && init[j].BodyData?
          ensures Deliver(init[j].chunk, PlayAll(o, init[..j]).replies, None).exit == Completed
        {
          assert init[j] == ds[j] && init[..j] == ds[..j];
        }
      }
      RoundTripUnderBackpressure(o, init);
      var mid := PlayAll(o, init);
      if d.BodyData? {
        var w := Deliver(d.chunk, mid.replies, None);
        assert w.exit == Completed;
        DeliveryExits(d.chunk, 0, mid.replies, None, 0);
        assert d.chunk[..w.accepted] == d.chunk;
        assert BodyBytes(ds) == BodyBytes(init) + d.chunk;
        ConcatAssoc(o.log, BodyBytes(init), d.chunk);
      } else {
        assert BodyBytes(ds) == BodyBytes(init) + [];
      }
    }
  }

  /** The step of the round trip for one more body chunk. */
  lemma ExtendByChunk(o: Observed, init: seq<Delivery>, c: seq<uint8>, bound: nat)
    requires Cooperative(o.replies, bound) && |c| <= bound
    requires ChunkCount(init) + (if c != [] then 1 else 0) <= |o.replies|
    requires PlayAll(o, init).log == o.log + BodyBytes(init)
    requires PlayAll(o, init).replies == o.replies[ChunkCount(init)..]
    ensures PlayAll(o, init + [BodyData(c)]).log == o.log + BodyBytes(init + [BodyData(c)])
    ensures PlayAll(o, init + [BodyData(c)]).replies == o.replies[ChunkCount(init + [BodyData(c)])..]
  {
    var ds := init + [BodyData(c)];
    assert ds[..|ds| - 1] == init && ds[|ds| - 1] == BodyData(c);
    var mid := PlayAll(o, init);
    var k := ChunkCount(init);
    if c != [] {
      assert mid.replies[0] == o.replies[k];
    }
    PlayCooperativeChunk(mid, c);
    assert BodyBytes(ds) == BodyBytes(init) + c;
    assert ChunkCount(ds) == k + (if c != [] then 1 else 0);
    assert PlayAll(o, ds) == Play(mid, BodyData(c));
    ConcatAssoc(o.log, BodyBytes(init), c);
    if c != [] {
      SliceOfSlice(o.replies, k);
    }
  }

  lemma SplitLast<T>(s: seq<T>)
    requires s != []
    ensures s == s[..|s| - 1] + [s[|s| - 1]]
  {
  }

  lemma ConcatAssoc<T>(a: seq<T>, b: seq<T>, c: seq<T>)
    ensures (a + b) + c == a + (b + c)
  {
  }

  lemma SliceOfSlice<T>(s: seq<T>, k: nat)
    requires k < |s|
    ensures s[k..][1..] == s[k + 1..]
  {
  }

  lemma PlayHeaderKeepsSink(o: Observed, line: string)
    ensures Play(o, HeaderData(line)).log == o.log
    ensures Play(o, HeaderData(line)).replies == o.replies
  {
  }

  /** One chunk delivered to a sink whose next reply is OK and takes the whole chunk. */
  lemma PlayCooperativeChunk(o: Observed, chunk: seq<uint8>)
    requires chunk != [] ==> o.replies != [] && o.replies[0].status == Ok && o.replies[0].count >= |chunk|
    ensures Play(o, BodyData(chunk)).log == o.log + chunk
    ensures Play(o, BodyData(chunk)).replies == if chunk == [] then o.replies else o.replies[1..]
  {
    if chunk != [] {
      CooperativeSinkTakesChunk(chunk, o.replies);
    }
    assert chunk[..|chunk|] == chunk;
  }
}
