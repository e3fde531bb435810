/**
 * Concrete exchanges with the fetcher: the header lines, sink replies and
 * transport scripts of typical fetches, and what the model says each one
 * leaves behind.
 */
module Scenarios {
  import opened Base
  import opened HeaderParsing
  import opened WriteBridge
  import opened TransportScript
  import opened ContentFetcher

  // ---------------------------------------------------------------------------
  // Header lines
  // ---------------------------------------------------------------------------

  // Each header line is a parameter pinned by its requires, so that the
  // verifier reasons from the lemmas about the parsing instead of unfolding
  // every function on the literal.

  // The words the lines below are made of, each with the facts about it
  // that the parsing lemmas ask for.

  lemma ContentTypeName()
    ensures NoSpace("Content-Type:") && Lower("Content-Type:") == "content-type:"
  {
  }

  lemma MediaTypeWords()
    ensures NoSpace("text/plain") && ';' !in "text/plain" && Lower("text/plain") == "text/plain"
    ensures NoSpace("text/html") && ';' !in "text/html" && Lower("text/html") == "text/html"
  {
  }

  lemma VersionWord()
    ensures NoSpace("HTTP/1.1") && Lower("HTTP/1.1") == "http/1.1"
  {
  }

  /** The media type is the second word cut at its ';', lower-cased: `text/plain`. */
  lemma ContentTypeWithCharset(m: LastSeen, line: string)
    requires line == "Content-Type: text/plain; charset=utf-8"
    ensures Update(m, line) == LastSeen(m.statusCode, "text/plain")
  {
    CharsetLineParts();
    ContentTypeName();
    MediaTypeWords();
    ContentTypeLineReadsValue(m, "Content-Type:", "text/plain", "; charset=utf-8");
  }

  lemma CharsetLineParts()
    ensures "Content-Type: text/plain; charset=utf-8" == "Content-Type:" + " " + "text/plain" + "; charset=utf-8"
  {
  }

  lemma ContentTypeHtml(m: LastSeen, line: string)
    requires line == "Content-Type: text/html"
    ensures Update(m, line) == LastSeen(m.statusCode, "text/html")
  {
    assert line == "Content-Type:" + " " + "text/html" + "";
    ContentTypeName();
    MediaTypeWords();
    ContentTypeLineReadsValue(m, "Content-Type:", "text/html", "");
  }

  /** The status line of a reply stores its code and keeps the content type. */
  lemma StatusLineOk(m: LastSeen, line: string)
    requires line == "HTTP/1.1 200 OK"
    ensures Update(m, line) == LastSeen(200, m.contentType)
  {
    assert line == "HTTP/1.1" + " " + DecimalString(200) + " OK" by {
      assert DecimalString(200) == "200";
    }
    VersionWord();
    StatusLineReadsCode(m, "HTTP/1.1", 200, " OK");
  }

  lemma StatusLineMoved(m: LastSeen, line: string)
    requires line == "HTTP/1.1 301 Moved"
    ensures Update(m, line) == LastSeen(301, m.contentType)
  {
    assert line == "HTTP/1.1" + " " + DecimalString(301) + " Moved" by {
      assert DecimalString(301) == "301";
    }
    VersionWord();
    StatusLineReadsCode(m, "HTTP/1.1", 301, " Moved");
  }

  /** The integer extraction stops at the first non-digit, so a missing space after the code still gives the code. */
  lemma StatusLineRunTogether(m: LastSeen, line: string)
    requires line == "HTTP/1.1 200OK"
    ensures Update(m, line) == LastSeen(200, m.contentType)
  {
    assert line == "HTTP/1.1" + " " + DecimalString(200) + "OK" by {
      assert DecimalString(200) == "200";
    }
    VersionWord();
    StatusLineReadsCode(m, "HTTP/1.1", 200, "OK");
  }

  /** A status line whose second word is not a number stores 0, the value of a failed extraction. */
  lemma StatusLineWithoutCode(m: LastSeen, line: string)
    requires line == "HTTP/1.1 OK"
    ensures Update(m, line) == LastSeen(0, m.contentType)
  {
    VersionWord();
    ReasonPhrase();
    assert line == "HTTP/1.1" + " OK";
    HttpNamedHeaderStoresZero(m, "HTTP/1.1", " OK");
  }

  lemma ReasonPhrase()
    ensures SkipSpaces(Lower(" OK")) == "ok"
  {
    var l := Lower(" OK");
    assert l == " " + "ok" by {
      assert l[0] == ' ' && l[1] == 'o' && l[2] == 'k';
    }
    SkipLeadingSpaces(" ", "ok");
  }

  /**
   * Any header whose name starts with "http" is taken for a status line:
   * an `HTTP2-Settings` header overwrites the status code with 0.
   */
  lemma HeaderNamedLikeStatusLine(m: LastSeen, line: string)
    requires line == "HTTP2-Settings: AAMA"
    ensures Update(m, line) == LastSeen(0, m.contentType)
  {
    SettingsHeaderName();
    SettingsHeaderValue();
    assert line == "HTTP2-Settings:" + " AAMA";
    HttpNamedHeaderStoresZero(m, "HTTP2-Settings:", " AAMA");
  }

  lemma SettingsHeaderName()
    ensures NoSpace("HTTP2-Settings:") && StartsWith(Lower("HTTP2-Settings:"), "http")
  {
    var l := Lower("HTTP2-Settings:");
    assert l[0] == 'h' && l[1] == 't' && l[2] == 't' && l[3] == 'p';
    assert l[..4] == "http";
  }

  lemma SettingsHeaderValue()
    ensures SkipSpaces(Lower(" AAMA")) == "aama"
  {
    var l := Lower(" AAMA");
    assert l == " " + "aama" by {
      assert l[0] == ' ' && l[1] == 'a' && l[2] == 'a' && l[3] == 'm' && l[4] == 'a';
    }
    SkipLeadingSpaces(" ", "aama");
  }

  /** A line matching neither prefix leaves both fields alone. */
  lemma OtherHeaderIgnored(m: LastSeen, line: string)
    requires line == "Content-Length: 42"
    ensures Update(m, line) == m
  {
    var l := Lower(line);
    assert l[..4] == "cont" && l[..12] == "content-leng";
    UpdateTouchesOneField(m, line);
  }

  /**
   * A redirect: the content type of the 301 reply survives the 200 reply
   * that follows it without a Content-Type header.
   */
  lemma ContentTypeSurvivesRedirect(lines: seq<string>)
    requires lines == ["HTTP/1.1 301 Moved", "Content-Type: text/html", "HTTP/1.1 200 OK"]
    ensures UpdateAll(LastSeen(0, ""), lines) == LastSeen(200, "text/html")
  {
    var m0 := LastSeen(0, "");
    StatusLineMoved(m0, lines[0]);
    ContentTypeHtml(LastSeen(301, ""), lines[1]);
    StatusLineOk(LastSeen(301, "text/html"), lines[2]);
    UpdateThree(m0, lines[0], lines[1], lines[2]);
    assert lines == [lines[0], lines[1], lines[2]];
  }

  // ---------------------------------------------------------------------------
  // Body chunks
  // ---------------------------------------------------------------------------

  /** A sink that takes two bytes, times out, then takes the rest: the whole chunk in three writes. */
  lemma BackpressureLosesNothing()
    ensures Deliver([104, 101, 108, 108, 111], [WriteReply(2, Ok), WriteReply(0, TimedOut), WriteReply(3, Ok)], None)
         == WriteOutcome(5, 5, 3, Completed)
  {
    var chunk: seq<uint8> := [104, 101, 108, 108, 111];
    var replies := [WriteReply(2, Ok), WriteReply(0, TimedOut), WriteReply(3, Ok)];
    assert Drop(replies, 1) == [WriteReply(0, TimedOut), WriteReply(3, Ok)];
    assert Drop(Drop(replies, 1), 1) == [WriteReply(3, Ok)];
    assert Drop(Drop(Drop(replies, 1), 1), 1) == [];
    assert DeliverFrom(chunk, 5, [], None, 3) == WriteOutcome(5, 5, 3, Completed);
  }

  /** OK_BUFFER_FULL makes the callback report 0 although the sink has taken three bytes. */
  lemma BufferFullReportsNothing()
    ensures Deliver([104, 101, 108, 108, 111], [WriteReply(2, Ok), WriteReply(1, OkBufferFull)], None)
         == WriteOutcome(0, 3, 2, Rejected(OkBufferFull))
  {
    var chunk: seq<uint8> := [104, 101, 108, 108, 111];
    var replies := [WriteReply(2, Ok), WriteReply(1, OkBufferFull)];
    assert Drop(replies, 1) == [WriteReply(1, OkBufferFull)];
  }

  /** The destructor landing during the first of two needed writes stops the loop after it. */
  lemma ShutdownStopsWriting()
    ensures Deliver([104, 101, 108, 108, 111], [WriteReply(2, Ok), WriteReply(3, Ok)], Some(0))
         == WriteOutcome(2, 2, 1, Stopped)
  {
  }

  /** "hello" arriving as "he" and "llo" reaches the reader as "hello", one reply per chunk. */
  lemma ChunkedBodyRoundTrip(seen: LastSeen, spare: seq<WriteReply>)
    requires Cooperative(spare, 3)
    ensures var o := Observed(seen, [], [WriteReply(3, Ok), WriteReply(3, Ok)] + spare);
            var ds := [BodyData([104, 101]), BodyData([108, 108, 111])];
            PlayAll(o, ds).log == [104, 101, 108, 108, 111] &&
            PlayAll(o, ds).replies == spare
  {
    var replies := [WriteReply(3, Ok), WriteReply(3, Ok)] + spare;
    var o := Observed(seen, [], replies);
    var ds := [BodyData([104, 101]), BodyData([108, 108, 111])];
    assert Cooperative(replies, 3) by {
      forall i | 0 <= i < |replies| ensures replies[i].status == Ok && replies[i].count >= 3 {
        if i >= 2 {
          assert replies[i] == spare[i - 2];
        }
      }
    }
    assert ds[..1] == [BodyData([104, 101])] && ds[..1][..0] == [];
    assert BodyBytes(ds) == [104, 101] + [108, 108, 111];
    assert ChunkCount(ds) == 2;
    assert ChunksAtMost(ds, 3);
    FullBodyRoundTrip(o, ds, 3);
    assert replies[2..] == spare;
  }

  // ---------------------------------------------------------------------------
  // The content-type probe
  // ---------------------------------------------------------------------------

  /** A 301 is passed over; the 200 that follows ends the probe with its content type. */
  lemma ProbeFollowsRedirect()
    ensures ContentTypeRun([Step(PerformOk, 1, [], Some(301), None, true),
                            Step(PerformOk, 0, [], Some(200), Some("application/json"), true)])
         == Probe(200, "application/json", 2, Resolved)
  {
  }

  /** A reply without a usable content type resolves the probe with "". */
  lemma ProbeWithoutContentType()
    ensures ContentTypeRun([Step(CallMultiPerform, 1, [], None, None, true),
                            Step(PerformOk, 0, [], Some(404), None, true)])
         == Probe(404, "", 2, Resolved)
  {
  }

  /** A transfer that finishes on a redirect reports the redirect code and "". */
  lemma ProbeEndsOnRedirect()
    ensures ContentTypeRun([Step(PerformOk, 0, [], Some(302), Some("text/html"), true)])
         == Probe(302, "", 1, NoTransfersLeft)
  {
  }

  // ---------------------------------------------------------------------------
  // Whole fetches
  // ---------------------------------------------------------------------------

  /** A transport that accepts every configuration call lets the whole chain through. */
  lemma NothingFails(plan: seq<ConfigStep>)
    ensures FirstFailure(plan, {}) == None && Attempted(plan, {}) == plan
  {
    FailIndexIsUnique(plan, {}, |plan|);
  }

  /**
   * Two performs: the first delivers the status line and the content type,
   * the second the body as "he" and "llo" and leaves no transfer.
   */
  predicate HelloScript(steps: seq<Step>) {
    steps == [Step(PerformOk, 1, [HeaderData("HTTP/1.1 200 OK"), HeaderData("Content-Type: text/html")], None, None, true),
              Step(PerformOk, 0, [BodyData([104, 101]), BodyData([108, 108, 111])], None, None, true)]
  }

  /** Two header lines followed by two body chunks, taken apart. */
  lemma TwoHeadersTwoChunks(a: string, b: string, c1: seq<uint8>, c2: seq<uint8>)
    ensures var ds := [HeaderData(a), HeaderData(b), BodyData(c1), BodyData(c2)];
            HeaderLines(ds) == [a, b] && BodyBytes(ds) == c1 + c2 &&
            ChunkCount(ds) == (if c1 == [] then 0 else 1) + (if c2 == [] then 0 else 1)
  {
    var p1 := [HeaderData(a)];
    var p2 := p1 + [HeaderData(b)];
    var p3 := p2 + [BodyData(c1)];
    var ds := p3 + [BodyData(c2)];
    assert p1[..0] == [] && p2[..1] == p1 && p3[..2] == p2 && ds[..3] == p3;
    assert ChunkCount(p1[..0]) == 0;
    assert p1[|p1| - 1] == HeaderData(a) && !p1[|p1| - 1].BodyData?;
    assert ChunkCount(p1) == ChunkCount(p1[..|p1| - 1]) + 0;
    assert HeaderLines(p1) == [a] && BodyBytes(p1) == [] && ChunkCount(p1) == 0;
    assert HeaderLines(p2) == [a, b] && BodyBytes(p2) == [] && ChunkCount(p2) == 0;
    assert HeaderLines(p3) == [a, b] && BodyBytes(p3) == c1;
    assert HeaderLines(ds) == [a, b] && BodyBytes(ds) == c1 + c2;
    assert ds == [HeaderData(a), HeaderData(b), BodyData(c1), BodyData(c2)];
  }

  lemma UpdateTwo(m: LastSeen, a: string, b: string)
    ensures UpdateAll(m, [a, b]) == Update(Update(m, a), b)
  {
    assert [a][..0] == [];
    assert UpdateAll(m, [a]) == Update(m, a);
    assert [a, b][..1] == [a];
  }

  lemma UpdateThree(m: LastSeen, a: string, b: string, c: string)
    ensures UpdateAll(m, [a, b, c]) == Update(Update(Update(m, a), b), c)
  {
    UpdateTwo(m, a, b);
    assert [a, b, c][..2] == [a, b];
  }

  /** The callbacks of both performs of the hello script, in order. */
  lemma HelloDeliveries(steps: seq<Step>)
    requires HelloScript(steps)
    ensures EntireBodyRun(steps) == BodyRun(2, NoTransfersLeft)
    ensures AllDeliveries(steps[..2]) == steps[0].deliveries + steps[1].deliveries
  {
    assert BodyLoopFrom(steps, 2, 0) == BodyRun(2, NoTransfersLeft);
    assert BodyLoopFrom(steps, 1, 1) == BodyLoopFrom(steps, 2, 0);
    AllDeliveriesSnoc(steps, 0);
    AllDeliveriesSnoc(steps, 1);
    assert steps[..0] == [];
  }

  /** What the full-body driver's callbacks make of the hello script, starting from a fresh fetcher. */
  lemma HelloPlayback(steps: seq<Step>, replies: seq<WriteReply>)
    requires HelloScript(steps) && replies == [WriteReply(5, Ok), WriteReply(5, Ok)]
    ensures EntireBodyRun(steps) == BodyRun(2, NoTransfersLeft)
    ensures PlayAll(Observed(LastSeen(0, ""), [], replies), AllDeliveries(steps[..2]))
         == Observed(LastSeen(200, "text/html"), [104, 101, 108, 108, 111], [])
  {
    HelloDeliveries(steps);
    var d0, d1 := steps[0].deliveries, steps[1].deliveries;
    var l1, l2, c1, c2 := d0[0].line, d0[1].line, d1[0].chunk, d1[1].chunk;
    var ds := AllDeliveries(steps[..2]);
    assert ds == [HeaderData(l1), HeaderData(l2), BodyData(c1), BodyData(c2)];
    TwoHeadersTwoChunks(l1, l2, c1, c2);
    var o := Observed(LastSeen(0, ""), [], replies);
    assert PlayAll(o, ds).seen == LastSeen(200, "text/html") by {
      PlayedMetadata(o, ds);
      UpdateTwo(LastSeen(0, ""), l1, l2);
      StatusLineOk(LastSeen(0, ""), l1);
      ContentTypeHtml(LastSeen(200, ""), l2);
    }
    assert PlayAll(o, ds).log == [104, 101, 108, 108, 111] && PlayAll(o, ds).replies == [] by {
      assert ChunksAtMost(ds, 5) by {
        forall i | 0 <= i < |ds| && ds[i].BodyData? ensures |ds[i].chunk| <= 5 {
        }
      }
      assert Cooperative(replies, 5);
      FullBodyRoundTrip(o, ds, 5);
      assert [] + (c1 + c2) == [104, 101, 108, 108, 111];
    }
  }

  /** A fresh fetcher whose full-body fetch has started, into a locally created attachment. */
  method StartFullBodyFetch(url: string, replies: seq<WriteReply>)
    returns (fetcher: LibCurlHttpContentFetcher, r: Result<HttpContent>)
    ensures fresh(fetcher) && fetcher.Valid()
    ensures r.Success? && r.value.stream == fetcher.streamWriter
    ensures fetcher.thread == Some(EntireBodyDriver(true))
    ensures !fetcher.isShutdown && !fetcher.done
    ensures fetcher.statusCodePromise.None? && fetcher.contentTypePromise.None?
    ensures fetcher.streamWriter != null && fresh(fetcher.streamWriter) && !fetcher.streamWriter.closed
    ensures fetcher.Observe() == Observed(LastSeen(0, ""), [], replies)
  {
    fetcher := new LibCurlHttpContentFetcher(url);
    NothingFails(ConfigPlan(EntireBody, false));
    r := fetcher.GetContent(EntireBody, null, {}, replies);
  }

  /**
   * A full-body fetch into a locally created attachment: the futures get the
   * status code and content type of the response, the reader sees the whole
   * body, and the attachment is closed.
   */
  method FetchHello(steps: seq<Step>) returns (code: Option<int>, contentType: Option<string>, body: Sink?)
    requires HelloScript(steps)
    ensures code == Some(200) && contentType == Some("text/html")
    ensures body != null && body.closed && body.log == [104, 101, 108, 108, 111]
  {
    var replies := [WriteReply(5, Ok), WriteReply(5, Ok)];
    var fetcher, r := StartFullBodyFetch("http://example.com/hello", replies);
    HelloPlayback(steps, replies);
    fetcher.RunEntireBodyDriver(true, steps);
    assert fetcher.Observe() == Observed(LastSeen(200, "text/html"), [104, 101, 108, 108, 111], []);
    code, contentType := fetcher.statusCodePromise, fetcher.contentTypePromise;
    body := r.value.stream;
  }

  /** A full-body fetch into a writer the caller owns: no stream is handed back. */
  method StartFetchInto(url: string, writer: Sink) returns (fetcher: LibCurlHttpContentFetcher, r: Result<HttpContent>)
    ensures fresh(fetcher) && fetcher.Valid()
    ensures r == Success(HttpContent(null))
    ensures fetcher.thread == Some(EntireBodyDriver(false)) && fetcher.streamWriter == writer
    ensures fetcher.lastStatusCode == 0 && fetcher.lastContentType == ""
    ensures !fetcher.isShutdown && !fetcher.done
    ensures fetcher.statusCodePromise.None? && fetcher.contentTypePromise.None?
  {
    fetcher := new LibCurlHttpContentFetcher(url);
    NothingFails(ConfigPlan(EntireBody, true));
    r := fetcher.GetContent(EntireBody, writer, {}, []);
  }

  /**
   * The same fetch into a writer the caller owns: the reader sees the whole
   * body, but the driver leaves the writer open for its owner to close.
   */
  method FetchHelloIntoCallerWriter(steps: seq<Step>) returns (stream: Sink?, closed: bool, ghost log: seq<uint8>)
    requires HelloScript(steps)
    ensures stream == null && !closed && log == [104, 101, 108, 108, 111]
  {
    var replies := [WriteReply(5, Ok), WriteReply(5, Ok)];
    var writer := new Sink("caller", replies);
    var fetcher, r := StartFetchInto("http://example.com/hello", writer);
    assert fetcher.Observe() == Observed(LastSeen(0, ""), [], replies);
    HelloPlayback(steps, replies);
    fetcher.RunEntireBodyDriver(true, steps);
    stream, closed := r.value.stream, writer.closed;
    log := writer.log;
  }

  /**
   * When the multi handle cannot be created, the full-body driver fulfils the
   * promises with 0 and "", and neither closes the attachment nor sets done.
   */
  method FullBodyWithoutMultiHandle(steps: seq<Step>) returns (code: Option<int>, contentType: Option<string>, closed: bool, done: bool)
    ensures code == Some(0) && contentType == Some("") && !closed && !done
  {
    var fetcher, _ := StartFullBodyFetch("http://example.com/live", []);
    fetcher.RunEntireBodyDriver(false, steps);
    code, contentType := fetcher.statusCodePromise, fetcher.contentTypePromise;
    closed, done := fetcher.streamWriter.closed, fetcher.done;
  }

  /** Once the destructor has set the done flag, a late body chunk is refused and nothing is written. */
  method BodyAfterDestructor(chunk: seq<uint8>) returns (r: nat, ghost log: seq<uint8>)
    ensures r == 0 && log == []
  {
    var fetcher, _ := StartFullBodyFetch("http://example.com/live", [WriteReply(|chunk|, Ok)]);
    fetcher.Destroy();
    r := fetcher.BodyCallback(chunk, 1, |chunk|, true, None);
    log := fetcher.streamWriter.log;
  }

  /** The content-type probe of a redirected URL fulfils the promises from the final reply. */
  method ProbeRedirectedUrl(steps: seq<Step>) returns (code: Option<int>, contentType: Option<string>)
    requires steps == [Step(PerformOk, 1, [], Some(301), None, true),
                       Step(PerformOk, 0, [], Some(200), Some("application/json"), true)]
    ensures code == Some(200) && contentType == Some("application/json")
  {
    var fetcher := new LibCurlHttpContentFetcher("http://example.com/moved");
    NothingFails(ConfigPlan(ContentTypeOnly, false));
    var _ := fetcher.GetContent(ContentTypeOnly, null, {}, []);
    ProbeFollowsRedirect();
    fetcher.RunContentTypeDriver(true, steps);
    code, contentType := fetcher.statusCodePromise, fetcher.contentTypePromise;
  }

  /** A rejected option ends getContent at that step; the steps after it are never made. */
  method RejectedAutoReferer() returns (r: Result<HttpContent>, ghost attempted: seq<ConfigStep>)
    ensures r == Failure(ConfigurationFailed(AutoReferer))
    ensures attempted == [SetUrl, FollowRedirects, AutoReferer]
  {
    var fetcher := new LibCurlHttpContentFetcher("http://example.com/");
    ghost var plan := ConfigPlan(EntireBody, false);
    FailIndexIsUnique(plan, {AutoReferer}, 2);
    r := fetcher.GetContent(EntireBody, null, {AutoReferer}, []);
    attempted := fetcher.configured;
    assert plan[..3] == [SetUrl, FollowRedirects, AutoReferer];
  }
}
