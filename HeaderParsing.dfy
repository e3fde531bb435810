/**
 * The pure part of the fetcher's header callback: one raw header line is
 * lower-cased, tested for the prefixes "http" and "content-type", split into
 * whitespace-separated words the way two `>>` extractions from a string
 * stream split it, and reduced to the field update the callback performs.
 */
module HeaderParsing {

  // ---------------------------------------------------------------------------
  // Characters
  // ---------------------------------------------------------------------------

  predicate IsUpper(c: char) { 'A' <= c <= 'Z' }

  /** `::tolower` in the "C" locale: only the 26 ASCII capitals change. */
  function LowerChar(c: char): char {
    if IsUpper(c) then (c as int + 32) as char else c
  }

  /** The characters `isspace` accepts in the "C" locale: space, \t, \n, \v, \f, \r. */
  predicate IsSpace(c: char) { c == ' ' || '\t' <= c <= '\r' }

  predicate IsDigit(c: char) { '0' <= c <= '9' }

  /** `std::transform(line.begin(), line.end(), line.begin(), ::tolower)`. */
  function Lower(s: string): (r: string)
    ensures |r| == |s|
    ensures forall i :: 0 <= i < |s| ==> r[i] == LowerChar(s[i])
  {
    seq(|s|, i requires 0 <= i < |s| => LowerChar(s[i]))
  }

  lemma LowerHasNoCapitals(s: string)
    ensures forall i :: 0 <= i < |s| ==> !IsUpper(Lower(s)[i])
  {
  }

  lemma LowerAppend(a: string, b: string)
    ensures Lower(a + b) == Lower(a) + Lower(b)
  {
    assert forall i :: 0 <= i < |a + b| ==> Lower(a + b)[i] == (Lower(a) + Lower(b))[i];
  }

  /** `line.find(p) == 0`. */
  predicate StartsWith(s: string, p: string) {
    |p| <= |s| && s[..|p|] == p
  }

  // ---------------------------------------------------------------------------
  // Word extraction: one `iss >> word` on a std::string target
  // ---------------------------------------------------------------------------

  predicate NoSpace(s: string) { forall i :: 0 <= i < |s| ==> !IsSpace(s[i]) }

  predicate AllSpace(s: string) { forall i :: 0 <= i < |s| ==> IsSpace(s[i]) }

  /** How many whitespace characters a stream skips before reading a word. */
  function SpaceCount(s: string): (k: nat)
    ensures k <= |s|
    ensures forall i :: 0 <= i < k ==> IsSpace(s[i])
    ensures k == |s| || !IsSpace(s[k])
  {
    if s != [] && IsSpace(s[0]) then 1 + SpaceCount(s[1..]) else 0
  }

  /** What a stream skips before reading a word: the leading whitespace. */
  function SkipSpaces(s: string): (r: string)
    ensures |r| <= |s| && r == s[|s| - |r|..]
    ensures AllSpace(s[..|s| - |r|])
    ensures r == [] || !IsSpace(r[0])
  {
    s[SpaceCount(s)..]
  }

  /** The longest prefix without whitespace: the word a stream then reads. */
  function WordPrefix(s: string): (w: string)
    ensures |w| <= |s| && w == s[..|w|]
    ensures NoSpace(w)
    ensures |w| == |s| || IsSpace(s[|w|])
  {
    if s != [] && !IsSpace(s[0]) then [s[0]] + WordPrefix(s[1..]) else []
  }

  /**
   * One extraction into a std::string: the word read and the rest of the
   * stream. A failed extraction (nothing but whitespace left) reads as the
   * empty word, which is what a freshly constructed string is left holding.
   */
  function Extract(s: string): (string, string) {
    var t := SkipSpaces(s);
    var w := WordPrefix(t);
    (w, t[|w|..])
  }

  /** `iss >> first >> second`: the second word of the line, or "" when there is none. */
  function SecondWord(line: string): string {
    Extract(Extract(line).1).0
  }

  lemma {:induction false} SkipLeadingSpaces(ws: string, t: string)
    requires AllSpace(ws)
    requires t == [] || !IsSpace(t[0])
    ensures SkipSpaces(ws + t) == t
  {
    if ws != [] {
      assert (ws + t)[1..] == ws[1..] + t;
      SkipLeadingSpaces(ws[1..], t);
    }
  }

  lemma {:induction false} WordOfAppend(w: string, rest: string)
    requires NoSpace(w)
    ensures WordPrefix(w + rest) == w + WordPrefix(rest)
  {
    if w != [] {
      assert (w + rest)[0] == w[0] && !IsSpace(w[0]);
      assert (w + rest)[1..] == w[1..] + rest;
      assert WordPrefix(w + rest) == [w[0]] + WordPrefix(w[1..] + rest);
      WordOfAppend(w[1..], rest);
      assert [w[0]] + (w[1..] + WordPrefix(rest)) == w + WordPrefix(rest);
    } else {
      assert w + rest == rest;
    }
  }

  /**
   * The reference reading of one extraction: a string that is whitespace,
   * then a non-empty word, then something that starts with whitespace (or
   * nothing) yields exactly that word and that remainder.
   */
  lemma ExtractDecomposes(ws: string, w: string, rest: string)
    requires AllSpace(ws) && w != [] && NoSpace(w)
    requires rest == [] || IsSpace(rest[0])
    ensures Extract(ws + w + rest) == (w, rest)
  {
    assert ws + w + rest == ws + (w + rest);
    SkipLeadingSpaces(ws, w + rest);
    WordOfAppend(w, rest);
    assert WordPrefix(rest) == [];
    assert w + [] == w;
    assert (w + rest)[|w|..] == rest;
  }

  // ---------------------------------------------------------------------------
  // Integers: `iss >> statusCode` into a long
  // ---------------------------------------------------------------------------

  predicate AllDigits(s: string) { forall i :: 0 <= i < |s| ==> IsDigit(s[i]) }

  function DigitValue(c: char): nat
    requires IsDigit(c)
  {
    c as int - '0' as int
  }

  function DigitsValue(s: string): nat
    requires AllDigits(s)
  {
    if s == [] then 0 else DigitsValue(s[..|s| - 1]) * 10 + DigitValue(s[|s| - 1])
  }

  /** The range of a `long` on an LP64 platform. */
  const LongMax: int := 0x7FFF_FFFF_FFFF_FFFF
  const LongMin: int := -0x8000_0000_0000_0000

  /** The longest prefix made of decimal digits. */
  function DigitRun(s: string): (d: string)
    ensures |d| <= |s| && d == s[..|d|] && AllDigits(d)
    ensures |d| == |s| || !IsDigit(s[|d|])
  {
    if s != [] && IsDigit(s[0]) then [s[0]] + DigitRun(s[1..]) else []
  }

  /**
   * One extraction into a long from what is left of the stream: whitespace
   * is skipped, an optional sign and the longest run of decimal digits are
   * read. Without a digit the extraction fails and stores 0; a value out of
   * range stores the nearest bound. When nothing but whitespace is left the
   * stream's sentry fails first and the source's `statusCode` is never
   * written; the model stores 0 there too.
   */
  function ReadLong(s: string): (v: int)
    ensures LongMin <= v <= LongMax
  {
    var t := SkipSpaces(s);
    var signed := t != [] && (t[0] == '-' || t[0] == '+');
    var digits := DigitRun(if signed then t[1..] else t);
    if digits == [] then 0
    else
      var magnitude: int := DigitsValue(digits);
      var value: int := if signed && t[0] == '-' then -magnitude else magnitude;
      if value > LongMax then LongMax else if value < LongMin then LongMin else value
  }

  lemma {:induction false} DigitRunOfAppend(d: string, rest: string)
    requires AllDigits(d)
    requires rest == [] || !IsDigit(rest[0])
    ensures DigitRun(d + rest) == d
  {
    if d != [] {
      assert (d + rest)[0] == d[0];
      assert (d + rest)[1..] == d[1..] + rest;
      DigitRunOfAppend(d[1..], rest);
    } else {
      assert d + rest == rest;
    }
  }

  function DigitChar(d: nat): (c: char)
    requires d < 10
    ensures IsDigit(c) && DigitValue(c) == d
  {
    ('0' as int + d) as char
  }

  /** The decimal spelling of a natural number, the reference for ReadLong. */
  function DecimalString(n: nat): (s: string)
    ensures s != [] && AllDigits(s) && NoSpace(s)
  {
    if n < 10 then [DigitChar(n)] else DecimalString(n / 10) + [DigitChar(n % 10)]
  }

  lemma {:induction false} DigitsValueOfDecimal(n: nat)
    ensures DigitsValue(DecimalString(n)) == n
  {
    var s := DecimalString(n);
    if n >= 10 {
      DigitsValueOfDecimal(n / 10);
      assert s[..|s| - 1] == DecimalString(n / 10);
    }
  }

  /**
   * Reading back the decimal spelling of a number in the range of a long,
   * after any whitespace and before anything that is not a digit, gives the number.
   */
  lemma ReadLongRoundTrip(ws: string, n: nat, rest: string)
    requires AllSpace(ws) && n <= LongMax
    requires rest == [] || !IsDigit(rest[0])
    ensures ReadLong(ws + DecimalString(n) + rest) == n
  {
    var digits := DecimalString(n);
    var t := digits + rest;
    assert ws + digits + rest == ws + t;
    assert t[0] == digits[0] && IsDigit(t[0]);
    SkipLeadingSpaces(ws, t);
    DigitRunOfAppend(digits, rest);
    DigitsValueOfDecimal(n);
    ReadUnsigned(ws + t, t, digits);
  }

  /** An extraction that meets a digit after the whitespace reads the value of the digit run, clamped. */
  lemma ReadUnsigned(s: string, t: string, d: string)
    requires SkipSpaces(s) == t && t != [] && IsDigit(t[0])
    requires DigitRun(t) == d && DigitsValue(d) <= LongMax
    ensures ReadLong(s) == DigitsValue(d)
  {
    assert d != [] by {
      assert t[..1] == [t[0]];
    }
  }

  /** A status line with no number after its first word stores 0. */
  lemma ReadLongWithoutDigits(s: string)
    requires var t := SkipSpaces(s); t == [] || (!IsDigit(t[0]) && t[0] != '-' && t[0] != '+')
    ensures ReadLong(s) == 0
  {
  }

  // ---------------------------------------------------------------------------
  // Media type: everything from the first ';' on is dropped
  // ---------------------------------------------------------------------------

  /** `contentType.erase(contentType.find(";"))` when there is a ';'. */
  function CutAtSemicolon(s: string): (r: string)
    ensures |r| <= |s| && r == s[..|r|]
    ensures ';' !in r
    ensures |r| < |s| ==> s[|r|] == ';'
  {
    if s == [] || s[0] == ';' then [] else [s[0]] + CutAtSemicolon(s[1..])
  }

  /** CutAtSemicolon keeps a ';'-free prefix up to the separator that follows it. */
  lemma CutBeforeSeparator(a: string, b: string)
    requires ';' !in a
    requires b == [] || b[0] == ';'
    ensures CutAtSemicolon(a + b) == a
  {
    var r := CutAtSemicolon(a + b);
    assert r == (a + b)[..|a|] == a;
  }

  // ---------------------------------------------------------------------------
  // The header line and its effect
  // ---------------------------------------------------------------------------

  /** What one header line does to the fetcher's last-seen metadata. */
  datatype HeaderKind =
    | StatusLine(code: int)         // overwrites the last status code
    | ContentTypeLine(value: string) // overwrites the last content type
    | OtherLine                      // changes nothing

  /** The branch structure of the header callback, on the lower-cased line. */
  function Classify(line: string): HeaderKind {
    var l := Lower(line);
    if StartsWith(l, "http") then StatusLine(ReadLong(Extract(l).1))
    else if StartsWith(l, "content-type") then ContentTypeLine(CutAtSemicolon(SecondWord(l)))
    else OtherLine
  }

  /** The two fields the header callback writes: m_lastStatusCode and m_lastContentType. */
  datatype LastSeen = LastSeen(statusCode: int, contentType: string)

  function Update(m: LastSeen, line: string): LastSeen {
    match Classify(line)
    case StatusLine(c) => m.(statusCode := c)
    case ContentTypeLine(v) => m.(contentType := v)
    case OtherLine => m
  }

  /** The header lines of a response, applied in the order the transport delivers them. */
  function UpdateAll(m: LastSeen, lines: seq<string>): LastSeen
    decreases |lines|
  {
    if lines == [] then m else Update(UpdateAll(m, lines[..|lines| - 1]), lines[|lines| - 1])
  }

  // ---------------------------------------------------------------------------
  // Properties of the header callback's parsing
  // ---------------------------------------------------------------------------

  /**
   * Which field a line changes: a line whose lower-cased form starts with
   * "http" changes only the status code, one that starts with
   * "content-type" (and not "http") changes only the content type, and any
   * other line changes nothing.
   */
  lemma UpdateTouchesOneField(m: LastSeen, line: string)
    ensures StartsWith(Lower(line), "http") ==>
              Update(m, line).contentType == m.contentType
    ensures !StartsWith(Lower(line), "http") ==> Update(m, line).statusCode == m.statusCode
    ensures !StartsWith(Lower(line), "http") && !StartsWith(Lower(line), "content-type") ==>
              Update(m, line) == m
  {
  }

  /** Lines are matched case-insensitively: a line and its lower-cased form have the same effect. */
  lemma {:induction false} ClassifyIgnoresCase(line: string)
    ensures Classify(Lower(line)) == Classify(line)
  {
    var l := Lower(line);
    assert Lower(l) == l by {
      forall i | 0 <= i < |l| ensures Lower(l)[i] == l[i] {
        assert !IsUpper(l[i]) by { LowerHasNoCapitals(line); }
      }
    }
  }

  predicate NoCapitals(s: string) { forall i :: 0 <= i < |s| ==> !IsUpper(s[i]) }

  lemma ExtractKeepsNoCapitals(s: string)
    requires NoCapitals(s)
    ensures NoCapitals(Extract(s).0) && NoCapitals(Extract(s).1)
  {
    var t := SkipSpaces(s);
    assert NoCapitals(t) by {
      forall i | 0 <= i < |t| ensures !IsUpper(t[i]) {
        assert t[i] == s[|s| - |t| + i];
      }
    }
    var w := WordPrefix(t);
    assert NoCapitals(w) by {
      forall i | 0 <= i < |w| ensures !IsUpper(w[i]) {
        assert w[i] == t[i];
      }
    }
  }

  /**
   * A content type the callback stores never contains ';', holds no
   * upper-case letter, and is a prefix of the second word of the lower-cased line.
   */
  lemma ContentTypeIsClean(line: string)
    requires Classify(line).ContentTypeLine?
    ensures ';' !in Classify(line).value
    ensures NoCapitals(Classify(line).value)
    ensures Classify(line).value == SecondWord(Lower(line))[..|Classify(line).value|]
  {
    var l := Lower(line);
    LowerHasNoCapitals(line);
    ExtractKeepsNoCapitals(l);
    ExtractKeepsNoCapitals(Extract(l).1);
    var w := SecondWord(l);
    var v := CutAtSemicolon(w);
    assert Classify(line).value == v;
    assert NoCapitals(v) by {
      forall i | 0 <= i < |v| ensures !IsUpper(v[i]) {
        assert v[i] == w[i];
      }
    }
  }

  /** The effect of a line whose lower-cased form starts with "http". */
  lemma StatusLineEffect(m: LastSeen, line: string)
    requires StartsWith(Lower(line), "http")
    ensures Update(m, line) == LastSeen(ReadLong(Extract(Lower(line)).1), m.contentType)
  {
  }

  /** The effect of a line whose lower-cased form starts with "content-type" and not "http". */
  lemma ContentTypeLineEffect(m: LastSeen, line: string)
    requires !StartsWith(Lower(line), "http") && StartsWith(Lower(line), "content-type")
    ensures Update(m, line) == LastSeen(m.statusCode, CutAtSemicolon(SecondWord(Lower(line))))
  {
  }

  /** The word one extraction reads from `ws w rest` runs on into `rest` up to its first space. */
  lemma ExtractWordRunsOn(ws: string, w: string, rest: string)
    requires AllSpace(ws) && w != [] && NoSpace(w)
    ensures Extract(ws + w + rest).0 == w + WordPrefix(rest)
  {
    assert ws + w + rest == ws + (w + rest);
    SkipLeadingSpaces(ws, w + rest);
    WordOfAppend(w, rest);
  }

  /** Two extractions from `first ws second rest` read `first` and then `second` up to the next space. */
  lemma SecondWordOf(first: string, ws: string, second: string, rest: string)
    requires first != [] && NoSpace(first)
    requires ws != [] && AllSpace(ws)
    requires second != [] && NoSpace(second)
    ensures SecondWord(first + ws + second + rest) == second + WordPrefix(rest)
  {
    var tail := ws + second + rest;
    assert first + ws + second + rest == [] + first + tail;
    ExtractDecomposes([], first, tail);
    ExtractWordRunsOn(ws, second, rest);
  }

  lemma LowerKeeps(s: string)
    requires NoCapitals(s)
    ensures Lower(s) == s
  {
  }

  lemma LowerKeepsNoSpace(s: string)
    requires NoSpace(s)
    ensures NoSpace(Lower(s))
  {
  }

  lemma LowerOfLine(first: string, second: string, rest: string)
    ensures Lower(first + " " + second + rest) == Lower(first) + " " + Lower(second) + Lower(rest)
  {
    var x := second + rest;
    var y := " " + x;
    assert first + " " + second + rest == first + y;
    calc {
      Lower(first + y);
    == { LowerAppend(first, y); }
      Lower(first) + Lower(y);
    == { LowerAppend(" ", x); LowerKeeps(" "); }
      Lower(first) + (" " + Lower(x));
    == { LowerAppend(second, rest); }
      Lower(first) + (" " + (Lower(second) + Lower(rest)));
    }
  }

  /**
   * A status line written as `<version> <code><rest>` — any version word
   * whose lower-cased form starts with "http", a decimal code in the range
   * of a long, and a rest that does not start with a digit — stores exactly
   * that code and leaves the content type alone.
   */
  lemma StatusLineReadsCode(m: LastSeen, version: string, code: nat, rest: string)
    requires StartsWith(Lower(version), "http") && NoSpace(version)
    requires code <= LongMax
    requires rest == [] || !IsDigit(rest[0])
    ensures Update(m, version + " " + DecimalString(code) + rest) == LastSeen(code, m.contentType)
  {
    var digits := DecimalString(code);
    var line := version + " " + digits + rest;
    var lv, tail := Lower(version), " " + digits + Lower(rest);
    assert Lower(line) == lv + tail by {
      LowerOfLine(version, digits, rest);
      LowerKeeps(digits);
    }
    assert StartsWith(Lower(line), "http") by {
      PrefixOfLonger(lv, tail, "http");
    }
    assert Extract(Lower(line)).1 == tail by {
      LowerKeepsNoSpace(version);
      assert lv + tail == [] + lv + tail;
      ExtractDecomposes([], lv, tail);
    }
    CodeAfterVersion(code, rest);
    StatusLineEffect(m, line);
  }

  /**
   * Any header whose name starts with "http" is taken for a status line: when
   * what follows its name is text that does not start with a number, the
   * failed extraction overwrites the status code with 0 and the content type
   * is kept.
   */
  lemma HttpNamedHeaderStoresZero(m: LastSeen, name: string, rest: string)
    requires StartsWith(Lower(name), "http") && NoSpace(name)
    requires rest == [] || IsSpace(rest[0])
    requires var t := SkipSpaces(Lower(rest)); t != [] && !IsDigit(t[0]) && t[0] != '-' && t[0] != '+'
    ensures Update(m, name + rest) == LastSeen(0, m.contentType)
  {
    var ln, lr := Lower(name), Lower(rest);
    LowerAppend(name, rest);
    PrefixOfLonger(ln, lr, "http");
    assert Extract(ln + lr) == (ln, lr) by {
      LowerKeepsNoSpace(name);
      if rest != [] {
        assert lr[0] == LowerChar(rest[0]);
      }
      assert ln != [];
      ExtractDecomposes([], ln, lr);
      assert [] + ln + lr == ln + lr;
    }
    ReadLongWithoutDigits(lr);
    StatusLineEffect(m, name + rest);
  }

  lemma CodeAfterVersion(code: nat, rest: string)
    requires code <= LongMax
    requires rest == [] || !IsDigit(rest[0])
    ensures ReadLong(" " + DecimalString(code) + Lower(rest)) == code
  {
    LowerKeepsNonDigit(rest);
    ReadLongRoundTrip(" ", code, Lower(rest));
  }

  lemma LowerKeepsNonDigit(s: string)
    requires s == [] || !IsDigit(s[0])
    ensures Lower(s) == [] || !IsDigit(Lower(s)[0])
  {
  }

  /**
   * A content-type line written as `<name> <value><tail>` — a name whose
   * lower-cased form starts with "content-type" (and not "http"), a
   * non-empty value without whitespace or ';', and a tail that is empty,
   * starts with whitespace, or starts with ';' (the parameters) — stores the
   * lower-cased value and leaves the status code alone.
   */
  lemma ContentTypeLineReadsValue(m: LastSeen, name: string, value: string, tail: string)
    requires StartsWith(Lower(name), "content-type") && NoSpace(name)
    requires value != [] && NoSpace(value) && ';' !in value
    requires tail == [] || IsSpace(tail[0]) || tail[0] == ';'
    ensures Update(m, name + " " + value + tail) == LastSeen(m.statusCode, Lower(value))
  {
    var line := name + " " + value + tail;
    var ln, lv, lt := Lower(name), Lower(value), Lower(tail);
    assert Lower(line) == ln + (" " + lv + lt) by {
      LowerOfLine(name, value, tail);
    }
    assert !StartsWith(Lower(line), "http") && StartsWith(Lower(line), "content-type") by {
      PrefixOfLonger(ln, " " + lv + lt, "content-type");
      ContentTypeIsNotHttp(Lower(line));
    }
    assert CutAtSemicolon(SecondWord(Lower(line))) == lv by {
      LowerKeepsNoSpace(name);
      LowerKeepsNoSpace(value);
      LowerKeepsNoSemicolon(value);
      assert Lower(line) == ln + " " + lv + lt;
      SecondWordOf(ln, " ", lv, lt);
      ParametersFollowValue(tail);
      CutBeforeSeparator(lv, WordPrefix(lt));
    }
    ContentTypeLineEffect(m, line);
  }

  lemma PrefixOfLonger(a: string, b: string, p: string)
    requires StartsWith(a, p)
    ensures StartsWith(a + b, p)
  {
    assert (a + b)[..|p|] == a[..|p|];
  }

  lemma ContentTypeIsNotHttp(l: string)
    requires StartsWith(l, "content-type")
    ensures !StartsWith(l, "http")
  {
    assert l[0] == 'c';
  }

  lemma LowerKeepsNoSemicolon(s: string)
    requires ';' !in s
    ensures ';' !in Lower(s)
  {
  }

  /** After the value, the word being read either ends or runs on into the ';' parameters. */
  lemma ParametersFollowValue(tail: string)
    requires tail == [] || IsSpace(tail[0]) || tail[0] == ';'
    ensures WordPrefix(Lower(tail)) == [] || WordPrefix(Lower(tail))[0] == ';'
  {
    var lt := Lower(tail);
    if tail != [] {
      assert lt[0] == LowerChar(tail[0]);
    }
  }
}
