/** The service layer: salvaging JSON from the model's free-form answer,
    attaching the batch's citations to every parsed item, the fixed fallback
    feeds, and the outcomes of fetching the feed and analysing one item.
    The generation call, `JSON.parse` and `uuidv4` are parameters: a
    `CallOutcome`, a partial `parse` function (None when it throws) and a
    `newId` function giving the id of the i-th item. */
module GeminiService {
  import opened Wrappers
  import opened Types
  import opened Text

  // ---------------------------------------------------------------------
  // cleanJson: trim, drop one leading "```json" (any case), then one
  // leading "```", then one trailing "```", and trim again.
  // ---------------------------------------------------------------------

  const Fence: string := "```"

  function AsciiLower(c: char): char {
    if 'A' <= c <= 'Z' then (c as int + 32) as char else c
  }

  /** The regular expression `/^```json/i` matches at the start of `s`. */
  predicate StartsWithJsonFence(s: string) {
    |s| >= 7 && s[..3] == Fence
    && AsciiLower(s[3]) == 'j' && AsciiLower(s[4]) == 's'
    && AsciiLower(s[5]) == 'o' && AsciiLower(s[6]) == 'n'
  }

  function StripJsonFence(s: string): string {
    if StartsWithJsonFence(s) then s[7..] else s
  }

  function StripLeadingFence(s: string): string {
    if |s| >= 3 && s[..3] == Fence then s[3..] else s
  }

  function StripTrailingFence(s: string): string {
    if |s| >= 3 && s[|s| - 3..] == Fence then s[..|s| - 3] else s
  }

  function CleanJson(text: string): (r: string)
    ensures IsTrimmed(r)
    ensures |r| <= |text|
  {
    Trim(StripTrailingFence(StripLeadingFence(StripJsonFence(Trim(text)))))
  }

  /** Characters that cleaning may remove from the front of the text. */
  predicate FrontJunk(c: char) {
    IsWhitespace(c) || c == '`' || AsciiLower(c) in "json"
  }

  /** Characters that cleaning may remove from the back of the text. */
  predicate BackJunk(c: char) {
    IsWhitespace(c) || c == '`'
  }

  /** `r` is the slice of `s` at offset `k`; only front junk precedes it and
      only back junk follows it. */
  ghost predicate InsideAt(r: string, s: string, k: int) {
    0 <= k <= |s| - |r| && r == s[k..k + |r|]
    && (forall i :: 0 <= i < k ==> FrontJunk(s[i]))
    && (forall i :: k + |r| <= i < |s| ==> BackJunk(s[i]))
  }

  ghost predicate Inside(r: string, s: string) {
    exists k :: InsideAt(r, s, k)
  }

  lemma {:induction false} InsideTransitive(r: string, s: string, t: string)
    requires Inside(r, s) && Inside(s, t)
    ensures Inside(r, t)
  {
    var k1 :| InsideAt(s, t, k1);
    var k2 :| InsideAt(r, s, k2);
    var k := k1 + k2;
    forall i | 0 <= i < |r| ensures r[i] == t[k + i] {
      assert r[i] == s[k2 + i] && s[k2 + i] == t[k1 + k2 + i];
    }
    assert r == t[k..k + |r|];
    forall i | 0 <= i < k ensures FrontJunk(t[i]) {
      if i >= k1 { assert t[i] == s[i - k1]; }
    }
    forall i | k + |r| <= i < |t| ensures BackJunk(t[i]) {
      if i < k1 + |s| { assert t[i] == s[i - k1]; }
    }
    assert InsideAt(r, t, k);
  }

  lemma {:induction false} TrimInside(s: string)
    ensures Inside(Trim(s), s)
  {
    TrimSlice(s);
    assert InsideAt(Trim(s), s, TextStart(s, 0));
  }

  lemma {:induction false} Unchanged(s: string)
    ensures Inside(s, s)
  {
    assert InsideAt(s, s, 0);
  }

  lemma {:induction false} StripJsonFenceInside(s: string)
    ensures Inside(StripJsonFence(s), s)
  {
    if StartsWithJsonFence(s) {
      var r := StripJsonFence(s);
      forall i | 0 <= i < 7 ensures FrontJunk(s[i]) {
        if i < 3 { assert s[i] == s[..3][i]; }
      }
      assert InsideAt(r, s, 7);
    } else {
      Unchanged(s);
    }
  }

  lemma {:induction false} StripLeadingFenceInside(s: string)
    ensures Inside(StripLeadingFence(s), s)
  {
    if |s| >= 3 && s[..3] == Fence {
      forall i | 0 <= i < 3 ensures FrontJunk(s[i]) { assert s[i] == s[..3][i]; }
      assert InsideAt(StripLeadingFence(s), s, 3);
    } else {
      Unchanged(s);
    }
  }

  lemma {:induction false} StripTrailingFenceInside(s: string)
    ensures Inside(StripTrailingFence(s), s)
  {
    if |s| >= 3 && s[|s| - 3..] == Fence {
      var r := StripTrailingFence(s);
      forall i | |r| <= i < |s| ensures BackJunk(s[i]) {
        assert s[i] == s[|s| - 3..][i - (|s| - 3)];
      }
      assert InsideAt(r, s, 0);
    } else {
      Unchanged(s);
    }
  }

  /** Cleaning only ever removes whitespace, backticks and the letters of the
      "json" tag from the front, and whitespace and backticks from the back. */
  lemma {:induction false} CleanJsonInside(text: string)
    ensures Inside(CleanJson(text), text)
  {
    var t1 := Trim(text);
    var t2 := StripJsonFence(t1);
    var t3 := StripLeadingFence(t2);
    var t4 := StripTrailingFence(t3);
    TrimInside(text);
    StripJsonFenceInside(t1);
    StripLeadingFenceInside(t2);
    StripTrailingFenceInside(t3);
    TrimInside(t4);
    InsideTransitive(t2, t1, text);
    InsideTransitive(t3, t2, text);
    InsideTransitive(t4, t3, text);
    InsideTransitive(Trim(t4), t4, text);
  }

  /** Text without fences after trimming is only trimmed. */
  lemma {:induction false} CleanJsonWithoutFences(text: string)
    requires !(|Trim(text)| >= 3 && Trim(text)[..3] == Fence)
    requires !(|Trim(text)| >= 3 && Trim(text)[|Trim(text)| - 3..] == Fence)
    ensures CleanJson(text) == Trim(text)
  {
    var t := Trim(text);
    assert StripJsonFence(t) == t;
    assert StripLeadingFence(t) == t;
    assert StripTrailingFence(t) == t;
    TrimTrimmed(t);
  }

  predicate IsJsonTag(tag: string) {
    |tag| == 4 && AsciiLower(tag[0]) == 'j' && AsciiLower(tag[1]) == 's'
    && AsciiLower(tag[2]) == 'o' && AsciiLower(tag[3]) == 'n'
  }

  /** The three fence removals take a fenced block down to its body between
      two line breaks. */
  lemma {:induction false} FencesStripped(tag: string, body: string)
    requires IsJsonTag(tag)
    ensures StripTrailingFence(StripLeadingFence(StripJsonFence(Fence + tag + "\n" + body + "\n" + Fence)))
            == "\n" + body + "\n"
  {
    var x := Fence + tag + "\n" + body + "\n" + Fence;
    var s1 := "\n" + body + "\n" + Fence;
    assert x == Fence + tag + s1;
    assert x[..3] == Fence;
    assert x[3] == tag[0] && x[4] == tag[1] && x[5] == tag[2] && x[6] == tag[3];
    assert StartsWithJsonFence(x);
    assert x[7..] == s1;
    assert s1[0] == '\n' && s1[..3] != Fence;
    assert s1[|s1| - 3..] == Fence;
    assert s1[..|s1| - 3] == "\n" + body + "\n";
  }

  lemma {:induction false} NewlineIsWhitespace()
    ensures AllWhitespace("\n")
  {
    assert "\n"[0] == '\n';
  }

  /** A fenced block begins and ends with a backtick, so `trim` leaves it alone. */
  lemma {:induction false} FencedTrimmed(tag: string, body: string)
    ensures IsTrimmed(Fence + tag + "\n" + body + "\n" + Fence)
  {
    var x := Fence + tag + "\n" + body + "\n" + Fence;
    assert x[0] == '`' && x[|x| - 1] == '`';
  }

  /** A fenced block "```json\n" + body + "\n```" (tag in any letter case)
      cleans to its trimmed body. */
  lemma {:induction false} FenceRoundTrip(tag: string, body: string)
    requires IsJsonTag(tag)
    requires IsTrimmed(body)
    ensures CleanJson(Fence + tag + "\n" + body + "\n" + Fence) == body
  {
    var x := Fence + tag + "\n" + body + "\n" + Fence;
    FencedTrimmed(tag, body);
    TrimTrimmed(x);
    var y := StripTrailingFence(StripLeadingFence(StripJsonFence(x)));
    FencesStripped(tag, body);
    assert y == "\n" + body + "\n";
    NewlineIsWhitespace();
    TrimOfPadded("\n", body, "\n");
    assert Trim(y) == body;
  }

  // ---------------------------------------------------------------------
  // Span extraction: from the first opening bracket to the last closing
  // one, through `substring`, which swaps its arguments when needed.
  // ---------------------------------------------------------------------

  function ExtractSpan(s: string, open: char, close: char): (r: string)
    ensures open !in s || close !in s ==> r == s
    ensures open in s && close in s && IndexOf(s, open) < LastIndexOf(s, close) ==>
              r == s[IndexOf(s, open)..LastIndexOf(s, close) + 1] && r[0] == open && r[|r| - 1] == close
  {
    var start := IndexOf(s, open);
    var end := LastIndexOf(s, close);
    if start != -1 && end != -1 then Substring(s, start, end + 1) else s
  }

  /** The bracket search and `substring` call that both service functions
      perform on the cleaned text. */
  method SliceSpan(s: string, open: char, close: char) returns (jsonStr: string)
    ensures jsonStr == ExtractSpan(s, open, close)
  {
    jsonStr := s;
    var start := IndexOf(jsonStr, open);
    var end := LastIndexOf(jsonStr, close);
    if start != -1 && end != -1 {
      jsonStr := Substring(jsonStr, start, end + 1);
    }
  }

  /** The text handed to the parser for the news feed. */
  function ArrayJsonText(text: string): string {
    ExtractSpan(CleanJson(text), '[', ']')
  }

  /** The text handed to the parser for an analysis. */
  function ObjectJsonText(text: string): string {
    ExtractSpan(CleanJson(text), '{', '}')
  }

  /** When the last closing bracket comes before the first opening one, the
      swapped `substring` yields the text strictly between the two, which
      holds neither bracket. */
  lemma {:induction false} ExtractSpanSwapped(s: string, open: char, close: char)
    requires open in s && close in s && IndexOf(s, open) > LastIndexOf(s, close)
    ensures ExtractSpan(s, open, close) == s[LastIndexOf(s, close) + 1..IndexOf(s, open)]
    ensures open !in ExtractSpan(s, open, close) && close !in ExtractSpan(s, open, close)
  {
    var f, l := IndexOf(s, open), LastIndexOf(s, close);
    var r := s[l + 1..f];
    assert r == s[..f][l + 1..] && r == s[l + 1..][..f - (l + 1)];
  }

  /** Text around a bracketed span that holds no opening bracket before it and
      no closing bracket after it is cut away exactly. */
  lemma {:induction false} ExtractSpanFramed(p: string, j: string, q: string, open: char, close: char)
    requires open != close
    requires |j| > 0 && j[0] == open && j[|j| - 1] == close
    requires open !in p && close !in q
    ensures ExtractSpan(p + j + q, open, close) == j
  {
    var x := p + j + q;
    assert x[|p|] == open && x[|p| + |j| - 1] == close;
    var f, l := IndexOf(x, open), LastIndexOf(x, close);
    assert f == |p| && l == |p| + |j| - 1;
    assert x[f..l + 1] == j;
  }

  /** Extracting a span twice gives the same text as extracting it once. */
  lemma {:induction false} ExtractSpanIdempotent(s: string, open: char, close: char)
    requires open != close
    ensures ExtractSpan(ExtractSpan(s, open, close), open, close) == ExtractSpan(s, open, close)
  {
    var r := ExtractSpan(s, open, close);
    if open in s && close in s {
      if IndexOf(s, open) < LastIndexOf(s, close) {
        ExtractSpanFramed([], r, [], open, close);
        assert [] + r + [] == r;
      } else {
        assert IndexOf(s, open) != LastIndexOf(s, close);
        ExtractSpanSwapped(s, open, close);
      }
    }
  }

  /** Whatever cleaning keeps of prose + payload + prose still frames the
      payload the same way. */
  lemma {:induction false} SpanOfInside(c: string, p: string, j: string, q: string, open: char, close: char)
    requires (open, close) == ('[', ']') || (open, close) == ('{', '}')
    requires |j| > 0 && j[0] == open && j[|j| - 1] == close
    requires open !in p && close !in q
    requires Inside(c, p + j + q)
    ensures ExtractSpan(c, open, close) == j
  {
    var x := p + j + q;
    var k :| InsideAt(c, x, k);
    assert x[|p|] == open && !FrontJunk(open);
    assert k <= |p|;
    assert x[|p| + |j| - 1] == close && !BackJunk(close);
    assert k + |c| >= |p| + |j|;
    var p', q' := p[k..], q[..k + |c| - |p| - |j|];
    assert c == p' + j + q';
    assert open !in p' by {
      forall i | 0 <= i < |p'| ensures p'[i] != open { assert p'[i] == p[k + i]; }
    }
    assert close !in q' by {
      forall i | 0 <= i < |q'| ensures q'[i] != close { assert q'[i] == q[i]; }
    }
    ExtractSpanFramed(p', j, q', open, close);
  }

  /** A bracketed payload with prose before and after it (and possibly fenced)
      reaches the parser as exactly that payload, provided the prose before it
      holds no opening and the prose after it no closing bracket. */
  lemma {:induction false} PayloadRecovered(p: string, j: string, q: string, open: char, close: char)
    requires (open, close) == ('[', ']') || (open, close) == ('{', '}')
    requires |j| > 0 && j[0] == open && j[|j| - 1] == close
    requires open !in p && close !in q
    ensures ExtractSpan(CleanJson(p + j + q), open, close) == j
  {
    CleanJsonInside(p + j + q);
    SpanOfInside(CleanJson(p + j + q), p, j, q, open, close);
  }

  // ---------------------------------------------------------------------
  // Citations from the grounding metadata.
  // ---------------------------------------------------------------------

  datatype Web = Web(title: Option<string>, uri: Option<string>)
  datatype GroundingChunk = GroundingChunk(web: Option<Web>)

  /** JavaScript `v || fallback` on an optional string: the fallback replaces
      a missing or empty value. */
  function OrElse(v: Option<string>, fallback: string): string {
    if v.Some? && v.value != "" then v.value else fallback
  }

  function ToSource(c: GroundingChunk): (s: NewsSource)
    ensures s.url != ""
    ensures (c.web.None? || OrElse(c.web.value.title, "") == "") ==> s.name == "Source"
    ensures (c.web.None? || OrElse(c.web.value.uri, "") == "") ==> s.url == "#"
    ensures c.web.Some? && OrElse(c.web.value.title, "") != "" ==> s.name == c.web.value.title.value
    ensures c.web.Some? && OrElse(c.web.value.uri, "") != "" ==> s.url == c.web.value.uri.value
  {
    match c.web
    case None => NewsSource("Source", "#")
    case Some(w) => NewsSource(OrElse(w.title, "Source"), OrElse(w.uri, "#"))
  }

  /** A source survives when its url is non-empty and not the placeholder "#". */
  predicate IsCitable(s: NewsSource) {
    s.url != "" && s.url != "#"
  }

  /** The chunks mapped to sources, keeping the citable ones in order. */
  function CitedSources(chunks: seq<GroundingChunk>): (r: seq<NewsSource>)
    ensures |r| <= |chunks|
    ensures forall i :: 0 <= i < |r| ==> IsCitable(r[i])
  {
    if chunks == [] then []
    else
      var s := ToSource(chunks[0]);
      (if IsCitable(s) then [s] else []) + CitedSources(chunks[1..])
  }

  /** The first three citable sources. */
  function BuildSources(chunks: seq<GroundingChunk>): (r: seq<NewsSource>)
    ensures |r| == if |CitedSources(chunks)| < 3 then |CitedSources(chunks)| else 3
    ensures r == CitedSources(chunks)[..|r|]
    ensures forall i :: 0 <= i < |r| ==> IsCitable(r[i])
  {
    var cited := CitedSources(chunks);
    if |cited| <= 3 then cited else cited[..3]
  }

  /** Filtering keeps the original order: it distributes over concatenation. */
  lemma {:induction false} CitedSourcesAppend(a: seq<GroundingChunk>, b: seq<GroundingChunk>)
    ensures CitedSources(a + b) == CitedSources(a) + CitedSources(b)
  {
    if a == [] {
      assert a + b == b;
    } else {
      assert (a + b)[0] == a[0] && (a + b)[1..] == a[1..] + b;
      CitedSourcesAppend(a[1..], b);
    }
  }

  /** A source is cited exactly when some chunk maps to it and it is citable. */
  lemma {:induction false} CitedSourcesMembers(chunks: seq<GroundingChunk>, s: NewsSource)
    ensures s in CitedSources(chunks) <==>
              exists i :: 0 <= i < |chunks| && ToSource(chunks[i]) == s && IsCitable(s)
  {
    if chunks != [] {
      CitedSourcesMembers(chunks[1..], s);
      if s in CitedSources(chunks[1..]) {
        var i :| 0 <= i < |chunks[1..]| && ToSource(chunks[1..][i]) == s && IsCitable(s);
        assert ToSource(chunks[i + 1]) == s;
      }
      if exists i :: 0 <= i < |chunks| && ToSource(chunks[i]) == s && IsCitable(s) {
        var i :| 0 <= i < |chunks| && ToSource(chunks[i]) == s && IsCitable(s);
        if i > 0 { assert ToSource(chunks[1..][i - 1]) == s; }
      }
    }
  }

  /** A chunk whose uri is a real link reaches the cited list, with that link
      and its own title (or "Source"). */
  lemma {:induction false} CitationKept(chunks: seq<GroundingChunk>, i: nat)
    requires i < |chunks| && chunks[i].web.Some?
    requires OrElse(chunks[i].web.value.uri, "#") != "#"
    ensures var s := ToSource(chunks[i]);
      s in CitedSources(chunks) && s.url == chunks[i].web.value.uri.value
      && s.name == OrElse(chunks[i].web.value.title, "Source")
  {
    CitedSourcesMembers(chunks, ToSource(chunks[i]));
  }

  // ---------------------------------------------------------------------
  // Enrichment of the parsed items.
  // ---------------------------------------------------------------------

  const MarketWire: NewsSource := NewsSource("MarketWire", "#")

  /** The list attached to every item: the batch's sources, or the
      placeholder MarketWire source when there are none. */
  function AttachedSources(sources: seq<NewsSource>): (r: seq<NewsSource>)
    ensures |sources| > 0 ==> r == sources
    ensures sources == [] ==> r == [MarketWire]
  {
    if |sources| > 0 then sources else [MarketWire]
  }

  /** Two items agree on everything except their id and sources. */
  predicate SameReport(a: NewsItem, b: NewsItem) {
    a.time == b.time && a.content == b.content && a.rawContent == b.rawContent
    && a.category == b.category && a.importance == b.importance && a.region == b.region
  }

  /** Every parsed item, with a fresh id and the batch's sources. */
  function Enrich(items: seq<NewsItem>, newId: nat -> string, sources: seq<NewsSource>): (r: seq<NewsItem>)
    ensures |r| == |items|
    ensures forall i :: 0 <= i < |r| ==>
              r[i].id == newId(i) && SameReport(r[i], items[i])
              && r[i].sources == Some(AttachedSources(sources))
  {
    seq(|items|, i requires 0 <= i < |items| =>
      items[i].(id := newId(i), sources := Some(AttachedSources(sources))))
  }

  /** Distinct fresh ids make the ids of a batch unique. */
  lemma {:induction false} EnrichedIdsUnique(items: seq<NewsItem>, newId: nat -> string, sources: seq<NewsSource>)
    requires forall i, j :: 0 <= i < j < |items| ==> newId(i) != newId(j)
    ensures var r := Enrich(items, newId, sources);
            forall i, j :: 0 <= i < j < |r| ==> r[i].id != r[j].id
  {
  }

  // ---------------------------------------------------------------------
  // Fallback feeds.
  // ---------------------------------------------------------------------

  /** The single item shown when no API key is configured. */
  const ErrorMock: NewsItem := NewsItem(
    "error-mock", "系统提示",
    "未检测到 API Key，请在项目根目录创建 .env 文件并填入 VITE_API_KEY。",
    Some("请前往 Google AI Studio 获取免费 Key。"),
    Macro, High, None, Some("SYSTEM"))

  /** The three items shown when fetching or parsing fails. */
  const FallbackNews: seq<NewsItem> := [
    NewsItem(
      "mock-1", "20:30",
      "美国 3月 CPI 年率录得 3.5%，高于预期的 3.4%，美联储降息预期降温。",
      Some("数据显示通胀依然顽固，美元指数短线拉升50点，非美货币普跌。"),
      Macro, High, Some([NewsSource("BLS.gov", "#")]), Some("US")),
    NewsItem(
      "mock-2", "21:00",
      "万科A发布最新公告，拟回购不低于20亿元A股股份，股价盘后拉升。",
      None, RealEstate, High, None, Some("CN")),
    NewsItem(
      "mock-3", "21:15",
      "现货黄金短线跳水10美元，跌破2330美元/盎司。",
      None, Commodity, Medium, None, Some("GLOBAL"))
  ]

  function Ids(items: seq<NewsItem>): (r: seq<string>)
    ensures |r| == |items| && forall i :: 0 <= i < |r| ==> r[i] == items[i].id
  {
    if items == [] then [] else [items[0].id] + Ids(items[1..])
  }

  lemma {:induction false} FallbackIds()
    ensures Ids(FallbackNews) == ["mock-1", "mock-2", "mock-3"]
    ensures Ids([ErrorMock]) == ["error-mock"]
  {
  }

  /** The second fallback item uses a category the record type does not declare. */
  lemma {:induction false} FallbackOutsideDeclaredUnion()
    ensures exists i :: 0 <= i < |FallbackNews| && !IsDeclaredCategory(FallbackNews[i].category)
  {
    assert FallbackNews[1].category == RealEstate;
  }

  // ---------------------------------------------------------------------
  // Fetching the feed and analysing one item.
  // ---------------------------------------------------------------------

  datatype Response = Response(text: Option<string>, groundingChunks: Option<seq<GroundingChunk>>)

  /** What the generation call did: answered, or threw. */
  datatype CallOutcome = Answered(response: Response) | Threw

  /** What `JSON.parse` produced for the feed, when it did not throw. */
  datatype ParsedNews = JsonArray(items: seq<NewsItem>) | JsonOther

  datatype ServiceError = MissingApiKey | CallFailed | NoText | InvalidJson | NotAnArray

  /** `!API_KEY` is false: the key is set and not empty. */
  predicate KeyPresent(apiKey: Option<string>) {
    apiKey.Some? && apiKey.value != ""
  }

  /** `!response.text` is false. */
  predicate HasText(r: Response) {
    r.text.Some? && r.text.value != ""
  }

  function GroundingOf(r: Response): seq<GroundingChunk> {
    r.groundingChunks.GetOr([])
  }

  /** The parsed array, when the call answered with text whose extracted
      span parses to an array. */
  function ParsedArray(call: CallOutcome, parse: string -> Option<ParsedNews>): (r: Option<seq<NewsItem>>)
    ensures r.Some? ==> call.Answered? && HasText(call.response)
  {
    if call.Threw? || !HasText(call.response) then None
    else match parse(ArrayJsonText(call.response.text.value))
      case Some(JsonArray(items)) => Some(items)
      case _ => None
  }

  /** The body of the `try` block of `fetchGlobalNews`. */
  method FetchNewsAttempt(call: CallOutcome, parse: string -> Option<ParsedNews>, newId: nat -> string)
    returns (r: Result<seq<NewsItem>, ServiceError>)
    ensures r.Success? <==> ParsedArray(call, parse).Some?
    ensures r.Success? ==>
              r.value == Enrich(ParsedArray(call, parse).value, newId, BuildSources(GroundingOf(call.response)))
    ensures call.Threw? ==> r == Failure(CallFailed)
    ensures call.Answered? && !HasText(call.response) ==> r == Failure(NoText)
    ensures call.Answered? && HasText(call.response) ==>
              match parse(ArrayJsonText(call.response.text.value))
              case None => r == Failure(InvalidJson)
              case Some(JsonOther) => r == Failure(NotAnArray)
              case Some(JsonArray(_)) => r.Success?
  {
    if call.Threw? {
      return Failure(CallFailed);
    }
    var text := call.response.text;
    if text.None? || text.value == "" {
      return Failure(NoText);
    }
    var jsonStr := CleanJson(text.value);
    jsonStr := SliceSpan(jsonStr, '[', ']');
    var data := parse(jsonStr);
    if data.None? {
      return Failure(InvalidJson);
    }
    var sources := BuildSources(GroundingOf(call.response));
    match data.value
    case JsonOther =>
      return Failure(NotAnArray);
    case JsonArray(items) =>
      return Success(Enrich(items, newId, sources));
  }

  /** `fetchGlobalNews`: never fails; a missing key gives the error item, any
      failure the three fallback items, success the enriched parsed items. */
  method FetchGlobalNews(apiKey: Option<string>, call: CallOutcome,
                         parse: string -> Option<ParsedNews>, newId: nat -> string)
    returns (news: seq<NewsItem>)
    ensures !KeyPresent(apiKey) ==> news == [ErrorMock]
    ensures KeyPresent(apiKey) && ParsedArray(call, parse).None? ==> news == FallbackNews
    ensures KeyPresent(apiKey) && ParsedArray(call, parse).Some? ==>
              news == Enrich(ParsedArray(call, parse).value, newId, BuildSources(GroundingOf(call.response)))
  {
    if !(apiKey.Some? && apiKey.value != "") {
      return [ErrorMock];
    }
    var attempt := FetchNewsAttempt(call, parse, newId);
    match attempt
    case Success(items) =>
      news := items;
    case Failure(_) =>
      news := FallbackNews;
  }

  /** `analyzeNewsItem`: fails without a key, passes on every call or parse
      failure, and otherwise returns whatever the parser produced, with no
      check of the documented score ranges. The item only shapes the prompt. */
  method AnalyzeNewsItem(apiKey: Option<string>, item: NewsItem, call: CallOutcome,
                         parse: string -> Option<AnalysisResult>)
    returns (r: Result<AnalysisResult, ServiceError>)
    ensures !KeyPresent(apiKey) ==> r == Failure(MissingApiKey)
    ensures KeyPresent(apiKey) && call.Threw? ==> r == Failure(CallFailed)
    ensures KeyPresent(apiKey) && call.Answered? && !HasText(call.response) ==> r == Failure(NoText)
    ensures KeyPresent(apiKey) && call.Answered? && HasText(call.response) ==>
              match parse(ObjectJsonText(call.response.text.value))
              case None => r == Failure(InvalidJson)
              case Some(a) => r == Success(a)
    ensures KeyPresent(apiKey) && call.Answered? && HasText(call.response)
            && parse(ObjectJsonText(call.response.text.value)).Some?
            && !InDocumentedRange(parse(ObjectJsonText(call.response.text.value)).value)
            ==> r == Success(parse(ObjectJsonText(call.response.text.value)).value)
  {
    if !(apiKey.Some? && apiKey.value != "") {
      return Failure(MissingApiKey);
    }
    if call.Threw? {
      return Failure(CallFailed);
    }
    var text := call.response.text;
    if text.None? || text.value == "" {
      return Failure(NoText);
    }
    var jsonStr := CleanJson(text.value);
    jsonStr := SliceSpan(jsonStr, '{', '}');
    var parsed := parse(jsonStr);
    if parsed.None? {
      return Failure(InvalidJson);
    }
    return Success(parsed.value);
  }
}
