/** The analytics answer of services/llm_client.py: normalising raw content
    items, the deterministic local answer (metric choice, top-3 ranking,
    sample means) and the decision procedure of `ask_llm`, which uses the
    external answering service when it can and the local answer otherwise.
    The HTTP exchange with the answering service is an input value. */
module LlmClient {
  import opened Common
  import Ranking

  const DefaultPlatform: string := "YouTube"
  const DefaultTitle: string := "Без названия"
  /** The word root that selects ranking by engagement ("вовлечённость", ...). */
  const EngagementRoot: string := "вовлеч"
  /** How many items the local answer lists. */
  const TopCount: nat := 3

  /** A content item as a dict that may lack keys. `None` in a count stands for a
      missing key, a `None` value or any other falsy value (`int(x or 0)`). */
  datatype RawItem = RawItem(
    platform: Option<string>,
    externalId: Option<string>,
    url: Option<string>,
    title: Option<string>,
    views: Option<int>,
    likes: Option<int>,
    commentsCount: Option<int>)

  /** The normalised record: the seven fields that survive normalisation. */
  datatype Normalized = Normalized(
    platform: string,
    title: string,
    url: string,
    views: int,
    likes: int,
    commentsCount: int,
    engagementRate: real)

  /** One item of `_build_context`. */
  function Normalize(it: RawItem): (n: Normalized)
    ensures it.views.None? ==> n.views == 0
    ensures it.likes.None? ==> n.likes == 0
    ensures it.commentsCount.None? ==> n.commentsCount == 0
    ensures it.views.Some? ==> n.views == it.views.value
    ensures it.likes.Some? ==> n.likes == it.likes.value
    ensures it.commentsCount.Some? ==> n.commentsCount == it.commentsCount.value
    ensures it.platform.None? ==> n.platform == DefaultPlatform
    ensures it.title.None? ==> n.title == DefaultTitle
    ensures it.url.None? ==> n.url == ""
    ensures it.platform.Some? ==> n.platform == it.platform.value
    ensures it.title.Some? ==> n.title == it.title.value
    ensures it.url.Some? ==> n.url == it.url.value
    ensures n.views > 0 ==> n.engagementRate * n.views as real == (n.likes + n.commentsCount) as real
    ensures n.views <= 0 ==> n.engagementRate == 0.0
  {
    var views := CountOrZero(it.views);
    var likes := CountOrZero(it.likes);
    var comments := CountOrZero(it.commentsCount);
    Normalized(
      TextOr(it.platform, DefaultPlatform),
      TextOr(it.title, DefaultTitle),
      TextOr(it.url, ""),
      views, likes, comments,
      EngagementRate(views, likes, comments))
  }

  /** `_build_context` as a value: one normalised record per item, in order. */
  function NormalizeAll(items: seq<RawItem>): (r: seq<Normalized>)
    ensures |r| == |items|
    ensures forall i :: 0 <= i < |items| ==> r[i] == Normalize(items[i])
  {
    if items == [] then [] else [Normalize(items[0])] + NormalizeAll(items[1..])
  }

  /** `_build_context`: the append loop over the items. */
  method BuildContext(items: seq<RawItem>) returns (normalized: seq<Normalized>)
    ensures normalized == NormalizeAll(items)
  {
    normalized := [];
    var i := 0;
    while i < |items|
      invariant 0 <= i <= |items|
      invariant |normalized| == i
      invariant forall j :: 0 <= j < i ==> normalized[j] == Normalize(items[j])
    {
      normalized := normalized + [Normalize(items[i])];
      i := i + 1;
    }
  }

  // ---------------------------------------------------------------------------
  // Choosing the metric

  datatype Metric = ByViews | ByEngagement

  /** Python's `str.lower` on Latin and Cyrillic capitals; other characters are kept. */
  function LowerChar(c: char): char {
    if 'A' <= c <= 'Z' || '\U{0410}' <= c <= '\U{042F}' then (c as int + 0x20) as char
    else if '\U{0400}' <= c <= '\U{040F}' then (c as int + 0x50) as char
    else c
  }

  function Lower(s: string): (r: string)
    ensures |r| == |s|
    ensures forall i :: 0 <= i < |s| ==> r[i] == LowerChar(s[i])
  {
    if s == [] then [] else [LowerChar(s[0])] + Lower(s[1..])
  }

  /** Python's `t in s` on strings. */
  function Contains(s: string, t: string): bool {
    if |s| < |t| then false else s[..|t|] == t || Contains(s[1..], t)
  }

  /** Engagement ranks iff the lower-cased question contains the root "вовлеч". */
  function MetricFor(question: string): Metric {
    if Contains(Lower(question), EngagementRoot) then ByEngagement else ByViews
  }

  function Key(m: Metric, n: Normalized): real {
    if m == ByEngagement then n.engagementRate else n.views as real
  }

  function KeyOf(m: Metric): Normalized -> real {
    n => Key(m, n)
  }

  lemma {:induction false} LowerIdempotent(s: string)
    ensures Lower(Lower(s)) == Lower(s)
  {
    var l := Lower(s);
    forall i | 0 <= i < |s| ensures Lower(l)[i] == l[i] {
      var c := s[i];
      if 'A' <= c <= 'Z' || '\U{0410}' <= c <= '\U{042F}' {
        assert LowerChar(LowerChar(c)) == LowerChar(c);
      } else if '\U{0400}' <= c <= '\U{040F}' {
        assert LowerChar(LowerChar(c)) == LowerChar(c);
      }
    }
  }

  lemma {:induction false} ContainsLower(s: string, t: string)
    requires Contains(s, t)
    ensures Contains(Lower(s), Lower(t))
  {
    if s[..|t|] == t {
      assert Lower(s)[..|t|] == Lower(t);
    } else {
      ContainsLower(s[1..], t);
      assert Lower(s)[1..] == Lower(s[1..]);
    }
  }

  /** The choice of metric ignores letter case: the question and its lower-cased
      form rank by the same metric. */
  lemma MetricIgnoresCase(question: string)
    ensures MetricFor(Lower(question)) == MetricFor(question)
  {
    LowerIdempotent(question);
  }

  /** Any spelling of the root, in any mix of upper and lower case, anywhere in
      the question selects ranking by engagement. */
  lemma RootInAnyCaseSelectsEngagement(question: string, word: string)
    requires Lower(word) == EngagementRoot
    requires Contains(question, word)
    ensures MetricFor(question) == ByEngagement
  {
    ContainsLower(question, word);
  }

  // ---------------------------------------------------------------------------
  // The local answer

  /** Lines of the local answer; their wording is not modelled. */
  datatype Line =
    | Header(metric: Metric, sampleSize: nat)
    | Blank
    | Entry(rank: nat, item: Normalized)
    | Conclusion(meanViews: int, meanEngagement: real)

  /** `NoData` stands for the fixed "no data about the content" text. */
  datatype LocalAnswer = NoData | Report(lines: seq<Line>)

  function SumViews(s: seq<Normalized>): int {
    if s == [] then 0 else s[0].views + SumViews(s[1..])
  }

  function SumEngagement(s: seq<Normalized>): real {
    if s == [] then 0.0 else s[0].engagementRate + SumEngagement(s[1..])
  }

  /** Python's `int(a / n)`: the quotient truncated toward zero. */
  function TruncDiv(a: int, n: int): (q: int)
    requires n > 0
    ensures a >= 0 ==> 0 <= q && q * n <= a < q * n + n
    ensures a < 0 ==> q <= 0 && a <= q * n < a + n
  {
    if a >= 0 then a / n else -((-a) / n)
  }

  /** The reported mean views: over the whole sample, truncated. */
  function MeanViews(s: seq<Normalized>): int
    requires s != []
  {
    TruncDiv(SumViews(s), |s|)
  }

  function MeanEngagement(s: seq<Normalized>): real
    requires s != []
  {
    SumEngagement(s) / |s| as real
  }

  /** `sorted(normalized, key=..., reverse=True)[:3]`. */
  function Ranked(m: Metric, normalized: seq<Normalized>): seq<Normalized> {
    Ranking.Take(Ranking.SortDesc(normalized, KeyOf(m)), TopCount)
  }

  function Entries(top: seq<Normalized>, first: nat): (r: seq<Line>)
    ensures |r| == |top|
    ensures forall i :: 0 <= i < |top| ==> r[i] == Entry(first + i, top[i])
  {
    if top == [] then [] else [Entry(first, top[0])] + Entries(top[1..], first + 1)
  }

  /** The lines of a report: header, blank, ranked entries, blank, conclusion. */
  function ReportLines(header: Line, top: seq<Normalized>, conclusion: Line): (r: seq<Line>)
    ensures |r| == |top| + 4
    ensures r[0] == header && r[1] == Blank && r[|top| + 2] == Blank && r[|top| + 3] == conclusion
    ensures forall i :: 0 <= i < |top| ==> r[2 + i] == Entry(i + 1, top[i])
  {
    [header, Blank] + Entries(top, 1) + [Blank, conclusion]
  }

  /** `_generate_local_answer` as a value. */
  function LocalAnswerOf(question: string, items: seq<RawItem>): (a: LocalAnswer)
    ensures a.NoData? <==> items == []
  {
    if items == [] then NoData
    else
      var normalized := NormalizeAll(items);
      var m := MetricFor(question);
      Report(ReportLines(Header(m, |items|), Ranked(m, normalized),
                         Conclusion(MeanViews(normalized), MeanEngagement(normalized))))
  }

  /** `_generate_local_answer`: the answer's lines are appended one top item at a time. */
  method GenerateLocalAnswer(question: string, items: seq<RawItem>) returns (answer: LocalAnswer)
    ensures answer == LocalAnswerOf(question, items)
  {
    if |items| == 0 {
      return NoData;
    }
    var normalized := BuildContext(items);
    var m := MetricFor(question);
    var top := Ranked(m, normalized);
    var header := Header(m, |normalized|);
    var lines := [header, Blank];
    var i := 0;
    while i < |top|
      invariant 0 <= i <= |top|
      invariant |lines| == i + 2 && lines[0] == header && lines[1] == Blank
      invariant forall j :: 0 <= j < i ==> lines[2 + j] == Entry(j + 1, top[j])
    {
      lines := lines + [Entry(i + 1, top[i])];
      i := i + 1;
    }
    var conclusion := Conclusion(MeanViews(normalized), MeanEngagement(normalized));
    ReportLinesFromEntries(header, top, conclusion, lines);
    lines := lines + [Blank, conclusion];
    answer := Report(lines);
  }

  /** Lines holding the header, a blank line and the ranked entries, followed by
      a blank line and the conclusion, are the report's lines. */
  lemma ReportLinesFromEntries(header: Line, top: seq<Normalized>, conclusion: Line, lines: seq<Line>)
    requires |lines| == |top| + 2 && lines[0] == header && lines[1] == Blank
    requires forall j :: 0 <= j < |top| ==> lines[2 + j] == Entry(j + 1, top[j])
    ensures lines + [Blank, conclusion] == ReportLines(header, top, conclusion)
  {
    var entries := Entries(top, 1);
    forall j | 0 <= j < |top| ensures lines[2..][j] == entries[j] {
      assert lines[2..][j] == lines[2 + j];
    }
    assert lines[2..] == entries;
    assert lines == [header, Blank] + lines[2..];
  }

  /** What the local answer lists: a header naming the metric chosen from the
      question and the sample size, then the first min(3, n) items of the stable
      descending sort by that metric, ranked 1, 2, 3, then the conclusion with
      the whole sample's means. Every listed item's metric is at least that of
      every item left out; the listed and the left-out items together are the
      sample; and among items of equal metric the listed ones are the earliest
      of the input, in input order. */
  lemma LocalAnswerRanking(question: string, items: seq<RawItem>)
    requires items != []
    ensures var normalized := NormalizeAll(items);
            var m := MetricFor(question);
            var sorted := Ranking.SortDesc(normalized, KeyOf(m));
            var shown := Min(TopCount, |items|);
            var lines := LocalAnswerOf(question, items).lines;
            && |lines| == shown + 4
            && lines[0] == Header(m, |items|)
            && (forall i :: 0 <= i < shown ==> lines[2 + i] == Entry(i + 1, sorted[i]))
            && lines[shown + 3] == Conclusion(MeanViews(normalized), MeanEngagement(normalized))
            && (forall i, j :: 0 <= i < shown <= j < |items| ==> Key(m, sorted[i]) >= Key(m, sorted[j]))
            && multiset(sorted[..shown]) + multiset(sorted[shown..]) == multiset(normalized)
            && (forall k :: Ranking.KeyClass(sorted[..shown], KeyOf(m), k)
                              <= Ranking.KeyClass(normalized, KeyOf(m), k))
  {
    var normalized := NormalizeAll(items);
    var m := MetricFor(question);
    var sorted := Ranking.SortDesc(normalized, KeyOf(m));
    Ranking.TopOfSortDesc(normalized, KeyOf(m), TopCount);
    var top := Ranked(m, normalized);
    assert top == sorted[..|top|];
    forall i, j | 0 <= i < |top| <= j < |items| ensures Key(m, sorted[i]) >= Key(m, sorted[j]) {
      assert KeyOf(m)(top[i]) >= KeyOf(m)(sorted[j]);
    }
  }

  function ViewsOnly(views: int): RawItem {
    RawItem(None, None, None, None, Some(views), None, None)
  }

  /** A five-item sample ranked by views: the answer lists 200, 100 and 50 and
      reports mean views 73 over all five. */
  lemma FiveItemViewsExample(question: string)
    requires MetricFor(question) == ByViews
    ensures var lines := LocalAnswerOf(question, FiveItems()).lines;
            && lines[2] == Entry(1, Normalize(ViewsOnly(200)))
            && lines[3] == Entry(2, Normalize(ViewsOnly(100)))
            && lines[4] == Entry(3, Normalize(ViewsOnly(50)))
            && lines[6] == Conclusion(73, 0.0)
  {
    var normalized := NormalizeAll(FiveItems());
    var top := [Normalize(ViewsOnly(200)), Normalize(ViewsOnly(100)), Normalize(ViewsOnly(50))];
    FiveItemFigures();
    assert LocalAnswerOf(question, FiveItems()).lines == ReportLines(Header(ByViews, 5), top, Conclusion(73, 0.0));
  }

  /** The sample of the example: views 100, 50, 200, 10 and 5, nothing else set. */
  function FiveItems(): seq<RawItem> {
    [ViewsOnly(100), ViewsOnly(50), ViewsOnly(200), ViewsOnly(10), ViewsOnly(5)]
  }

  lemma FiveItemFigures()
    ensures Ranked(ByViews, NormalizeAll(FiveItems()))
            == [Normalize(ViewsOnly(200)), Normalize(ViewsOnly(100)), Normalize(ViewsOnly(50))]
    ensures MeanViews(NormalizeAll(FiveItems())) == 73
    ensures MeanEngagement(NormalizeAll(FiveItems())) == 0.0
  {
    var a, b, c, d, e := Normalize(ViewsOnly(100)), Normalize(ViewsOnly(50)), Normalize(ViewsOnly(200)),
                         Normalize(ViewsOnly(10)), Normalize(ViewsOnly(5));
    FiveNormalized();
    SortFive(a, b, c, d, e, KeyOf(ByViews));
    assert Ranking.Take([c, a, b, d, e], TopCount) == [c, a, b];
    SumFive(a, b, c, d, e);
  }

  lemma FiveNormalized()
    ensures NormalizeAll(FiveItems())
            == [Normalize(ViewsOnly(100)), Normalize(ViewsOnly(50)), Normalize(ViewsOnly(200)),
                Normalize(ViewsOnly(10)), Normalize(ViewsOnly(5))]
  {
  }

  lemma SumFive(a: Normalized, b: Normalized, c: Normalized, d: Normalized, e: Normalized)
    requires a.views == 100 && b.views == 50 && c.views == 200 && d.views == 10 && e.views == 5
    requires a.engagementRate == 0.0 && b.engagementRate == 0.0 && c.engagementRate == 0.0
    requires d.engagementRate == 0.0 && e.engagementRate == 0.0
    ensures SumViews([a, b, c, d, e]) == 365 && SumEngagement([a, b, c, d, e]) == 0.0
  {
    assert [a, b, c, d, e][1..] == [b, c, d, e] && [b, c, d, e][1..] == [c, d, e]
        && [c, d, e][1..] == [d, e] && [d, e][1..] == [e];
    assert SumViews([e]) == 5 && SumViews([d, e]) == 15 && SumViews([c, d, e]) == 215;
    assert SumEngagement([e]) == 0.0 && SumEngagement([d, e]) == 0.0 && SumEngagement([c, d, e]) == 0.0;
  }

  lemma SortFive(a: Normalized, b: Normalized, c: Normalized, d: Normalized, e: Normalized, key: Normalized -> real)
    requires key(a) == 100.0 && key(b) == 50.0 && key(c) == 200.0 && key(d) == 10.0 && key(e) == 5.0
    ensures Ranking.SortDesc([a, b, c, d, e], key) == [c, a, b, d, e]
  {
    assert Ranking.SortDesc([a], key) == [a];
    assert Ranking.SortDesc([a, b], key) == [a, b] by {
      assert [a, b][..1] == [a];
      assert Ranking.Insert([a], key, b) == [a, b];
    }
    assert Ranking.SortDesc([a, b, c], key) == [c, a, b] by {
      assert [a, b, c][..2] == [a, b];
    }
    assert Ranking.SortDesc([a, b, c, d], key) == [c, a, b, d] by {
      assert [a, b, c, d][..3] == [a, b, c];
      assert Ranking.Insert([b], key, d) == [b, d];
      assert Ranking.Insert([a, b], key, d) == [a, b, d];
      assert Ranking.Insert([c, a, b], key, d) == [c, a, b, d];
    }
    assert [a, b, c, d, e][..4] == [a, b, c, d];
    assert Ranking.Insert([d], key, e) == [d, e];
    assert Ranking.Insert([b, d], key, e) == [b, d, e];
    assert Ranking.Insert([a, b, d], key, e) == [a, b, d, e];
    assert Ranking.Insert([c, a, b, d], key, e) == [c, a, b, d, e];
  }

  lemma {:induction false} SumViewsBounds(s: seq<Normalized>, lo: int, hi: int)
    requires forall x :: x in s ==> lo <= x.views <= hi
    ensures |s| * lo <= SumViews(s) <= |s| * hi
  {
    if s != [] {
      var n := |s| - 1;
      assert forall x :: x in s[1..] ==> x in s;
      SumViewsBounds(s[1..], lo, hi);
      assert s[0] in s;
      MulSucc(n, lo);
      MulSucc(n, hi);
    }
  }

  lemma MulSucc(n: int, x: int)
    ensures (n + 1) * x == x + n * x
  {
  }

  /** The reported mean views lies within the range of the sample's views. */
  lemma MeanViewsWithinRange(s: seq<Normalized>, lo: int, hi: int)
    requires s != []
    requires forall x :: x in s ==> lo <= x.views <= hi
    ensures lo <= MeanViews(s) <= hi
  {
    SumViewsBounds(s, lo, hi);
    var n, a, q := |s|, SumViews(s), MeanViews(s);
    assert n * lo == lo * n && n * hi == hi * n;
    if a >= 0 {
      MulMonoInv(q, hi, n);
      MulMonoInvStrict(q, lo, n);
    } else {
      MulMonoInv(lo, q, n);
      MulMonoInvStrict(hi, q, n);
    }
  }

  lemma MulMonoInv(x: int, y: int, n: int)
    requires n > 0 && x * n <= y * n
    ensures x <= y
  {
  }

  lemma MulStrictInv(x: int, y: int, n: int)
    requires n > 0 && x * n < y * n
    ensures x < y
  {
  }

  lemma MulMonoInvStrict(q: int, x: int, n: int)
    requires n > 0 && x * n < q * n + n
    ensures x <= q
  {
    assert q * n + n == (q + 1) * n;
    MulStrictInv(x, q + 1, n);
  }

  // ---------------------------------------------------------------------------
  // ask_llm

  /** The answering service's JSON, as far as `ask_llm` reads it:
      `choices[0].message.content` missing or undecodable, not a string, or a string. */
  datatype Completion = Unparseable | NonStringContent | TextContent(text: string)

  /** The outcome of the POST to the answering service. */
  datatype LlmResponse = NetworkFailure | Response(status: int, completion: Completion)

  /** What `ask_llm` returns: the local answer or the service's text unchanged. */
  datatype Reply = Local(answer: LocalAnswer) | Remote(text: string)

  /** One line of the prompt's context, per normalised item. */
  datatype ContextLine = ContextLine(rank: nat, item: Normalized)

  /** The service's reply is used exactly when it is a 200 with non-empty text. */
  predicate Usable(response: LlmResponse) {
    response.Response? && response.status == 200
    && response.completion.TextContent? && response.completion.text != ""
  }

  /** `ask_llm` as a value; `apiKey` is "" when no key is configured. */
  function Ask(apiKey: string, question: string, items: seq<RawItem>, response: LlmResponse): (reply: Reply)
    ensures reply.Remote? <==> apiKey != "" && items != [] && Usable(response)
    ensures reply.Remote? ==> reply.text == response.completion.text
    ensures reply.Local? ==> reply.answer == LocalAnswerOf(question, items)
  {
    if apiKey == "" then Local(LocalAnswerOf(question, items))
    else if NormalizeAll(items) == [] then Local(NoData)
    else match response
      case NetworkFailure => Local(LocalAnswerOf(question, items))
      case Response(status, completion) =>
        if status != 200 then Local(LocalAnswerOf(question, items))
        else match completion
          case Unparseable => Local(LocalAnswerOf(question, items))
          case NonStringContent => Local(LocalAnswerOf(question, items))
          case TextContent(text) =>
            if text == "" then Local(LocalAnswerOf(question, items)) else Remote(text)
  }

  /** `ask_llm`. `request` is the context sent with the POST, `None` when no request is made. */
  method AskLlm(apiKey: string, question: string, items: seq<RawItem>, response: LlmResponse)
    returns (reply: Reply, request: Option<seq<ContextLine>>)
    ensures reply == Ask(apiKey, question, items, response)
    ensures request.Some? <==> apiKey != "" && items != []
    ensures request.Some? ==> |request.value| == |items|
    ensures request.Some? ==> forall i :: 0 <= i < |items| ==>
              request.value[i] == ContextLine(i + 1, Normalize(items[i]))
  {
    if apiKey == "" {
      var answer := GenerateLocalAnswer(question, items);
      return Local(answer), None;
    }
    var normalized := BuildContext(items);
    if |normalized| == 0 {
      return Local(NoData), None;
    }
    var context := NumberContext(normalized);
    request := Some(context);
    var usable := false;
    if response.Response? && response.status == 200 {
      match response.completion {
        case Unparseable =>
        case NonStringContent =>
        case TextContent(text) =>
          usable := text != "";
      }
    }
    if usable {
      reply := Remote(response.completion.text);
    } else {
      var answer := GenerateLocalAnswer(question, items);
      reply := Local(answer);
    }
  }

  /** The `enumerate(normalized, start=1)` loop that numbers the prompt's context lines. */
  method NumberContext(normalized: seq<Normalized>) returns (context: seq<ContextLine>)
    ensures |context| == |normalized|
    ensures forall j :: 0 <= j < |normalized| ==> context[j] == ContextLine(j + 1, normalized[j])
  {
    context := [];
    var i := 0;
    while i < |normalized|
      invariant 0 <= i <= |normalized|
      invariant |context| == i
      invariant forall j :: 0 <= j < i ==> context[j] == ContextLine(j + 1, normalized[j])
    {
      context := context + [ContextLine(i + 1, normalized[i])];
      i := i + 1;
    }
  }
}
