/** Turning the listing returned by the remote source into `Trend` records.
    The HTTP request and JSON decoding are not modelled: a fetch is given as its
    outcome, either a failure or the listing's children (each child's `data`
    object, absent when the child has none). */
module RedditFeed {
  import opened Trends
  import opened Text
  import Seqs

  /** A field of a child's `data` object as JSON gives it: missing, `null`, or
      a string. A numeric field such as `created` is given as the text its
      number renders to. */
  datatype Field = Undefined | Null | Given(text: string)

  /** The fields of a child's `data` object that the mapping reads. */
  datatype RemoteRecord = RemoteRecord(
    id: Field,
    name: Field,
    title: Field,
    selftext: Field,
    permalink: Field,
    subreddit: Field,
    created: Field,
    linkFlairText: Field
  )

  /** What a fetch produced. `Failed` is every path that ends in the `catch`:
      a network error, a non-2xx status, a body that is not JSON, or a
      `children` value that is not an array. */
  datatype FetchOutcome = Failed | Listing(children: seq<Option<RemoteRecord>>)

  const SUMMARY_MAX: nat := 220
  const DEFAULT_TITLE := "Untitled"
  const SOURCE_NAME := "r/OutOfTheLoop"
  const SITE_ORIGIN := "https://www.reddit.com"

  /** JavaScript truthiness of a field: a non-empty string. */
  predicate Truthy(f: Field) {
    f.Given? && f.text != ""
  }

  /** `o || fallback`. */
  function Or(f: Field, fallback: string): (s: string)
    ensures Truthy(f) ==> s == f.text
    ensures !Truthy(f) ==> s == fallback
  {
    if Truthy(f) then f.text else fallback
  }

  /** How a template literal renders a field. */
  function Interpolate(f: Field): (r: string)
    ensures f.Given? ==> r == f.text
    ensures !f.Given? ==> !IsBlank(r)
  {
    match f
    case Undefined => assert !IsSpace("undefined"[0]); "undefined"
    case Null => assert !IsSpace("null"[0]); "null"
    case Given(text) => text
  }

  /** `pieces.find(p => p.trim().length > 0)`: the first non-blank piece. */
  function FirstNonBlank(pieces: seq<string>): (r: Option<string>)
    ensures r.None? <==> forall k :: 0 <= k < |pieces| ==> IsBlank(pieces[k])
    ensures r.Some? ==> exists k :: 0 <= k < |pieces| && pieces[k] == r.value && !IsBlank(r.value) &&
                          forall j :: 0 <= j < k ==> IsBlank(pieces[j])
    ensures pieces != [] && !IsBlank(pieces[0]) ==> r == Some(pieces[0])
    decreases |pieces|
  {
    if pieces == [] then None
    else if |Trim(pieces[0])| > 0 then Some(pieces[0])
    else
      var rest := pieces[1..];
      var r := FirstNonBlank(rest);
      assert IsBlank(pieces[0]);
      assert forall k :: 0 <= k < |rest| ==> rest[k] == pieces[k + 1];
      r
  }

  /** The short summary of a post with trimmed title `title` and trimmed body
      `body`: the body's first non-blank line, cut to 220 characters, or the
      title when the body is empty. */
  function Summary(title: string, body: string): (s: string)
    ensures body == "" ==> s == title
  {
    if body == "" then title
    else
      match FirstNonBlank(SplitLines(body))
      case None => title
      case Some(p) =>
        var cut := Take(p, SUMMARY_MAX);
        if cut == "" then title else cut
  }

  /** The mapping of one record to a trend. */
  function ToTrend(d: RemoteRecord): (t: Trend)
    ensures Truthy(d.id) ==> t.id == d.id.text
    ensures !Truthy(d.id) && Truthy(d.name) ==> t.id == d.name.text
    ensures !Truthy(d.id) && !Truthy(d.name) ==>
      t.id == Interpolate(d.subreddit) + "_" + Interpolate(d.created)
    ensures t.id != ""
    ensures t.title == Trim(Or(d.title, DEFAULT_TITLE))
    ensures t.longExplanation == if Trim(Or(d.selftext, "")) != "" then Trim(Or(d.selftext, "")) else t.title
    ensures t.shortSummary == Summary(t.title, Trim(Or(d.selftext, "")))
    ensures t.exampleSentence == "" && t.category == Category.Trend
    ensures t.sources == [Source(SOURCE_NAME, SITE_ORIGIN + Interpolate(d.permalink))]
    ensures t.tags == if Truthy(d.linkFlairText) then [d.linkFlairText.text] else []
  {
    var id := Or(d.id, Or(d.name, Interpolate(d.subreddit) + "_" + Interpolate(d.created)));
    var title := Trim(Or(d.title, DEFAULT_TITLE));
    var body := Trim(Or(d.selftext, ""));
    TrendRecord(
      id,
      title,
      Summary(title, body),
      if body != "" then body else title,
      "",
      Category.Trend,
      [Source(SOURCE_NAME, SITE_ORIGIN + Interpolate(d.permalink))],
      if Truthy(d.linkFlairText) then [d.linkFlairText.text] else [])
  }

  /** The test `Boolean` applied to `c?.data`: the child carries a record. */
  predicate Present(c: Option<RemoteRecord>) {
    c.Some?
  }

  /** `children.map(c => c?.data).filter(Boolean)`: the records that are present,
      each in the position the filter over the children gives it. */
  function PresentRecords(children: seq<Option<RemoteRecord>>): (records: seq<RemoteRecord>)
    ensures |records| == |Seqs.Filter(children, Present)|
    ensures forall k :: 0 <= k < |records| ==> Seqs.Filter(children, Present)[k] == Some(records[k])
    ensures forall d :: d in records <==> Some(d) in children
    ensures records == [] <==> forall k :: 0 <= k < |children| ==> children[k].None?
    decreases |children|
  {
    if children == [] then []
    else
      assert children == [children[0]] + children[1..];
      (if children[0].Some? then [children[0].value] else []) + PresentRecords(children[1..])
  }

  /** What `fetchTrendsFromReddit` resolves to: `[]` on failure, otherwise one
      trend per present record. */
  function FetchTrends(outcome: FetchOutcome): (trends: seq<Trend>)
    ensures outcome.Failed? ==> trends == []
    ensures outcome.Listing? ==>
      var records := PresentRecords(outcome.children);
      |trends| == |records| && forall k :: 0 <= k < |records| ==> trends[k] == ToTrend(records[k])
  {
    match outcome
    case Failed => []
    case Listing(children) =>
      var records := PresentRecords(children);
      seq(|records|, k requires 0 <= k < |records| => ToTrend(records[k]))
  }

  // ---------------------------------------------------------------------------
  // Properties

  /** A body that starts with a non-space character has its first line as first non-blank piece. */
  lemma FirstLineFound(body: string)
    requires body != "" && !IsSpace(body[0])
    ensures FirstNonBlank(SplitLines(body)) == Some(body[..LineLength(body)])
  {
    FirstLineNotBlank(body);
  }

  /** A non-empty trimmed body yields as summary its first line, at most 220
      characters of it, never empty and never longer than the body. */
  lemma SummaryIsFirstLine(title: string, body: string)
    requires body != "" && !IsSpace(body[0])
    ensures Summary(title, body) == Take(body[..LineLength(body)], SUMMARY_MAX)
    ensures 0 < |Summary(title, body)| <= SUMMARY_MAX
    ensures Summary(title, body) <= body
    ensures '\n' !in Summary(title, body)
  {
    FirstLineFound(body);
    var line := body[..LineLength(body)];
    assert |line| > 0 by { assert body[0] != '\n'; }
    var cut := Take(line, SUMMARY_MAX);
    assert Summary(title, body) == cut;
    assert cut <= line && line <= body;
    assert forall k :: 0 <= k < |cut| ==> cut[k] == line[k];
  }

  /** Properties of every mapped record: a summary of at most 220 characters
      taken from the body, or the title when the body is blank. */
  lemma MappedSummary(d: RemoteRecord)
    ensures var t := ToTrend(d);
      var body := Trim(Or(d.selftext, ""));
      (body == "" ==> t.shortSummary == t.title && t.longExplanation == t.title) &&
      (body != "" ==> 0 < |t.shortSummary| <= SUMMARY_MAX &&
                      t.shortSummary <= body &&
                      '\n' !in t.shortSummary &&
                      t.longExplanation == body)
  {
    var body := Trim(Or(d.selftext, ""));
    if body != "" {
      SummaryIsFirstLine(Trim(Or(d.title, DEFAULT_TITLE)), body);
    }
  }

  /** Every mapped record carries the constant fields and a trimmed title. */
  lemma MappedShape(d: RemoteRecord)
    ensures var t := ToTrend(d);
      t.exampleSentence == "" && t.category == Category.Trend &&
      |t.sources| == 1 && t.sources[0].name == SOURCE_NAME &&
      |t.tags| <= 1 && t.id != "" && t.title == Trim(t.title)
  {
    TrimIdempotent(Or(d.title, DEFAULT_TITLE));
  }

  /** Every fetched trend carries the constant fields of a remote record. */
  lemma FetchedTrendShape(outcome: FetchOutcome, t: Trend)
    requires t in FetchTrends(outcome)
    ensures t.exampleSentence == "" && t.category == Category.Trend
    ensures |t.sources| == 1 && t.sources[0].name == SOURCE_NAME
    ensures |t.tags| <= 1 && t.id != ""
    ensures t.title == Trim(t.title)
  {
    var trends := FetchTrends(outcome);
    var k :| 0 <= k < |trends| && trends[k] == t;
    var records := PresentRecords(outcome.children);
    MappedShape(records[k]);
  }

  /** A fetch resolves to a non-empty list exactly when it succeeded and at least
      one child carried a `data` object. */
  lemma FetchNonEmptyIff(outcome: FetchOutcome)
    ensures FetchTrends(outcome) != [] <==>
      outcome.Listing? && exists k :: 0 <= k < |outcome.children| && outcome.children[k].Some?
  {
  }
}
