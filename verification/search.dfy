/** The Search tab's filter: a case-insensitive substring match of the trimmed
    query against four text fields of each trend. */
module SearchFilter {
  import opened Trends
  import opened Text
  import Seqs

  /** The normalised query, `q.trim().toLowerCase()`. */
  function Term(q: string): (term: string)
    ensures term == [] <==> IsBlank(q)
    ensures term == [] || (!IsSpace(term[0]) && !IsSpace(term[|term| - 1]))
  {
    var t := Trim(q);
    LowerCharKeepsSpace(if t == [] then ' ' else t[0]);
    LowerCharKeepsSpace(if t == [] then ' ' else t[|t| - 1]);
    Lower(t)
  }

  /** `has(s)`: a non-empty field whose lower-cased text contains the term. */
  predicate Has(field: string, term: string): (r: bool)
    ensures term == [] ==> (r <==> field != "")
    ensures r ==> |term| <= |field|
  {
    field != "" && Contains(Lower(field), term)
  }

  /** A trend matches when its title, short summary, long explanation or one of
      its tags contains the term; the example sentence and the category are not
      searched. */
  predicate Matches(t: Trend, term: string): (r: bool)
    ensures term == [] ==>
      (r <==> (t.title != "" || t.shortSummary != "" || t.longExplanation != "" ||
               exists k :: 0 <= k < |t.tags| && t.tags[k] != ""))
  {
    Has(t.title, term) || Has(t.shortSummary, term) || Has(t.longExplanation, term) ||
    exists k :: 0 <= k < |t.tags| && Has(t.tags[k], term)
  }

  function Matcher(term: string): Trend -> bool {
    (t: Trend) => Matches(t, term)
  }

  /** The list shown under the search box for query `q`. */
  function Search(data: seq<Trend>, q: string): (shown: seq<Trend>)
    ensures IsBlank(q) ==> shown == data
    ensures Seqs.IsSubsequence(shown, data)
    ensures !IsBlank(q) ==> forall t :: t in shown <==> t in data && Matches(t, Term(q))
    ensures !IsBlank(q) ==>
      forall t :: multiset(shown)[t] == if Matches(t, Term(q)) then multiset(data)[t] else 0
  {
    var term := Term(q);
    if term == [] then
      assert Seqs.IsSubsequence(data, data) by { SubsequenceOfItself(data); }
      data
    else
      Seqs.FilterMembers(data, Matcher(term));
      Seqs.FilterIsSubsequence(data, Matcher(term));
      Seqs.Filter(data, Matcher(term))
  }

  lemma {:induction false} SubsequenceOfItself(s: seq<Trend>)
    ensures Seqs.IsSubsequence(s, s)
    decreases |s|
  {
    if s != [] {
      SubsequenceOfItself(s[1..]);
    }
  }

  // ---------------------------------------------------------------------------
  // Properties

  /** The query is case-insensitive: queries that agree after lower-casing give
      the same results. */
  lemma SearchIgnoresQueryCase(data: seq<Trend>, q1: string, q2: string)
    requires Lower(q1) == Lower(q2)
    ensures Search(data, q1) == Search(data, q2)
  {
    TrimLowerCommute(q1);
    TrimLowerCommute(q2);
    assert Term(q1) == Term(q2);
  }

  /** Whitespace around the query does not matter. */
  lemma SearchIgnoresSurroundingSpace(data: seq<Trend>, q: string, pad1: string, pad2: string)
    requires IsBlank(pad1) && IsBlank(pad2)
    ensures Search(data, pad1 + q + pad2) == Search(data, q)
  {
    TrimPadded(q, pad1, pad2);
    assert Term(pad1 + q + pad2) == Term(q);
  }

  /** An empty field never matches a non-blank query. */
  lemma EmptyFieldNeverMatches(term: string)
    ensures !Has("", term)
  {
  }

  /** Only the four searched fields decide a match. */
  lemma UnsearchedFieldsIgnored(t: Trend, term: string, id: string, example: string, category: Category, sources: seq<Source>)
    ensures Matches(t.(id := id, exampleSentence := example, category := category, sources := sources), term)
            == Matches(t, term)
  {
  }

  /** A field that matches contains the term at some position of its lower-cased text. */
  lemma HasIffOccurs(field: string, term: string)
    ensures Has(field, term) <==> field != "" && exists i :: OccursAt(Lower(field), term, i)
  {
    ContainsIffOccurs(Lower(field), term);
    assert Has(field, term) <==> field != "" && Contains(Lower(field), term);
  }
}
