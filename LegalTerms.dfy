/**
 * The legal-terms glossary page: a list of terms fetched once, and the list
 * actually shown, which a search query narrows down.
 */
module LegalTerms {
  import opened Options
  import opened Seqs
  import opened Strings

  datatype LegalTerm = LegalTerm(id: string, term: string, definition: string, category: string)

  /** The search predicate: the lower-cased query occurs in the lower-cased term, definition or category. */
  predicate Matches(t: LegalTerm, query: string) {
    var q := Lower(query);
    Contains(Lower(t.term), q) || Contains(Lower(t.definition), q) || Contains(Lower(t.category), q)
  }

  /** The terms shown for a query: all of them for the empty query, the matching ones otherwise. */
  function FilterTerms(terms: seq<LegalTerm>, query: string): (shown: seq<LegalTerm>)
    ensures query == "" ==> shown == terms
    ensures query != "" ==> forall t :: t in shown <==> t in terms && Matches(t, query)
    ensures |shown| <= |terms|
  {
    if query == "" then terms
    else
      var keep := (t: LegalTerm) => Matches(t, query);
      FilterMembership(terms, keep);
      Filter(terms, keep)
  }

  /** The shown list keeps the order of the fetched list and drops nothing that matches. */
  lemma {:induction false} FilterTermsIsOrderedSublist(terms: seq<LegalTerm>, query: string, t: LegalTerm)
    ensures IsSubsequence(FilterTerms(terms, query), terms)
    ensures multiset(FilterTerms(terms, query))[t] ==
              if query == "" || Matches(t, query) then multiset(terms)[t] else 0
  {
    if query == "" {
      FilterIsSubsequence(terms, _ => true);
      FilterKeepsAll(terms, _ => true);
    } else {
      var keep := (u: LegalTerm) => Matches(u, query);
      FilterIsSubsequence(terms, keep);
      FilterCount(terms, keep, t);
    }
  }

  /** Searching is case-insensitive: the query and its lower-cased form show the same terms. */
  lemma {:induction false} FilterTermsCaseInsensitive(terms: seq<LegalTerm>, query: string)
    ensures FilterTerms(terms, Lower(query)) == FilterTerms(terms, query)
  {
    LowerIdempotent(query);
    if query != "" {
      FilterCongruent(terms, (t: LegalTerm) => Matches(t, query), (t: LegalTerm) => Matches(t, Lower(query)));
    }
  }

  /** Applying the same search to the shown list again changes nothing. */
  lemma {:induction false} FilterTermsIdempotent(terms: seq<LegalTerm>, query: string)
    ensures FilterTerms(FilterTerms(terms, query), query) == FilterTerms(terms, query)
  {
    if query != "" {
      FilterIdempotent(terms, (t: LegalTerm) => Matches(t, query));
    }
  }

  /**
   * Refining a query narrows the result: when the lower-cased `shorter` occurs in
   * the lower-cased `longer`, the terms shown for `longer` are an ordered sublist
   * of those shown for `shorter`.
   */
  lemma {:induction false} FilterTermsNarrows(terms: seq<LegalTerm>, shorter: string, longer: string)
    requires Contains(Lower(longer), Lower(shorter))
    ensures IsSubsequence(FilterTerms(terms, longer), FilterTerms(terms, shorter))
    ensures FilterTerms(FilterTerms(terms, shorter), longer) == FilterTerms(terms, longer)
  {
    var shown := FilterTerms(terms, shorter);
    if longer == "" {
      assert shorter == "";
      FilterTermsIsOrderedSublist(terms, "", LegalTerm("", "", "", ""));
    } else {
      var p := (t: LegalTerm) => shorter == "" || Matches(t, shorter);
      var q := (t: LegalTerm) => Matches(t, longer);
      forall i | 0 <= i < |terms| && q(terms[i]) ensures p(terms[i]) {
        var t := terms[i];
        var l := Lower(longer);
        if Contains(Lower(t.term), l) {
          ContainsTransitive(Lower(t.term), l, Lower(shorter));
        } else if Contains(Lower(t.definition), l) {
          ContainsTransitive(Lower(t.definition), l, Lower(shorter));
        } else {
          ContainsTransitive(Lower(t.category), l, Lower(shorter));
        }
      }
      if shorter == "" {
        FilterIsSubsequence(terms, q);
      } else {
        FilterNarrows(terms, p, q);
        FilterCongruent(terms, p, (t: LegalTerm) => Matches(t, shorter));
        FilterIsSubsequence(shown, q);
      }
    }
  }

  /** What the backend query returned: rows (possibly null), or an error. */
  datatype FetchOutcome = Fetched(data: Option<seq<LegalTerm>>) | FetchFailed

  /** The page's state: fetched terms, shown terms, the search box, and the loading flag. */
  datatype GlossaryView = GlossaryView(
    terms: seq<LegalTerm>,
    filteredTerms: seq<LegalTerm>,
    searchQuery: string,
    loading: bool)

  /** The shown list is the search over the fetched list. */
  predicate InSync(v: GlossaryView) {
    v.filteredTerms == FilterTerms(v.terms, v.searchQuery)
  }

  function InitialView(): (v: GlossaryView)
    ensures v.loading && v.terms == [] && v.searchQuery == "" && InSync(v)
  {
    GlossaryView([], [], "", true)
  }

  /** The end of the fetch: on success both lists become the fetched rows; loading always ends. */
  function ApplyFetch(v: GlossaryView, outcome: FetchOutcome): (w: GlossaryView)
    ensures !w.loading && w.searchQuery == v.searchQuery
    ensures outcome.Fetched? ==> w.terms == w.filteredTerms == outcome.data.GetOr([])
    ensures outcome.FetchFailed? ==> w.terms == v.terms && w.filteredTerms == v.filteredTerms
    ensures outcome.Fetched? && v.searchQuery == "" ==> InSync(w)
  {
    match outcome
    case Fetched(data) => v.(terms := data.GetOr([]), filteredTerms := data.GetOr([]), loading := false)
    case FetchFailed => v.(loading := false)
  }

  /** The effect that runs whenever the query or the fetched list changes. */
  function SearchEffect(v: GlossaryView): (w: GlossaryView)
    ensures InSync(w)
    ensures w.terms == v.terms && w.searchQuery == v.searchQuery && w.loading == v.loading
    ensures InSync(v) ==> w == v
  {
    v.(filteredTerms := FilterTerms(v.terms, v.searchQuery))
  }

  /**
   * The whole end of a fetch as the page runs it: a successful fetch replaces the
   * fetched list, which re-runs the search effect, so a query typed while the
   * terms were loading is applied to the new rows; a failed fetch leaves both
   * lists alone and the effect does not run.
   */
  function FetchCompletes(v: GlossaryView, outcome: FetchOutcome): (w: GlossaryView)
    ensures !w.loading && w.searchQuery == v.searchQuery
    ensures outcome.Fetched? ==> w.terms == outcome.data.GetOr([]) && InSync(w)
    ensures outcome.Fetched? && v.searchQuery == "" ==> w.filteredTerms == w.terms
    ensures outcome.FetchFailed? ==> w.terms == v.terms && w.filteredTerms == v.filteredTerms
    ensures InSync(v) ==> InSync(w)
  {
    if outcome.Fetched? then SearchEffect(ApplyFetch(v, outcome)) else ApplyFetch(v, outcome)
  }

  /** Typing in the search box: the query is replaced, then the effect runs. */
  function TypeQuery(v: GlossaryView, query: string): (w: GlossaryView)
    ensures InSync(w) && w.searchQuery == query
    ensures w.terms == v.terms && w.loading == v.loading
    ensures |w.filteredTerms| <= |w.terms|
  {
    SearchEffect(v.(searchQuery := query))
  }
}
