/**
 * The client's search store (`useSearchStore`): the query being typed,
 * whether the search panel is open, and the five most recent searches,
 * newest first and without repeats.
 */
module SearchState {
  import opened Seqs
  import opened Text

  /** The most recent searches kept by `addRecentSearch`. */
  const MaxRecent: nat := 5

  /** `list.slice(0, n)` for a non-negative `n`. */
  function Take<T>(s: seq<T>, n: nat): (r: seq<T>)
    ensures |r| == if |s| < n then |s| else n
    ensures r == s[..|r|]
  {
    if |s| < n then s else s[..n]
  }

  /** The list after `addRecentSearch(query)`. */
  function WithRecent(recent: seq<string>, query: string): seq<string> {
    if IsBlank(query) then recent
    else Take([query] + Filter((s: string) => s != query, recent), MaxRecent)
  }

  class SearchStore {
    var query: string
    var isOpen: bool
    var recentSearches: seq<string>

    constructor ()
      ensures query == "" && !isOpen && recentSearches == []
    {
      query := "";
      isOpen := false;
      recentSearches := [];
    }

    /** `setQuery(query)` */
    method SetQuery(q: string)
      modifies this
      ensures query == q && isOpen == old(isOpen) && recentSearches == old(recentSearches)
    {
      query := q;
    }

    /** `setIsOpen(isOpen)` */
    method SetIsOpen(open: bool)
      modifies this
      ensures isOpen == open && query == old(query) && recentSearches == old(recentSearches)
    {
      isOpen := open;
    }

    /** `addRecentSearch(query)`: a blank query is ignored. */
    method AddRecentSearch(q: string)
      modifies this
      ensures recentSearches == WithRecent(old(recentSearches), q)
      ensures query == old(query) && isOpen == old(isOpen)
    {
      if IsBlank(q) {
        return;
      }
      var recent := Filter((s: string) => s != q, recentSearches);
      recentSearches := Take([q] + recent, MaxRecent);
    }

    /** `clearRecentSearches()` */
    method ClearRecentSearches()
      modifies this
      ensures recentSearches == [] && query == old(query) && isOpen == old(isOpen)
    {
      recentSearches := [];
    }
  }

  /**
   * A non-blank query goes to the front, occurs nowhere else, and is
   * followed by the earlier searches other than it, in their previous order,
   * up to five in all; a blank query changes nothing.
   */
  lemma WithRecentEffect(recent: seq<string>, query: string)
    ensures IsBlank(query) ==> WithRecent(recent, query) == recent
    ensures !IsBlank(query) ==>
      var r := WithRecent(recent, query);
      && 0 < |r| <= MaxRecent
      && r[0] == query
      && (forall i :: 1 <= i < |r| ==> r[i] != query)
      && r[1..] == Filter((s: string) => s != query, recent)[..|r| - 1]
      && IsSubsequence(r[1..], recent)
      && |r| == if |Filter((s: string) => s != query, recent)| < MaxRecent
                then 1 + |Filter((s: string) => s != query, recent)| else MaxRecent
  {
    if !IsBlank(query) {
      var rest := Filter((s: string) => s != query, recent);
      var r := WithRecent(recent, query);
      assert r == ([query] + rest)[..|r|];
      assert r[1..] == rest[..|r| - 1];
      forall i | 1 <= i < |r| ensures r[i] != query {
        assert r[i] == rest[i - 1];
      }
      FilterIsSubsequence((s: string) => s != query, recent);
      PrefixIsSubsequence(rest[..|r| - 1], rest, recent);
    }
  }

  /** Repeating the latest search leaves the list as it is. */
  lemma WithRecentRepeat(recent: seq<string>, query: string)
    requires !IsBlank(query)
    ensures WithRecent(WithRecent(recent, query), query) == WithRecent(recent, query)
  {
    var r := WithRecent(recent, query);
    WithRecentEffect(recent, query);
    var rest := Filter((s: string) => s != query, r);
    assert r == [r[0]] + r[1..];
    FilterConcat((s: string) => s != query, [r[0]], r[1..]);
    assert [r[0]][1..] == [];
    FilterKeepsAll((s: string) => s != query, r[1..]);
    assert rest == r[1..];
    assert [query] + rest == r;
  }
}
