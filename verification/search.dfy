/**
 * The university selector: a case-insensitive substring search over the catalog.
 * Lower-casing is ASCII-only.
 */
module Search {
  import opened Types
  import opened Seqs
  import Constants

  function LowerChar(c: char): char {
    if 'A' <= c <= 'Z' then (c as int + 32) as char else c
  }

  /**
   * The selector never upper-cases; `UpperChar` and `ToUpper` only serve to state, in
   * `CaseInsensitive`, that a term's letter case does not matter.
   */
  function UpperChar(c: char): char {
    if 'a' <= c <= 'z' then (c as int - 32) as char else c
  }

  /** `toLowerCase()` restricted to ASCII letters. */
  function ToLower(s: string): (r: string)
    ensures |r| == |s|
  {
    seq(|s|, i requires 0 <= i < |s| => LowerChar(s[i]))
  }

  /** `toUpperCase()` restricted to ASCII letters. */
  function ToUpper(s: string): (r: string)
    ensures |r| == |s|
  {
    seq(|s|, i requires 0 <= i < |s| => UpperChar(s[i]))
  }

  /** Lower-casing twice is lower-casing once. */
  lemma LowerIdempotent(s: string)
    ensures ToLower(ToLower(s)) == ToLower(s)
  {
  }

  /** Upper-casing first changes nothing once both sides are lower-cased. */
  lemma LowerOfUpper(s: string)
    ensures ToLower(ToUpper(s)) == ToLower(s)
  {
    forall i | 0 <= i < |s| ensures ToLower(ToUpper(s))[i] == ToLower(s)[i] {
      var c := s[i];
      if 'a' <= c <= 'z' {
        assert ToUpper(s)[i] == (c as int - 32) as char;
      }
    }
  }

  predicate IsPrefix(p: string, s: string) {
    |p| <= |s| && s[..|p|] == p
  }

  /** `hay.includes(needle)`, scanning from the left. */
  predicate Includes(hay: string, needle: string)
    decreases |hay|
  {
    IsPrefix(needle, hay) || (hay != [] && Includes(hay[1..], needle))
  }

  /** The reference meaning of `includes`: `needle` occurs at some position of `hay`. */
  ghost predicate OccursAt(hay: string, needle: string, k: int) {
    0 <= k && k + |needle| <= |hay| && hay[k..k + |needle|] == needle
  }

  /** The scan agrees with the reference meaning, in both directions. */
  lemma {:induction false} IncludesIff(hay: string, needle: string)
    ensures Includes(hay, needle) <==> exists k :: OccursAt(hay, needle, k)
    decreases |hay|
  {
    assert OccursAt(hay, needle, 0) ==> IsPrefix(needle, hay);
    if IsPrefix(needle, hay) {
      assert OccursAt(hay, needle, 0);
    } else if hay != [] {
      IncludesIff(hay[1..], needle);
      if Includes(hay[1..], needle) {
        var k :| OccursAt(hay[1..], needle, k);
        assert hay[k + 1..k + 1 + |needle|] == hay[1..][k..k + |needle|];
        assert OccursAt(hay, needle, k + 1);
      }
      forall k | OccursAt(hay, needle, k) ensures OccursAt(hay[1..], needle, k - 1) {
        assert hay[1..][k - 1..k - 1 + |needle|] == hay[k..k + |needle|];
      }
    }
  }

  /** The empty term is included in every name. */
  lemma EmptyIncluded(hay: string)
    ensures Includes(hay, "")
  {
    assert IsPrefix("", hay);
  }

  /** `uni.name.toLowerCase().includes(searchTerm.toLowerCase())` */
  predicate Matches(term: string, u: University) {
    Includes(ToLower(u.name), ToLower(term))
  }

  /** `filteredUnis`: the catalog entries matching the term. */
  function FilterUniversities(catalog: seq<University>, term: string): (r: seq<University>)
    ensures |r| <= |catalog|
  {
    Filter(catalog, u => Matches(term, u))
  }

  /**
   * The result is the subsequence of the catalog (in catalog order) of exactly those
   * universities whose lower-cased name contains the lower-cased term.
   */
  lemma FilterUniversitiesSpec(catalog: seq<University>, term: string)
    ensures IsSubsequence(FilterUniversities(catalog, term), catalog)
    ensures forall u :: u in FilterUniversities(catalog, term) <==>
      u in catalog && exists k :: OccursAt(ToLower(u.name), ToLower(term), k)
  {
    var r := FilterUniversities(catalog, term);
    FilterIsSubsequence(catalog, u => Matches(term, u));
    forall u ensures u in r <==> u in catalog && exists k :: OccursAt(ToLower(u.name), ToLower(term), k) {
      IncludesIff(ToLower(u.name), ToLower(term));
    }
  }

  /** Two terms with the same lower-cased form give the same result. */
  lemma SameLowerSameResults(catalog: seq<University>, t1: string, t2: string)
    requires ToLower(t1) == ToLower(t2)
    ensures FilterUniversities(catalog, t1) == FilterUniversities(catalog, t2)
  {
    FilterCongruent(catalog, u => Matches(t1, u), u => Matches(t2, u));
  }

  /** Terms differing only in ASCII letter case give the same result. */
  lemma CaseInsensitive(catalog: seq<University>, term: string)
    ensures FilterUniversities(catalog, ToLower(term)) == FilterUniversities(catalog, term)
    ensures FilterUniversities(catalog, ToUpper(term)) == FilterUniversities(catalog, term)
  {
    LowerIdempotent(term);
    LowerOfUpper(term);
    SameLowerSameResults(catalog, ToLower(term), term);
    SameLowerSameResults(catalog, ToUpper(term), term);
  }

  /** The empty term matches every university: the whole catalog, in order. */
  lemma EmptyTermMatchesAll(catalog: seq<University>)
    ensures FilterUniversities(catalog, "") == catalog
  {
    forall i | 0 <= i < |catalog| ensures Matches("", catalog[i]) {
      EmptyIncluded(ToLower(catalog[i].name));
    }
    FilterAll(catalog, u => Matches("", u));
  }

  /** `{searchTerm && …}`: the results panel is rendered only for a non-empty term. */
  predicate PanelShown(term: string) {
    term != ""
  }

  /** "No universities found." is rendered inside the panel when nothing matched. */
  predicate NoResultsShown(catalog: seq<University>, term: string) {
    PanelShown(term) && |FilterUniversities(catalog, term)| == 0
  }

  /** "No universities found." appears exactly when the term is non-empty and no catalog name contains it. */
  lemma NoResultsIff(catalog: seq<University>, term: string)
    ensures NoResultsShown(catalog, term) <==>
      term != "" && forall i :: 0 <= i < |catalog| ==> !Matches(term, catalog[i])
  {
    var r := FilterUniversities(catalog, term);
    if forall i :: 0 <= i < |catalog| ==> !Matches(term, catalog[i]) {
      FilterNone(catalog, u => Matches(term, u));
    }
  }

  /** Nothing is shown below the box for the empty term, although it matches everything. */
  lemma EmptyTermHidesResults(catalog: seq<University>)
    ensures !PanelShown("") && !NoResultsShown(catalog, "")
    ensures FilterUniversities(catalog, "") == catalog
  {
    EmptyTermMatchesAll(catalog);
  }

  /** The selector's one state cell, over the fixed catalog. */
  class UniversitySelector {
    var searchTerm: string

    function Results(): seq<University>
      reads this
    {
      FilterUniversities(Constants.Universities, searchTerm)
    }

    constructor ()
      ensures searchTerm == "" && !PanelShown(searchTerm)
    {
      searchTerm := "";
    }

    /** The search box's change handler. */
    method SetSearchTerm(value: string)
      modifies this
      ensures searchTerm == value
    {
      searchTerm := value;
    }

    /** Clicking the `i`-th result passes that very catalog record to `onSelect`. */
    method Choose(i: nat) returns (chosen: University)
      requires PanelShown(searchTerm) && i < |Results()|
      ensures chosen == Results()[i]
      ensures chosen in Constants.Universities && Matches(searchTerm, chosen)
    {
      chosen := Results()[i];
    }
  }
}
