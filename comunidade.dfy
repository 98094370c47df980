/** The community search screen (src/app/screens/dashboard/Comunidade.tsx):
    an exact match by razão social or CNPJ, otherwise up to ten similar
    communities ranked by how well their name fits the query. */
module ComunidadeScreen {
  import opened Common
  import JsArray

  /** The two fields the search reads; a missing or null field reads as ""
      (`community.razao_social || ""`). */
  datatype Community = Community(razaoSocial: string, cnpj: string)

  /** The query searched for: lower-cased, then trimmed. */
  function Query(decoded: string, lower: CaseMap): string {
    Trim(lower(decoded))
  }

  /** The `find` predicate: the lower-cased name or CNPJ is the query. */
  predicate IsExact(c: Community, q: string, lower: CaseMap) {
    lower(c.razaoSocial) == q || lower(c.cnpj) == q
  }

  /** `allCommunities.find(...)`, as the index of the first match. */
  function FindExact(all: seq<Community>, q: string, lower: CaseMap): (r: Option<nat>)
    ensures r.Some? ==> r.value < |all| && IsExact(all[r.value], q, lower)
    ensures r.Some? ==> forall i :: 0 <= i < r.value ==> !IsExact(all[i], q, lower)
    ensures r.None? <==> forall i :: 0 <= i < |all| ==> !IsExact(all[i], q, lower)
  {
    if all == [] then None
    else if IsExact(all[0], q, lower) then Some(0)
    else
      var r := FindExact(all[1..], q, lower);
      if r.Some? then Some(r.value + 1) else None
  }

  /** The `filter` predicate: the query occurs in the lower-cased name or CNPJ. */
  predicate IsSimilar(c: Community, q: string, lower: CaseMap) {
    Contains(lower(c.razaoSocial), q) || Contains(lower(c.cnpj), q)
  }

  /** `allCommunities.filter(...)` */
  function Similar(all: seq<Community>, q: string, lower: CaseMap): (r: seq<Community>)
    ensures forall c :: c in r <==> c in all && IsSimilar(c, q, lower)
    decreases |all|
  {
    if all == [] then []
    else
      var last := all[|all| - 1];
      assert all == all[..|all| - 1] + [last];
      Similar(all[..|all| - 1], q, lower) + (if IsSimilar(last, q, lower) then [last] else [])
  }

  /** The comparator of `similar.sort`, as a key: names that start with the
      query first, then shorter names first. */
  function RankKey(q: string, lower: CaseMap): Community -> seq<int> {
    (c: Community) => [if IsPrefix(q, lower(c.razaoSocial)) then 0 else 1, |lower(c.razaoSocial)|]
  }

  /** `slice(0, 10)` */
  const MaxSimilar := 10

  function Take<T>(s: seq<T>, n: nat): (r: seq<T>)
    ensures |r| <= n && |r| <= |s|
    ensures r == s[..|r|]
    ensures |s| <= n ==> r == s
  {
    if |s| <= n then s else s[..n]
  }

  /** The three pieces of screen state the search effect sets. */
  datatype View = View(selected: Option<Community>, similar: seq<Community>, isExactMatch: bool)

  const Cleared := View(None, [], false)

  /** What the search effect sets for the loaded communities and the decoded
      `search` parameter. */
  function SearchView(all: seq<Community>, decoded: string, lower: CaseMap): (v: View)
    ensures v.isExactMatch <==> v.selected.Some?
    ensures v.selected.Some? ==> v.selected.value in all && v.similar == []
    ensures |v.similar| <= MaxSimilar
  {
    if all == [] || Trim(decoded) == "" then Cleared
    else
      var q := Query(decoded, lower);
      var e := FindExact(all, q, lower);
      if e.Some? then View(Some(all[e.value]), [], true)
      else View(None, Take(JsArray.Sort(Similar(all, q, lower), RankKey(q, lower)), MaxSimilar), false)
  }

  /** The screen's state, set by the search effect. */
  class Screen {
    var selectedCommunity: Option<Community>
    var similarCommunities: seq<Community>
    var isExactMatch: bool

    function State(): View
      reads this
    {
      View(selectedCommunity, similarCommunities, isExactMatch)
    }

    constructor ()
      ensures State() == Cleared
    {
      selectedCommunity := None;
      similarCommunities := [];
      isExactMatch := false;
    }

    /** The search effect. */
    method Search(all: seq<Community>, decoded: string, lower: CaseMap)
      modifies this
      ensures State() == SearchView(all, decoded, lower)
    {
      if |all| == 0 || Trim(decoded) == "" {
        selectedCommunity, similarCommunities, isExactMatch := None, [], false;
        return;
      }
      var query := Trim(lower(decoded));
      var k := FindFirstExact(all, query, lower);
      if k < |all| {
        selectedCommunity, similarCommunities, isExactMatch := Some(all[k]), [], true;
        return;
      }
      var similar := CollectSimilar(all, query, lower);
      var ranked := Rank(similar, query, lower);
      selectedCommunity, similarCommunities, isExactMatch := None, Take(ranked, MaxSimilar), false;
    }
  }

  /** `find`: the index of the first exact match, or the length when none. */
  method FindFirstExact(all: seq<Community>, q: string, lower: CaseMap) returns (k: nat)
    ensures k <= |all|
    ensures k < |all| ==> FindExact(all, q, lower) == Some(k)
    ensures k == |all| ==> FindExact(all, q, lower) == None
  {
    k := 0;
    while k < |all| && !IsExact(all[k], q, lower)
      invariant 0 <= k <= |all|
      invariant forall i :: 0 <= i < k ==> !IsExact(all[i], q, lower)
    {
      k := k + 1;
    }
  }

  /** `filter`: the communities that contain the query, in data order. */
  method CollectSimilar(all: seq<Community>, q: string, lower: CaseMap) returns (similar: seq<Community>)
    ensures similar == Similar(all, q, lower)
  {
    similar := [];
    for i := 0 to |all|
      invariant similar == Similar(all[..i], q, lower)
    {
      assert all[..i + 1][..i] == all[..i];
      if IsSimilar(all[i], q, lower) {
        similar := similar + [all[i]];
      }
    }
    assert all[..|all|] == all;
  }

  /** `similar.sort(...)`, in place on an array. */
  method Rank(similar: seq<Community>, q: string, lower: CaseMap) returns (ranked: seq<Community>)
    ensures ranked == JsArray.Sort(similar, RankKey(q, lower))
  {
    var a := new Community[|similar|](i requires 0 <= i < |similar| => similar[i]);
    assert a[..] == similar;
    JsArray.SortInPlace(a, RankKey(q, lower));
    ranked := a[..];
  }

  /** With no data or a blank query the screen shows nothing; an exact match
      is the first community, in data order, whose name or CNPJ is the query,
      and it comes with no similar list. */
  lemma ExactMatchSpec(all: seq<Community>, decoded: string, lower: CaseMap)
    ensures var v := SearchView(all, decoded, lower); var q := Query(decoded, lower);
      && (all == [] || Trim(decoded) == "" ==> v == Cleared)
      && (v.isExactMatch <==> v.selected.Some?)
      && (v.selected.Some? ==> v.similar == [])
      && (v.selected.Some? ==>
            exists i :: (&& 0 <= i < |all| && all[i] == v.selected.value && IsExact(all[i], q, lower)
                         && forall j :: 0 <= j < i ==> !IsExact(all[j], q, lower)))
      && (all != [] && Trim(decoded) != "" ==>
            (v.selected.None? <==> forall j :: 0 <= j < |all| ==> !IsExact(all[j], q, lower)))
  {
    var v := SearchView(all, decoded, lower);
    var q := Query(decoded, lower);
    if v.selected.Some? {
      var i := FindExact(all, q, lower).value;
      assert all[i] == v.selected.value;
    }
  }

  /** The similar list: at most ten communities of the data that contain the
      query, the first ten of the ranked matches; all of them when there are
      ten or fewer. */
  lemma SimilarSpec(all: seq<Community>, decoded: string, lower: CaseMap)
    ensures var v := SearchView(all, decoded, lower); var q := Query(decoded, lower);
      var ranked := JsArray.Sort(Similar(all, q, lower), RankKey(q, lower));
      && |v.similar| <= MaxSimilar
      && (forall c :: c in v.similar ==> c in all && IsSimilar(c, q, lower))
      && (v.similar != [] ==> v.similar == ranked[..|v.similar|] && |v.similar| == Min(MaxSimilar, |ranked|))
      && (v.selected.None? && all != [] && Trim(decoded) != "" ==> v.similar == ranked[..Min(MaxSimilar, |ranked|)])
      && (v.selected.None? && all != [] && Trim(decoded) != "" && |Similar(all, q, lower)| <= MaxSimilar ==>
            multiset(v.similar) == multiset(Similar(all, q, lower)))
  {
    var q := Query(decoded, lower);
    var s := Similar(all, q, lower);
    var ranked := JsArray.Sort(s, RankKey(q, lower));
    JsArray.SortPermutes(s, RankKey(q, lower));
    var v := SearchView(all, decoded, lower);
    forall c | c in v.similar ensures c in all && IsSimilar(c, q, lower) {
      assert c in multiset(ranked);
    }
  }

  function Min(a: int, b: int): int {
    if a <= b then a else b
  }

  /** The ranking: a name that starts with the query is never listed after
      one that does not, and within each group shorter names come first. */
  lemma RankingSpec(all: seq<Community>, decoded: string, lower: CaseMap)
    ensures var v := SearchView(all, decoded, lower); var q := Query(decoded, lower);
      forall i, j :: 0 <= i < j < |v.similar| ==>
        && (IsPrefix(q, lower(v.similar[j].razaoSocial)) ==> IsPrefix(q, lower(v.similar[i].razaoSocial)))
        && (IsPrefix(q, lower(v.similar[i].razaoSocial)) == IsPrefix(q, lower(v.similar[j].razaoSocial)) ==>
              |lower(v.similar[i].razaoSocial)| <= |lower(v.similar[j].razaoSocial)|)
  {
    var v := SearchView(all, decoded, lower);
    var q := Query(decoded, lower);
    var key := RankKey(q, lower);
    var ranked := JsArray.Sort(Similar(all, q, lower), key);
    JsArray.SortSorted(Similar(all, q, lower), key);
    forall i, j | 0 <= i < j < |v.similar|
      ensures && (IsPrefix(q, lower(v.similar[j].razaoSocial)) ==> IsPrefix(q, lower(v.similar[i].razaoSocial)))
              && (IsPrefix(q, lower(v.similar[i].razaoSocial)) == IsPrefix(q, lower(v.similar[j].razaoSocial)) ==>
                    |lower(v.similar[i].razaoSocial)| <= |lower(v.similar[j].razaoSocial)|)
    {
      assert v.similar[i] == ranked[i] && v.similar[j] == ranked[j];
      assert JsArray.KeyLeq(key, ranked[i], ranked[j]);
      var a, b := key(ranked[i]), key(ranked[j]);
      assert JsArray.LexLeq(a, b);
      if a[0] == b[0] {
        assert JsArray.LexLeq(a[1..], b[1..]);
        assert a[1..][0] == a[1] && b[1..][0] == b[1];
      }
    }
  }

  /** `handleSimilarClick`: the search text the click navigates with. */
  function ClickTarget(c: Community): (r: string)
    ensures c.razaoSocial != "" ==> r == c.razaoSocial
    ensures c.razaoSocial == "" ==> r == c.cnpj
  {
    if c.razaoSocial != "" then c.razaoSocial else c.cnpj
  }

  /** Clicking a similar result opens it as an exact match, when its name (or
      CNPJ) reads the same after lower-casing and trimming. */
  lemma ClickedResultMatchesExactly(all: seq<Community>, c: Community, lower: CaseMap)
    requires c in all
    requires Trim(ClickTarget(c)) != ""
    requires Trim(lower(ClickTarget(c))) == lower(ClickTarget(c))
    ensures SearchView(all, ClickTarget(c), lower).isExactMatch
  {
    var q := Query(ClickTarget(c), lower);
    var i :| 0 <= i < |all| && all[i] == c;
    assert IsExact(all[i], q, lower);
  }
}
