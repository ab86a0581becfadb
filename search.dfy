/** Image search against the registry proxy: how one raw result is
    normalised, how the list is ranked, when a query is issued at all, and
    which list the toolbar ends up holding for each kind of response. */
module Search {
  import opened Text

  /** One item of the `results` list in the proxy's search response. */
  datatype RawResult = RawResult(
    repo_name: string,
    is_official: bool,
    short_description: string,
    pull_count: int,
    star_count: int)

  /** A search result as the toolbar keeps it. */
  datatype SearchResult = SearchResult(
    name: string,
    isOfficial: bool,
    description: string,
    pullCount: int,
    starCount: int,
    namespace: string,
    fullName: string,
    tags: seq<string>)

  /** The normalisation applied to every raw result. The name is the last
      `/`-separated segment of the repository name, the namespace its first
      segment when it has a `/` at all, and every result starts with the
      single tag "latest". */
  function Normalize(item: RawResult): (r: SearchResult)
    ensures r.fullName == item.repo_name && r.tags == ["latest"]
    ensures r.isOfficial == item.is_official && r.description == item.short_description
    ensures r.pullCount == item.pull_count && r.starCount == item.star_count
    ensures '/' !in r.name && '/' !in r.namespace
  {
    SearchResult(
      name := LastPiece(item.repo_name, '/'),
      isOfficial := item.is_official,
      description := item.short_description,
      pullCount := item.pull_count,
      starCount := item.star_count,
      namespace := if '/' in item.repo_name then Split(item.repo_name, '/')[0] else "",
      fullName := item.repo_name,
      tags := ["latest"])
  }

  /** The name of a result is a suffix of its repository name and the
      namespace a prefix of it. With a `/` in the repository name, a `/`
      stands right before the name and right after the namespace, and
      neither holds one, so the name is the last segment and the namespace
      the first. A repository name without `/` is its own name, with an
      empty namespace. */
  lemma NormalizedNameParts(item: RawResult)
    ensures var r := Normalize(item); var repo := item.repo_name;
      && |r.name| <= |repo| && repo[|repo| - |r.name|..] == r.name
      && |r.namespace| <= |repo| && repo[..|r.namespace|] == r.namespace
    ensures var r := Normalize(item); var repo := item.repo_name;
      '/' in repo ==>
        && |r.name| < |repo| && repo[|repo| - |r.name| - 1] == '/'
        && |r.namespace| < |repo| && repo[|r.namespace|] == '/'
    ensures '/' !in item.repo_name ==>
      Normalize(item).name == item.repo_name && Normalize(item).namespace == ""
  {
    var repo := item.repo_name;
    var pieces := Split(repo, '/');
    var r := Normalize(item);
    assert r.name == pieces[|pieces| - 1];
    LastPieceIsSuffix(repo, '/');
    JoinSplit(repo, '/');
    if '/' in repo {
      SplitAtSeparator(repo, '/');
      assert r.namespace == pieces[0];
      JoinStartsWithFirst(pieces, '/');
      JoinEndsWithLast(pieces, '/');
    } else {
      SplitWithoutSeparator(repo, '/');
    }
  }

  /** A qualified repository name `namespace/name` normalises back into its
      two parts. */
  lemma NormalizeQualified(ns: string, n: string, item: RawResult)
    requires '/' !in ns && '/' !in n
    requires item.repo_name == ns + "/" + n
    ensures Normalize(item).namespace == ns && Normalize(item).name == n
  {
    assert Join([ns, n], '/') == ns + "/" + n;
    SplitJoin([ns, n], '/');
    assert item.repo_name[|ns|] == '/';
  }

  /** `results.map(...)`: every raw result normalised, in order. */
  function NormalizeAll(items: seq<RawResult>): (rs: seq<SearchResult>)
    ensures |rs| == |items|
    ensures forall i :: 0 <= i < |items| ==> rs[i] == Normalize(items[i])
  {
    seq(|items|, i requires 0 <= i < |items| => Normalize(items[i]))
  }

  /** The image reference a result stands for: `fullName || name`. */
  function ImageName(r: SearchResult): string
  {
    if r.fullName != "" then r.fullName else r.name
  }

  /** For a normalised result the image reference is exactly the repository
      name the registry reported. */
  lemma ImageNameOfNormalized(item: RawResult)
    ensures ImageName(Normalize(item)) == item.repo_name
  {
    if item.repo_name == "" {
      assert Split(item.repo_name, '/') == [""];
    }
  }

  /** The sort comparator: official results first, then by descending
      pull count. Negative means `a` goes before `b`. */
  function Compare(a: SearchResult, b: SearchResult): int
  {
    if a.isOfficial && !b.isOfficial then -1
    else if !a.isOfficial && b.isOfficial then 1
    else b.pullCount - a.pullCount
  }

  /** No later element should have gone before an earlier one. */
  predicate Ranked(xs: seq<SearchResult>)
  {
    forall i, j :: 0 <= i < j < |xs| ==> Compare(xs[i], xs[j]) <= 0
  }

  /** What the comparator orders by; results with equal keys compare equal. */
  function RankKey(r: SearchResult): (bool, int)
  {
    (r.isOfficial, r.pullCount)
  }

  /** The results with a given key, in their order. */
  function WithKey(xs: seq<SearchResult>, k: (bool, int)): seq<SearchResult>
  {
    if xs == [] then []
    else (if RankKey(xs[0]) == k then [xs[0]] else []) + WithKey(xs[1..], k)
  }

  /** Inserts `x` before the first element it does not go after. */
  function Insert(x: SearchResult, ys: seq<SearchResult>): seq<SearchResult>
  {
    if ys == [] || Compare(x, ys[0]) <= 0 then [x] + ys
    else [ys[0]] + Insert(x, ys[1..])
  }

  /** `Array.prototype.sort` with the comparator, which the language
      requires to be stable: an insertion sort that keeps equal-key results
      in their input order. */
  function Rank(xs: seq<SearchResult>): seq<SearchResult>
  {
    if xs == [] then [] else Insert(xs[0], Rank(xs[1..]))
  }

  lemma {:induction false} InsertPermutes(x: SearchResult, ys: seq<SearchResult>)
    ensures multiset(Insert(x, ys)) == multiset(ys) + multiset{x}
  {
    if ys != [] && Compare(x, ys[0]) > 0 {
      InsertPermutes(x, ys[1..]);
      assert ys == [ys[0]] + ys[1..];
    }
  }

  lemma {:induction false} InsertKeepsRanked(x: SearchResult, ys: seq<SearchResult>)
    requires Ranked(ys)
    ensures Ranked(Insert(x, ys))
  {
    if ys != [] && Compare(x, ys[0]) > 0 {
      var tail := Insert(x, ys[1..]);
      InsertKeepsRanked(x, ys[1..]);
      InsertPermutes(x, ys[1..]);
      forall j | 0 <= j < |tail|
        ensures Compare(ys[0], tail[j]) <= 0
      {
        assert tail[j] in multiset(tail);
        assert tail[j] == x || tail[j] in multiset(ys[1..]);
        if tail[j] != x {
          var k :| 0 <= k < |ys[1..]| && ys[1..][k] == tail[j];
          assert ys[1 + k] == tail[j];
        }
      }
    }
  }

  lemma {:induction false} RankSortedPermutation(xs: seq<SearchResult>)
    ensures multiset(Rank(xs)) == multiset(xs)
    ensures Ranked(Rank(xs))
  {
    if xs != [] {
      RankSortedPermutation(xs[1..]);
      InsertPermutes(xs[0], Rank(xs[1..]));
      InsertKeepsRanked(xs[0], Rank(xs[1..]));
      assert xs == [xs[0]] + xs[1..];
    }
  }

  lemma {:induction false} InsertWithKey(x: SearchResult, ys: seq<SearchResult>, k: (bool, int))
    requires Ranked(ys)
    ensures WithKey(Insert(x, ys), k) ==
      if RankKey(x) == k then [x] + WithKey(ys, k) else WithKey(ys, k)
  {
    var ins := Insert(x, ys);
    if ys == [] || Compare(x, ys[0]) <= 0 {
      assert ins[1..] == ys;
    } else {
      assert ins[0] == ys[0] && ins[1..] == Insert(x, ys[1..]);
      assert Ranked(ys[1..]) by {
        forall i, j | 0 <= i < j < |ys[1..]| ensures Compare(ys[1..][i], ys[1..][j]) <= 0 {
          assert ys[1..][i] == ys[i + 1] && ys[1..][j] == ys[j + 1];
        }
      }
      InsertWithKey(x, ys[1..], k);
      assert RankKey(x) != RankKey(ys[0]);
    }
  }

  /** Sorting keeps the relative order of results that compare equal. */
  lemma {:induction false} RankStable(xs: seq<SearchResult>, k: (bool, int))
    ensures WithKey(Rank(xs), k) == WithKey(xs, k)
  {
    if xs != [] {
      RankStable(xs[1..], k);
      RankSortedPermutation(xs[1..]);
      InsertWithKey(xs[0], Rank(xs[1..]), k);
    }
  }

  /** The ranked list holds exactly the given results; every official
      result precedes every non-official one; within equal officialness,
      pull counts do not increase; equal results keep their order. */
  lemma RankOrdersResults(xs: seq<SearchResult>)
    ensures multiset(Rank(xs)) == multiset(xs)
    ensures var rs := Rank(xs);
      forall i, j :: 0 <= i < j < |rs| ==>
        (rs[j].isOfficial ==> rs[i].isOfficial) &&
        (rs[i].isOfficial == rs[j].isOfficial ==> rs[i].pullCount >= rs[j].pullCount)
    ensures forall k :: WithKey(Rank(xs), k) == WithKey(xs, k)
  {
    RankSortedPermutation(xs);
    forall k ensures WithKey(Rank(xs), k) == WithKey(xs, k) {
      RankStable(xs, k);
    }
  }

  /** An official result with few pulls goes before a non-official one with
      many. */
  lemma RankOfficialFirstExample(a: SearchResult, b: SearchResult)
    requires !a.isOfficial && a.pullCount == 100
    requires b.isOfficial && b.pullCount == 10
    ensures Rank([a, b]) == [b, a]
  {
    assert [a, b][1..] == [b] && [b][1..] == [];
    assert Rank([b]) == Insert(b, []) == [b];
    assert Insert(a, [b]) == [b] + Insert(a, []);
  }

  /** The debounce gate: a query is issued only for at least two characters. */
  function ShouldQuery(query: string): (issue: bool)
    ensures issue <==> |query| >= 2
  {
    query != "" && |query| >= 2
  }

  /** How the proxy's search request ends: an ok response with its decoded
      result list, a response that is not ok, or a thrown error (network
      failure, a body that is not JSON or has no `results` list). */
  datatype SearchResponse = Answered(results: seq<RawResult>) | NotOk | Threw

  /** The result list the toolbar holds once a search request has settled:
      the normalised and ranked results, or nothing at all on any failure. */
  function ResultsAfter(response: SearchResponse): (rs: seq<SearchResult>)
    ensures response.Answered? ==>
      multiset(rs) == multiset(NormalizeAll(response.results)) && Ranked(rs)
    ensures !response.Answered? ==> rs == []
  {
    match response
    case Answered(items) =>
      RankSortedPermutation(NormalizeAll(items));
      Rank(NormalizeAll(items))
    case NotOk => []
    case Threw => []
  }
}
