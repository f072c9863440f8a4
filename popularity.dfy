/** The popularity query (src/MongoHelper.py, `search_popular_in_city`): the
    records whose generic popularity rank matches `^#[0-9]\D.*<city>$`, sorted
    ascending on that string, at most three of them, reported by link. The city
    is taken literally, as a name without regular-expression metacharacters. */
module PopularQuery {
  import opened Text
  import opened Documents

  // ---------------------------------------------------------------------------
  // The pattern
  // ---------------------------------------------------------------------------

  /** `.*<city>` anchored at the end: the text ends with the city and what comes
      before it holds no line break (`.` does not match one). */
  predicate EndsWithCity(t: string, city: string) {
    |t| >= |city| && t[|t| - |city|..] == city && '\n' !in t[..|t| - |city|]
  }

  /** `^#[0-9]\D.*<city>$`: a `#`, one digit, one non-digit, then the rest ends
      with the city; `$` also matches just before a final line break. */
  predicate MatchesRank(s: string, city: string) {
    && |s| >= 3 && s[0] == '#' && IsDigit(s[1]) && !IsDigit(s[2])
    && (|| EndsWithCity(s[3..], city)
        || (|s| >= 4 && s[|s| - 1] == '\n' && EndsWithCity(s[3..|s| - 1], city)))
  }

  /** A rank string such as "#1 of 2 Restaurants in <city>" matches. */
  lemma RankOfCityMatches(d: char, x: char, middle: string, city: string)
    requires IsDigit(d) && !IsDigit(x) && '\n' !in middle
    ensures MatchesRank(['#', d, x] + middle + city, city)
  {
    var s := ['#', d, x] + middle + city;
    assert s[3..] == middle + city;
    assert s[3..][|s[3..]| - |city|..] == city;
    assert s[3..][..|s[3..]| - |city|] == middle;
  }

  /** The records whose generic rank matches, in collection order. */
  function Matching(docs: seq<Popularity>, city: string): (r: seq<Popularity>)
    ensures forall i :: 0 <= i < |r| ==> MatchesRank(r[i].popularityGeneric, city)
    ensures multiset(r) <= multiset(docs)
  {
    if docs == [] then []
    else
      assert docs == [docs[0]] + docs[1..];
      (if MatchesRank(docs[0].popularityGeneric, city) then [docs[0]] else []) + Matching(docs[1..], city)
  }

  /** The filter keeps every matching record as often as it occurs, and no other. */
  lemma {:induction false} MatchingCounts(docs: seq<Popularity>, city: string, d: Popularity)
    ensures multiset(Matching(docs, city))[d] == if MatchesRank(d.popularityGeneric, city) then multiset(docs)[d] else 0
  {
    if docs != [] {
      assert docs == [docs[0]] + docs[1..];
      MatchingCounts(docs[1..], city, d);
    }
  }

  // ---------------------------------------------------------------------------
  // Ascending sort on the rank string
  // ---------------------------------------------------------------------------

  predicate SortedByRank(s: seq<Popularity>) {
    forall i, j :: 0 <= i < j < |s| ==> LexLe(s[i].popularityGeneric, s[j].popularityGeneric)
  }

  function Insert(x: Popularity, s: seq<Popularity>): (r: seq<Popularity>)
    ensures multiset(r) == multiset(s) + multiset{x}
    ensures |r| == |s| + 1
  {
    if s == [] then [x]
    else if LexLe(x.popularityGeneric, s[0].popularityGeneric) then [x] + s
    else
      assert s == [s[0]] + s[1..];
      [s[0]] + Insert(x, s[1..])
  }

  lemma {:induction false} InsertSorted(x: Popularity, s: seq<Popularity>)
    requires SortedByRank(s)
    ensures SortedByRank(Insert(x, s))
  {
    if s == [] {
    } else if LexLe(x.popularityGeneric, s[0].popularityGeneric) {
      forall j | 0 <= j < |s|
        ensures LexLe(x.popularityGeneric, s[j].popularityGeneric)
      {
        if j > 0 {
          LexLeTransitive(x.popularityGeneric, s[0].popularityGeneric, s[j].popularityGeneric);
        }
      }
      SortedCons(x, s);
    } else {
      var tail := Insert(x, s[1..]);
      InsertSorted(x, s[1..]);
      LexLeTotal(x.popularityGeneric, s[0].popularityGeneric);
      HeadBelowInsert(s, x);
      SortedCons(s[0], tail);
    }
  }

  /** A record ranked no later than every record of a sorted sequence can go in
      front of it. */
  lemma SortedCons(h: Popularity, t: seq<Popularity>)
    requires SortedByRank(t)
    requires forall j :: 0 <= j < |t| ==> LexLe(h.popularityGeneric, t[j].popularityGeneric)
    ensures SortedByRank([h] + t)
  {
    var r := [h] + t;
    forall i, j | 0 <= i < j < |r|
      ensures LexLe(r[i].popularityGeneric, r[j].popularityGeneric)
    {
      if i == 0 {
        assert r[j] == t[j - 1];
      } else {
        assert r[i] == t[i - 1] && r[j] == t[j - 1];
      }
    }
  }

  /** The head of a sorted sequence ranks no later than anything inserted into
      its tail that it already precedes. */
  lemma HeadBelowInsert(s: seq<Popularity>, x: Popularity)
    requires SortedByRank(s) && |s| > 0
    requires LexLe(s[0].popularityGeneric, x.popularityGeneric)
    ensures forall j :: 0 <= j < |Insert(x, s[1..])| ==> LexLe(s[0].popularityGeneric, Insert(x, s[1..])[j].popularityGeneric)
  {
    var tail := Insert(x, s[1..]);
    forall j | 0 <= j < |tail|
      ensures LexLe(s[0].popularityGeneric, tail[j].popularityGeneric)
    {
      assert tail[j] in multiset(tail);
      if tail[j] != x {
        assert tail[j] in multiset(s[1..]);
        var k :| 0 <= k < |s[1..]| && s[1..][k] == tail[j];
        assert s[k + 1] == tail[j];
      }
    }
  }

  /** Insertion sort on the generic rank. */
  function SortByRank(s: seq<Popularity>): (r: seq<Popularity>)
    ensures multiset(r) == multiset(s)
    ensures |r| == |s|
  {
    if s == [] then []
    else
      assert s == [s[0]] + s[1..];
      Insert(s[0], SortByRank(s[1..]))
  }

  lemma {:induction false} SortByRankSorted(s: seq<Popularity>)
    ensures SortedByRank(SortByRank(s))
  {
    if s != [] {
      SortByRankSorted(s[1..]);
      InsertSorted(s[0], SortByRank(s[1..]));
    }
  }

  // ---------------------------------------------------------------------------
  // The query
  // ---------------------------------------------------------------------------

  function Min(a: nat, b: nat): nat {
    if a <= b then a else b
  }

  /** The first three matching records in ascending rank order: each matches,
      they are sorted, they come from the collection, and every other matching
      record ranks no earlier than any of them. */
  function TopRanked(docs: seq<Popularity>, city: string): (r: seq<Popularity>)
    ensures |r| == Min(3, |Matching(docs, city)|)
    ensures forall i :: 0 <= i < |r| ==> MatchesRank(r[i].popularityGeneric, city) && r[i] in docs
    ensures SortedByRank(r)
    ensures multiset(r) <= multiset(Matching(docs, city))
    ensures forall d, i :: d in multiset(Matching(docs, city)) - multiset(r) && 0 <= i < |r| ==>
              LexLe(r[i].popularityGeneric, d.popularityGeneric)
  {
    var m := Matching(docs, city);
    var sorted := SortByRank(m);
    SortByRankSorted(m);
    TopOfSorted(m, sorted, Min(3, |sorted|));
    FromMatching(docs, city, sorted[..Min(3, |sorted|)]);
    sorted[..Min(3, |sorted|)]
  }

  /** Every record drawn from the matching ones matches and comes from the
      collection. */
  lemma FromMatching(docs: seq<Popularity>, city: string, top: seq<Popularity>)
    requires multiset(top) <= multiset(Matching(docs, city))
    ensures forall i :: 0 <= i < |top| ==> MatchesRank(top[i].popularityGeneric, city) && top[i] in docs
  {
    var m := Matching(docs, city);
    forall i | 0 <= i < |top|
      ensures MatchesRank(top[i].popularityGeneric, city) && top[i] in docs
    {
      var d := top[i];
      assert d in multiset(top);
      assert d in multiset(docs);
      assert d in m;
      var j :| 0 <= j < |m| && m[j] == d;
    }
  }

  /** The first `k` of a sorted rearrangement of `m` are sorted, drawn from `m`,
      and rank no later than the rest of `m`. */
  lemma TopOfSorted(m: seq<Popularity>, s: seq<Popularity>, k: nat)
    requires SortedByRank(s) && multiset(s) == multiset(m) && k <= |s|
    ensures SortedByRank(s[..k])
    ensures multiset(s[..k]) <= multiset(m)
    ensures forall d, i :: d in multiset(m) - multiset(s[..k]) && 0 <= i < |s[..k]| ==>
              LexLe(s[..k][i].popularityGeneric, d.popularityGeneric)
  {
    assert s == s[..k] + s[k..];
    assert multiset(m) == multiset(s[..k]) + multiset(s[k..]);
    forall d, i | d in multiset(m) - multiset(s[..k]) && 0 <= i < |s[..k]|
      ensures LexLe(s[..k][i].popularityGeneric, d.popularityGeneric)
    {
      assert d in multiset(s[k..]);
      var j :| 0 <= j < |s[k..]| && s[k..][j] == d;
      assert s[k + j] == d;
    }
  }

  /** `search_popular_in_city`: the links of the top-ranked matching records. */
  function SearchPopularInCity(docs: seq<Popularity>, city: string): (links: seq<string>)
    ensures |links| <= 3
    ensures |links| == |TopRanked(docs, city)|
    ensures forall i :: 0 <= i < |links| ==> links[i] == TopRanked(docs, city)[i].restaurantLink
  {
    var top := TopRanked(docs, city);
    seq(|top|, i requires 0 <= i < |top| => top[i].restaurantLink)
  }
}
