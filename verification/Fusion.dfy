/** Reciprocal rank fusion over real scores, and the order it ranks hits in. */
module Fusion {
  import opened Collections

  type Id = nat

  // ---------- Scores ----------

  function Share(k: nat, rank: nat): real {
    1.0 / (k + rank + 1) as real
  }

  /** What one channel gives an id: a share for every place it holds. */
  function Contribution(list: seq<Id>, k: nat, id: Id): real {
    if list == [] then 0.0
    else Contribution(list[..|list| - 1], k, id) + (if list[|list| - 1] == id then Share(k, |list| - 1) else 0.0)
  }

  function Score(lists: seq<seq<Id>>, k: nat, id: Id): real {
    if lists == [] then 0.0
    else Score(lists[..|lists| - 1], k, id) + Contribution(lists[|lists| - 1], k, id)
  }

  ghost function Union(lists: seq<seq<Id>>): set<Id> {
    set c, r | 0 <= c < |lists| && 0 <= r < |lists[c]| :: lists[c][r]
  }

  /** The channels come as lists in the order of their names. */
  method ReciprocalRankFusion(lists: seq<seq<Id>>, k: nat) returns (scores: map<Id, real>)
    ensures scores.Keys == Union(lists)
    ensures forall id :: id in scores ==> scores[id] == Score(lists, k, id)
  {
    hide Contribution;
    scores := map[];
    for c := 0 to |lists|
      invariant scores.Keys == Union(lists[..c])
      invariant forall id :: id in scores ==> scores[id] == Score(lists[..c], k, id)
    {
      assert lists[..c + 1][..c] == lists[..c];
      scores := AddShares(scores, lists[..c], lists[c], k);
      OneMoreChannel(lists, c);
    }
    assert lists[..|lists|] == lists;
  }

  /** The inner loop: every place of one channel adds its share to its id. */
  method AddShares(before: map<Id, real>, ghost lists: seq<seq<Id>>, list: seq<Id>, k: nat)
    returns (scores: map<Id, real>)
    requires before.Keys == Union(lists) && forall id :: id in before ==> before[id] == Score(lists, k, id)
    ensures forall id :: id in scores <==> id in before || id in list
    ensures forall id :: id in scores ==> scores[id] == Score(lists, k, id) + Contribution(list, k, id)
  {
    hide Share;
    scores := before;
    forall id | id !in before ensures Score(lists, k, id) == 0.0 {
      AbsentScoresNothing(lists, k, id);
    }
    hide Union, Score;
    for r := 0 to |list|
      invariant forall id :: id in scores <==> id in before || id in list[..r]
      invariant forall id :: id in scores ==> scores[id] == Score(lists, k, id) + Contribution(list[..r], k, id)
      invariant forall id :: id !in before ==> Score(lists, k, id) == 0.0
    {
      assert list[..r + 1][..r] == list[..r];
      var id := list[r];
      if id !in scores {
        AbsentContributesNothing(list[..r], k, id);
      }
      scores := scores[id := (if id in scores then scores[id] else 0.0) + Share(k, r)];
    }
    assert list[..|list|] == list;
  }

  lemma OneMoreChannel(lists: seq<seq<Id>>, c: nat)
    requires c < |lists|
    ensures forall id :: id in Union(lists[..c + 1]) <==> id in Union(lists[..c]) || id in lists[c]
  {
    forall id | id in Union(lists[..c]) || id in lists[c] ensures id in Union(lists[..c + 1]) {
      if id in lists[c] {
        var r :| 0 <= r < |lists[c]| && lists[c][r] == id;
        assert lists[..c + 1][c][r] == id;
      } else {
        var d, r :| 0 <= d < c && 0 <= r < |lists[..c][d]| && lists[..c][d][r] == id;
        assert lists[..c + 1][d][r] == id;
      }
    }
    forall id | id in Union(lists[..c + 1]) ensures id in Union(lists[..c]) || id in lists[c] {
      var d, r :| 0 <= d < c + 1 && 0 <= r < |lists[..c + 1][d]| && lists[..c + 1][d][r] == id;
      if d < c {
        assert lists[..c][d][r] == id;
      }
    }
  }

  lemma {:induction false} AbsentContributesNothing(list: seq<Id>, k: nat, id: Id)
    requires id !in list
    ensures Contribution(list, k, id) == 0.0
  {
    if list != [] {
      AbsentContributesNothing(list[..|list| - 1], k, id);
    }
  }

  lemma {:induction false} AbsentScoresNothing(lists: seq<seq<Id>>, k: nat, id: Id)
    requires id !in Union(lists)
    ensures Score(lists, k, id) == 0.0
  {
    if lists != [] {
      var c := |lists| - 1;
      OneMoreChannel(lists, c);
      assert lists[..c + 1] == lists;
      AbsentScoresNothing(lists[..c], k, id);
      AbsentContributesNothing(lists[c], k, id);
    }
  }

  // ---------- Order ----------

  /** Higher scores first, equal scores by id. */
  predicate Before(scores: map<Id, real>, a: Id, b: Id)
    requires a in scores && b in scores
  {
    scores[a] > scores[b] || (scores[a] == scores[b] && a < b)
  }

  /** A ranking lists every scored id once, and each before all that follow. */
  ghost predicate Ranking(scores: map<Id, real>, ranked: seq<Id>) {
    && (forall id :: id in ranked <==> id in scores)
    && (forall i, j :: 0 <= i < j < |ranked| ==> Before(scores, ranked[i], ranked[j]))
  }

  method SortByScore(scores: map<Id, real>) returns (ranked: seq<Id>)
    ensures Ranking(scores, ranked)
    ensures NoDuplicates(ranked)
  {
    ranked := [];
    var todo := scores.Keys;
    while todo != {}
      invariant todo <= scores.Keys
      invariant forall id :: id in ranked <==> id in scores && id !in todo
      invariant forall i, j :: 0 <= i < j < |ranked| ==> Before(scores, ranked[i], ranked[j])
      invariant forall i, id :: 0 <= i < |ranked| && id in todo ==> Before(scores, ranked[i], id)
    {
      var first := BestOf(scores, todo);
      todo := todo - {first};
      ranked := ranked + [first];
    }
  }

  method BestOf(scores: map<Id, real>, ids: set<Id>) returns (best: Id)
    requires ids != {} && ids <= scores.Keys
    ensures best in ids && forall id :: id in ids && id != best ==> Before(scores, best, id)
  {
    best :| best in ids;
    var todo := ids - {best};
    while todo != {}
      invariant todo <= ids && best in ids && best !in todo
      invariant forall id :: id in ids && id !in todo && id != best ==> Before(scores, best, id)
    {
      var id :| id in todo;
      todo := todo - {id};
      if Before(scores, id, best) {
        best := id;
      }
    }
  }

  /** There is exactly one ranking: the order is total. */
  lemma RankingIsUnique(scores: map<Id, real>, a: seq<Id>, b: seq<Id>)
    requires Ranking(scores, a) && Ranking(scores, b)
    ensures a == b
  {
    SameLength(scores, a, b);
    var i := 0;
    while i < |a|
      invariant i <= |a| && forall j :: 0 <= j < i ==> a[j] == b[j]
    {
      LaterOrSame(scores, a, b, i);
      LaterOrSame(scores, b, a, i);
      i := i + 1;
    }
  }

  /** Where two rankings agree so far, neither's next id can come later in the other. */
  lemma LaterOrSame(scores: map<Id, real>, a: seq<Id>, b: seq<Id>, i: nat)
    requires Ranking(scores, a) && Ranking(scores, b) && i < |a| == |b|
    requires forall j :: 0 <= j < i ==> a[j] == b[j]
    ensures a[i] in scores && b[i] in scores && (a[i] == b[i] || Before(scores, b[i], a[i]))
  {
    assert a[i] in a && b[i] in b;
    var j :| 0 <= j < |b| && b[j] == a[i];
    Once(scores, a);
  }

  lemma Once(scores: map<Id, real>, a: seq<Id>)
    requires Ranking(scores, a)
    ensures forall i, j :: 0 <= i < j < |a| ==> a[i] != a[j]
  {
  }

  lemma SameLength(scores: map<Id, real>, a: seq<Id>, b: seq<Id>)
    requires Ranking(scores, a) && Ranking(scores, b)
    ensures |a| == |b|
  {
    LengthIsCount(a, scores.Keys);
    LengthIsCount(b, scores.Keys);
  }

  lemma {:induction false} LengthIsCount(s: seq<Id>, ids: set<Id>)
    requires forall id :: id in s <==> id in ids
    requires forall i, j :: 0 <= i < j < |s| ==> s[i] != s[j]
    ensures |s| == |ids|
  {
    if s != [] {
      var last := s[|s| - 1];
      assert forall id :: id in s[..|s| - 1] <==> id in ids - {last};
      LengthIsCount(s[..|s| - 1], ids - {last});
    }
  }

  // ---------- Hits in more channels come first ----------

  /** In how many channels an id is found. */
  function Found(lists: seq<seq<Id>>, id: Id): nat {
    if lists == [] then 0 else Found(lists[..|lists| - 1], id) + (if id in lists[|lists| - 1] then 1 else 0)
  }

  lemma ShareFalls(k: nat, r: nat, s: nat)
    requires r <= s
    ensures 0.0 < Share(k, s) <= Share(k, r)
  {
    Reciprocals((k + r + 1) as real, (k + s + 1) as real);
  }

  lemma Reciprocals(x: real, y: real)
    requires 0.0 < x <= y
    ensures 0.0 < 1.0 / y <= 1.0 / x
  {
    var p, q := 1.0 / x, 1.0 / y;
    assert p * x == 1.0 && q * y == 1.0;
    if p < q {
      assert p * x < q * x <= q * y;
    }
  }

  /** An id in a duplicate-free channel gets the share of its place. */
  lemma {:induction false} ContributionAt(list: seq<Id>, k: nat, r: nat)
    requires NoDuplicates(list) && r < |list|
    ensures Contribution(list, k, list[r]) == Share(k, r)
  {
    hide Share;
    var rest := list[..|list| - 1];
    if r == |list| - 1 {
      AbsentContributesNothing(rest, k, list[r]);
    } else {
      ContributionAt(rest, k, r);
    }
  }

  function Times(n: nat, x: real): real {
    n as real * x
  }

  lemma OneTimeMore(n: nat, x: real)
    ensures Times(n + 1, x) == Times(n, x) + x
  {
  }

  lemma TimesGrows(m: nat, n: nat, x: real)
    requires m <= n && (x >= 0.0 || n == 0)
    ensures Times(m, x) <= Times(n, x) && Times(0, x) == 0.0
  {
  }

  ghost predicate Bounded(lists: seq<seq<Id>>, length: nat) {
    forall c :: 0 <= c < |lists| ==> NoDuplicates(lists[c]) && |lists[c]| <= length
  }

  /** Being found in a channel of at most `length` places is worth between its last and first share. */
  lemma {:induction false} ScoreBounds(lists: seq<seq<Id>>, k: nat, length: nat, id: Id)
    requires Bounded(lists, length) && length > 0
    ensures Times(Found(lists, id), Share(k, length - 1)) <= Score(lists, k, id)
    ensures Score(lists, k, id) <= Times(Found(lists, id), Share(k, 0))
  {
    hide Share, Contribution, Times;
    TimesGrows(0, 0, Share(k, length - 1));
    TimesGrows(0, 0, Share(k, 0));
    if lists != [] {
      var list := lists[|lists| - 1];
      OneTimeMore(Found(lists[..|lists| - 1], id), Share(k, length - 1));
      OneTimeMore(Found(lists[..|lists| - 1], id), Share(k, 0));
      ScoreBounds(lists[..|lists| - 1], k, length, id);
      if id in list {
        var r :| 0 <= r < |list| && list[r] == id;
        ContributionAt(list, k, r);
        ShareFalls(k, r, length - 1);
        ShareFalls(k, 0, r);
      } else {
        AbsentContributesNothing(list, k, id);
      }
    }
  }

  /** One more channel outweighs every place, as long as the channels are short enough. */
  lemma OneMoreChannelOutweighs(k: nat, length: nat, m: nat)
    requires length > 0 && m * length < k + m + 1
    ensures Times(m + 1, Share(k, length - 1)) > Times(m, Share(k, 0))
  {
    var last, first := (k + length) as real, (k + 1) as real;
    assert (m + 1) * (k + 1) > m * (k + length) by {
      assert (m + 1) * (k + 1) == m * k + m + k + 1;
      assert m * (k + length) == m * k + m * length;
    }
    assert (m + 1) as real * first > m as real * last by {
      assert ((m + 1) * (k + 1)) as real == (m + 1) as real * first;
      assert (m * (k + length)) as real == m as real * last;
    }
    Compare((m + 1) as real, m as real, last, first);
  }

  lemma Compare(a: real, b: real, last: real, first: real)
    requires last > 0.0 && first > 0.0 && a * first > b * last
    ensures a * (1.0 / last) > b * (1.0 / first)
  {
    var x, y := a * (1.0 / last), b * (1.0 / first);
    assert x * last == a && y * first == b;
    assert (x - y) * (last * first) == a * first - b * last;
    PositiveFactor(x - y, last * first);
  }

  lemma PositiveFactor(d: real, m: real)
    requires m > 0.0 && d * m > 0.0
    ensures d > 0.0
  {
  }

  /**
   With duplicate-free channels of at most `length` places and m * length < k + m + 1, whatever is
   found in more than m channels is ranked above whatever is found in at most m.
   */
  lemma MoreChannelsRankFirst(lists: seq<seq<Id>>, k: nat, length: nat, m: nat, scores: map<Id, real>, ranked: seq<Id>,
                              i: nat, j: nat)
    requires Bounded(lists, length) && m * length < k + m + 1
    requires scores.Keys == Union(lists) && forall id :: id in scores ==> scores[id] == Score(lists, k, id)
    requires Ranking(scores, ranked) && i < |ranked| && j < |ranked|
    requires Found(lists, ranked[i]) > m >= Found(lists, ranked[j])
    ensures i < j
  {
    hide Share, Score, Union, Found;
    var a, b := ranked[i], ranked[j];
    if length == 0 {
      FoundInEmpty(lists, a);
    }
    assert length > 0;
    OutscoredBy(lists, k, length, m, a, b);
    assert a in ranked && b in ranked;
    assert scores[a] > scores[b];
    assert !Before(scores, b, a);
  }

  lemma OutscoredBy(lists: seq<seq<Id>>, k: nat, length: nat, m: nat, a: Id, b: Id)
    requires Bounded(lists, length) && length > 0 && m * length < k + m + 1
    requires Found(lists, a) > m >= Found(lists, b)
    ensures Score(lists, k, a) > Score(lists, k, b)
  {
    ScoreBounds(lists, k, length, a);
    ScoreBounds(lists, k, length, b);
    OneMoreChannelOutweighs(k, length, m);
    ShareFalls(k, 0, length - 1);
    hide Share, Score, Found, Bounded, Times;
    TimesGrows(m + 1, Found(lists, a), Share(k, length - 1));
    TimesGrows(Found(lists, b), m, Share(k, 0));
  }

  lemma {:induction false} FoundInEmpty(lists: seq<seq<Id>>, id: Id)
    requires Bounded(lists, 0)
    ensures Found(lists, id) == 0
  {
    if lists != [] {
      FoundInEmpty(lists[..|lists| - 1], id);
    }
  }

  /** For the two seed channels: up to k + 1 hits each, everything found by both comes first. */
  lemma BothChannelsFirst(a: seq<Id>, b: seq<Id>, k: nat, scores: map<Id, real>, ranked: seq<Id>, i: nat, j: nat)
    requires NoDuplicates(a) && NoDuplicates(b) && |a| <= k + 1 && |b| <= k + 1
    requires scores.Keys == Union([a, b]) && forall id :: id in scores ==> scores[id] == Score([a, b], k, id)
    requires Ranking(scores, ranked) && i < |ranked| && j < |ranked|
    requires ranked[i] in a && ranked[i] in b && !(ranked[j] in a && ranked[j] in b)
    ensures i < j
  {
    FoundInTwo(a, b, ranked[i]);
    FoundInTwo(a, b, ranked[j]);
    hide Found;
    MoreChannelsRankFirst([a, b], k, k + 1, 1, scores, ranked, i, j);
  }

  lemma FoundInTwo(a: seq<Id>, b: seq<Id>, id: Id)
    ensures Found([a, b], id) == (if id in a then 1 else 0) + (if id in b then 1 else 0)
  {
    assert [a, b][..1] == [a] && [a][..0] == [];
    assert Found([a], id) == if id in a then 1 else 0;
  }

  // ---------- The bound is exact ----------

  /** A channel with `first` in front, `last` at the end and others between. */
  function Channel(first: Id, last: Id, length: nat): seq<Id> {
    seq(length, i => if i == 0 then first else if i == length - 1 then last else 10 + i)
  }

  lemma ChannelIds(first: Id, last: Id, length: nat)
    requires length >= 2 && first < 10 && last < 10 && first != last
    ensures var c := Channel(first, last, length);
      && |c| == length && NoDuplicates(c) && c[0] == first && c[length - 1] == last
      && forall id :: id < 10 && id in c ==> id == first || id == last
  {
  }

  function Copies(list: seq<Id>, n: nat): (r: seq<seq<Id>>)
    ensures |r| == n && forall c :: 0 <= c < n ==> r[c] == list
  {
    if n == 0 then [] else Copies(list, n - 1) + [list]
  }

  /** Hit 0 leads m channels, hit 1 comes last in these and in one more. */
  function LongChannels(m: nat, length: nat): seq<seq<Id>> {
    Copies(Channel(0, 1, length), m) + [Channel(2, 1, length)]
  }

  lemma {:induction false} CopiesScore(list: seq<Id>, n: nat, k: nat, id: Id)
    ensures Score(Copies(list, n), k, id) == Times(n, Contribution(list, k, id))
    ensures Found(Copies(list, n), id) == if id in list then n else 0
  {
    hide Contribution;
    if n > 0 {
      CopiesScore(list, n - 1, k, id);
      assert Copies(list, n)[..n - 1] == Copies(list, n - 1);
    }
  }

  lemma OneMoreList(a: seq<Id>, m: nat, b: seq<Id>, k: nat, id: Id)
    ensures Score(Copies(a, m) + [b], k, id) == Times(m, Contribution(a, k, id)) + Contribution(b, k, id)
    ensures Found(Copies(a, m) + [b], id) == (if id in a then m else 0) + (if id in b then 1 else 0)
  {
    hide Contribution, Times;
    CopiesScore(a, m, k, id);
    assert (Copies(a, m) + [b])[..m] == Copies(a, m);
  }

  lemma LongScores(m: nat, length: nat, k: nat)
    requires length >= 2
    ensures Score(LongChannels(m, length), k, 0) == Times(m, Share(k, 0))
    ensures Score(LongChannels(m, length), k, 1) == Times(m + 1, Share(k, length - 1))
    ensures Found(LongChannels(m, length), 0) == m && Found(LongChannels(m, length), 1) == m + 1
  {
    hide Share, Contribution, Times, Channel, Score, Found;
    var a, b := Channel(0, 1, length), Channel(2, 1, length);
    ChannelIds(0, 1, length);
    ChannelIds(2, 1, length);
    hide Copies;
    assert LongChannels(m, length) == Copies(a, m) + [b];
    OneMoreList(a, m, b, k, 0);
    OneMoreList(a, m, b, k, 1);
    ContributionAt(a, k, 0);
    ContributionAt(a, k, length - 1);
    ContributionAt(b, k, length - 1);
    AbsentContributesNothing(b, k, 0);
    OneTimeMore(m, Share(k, length - 1));
  }

  /** One more channel does not outweigh the places once the channels are long enough. */
  lemma OneMoreChannelMayNotOutweigh(k: nat, length: nat, m: nat)
    requires m * length >= k + m + 1 && length > 0
    ensures Times(m, Share(k, 0)) >= Times(m + 1, Share(k, length - 1))
  {
    var last, first := (k + length) as real, (k + 1) as real;
    assert (m + 1) * (k + 1) <= m * (k + length) by {
      assert (m + 1) * (k + 1) == m * k + m + k + 1;
      assert m * (k + length) == m * k + m * length;
    }
    assert (m + 1) as real * first <= m as real * last by {
      assert ((m + 1) * (k + 1)) as real == (m + 1) as real * first;
      assert (m * (k + length)) as real == m as real * last;
    }
    CompareWeakly((m + 1) as real, m as real, last, first);
  }

  lemma CompareWeakly(a: real, b: real, last: real, first: real)
    requires last > 0.0 && first > 0.0 && a * first <= b * last
    ensures a * (1.0 / last) <= b * (1.0 / first)
  {
    var x, y := a * (1.0 / last), b * (1.0 / first);
    assert x * last == a && y * first == b;
    assert (x - y) * (last * first) == a * first - b * last;
    NonPositiveFactor(x - y, last * first);
  }

  lemma NonPositiveFactor(d: real, m: real)
    requires m > 0.0 && d * m <= 0.0
    ensures d <= 0.0
  {
  }

  lemma LongEnough(k: nat, m: nat, length: nat)
    requires m * length >= k + m + 1
    ensures length >= 2
  {
    assert length == 0 ==> m * length == 0;
    assert length == 1 ==> m * length == m;
  }

  /**
   The bound is exact: whenever m * length >= k + m + 1 there are duplicate-free channels of that
   length whose one ranking has a hit of m channels before a hit of m + 1.
   */
  lemma LongerChannelsMayNot(k: nat, m: nat, length: nat, scores: map<Id, real>, ranked: seq<Id>)
    requires m > 0 && m * length >= k + m + 1
    requires scores.Keys == Union(LongChannels(m, length))
    requires forall id :: id in scores ==> scores[id] == Score(LongChannels(m, length), k, id)
    requires Ranking(scores, ranked)
    ensures Bounded(LongChannels(m, length), length)
    ensures Found(LongChannels(m, length), 0) == m && Found(LongChannels(m, length), 1) == m + 1
    ensures exists i, j :: 0 <= i < j < |ranked| && ranked[i] == 0 && ranked[j] == 1
  {
    hide Score, Share, Times, Found, Channel;
    var lists := LongChannels(m, length);
    LongEnough(k, m, length);
    ChannelIds(0, 1, length);
    ChannelIds(2, 1, length);
    LongScores(m, length, k);
    OneMoreChannelMayNotOutweigh(k, length, m);
    assert lists[0] == Channel(0, 1, length);
    assert lists[0][0] in Union(lists) && lists[0][length - 1] in Union(lists);
    assert Before(scores, 0, 1);
    var i :| 0 <= i < |ranked| && ranked[i] == 0;
    var j :| 0 <= j < |ranked| && ranked[j] == 1;
    assert !Before(scores, ranked[j], ranked[i]);
  }
}
