// The LINQ pipelines of the request dashboard, as functions over the stored
// records: the newest-first page, the 24-hour window, the per-type counts,
// the top-10 clients and paths, and the checked average.

module DashboardQueries {
  import opened Basics
  import opened RequestLogModel
  import opened Ordering

  // ---------------------------------------------------------------------------
  // Recent requests: OrderByDescending(Timestamp).Skip(..).Take(..)
  // ---------------------------------------------------------------------------

  function Timestamps(logs: seq<RequestLog>): (r: seq<int>)
    ensures |r| == |logs| && forall i :: 0 <= i < |logs| ==> r[i] == logs[i].timestamp
  {
    seq(|logs|, i requires 0 <= i < |logs| => logs[i].timestamp as int)
  }

  /**
   * `OrderByDescending(r => r.Timestamp)`: every record once, newest first;
   * records with equal timestamps keep their store order (`StableOrder`).
   */
  function NewestFirst(logs: seq<RequestLog>): (r: seq<RequestLog>)
    ensures |r| == |logs|
    ensures multiset(r) == multiset(logs)
    ensures forall a, b :: 0 <= a < b < |r| ==> r[a].timestamp >= r[b].timestamp
    ensures r == Permute(logs, StableOrder(Timestamps(logs)))
  {
    var p := StableOrder(Timestamps(logs));
    PermuteKeepsMultiset(logs, p);
    var r := Permute(logs, p);
    assert forall a, b :: 0 <= a < b < |r| ==> Precedes(Timestamps(logs), p[a], p[b]);
    r
  }

  /**
   * `Skip(skip).Take(take)` of LINQ to Objects: a negative skip skips
   * nothing, a take below one takes nothing.
   */
  function SkipTake<T>(s: seq<T>, skip: int, take: int): (r: seq<T>)
    ensures |r| == Max(0, Min(take, |s| - Max(skip, 0)))
    ensures forall i :: 0 <= i < |r| ==> r[i] == s[Max(skip, 0) + i]
  {
    var from := Min(Max(skip, 0), |s|);
    var to := Min(from + Max(take, 0), |s|);
    s[from..to]
  }

  /**
   * Any reordering of the records that puts them newest first and keeps
   * store order among equal timestamps is `NewestFirst`.
   */
  lemma NewestFirstIsTheStableSort(logs: seq<RequestLog>, q: seq<nat>)
    requires IsPermutation(q, |logs|) && OrderedBy(Timestamps(logs), q)
    ensures NewestFirst(logs) == Permute(logs, q)
  {
    StableOrderIsUnique(Timestamps(logs), q);
  }

  /** `(page - 1) * pageSize` in unchecked 32-bit arithmetic. */
  function PageOffset(page: Int32, pageSize: Int32): (r: Int32)
    ensures 1 <= page && 0 <= pageSize && (page - 1) * pageSize < TwoTo31 ==> r == (page - 1) * pageSize
    ensures r == Wrap32((page - 1) * pageSize)
  {
    WrapProduct(page - 1, pageSize);
    Wrap32(Wrap32(page - 1) * pageSize)
  }

  /** Wrapping a factor first does not change the wrapped product. */
  lemma WrapProduct(a: int, b: int)
    ensures Wrap32(Wrap32(a) * b) == Wrap32(a * b)
  {
    var w := Wrap32(a);
    var q := (w - a) / TwoTo32;
    assert w == a + q * TwoTo32;
    assert w * b == a * b + (q * b) * TwoTo32;
    WrapCongruent(w * b, a * b, q * b);
  }

  /** Numbers that differ by a multiple of 2^32 wrap to the same `int`. */
  lemma WrapCongruent(x: int, y: int, k: int)
    requires x == y + k * TwoTo32
    ensures Wrap32(x) == Wrap32(y)
  {
    assert x % TwoTo32 == y % TwoTo32;
  }

  /** `RecentRequests`: one page of the records, newest first. */
  function RecentRequests(logs: seq<RequestLog>, page: Int32, pageSize: Int32): (r: seq<RequestLog>)
    ensures |r| <= Max(pageSize, 0)
    ensures forall a, b :: 0 <= a < b < |r| ==> r[a].timestamp >= r[b].timestamp
    ensures multiset(r) <= multiset(logs)
    ensures r == SkipTake(NewestFirst(logs), Wrap32((page - 1) * pageSize), pageSize)
    ensures 1 <= page && 0 <= pageSize && (page - 1) * pageSize < TwoTo31 ==>
      r == SkipTake(NewestFirst(logs), (page - 1) * pageSize, pageSize)
  {
    var sorted := NewestFirst(logs);
    var off := PageOffset(page, pageSize);
    var r := SkipTake(sorted, off, pageSize);
    assert r == sorted[Min(Max(off, 0), |sorted|)..Min(Min(Max(off, 0), |sorted|) + Max(pageSize, 0), |sorted|)];
    SliceMultiset(sorted, Min(Max(off, 0), |sorted|), Min(Min(Max(off, 0), |sorted|) + Max(pageSize, 0), |sorted|));
    r
  }

  /** A slice holds no entry more often than the whole. */
  lemma SliceMultiset<T>(s: seq<T>, i: nat, j: nat)
    requires i <= j <= |s|
    ensures multiset(s[i..j]) <= multiset(s)
  {
    assert s == s[..i] + s[i..j] + s[j..];
  }

  /** The first page is the whole store, newest first, when the page is large enough. */
  lemma FirstPageHoldsEverything(logs: seq<RequestLog>, pageSize: Int32)
    requires |logs| <= pageSize
    ensures multiset(RecentRequests(logs, 1, pageSize)) == multiset(logs)
  {
    var sorted := NewestFirst(logs);
    assert PageOffset(1, pageSize) == 0;
    assert SkipTake(sorted, 0, pageSize) == sorted;
  }

  /**
   * Consecutive pages continue one another: page `page + 1` starts where
   * page `page` ends, while the offsets fit in 32 bits.
   */
  lemma PagesAreConsecutive(logs: seq<RequestLog>, page: Int32, pageSize: Int32)
    requires 1 <= page && 0 <= pageSize && page < TwoTo31 - 1
    requires page * pageSize < TwoTo31
    ensures var sorted := NewestFirst(logs);
      RecentRequests(logs, page, pageSize) + RecentRequests(logs, page + 1, pageSize) ==
        SkipTake(sorted, (page - 1) * pageSize, 2 * pageSize)
  {
    var sorted := NewestFirst(logs);
    var off := (page - 1) * pageSize;
    OffsetStep(page, pageSize);
    assert PageOffset(page, pageSize) == off;
    assert PageOffset(page + 1, pageSize) == off + pageSize;
    assert RecentRequests(logs, page, pageSize) == SkipTake(sorted, off, pageSize);
    assert RecentRequests(logs, page + 1, pageSize) == SkipTake(sorted, off + pageSize, pageSize);
    SkipTakeConsecutive(sorted, off, pageSize);
  }

  lemma OffsetStep(page: int, size: int)
    requires 1 <= page && 0 <= size
    ensures 0 <= (page - 1) * size && (page - 1) * size + size == page * size
  {
  }

  /** Two consecutive runs of `take` entries make one run of twice as many. */
  lemma SkipTakeConsecutive<T>(s: seq<T>, skip: nat, take: nat)
    ensures SkipTake(s, skip, take) + SkipTake(s, skip + take, take) == SkipTake(s, skip, 2 * take)
  {
    var a := SkipTake(s, skip, take);
    var b := SkipTake(s, skip + take, take);
    var whole := SkipTake(s, skip, 2 * take);
    assert |a + b| == |whole|;
    forall i | 0 <= i < |whole|
      ensures (a + b)[i] == whole[i]
    {
      if i >= |a| {
        assert (a + b)[i] == b[i - |a|];
      }
    }
  }

  // ---------------------------------------------------------------------------
  // The 24-hour window: Where(r => r.Timestamp >= yesterday)
  // ---------------------------------------------------------------------------

  /**
   * `DateTime.UtcNow.AddDays(-1)`: one day before `now`, or None where that
   * falls before the first representable instant (`AddDays` throws).
   */
  function WindowStart(now: Ticks): (r: Option<Ticks>)
    ensures r.None? <==> now < TicksPerDay
    ensures r.Some? ==> r.value == now - TicksPerDay
  {
    if now < TicksPerDay then None else Some(now - TicksPerDay)
  }

  /** The records stamped at or after `since`, in store order; later stamps are kept too. */
  function Window(logs: seq<RequestLog>, since: int): (r: seq<RequestLog>)
    ensures forall x :: multiset(r)[x] == (if x.timestamp >= since then multiset(logs)[x] else 0)
    ensures |r| <= |logs|
  {
    if logs == [] then []
    else
      assert logs == [logs[0]] + logs[1..];
      (if logs[0].timestamp >= since then [logs[0]] else []) + Window(logs[1..], since)
  }

  // ---------------------------------------------------------------------------
  // GroupBy(key).ToDictionary(g => g.Key, g => g.Count())
  // ---------------------------------------------------------------------------

  /** One entry per key that occurs, holding how often it occurs. */
  function CountBy<K(!new)>(keys: seq<K>): map<K, nat> {
    map k | k in keys :: multiset(keys)[k]
  }

  function Kinds(logs: seq<RequestLog>): (r: seq<UserAgentType>)
    ensures |r| == |logs| && forall i :: 0 <= i < |logs| ==> r[i] == logs[i].userAgentType
  {
    seq(|logs|, i requires 0 <= i < |logs| => logs[i].userAgentType)
  }

  /** `UserAgentStats`: the number of records of each type that occurs. */
  function UserAgentStats(window: seq<RequestLog>): (m: map<UserAgentType, nat>)
    ensures m == map[] <==> window == []
  {
    var kinds := Kinds(window);
    var m := CountBy(kinds);
    assert window == [] ==> m.Keys == {};
    assert window != [] ==> kinds[0] in kinds && kinds[0] in m;
    m
  }

  /**
   * A type has an entry exactly when some record of the window has that
   * type, and the entry is the number of such records.
   */
  lemma UserAgentStatsCount(window: seq<RequestLog>, t: UserAgentType)
    ensures t in UserAgentStats(window) <==> exists i :: 0 <= i < |window| && window[i].userAgentType == t
    ensures t in UserAgentStats(window) ==> UserAgentStats(window)[t] == multiset(Kinds(window))[t]
  {
    var kinds := Kinds(window);
    if t in kinds {
      var i :| 0 <= i < |kinds| && kinds[i] == t;
      assert window[i].userAgentType == t;
    }
  }

  /** The sum of the entries of `m` over the types `ts` (0 where a type is missing). */
  function TotalOver(m: map<UserAgentType, nat>, ts: seq<UserAgentType>): nat {
    if ts == [] then 0 else (if ts[0] in m then m[ts[0]] else 0) + TotalOver(m, ts[1..])
  }

  /** The sum of the multiplicities in `ms` of the types `ts`. */
  function Multiplicities(ms: multiset<UserAgentType>, ts: seq<UserAgentType>): nat {
    if ts == [] then 0 else ms[ts[0]] + Multiplicities(ms, ts[1..])
  }

  lemma {:induction false} MultiplicitiesAdd(ms: multiset<UserAgentType>, x: UserAgentType, ts: seq<UserAgentType>)
    ensures Multiplicities(ms + multiset{x}, ts) == Multiplicities(ms, ts) + multiset(ts)[x]
  {
    if ts != [] {
      MultiplicitiesAdd(ms, x, ts[1..]);
      assert ts == [ts[0]] + ts[1..];
    }
  }

  lemma {:induction false} NothingCounted(ts: seq<UserAgentType>)
    ensures Multiplicities(multiset{}, ts) == 0
  {
    if ts != [] {
      NothingCounted(ts[1..]);
    }
  }

  lemma {:induction false} MultiplicitiesOfSeq(kinds: seq<UserAgentType>)
    ensures Multiplicities(multiset(kinds), AllTypes) == |kinds|
  {
    if kinds == [] {
      NothingCounted(AllTypes);
    } else {
      var n := |kinds| - 1;
      MultiplicitiesOfSeq(kinds[..n]);
      assert kinds == kinds[..n] + [kinds[n]];
      MultiplicitiesAdd(multiset(kinds[..n]), kinds[n], AllTypes);
      OnceInAllTypes(kinds[n]);
      assert multiset(kinds) == multiset(kinds[..n]) + multiset{kinds[n]};
    }
  }

  /** Each type occurs exactly once in `AllTypes`. */
  lemma OnceInAllTypes(t: UserAgentType)
    ensures multiset(AllTypes)[t] == 1
  {
    assert multiset(AllTypes) ==
      multiset{Unknown, Human, SearchBot, SocialBot, ApiTool, Crawler, Monitor, SecurityScanner};
    match t
    case Unknown =>
    case Human =>
    case SearchBot =>
    case SocialBot =>
    case ApiTool =>
    case Crawler =>
    case Monitor =>
    case SecurityScanner =>
  }

  lemma {:induction false} TotalIsMultiplicities(m: map<UserAgentType, nat>, kinds: seq<UserAgentType>, ts: seq<UserAgentType>)
    requires m == CountBy(kinds)
    ensures TotalOver(m, ts) == Multiplicities(multiset(kinds), ts)
  {
    if ts != [] {
      TotalIsMultiplicities(m, kinds, ts[1..]);
    }
  }

  /** The per-type counts add up to the number of records in the window. */
  lemma StatsAddUpToTotal(window: seq<RequestLog>)
    ensures TotalOver(UserAgentStats(window), AllTypes) == |window|
  {
    TotalIsMultiplicities(UserAgentStats(window), Kinds(window), AllTypes);
    MultiplicitiesOfSeq(Kinds(window));
  }

  // ---------------------------------------------------------------------------
  // GroupBy(key).OrderByDescending(g => g.Count()).Take(n).ToDictionary(..)
  // ---------------------------------------------------------------------------

  /** The index of the first occurrence of `k` in `s`. */
  function FirstIndex<K(==,!new)>(s: seq<K>, k: K): (i: nat)
    requires k in s
    ensures i < |s| && s[i] == k
    ensures forall j :: 0 <= j < i ==> s[j] != k
  {
    if s[0] == k then 0 else 1 + FirstIndex(s[1..], k)
  }

  /** Only the first occurrence of a key is its first index. */
  lemma FirstIndexIsUnique<K(!new)>(s: seq<K>, k: K, i: nat)
    requires i < |s| && s[i] == k && forall j :: 0 <= j < i ==> s[j] != k
    ensures FirstIndex(s, k) == i
  {
  }

  /**
   * `GroupBy` order: each key once, in the order of first appearance.
   */
  function Distinct<K(==,!new)>(s: seq<K>): (d: seq<K>)
    ensures forall k :: k in d <==> k in s
    ensures forall i, j :: 0 <= i < j < |d| ==> d[i] != d[j]
    ensures forall i, j :: 0 <= i < j < |d| ==> FirstIndex(s, d[i]) < FirstIndex(s, d[j])
  {
    if s == [] then []
    else
      var n := |s| - 1;
      var d := Distinct(s[..n]);
      assert forall k :: k in s <==> k in s[..n] || k == s[n] by {
        assert s == s[..n] + [s[n]];
      }
      forall k | k in s[..n] ensures FirstIndex(s, k) == FirstIndex(s[..n], k) {
        FirstIndexIsUnique(s, k, FirstIndex(s[..n], k));
      }
      if s[n] in d then d
      else
        FirstIndexIsUnique(s, s[n], n);
        d + [s[n]]
  }

  /** How often each distinct key occurs, in `GroupBy` order. */
  function GroupCounts<K(==,!new)>(s: seq<K>): (c: seq<int>)
    ensures |c| == |Distinct(s)|
    ensures forall i :: 0 <= i < |c| ==> c[i] == multiset(s)[Distinct(s)[i]]
  {
    var d := Distinct(s);
    seq(|d|, i requires 0 <= i < |d| => multiset(s)[d[i]] as int)
  }

  /** The keys of the first `n` groups after the stable sort by count, descending. */
  function TopKeys<K(==,!new)>(s: seq<K>, n: nat): (top: seq<K>)
    ensures |top| <= n
    ensures forall a, b :: 0 <= a < b < |top| ==> top[a] != top[b]
  {
    var d := Distinct(s);
    var p := StableOrder(GroupCounts(s));
    var top := seq(Min(n, |p|), j requires 0 <= j < Min(n, |p|) => d[p[j]]);
    assert forall a, b :: 0 <= a < b < |top| ==> top[a] != top[b] by {
      forall a, b | 0 <= a < b < |top| ensures top[a] != top[b] {
        assert p[a] != p[b];
      }
    }
    top
  }

  /** A list without repeats has as many distinct entries as it is long. */
  lemma {:induction false} DistinctCount<K(!new)>(t: seq<K>)
    requires forall a, b :: 0 <= a < b < |t| ==> t[a] != t[b]
    ensures |set k | k in t| == |t|
  {
    if t != [] {
      var n := |t| - 1;
      DistinctCount(t[..n]);
      assert (set k | k in t) == (set k | k in t[..n]) + {t[n]} by {
        assert t == t[..n] + [t[n]];
      }
      assert t[n] !in t[..n];
    }
  }

  /** The top `n` keys of `s` by how often they occur, as a map to that count. */
  function TopByCount<K(==,!new)>(s: seq<K>, n: nat): (m: map<K, nat>)
    ensures |m| <= n
  {
    var top := TopKeys(s, n);
    DistinctCount(top);
    var m := map k | k in top :: multiset(s)[k];
    assert m.Keys == set k | k in top;
    m
  }

  /** Every key of the top is a key of the input, mapped to how often it occurs. */
  lemma TopByCountCounts<K(!new)>(s: seq<K>, n: nat, k: K)
    requires k in TopByCount(s, n)
    ensures k in s && TopByCount(s, n)[k] == multiset(s)[k]
  {
    TopKeysInInput(s, n);
  }

  /**
   * `TopByCount` keeps as many keys as asked for, or all of them, and a key
   * of the map is never outranked by a key left out: a higher count ranks
   * first, and of equal counts the key that appears first.
   */
  lemma TopByCountRanks<K(!new)>(s: seq<K>, n: nat)
    ensures |TopByCount(s, n)| == Min(n, |Distinct(s)|)
    ensures forall k, j :: k in s && k !in TopByCount(s, n) && j in TopByCount(s, n) ==>
      multiset(s)[j] > multiset(s)[k] || (multiset(s)[j] == multiset(s)[k] && FirstIndex(s, j) < FirstIndex(s, k))
    ensures |Distinct(s)| <= n ==> forall k :: k in s ==> k in TopByCount(s, n)
  {
    var top := TopKeys(s, n);
    var m := TopByCount(s, n);
    DistinctCount(top);
    assert m.Keys == set k | k in top;
    TopKeysRankFirst(s, n);
    TopKeysInInput(s, n);
  }

  /** Every top key is a key of the input, and with few enough keys all are on top. */
  lemma TopKeysInInput<K(!new)>(s: seq<K>, n: nat)
    ensures |TopKeys(s, n)| == Min(n, |Distinct(s)|)
    ensures forall k :: k in TopKeys(s, n) ==> k in s
    ensures |Distinct(s)| <= n ==> forall k :: k in s ==> k in TopKeys(s, n)
  {
    var d := Distinct(s);
    var p := StableOrder(GroupCounts(s));
    var top := TopKeys(s, n);
    forall k | k in top ensures k in s {
      var j :| 0 <= j < |top| && top[j] == k;
      assert k == d[p[j]];
    }
    if |d| <= n {
      forall k | k in s ensures k in top {
        var a :| 0 <= a < |d| && d[a] == k;
        assert a in p;
        var q :| 0 <= q < |p| && p[q] == a;
        assert top[q] == k;
      }
    }
  }

  /** A key left out of the top is outranked by every key in it. */
  lemma TopKeysRankFirst<K(!new)>(s: seq<K>, n: nat)
    ensures forall k, j :: k in s && k !in TopKeys(s, n) && j in TopKeys(s, n) ==>
      multiset(s)[j] > multiset(s)[k] || (multiset(s)[j] == multiset(s)[k] && FirstIndex(s, j) < FirstIndex(s, k))
  {
    var d := Distinct(s);
    var c := GroupCounts(s);
    var p := StableOrder(c);
    var top := TopKeys(s, n);
    forall k, j | k in s && k !in top && j in top
      ensures multiset(s)[j] > multiset(s)[k] || (multiset(s)[j] == multiset(s)[k] && FirstIndex(s, j) < FirstIndex(s, k))
    {
      var a :| 0 <= a < |d| && d[a] == k;
      assert a in p;
      var q :| 0 <= q < |p| && p[q] == a;
      var r :| 0 <= r < |top| && top[r] == j;
      assert j == d[p[r]];
      assert r < q by {
        assert forall x :: 0 <= x < |top| ==> top[x] == d[p[x]];
        assert q >= |top|;
      }
      assert Precedes(c, p[r], p[q]);
    }
  }

  // ---------------------------------------------------------------------------
  // TopClients and TopPaths
  // ---------------------------------------------------------------------------

  /** How many entries the two rankings keep. */
  const TopCount: nat := 10

  /** `Where(r => !string.IsNullOrEmpty(r.DetectedClient)).Select(r => r.DetectedClient!)`, in order. */
  function ClientNames(window: seq<RequestLog>): (r: seq<string>)
    ensures forall c :: c in r ==> c != []
  {
    if window == [] then []
    else
      var head := window[0].detectedClient;
      (if head.Some? && head.value != [] then [head.value] else []) + ClientNames(window[1..])
  }

  lemma DetectedClientsSplit(window: seq<RequestLog>)
    requires window != []
    ensures DetectedClients(window) == [window[0].detectedClient] + DetectedClients(window[1..])
  {
  }

  /** A non-empty name occurs among the client names once per record that detected it. */
  lemma {:induction false} ClientNameCount(window: seq<RequestLog>, c: string)
    requires c != []
    ensures multiset(ClientNames(window))[c] == multiset(DetectedClients(window))[Some(c)]
  {
    if window != [] {
      ClientNameCount(window[1..], c);
      var head := window[0].detectedClient;
      var named := if head.Some? && head.value != [] then [head.value] else [];
      assert ClientNames(window) == named + ClientNames(window[1..]);
      DetectedClientsSplit(window);
      assert multiset(named)[c] == multiset([head])[Some(c)];
    }
  }

  function DetectedClients(window: seq<RequestLog>): (r: seq<Option<string>>)
    ensures |r| == |window| && forall i :: 0 <= i < |window| ==> r[i] == window[i].detectedClient
  {
    seq(|window|, i requires 0 <= i < |window| => window[i].detectedClient)
  }

  function Paths(window: seq<RequestLog>): (r: seq<string>)
    ensures |r| == |window| && forall i :: 0 <= i < |window| ==> r[i] == window[i].path
  {
    seq(|window|, i requires 0 <= i < |window| => window[i].path)
  }

  /** `TopClients`: the ten most frequent non-empty client names. */
  function TopClients(window: seq<RequestLog>): (m: map<string, nat>)
    ensures |m| <= TopCount
  {
    TopByCount(ClientNames(window), TopCount)
  }

  /**
   * A client on the list has a non-empty name, and its count is the number
   * of records in the window that detected it.
   */
  lemma TopClientCounts(window: seq<RequestLog>, c: string)
    requires c in TopClients(window)
    ensures c != [] && TopClients(window)[c] == multiset(DetectedClients(window))[Some(c)]
  {
    TopByCountCounts(ClientNames(window), TopCount, c);
    ClientNameCount(window, c);
  }

  /** `TopPaths`: the ten most requested paths. */
  function TopPaths(window: seq<RequestLog>): (m: map<string, nat>)
    ensures |m| <= TopCount
  {
    TopByCount(Paths(window), TopCount)
  }

  /** A path on the list was requested in the window, as often as its count says. */
  lemma TopPathCounts(window: seq<RequestLog>, path: string)
    requires path in TopPaths(window)
    ensures TopPaths(window)[path] == multiset(Paths(window))[path] > 0
  {
    TopByCountCounts(Paths(window), TopCount, path);
  }

  // ---------------------------------------------------------------------------
  // TotalRequests and AverageProcessingTime
  // ---------------------------------------------------------------------------

  function Sum(xs: seq<int>): int {
    if xs == [] then 0 else xs[0] + Sum(xs[1..])
  }

  predicate InInt64(x: int) {
    -TwoTo63 <= x < TwoTo63
  }

  /**
   * The checked running sum of `Enumerable.Average`: `acc` plus the values,
   * or None as soon as a partial sum leaves the 64-bit range.
   */
  function CheckedSumFrom(acc: int, xs: seq<int>): (r: Option<int>)
    ensures r.Some? <==> forall k :: 0 <= k <= |xs| ==> InInt64(acc + Sum(xs[..k]))
    ensures r.Some? ==> r.value == acc + Sum(xs)
    decreases |xs|
  {
    assert xs[..0] == [];
    if xs == [] then
      assert forall k :: 0 <= k <= |xs| ==> xs[..k] == [];
      if InInt64(acc) then Some(acc) else None
    else
      assert forall k :: 1 <= k <= |xs| ==> xs[..k] == [xs[0]] + xs[1..][..k - 1];
      if !InInt64(acc) then None
      else
        var r := CheckedSumFrom(acc + xs[0], xs[1..]);
        assert r.Some? <==> forall k :: 1 <= k <= |xs| ==> InInt64(acc + Sum(xs[..k])) by {
          assert forall k :: 0 <= k <= |xs[1..]| ==> Sum(xs[..k + 1]) == xs[0] + Sum(xs[1..][..k]);
        }
        r
  }

  function ProcessingTimes(window: seq<RequestLog>): (r: seq<int>)
    ensures |r| == |window| && forall i :: 0 <= i < |window| ==> r[i] == window[i].processingTimeMs
  {
    seq(|window|, i requires 0 <= i < |window| => window[i].processingTimeMs as int)
  }

  /**
   * `AverageProcessingTime`: 0 for an empty window, else the sum of the
   * processing times over their number; None where the checked sum
   * overflows and `Average` throws.
   */
  function AverageProcessingTime(window: seq<RequestLog>): (r: Option<real>)
    ensures window == [] ==> r == Some(0.0)
    ensures window != [] ==>
      (r.Some? <==> CheckedSumFrom(0, ProcessingTimes(window)).Some?)
    ensures window != [] && r.Some? ==>
      r.value * (|window| as real) == Sum(ProcessingTimes(window)) as real
  {
    if window == [] then Some(0.0)
    else
      match CheckedSumFrom(0, ProcessingTimes(window))
      case None => None
      case Some(total) => Some(total as real / |window| as real)
  }

  /** Sums of values in [0, bound] stay within bound times their number. */
  lemma {:induction false} SumBounded(xs: seq<int>, bound: int)
    requires forall i :: 0 <= i < |xs| ==> 0 <= xs[i] <= bound
    ensures 0 <= Sum(xs) <= |xs| * bound
  {
    if xs != [] {
      SumBounded(xs[1..], bound);
    }
  }

  lemma MulMonotone(a: nat, b: nat, c: nat)
    requires a <= b
    ensures a * c <= b * c
  {
  }

  /**
   * The sum cannot overflow while every processing time lies in [0, bound]
   * and the window holds fewer than 2^63 / (bound + 1) records.
   */
  lemma AverageDefinedForBoundedTimes(window: seq<RequestLog>, bound: nat)
    requires forall i :: 0 <= i < |window| ==> 0 <= window[i].processingTimeMs <= bound
    requires |window| * bound < TwoTo63
    ensures AverageProcessingTime(window).Some?
  {
    var xs := ProcessingTimes(window);
    forall k | 0 <= k <= |xs|
      ensures InInt64(Sum(xs[..k]))
    {
      SumBounded(xs[..k], bound);
      MulMonotone(k, |xs|, bound);
    }
  }
}
