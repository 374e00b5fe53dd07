/** What one domain's iteration of `CSpider::select_url` does, said without its loops: the two scans are
    one greedy pass, the counters tell the kinds of what was pushed, and the backfill takes leftovers
    from the end (spider.cpp:516-605 and 614-700). */
module Iterations {
  import opened UrlPools
  import opened Arithmetic
  import opened Scans

  // ---------- one pass instead of two scans ----------

  /** The values of `type` that count as a category and as an item in the quotas of a class. */
  function CategoryType(cls: Class): int {
    match cls
    case Priority => 3
    case Ordinary => 1
  }

  function ItemType(cls: Class): int {
    match cls
    case Priority => 2
    case Ordinary => 0
  }

  /** While both quotas are open every URL is taken, afterwards only one of the kind whose quota is open. */
  predicate Admits(cls: Class, q: Quota, items: int, cates: int, kind: int) {
    || (items < q.item && cates < q.cate)
    || (kind == CategoryType(cls) && cates < q.cate)
    || (kind == ItemType(cls) && items < q.item)
  }

  /** A single pass over the first `n` URLs; a URL that is taken counts as a category if it is one, and as
      an item otherwise. */
  function Greedy(v: seq<UrlInfo>, cls: Class, q: Quota, n: nat): Split
    requires n <= |v|
  {
    if n == 0 then Split([], [], 0, 0) else Deal(Greedy(v, cls, q, n - 1), cls, q, v[n - 1])
  }

  function Deal(s: Split, cls: Class, q: Quota, u: UrlInfo): Split {
    if !Admits(cls, q, s.items, s.cates, u.kind) then Split(s.picks, s.back + [u], s.items, s.cates)
    else if u.kind == CategoryType(cls) then Split(s.picks + [u], s.back, s.items, s.cates + 1)
    else Split(s.picks + [u], s.back, s.items + 1, s.cates)
  }

  /** Up to the cut the pass takes everything. */
  lemma {:induction false} GreedyBeforeCut(v: seq<UrlInfo>, cls: Class, q: Quota, n: nat)
    requires n <= |v| && Cut(v, cls, q, n) == n
    ensures var c := CountKind(v, CategoryType(cls), 0, n); Greedy(v, cls, q, n) == Split(v[..n], [], n - c, c)
    decreases n
  {
    if n > 0 {
      var h := n - 1;
      GreedyBeforeCut(v, cls, q, h);
      PrefixDeal(Greedy(v, cls, q, h), cls, q, v[h], v[..h], CountKind(v, CategoryType(cls), 0, h));
      assert v[..n] == v[..h] + [v[h]];
    }
  }

  lemma PrefixDeal(s: Split, cls: Class, q: Quota, u: UrlInfo, taken: seq<UrlInfo>, c: nat)
    requires c <= |taken| && s == Split(taken, [], |taken| - c, c) && c < q.cate && |taken| - c < q.item
    ensures var c' := c + if u.kind == CategoryType(cls) then 1 else 0;
            Deal(s, cls, q, u) == Split(taken + [u], [], |taken| + 1 - c', c')
  {
  }

  /** What the pass has done when `more` and `left` were taken and left behind a prefix. */
  predicate Behind(s: Split, taken: seq<UrlInfo>, more: seq<UrlInfo>, left: seq<UrlInfo>, items: int, cates: int) {
    s.picks == taken + more && s.back == left && s.items == items && s.cates == cates
  }

  /** Behind the cut, when the item quota is met, the pass takes categories. */
  lemma {:induction false} GreedyCategories(v: seq<UrlInfo>, cls: Class, q: Quota, i: nat, c: nat, n: nat)
    requires i <= n <= |v| && c < q.cate
    requires Greedy(v, cls, q, i) == Split(v[..i], [], q.item, c)
    ensures var more := FirstOf(v, CategoryType(cls), q.cate - c, i, n);
            Behind(Greedy(v, cls, q, n), v[..i], more, WithoutFirst(v, CategoryType(cls), q.cate - c, i, n),
                   q.item, c + |more|)
    decreases n
  {
    if i < n {
      var h, m := n - 1, q.cate - c;
      GreedyCategories(v, cls, q, i, c, h);
      TakeNext(v, CategoryType(cls), m, i, h, n);
      CategoriesDeal(Greedy(v, cls, q, h), cls, q, v[h], v[..i], FirstOf(v, CategoryType(cls), m, i, h),
                     WithoutFirst(v, CategoryType(cls), m, i, h), c);
    }
  }

  lemma CategoriesDeal(s: Split, cls: Class, q: Quota, u: UrlInfo, taken: seq<UrlInfo>, more: seq<UrlInfo>,
                       left: seq<UrlInfo>, c: nat)
    requires c + |more| <= q.cate && Behind(s, taken, more, left, q.item, c + |more|)
    ensures var takes := u.kind == CategoryType(cls) && |more| < q.cate - c;
            Behind(Deal(s, cls, q, u), taken, more + (if takes then [u] else []), left + (if takes then [] else [u]),
                   q.item, c + |more| + (if takes then 1 else 0))
  {
  }

  /** When the category quota is met it takes items. */
  lemma {:induction false} GreedyItems(v: seq<UrlInfo>, cls: Class, q: Quota, i: nat, k: nat, n: nat)
    requires i <= n <= |v| && k <= q.item
    requires Greedy(v, cls, q, i) == Split(v[..i], [], k, q.cate)
    ensures var more := FirstOf(v, ItemType(cls), q.item - k, i, n);
            Behind(Greedy(v, cls, q, n), v[..i], more, WithoutFirst(v, ItemType(cls), q.item - k, i, n),
                   k + |more|, q.cate)
    decreases n
  {
    if i < n {
      var h, m := n - 1, q.item - k;
      GreedyItems(v, cls, q, i, k, h);
      TakeNext(v, ItemType(cls), m, i, h, n);
      ItemsDeal(Greedy(v, cls, q, h), cls, q, v[h], v[..i], FirstOf(v, ItemType(cls), m, i, h),
                WithoutFirst(v, ItemType(cls), m, i, h), k);
    }
  }

  lemma ItemsDeal(s: Split, cls: Class, q: Quota, u: UrlInfo, taken: seq<UrlInfo>, more: seq<UrlInfo>,
                  left: seq<UrlInfo>, k: nat)
    requires k + |more| <= q.item && Behind(s, taken, more, left, k + |more|, q.cate)
    ensures var takes := u.kind == ItemType(cls) && |more| < q.item - k;
            Behind(Deal(s, cls, q, u), taken, more + (if takes then [u] else []), left + (if takes then [] else [u]),
                   k + |more| + (if takes then 1 else 0), q.cate)
  {
  }

  /** The two scans take and leave the same URLs as the greedy pass, in the same order, and set the same
      counters, for vectors of any kinds. */
  lemma ScansAreGreedy(v: seq<UrlInfo>, cls: Class, q: Quota)
    ensures SplitVector(v, cls, q) == Greedy(v, cls, q, |v|)
  {
    var i := Cut(v, cls, q, |v|);
    var c := CountKind(v, CategoryType(cls), 0, i);
    CutMeaning(v, cls, q, |v|);
    CutIsReached(v, cls, q, |v|);
    GreedyBeforeCut(v, cls, q, i);
    RestIsGreedy(v, cls, q, i, c);
  }

  /** Behind the cut the second scan does what the pass does. */
  lemma RestIsGreedy(v: seq<UrlInfo>, cls: Class, q: Quota, i: nat, c: nat)
    requires c <= i <= |v| && c <= q.cate && i - c <= q.item && (i < |v| ==> c == q.cate || i - c == q.item)
    requires Greedy(v, cls, q, i) == Split(v[..i], [], i - c, c)
    ensures AfterPrefix(v[..i], RestSplit(v, cls, q, i, c)) == Greedy(v, cls, q, |v|)
  {
    if i == |v| {
      assert v[..i] + [] == v[..i];
    } else if c < q.cate {
      GreedyCategories(v, cls, q, i, c, |v|);
    } else {
      GreedyItems(v, cls, q, i, i - c, |v|);
    }
  }

  // ---------- what the counters count ----------

  lemma {:induction false} CountPrefix(a: seq<UrlInfo>, b: seq<UrlInfo>, k: int, lo: nat, hi: nat)
    requires lo <= hi <= |a|
    ensures CountKind(a + b, k, lo, hi) == CountKind(a, k, lo, hi)
    decreases hi
  {
    if lo < hi {
      CountPrefix(a, b, k, lo, hi - 1);
    }
  }

  lemma {:induction false} CountShift(a: seq<UrlInfo>, b: seq<UrlInfo>, k: int, from: nat, lo: nat, hi: nat)
    requires lo <= hi <= |b| && from == |a|
    ensures CountKind(a + b, k, from + lo, from + hi) == CountKind(b, k, lo, hi)
    decreases hi
  {
    if lo < hi {
      CountShift(a, b, k, from, lo, hi - 1);
    }
  }

  lemma {:induction false} CountReversed(s: seq<UrlInfo>, k: int, lo: nat)
    requires lo <= |s|
    ensures CountKind(ReversedTail(s, lo), k, 0, |s| - lo) == CountKind(s, k, lo, |s|)
    decreases |s| - lo
  {
    if lo < |s| {
      CountReversed(s, k, lo + 1);
      CountPrefix(ReversedTail(s, lo + 1), [s[lo]], k, 0, |s| - (lo + 1));
      CountKindSplit(s, k, lo, lo + 1, |s|);
    }
  }

  /** The counters of the greedy pass count the categories and the other URLs that it takes. */
  lemma {:induction false} GreedyCounts(v: seq<UrlInfo>, cls: Class, q: Quota, n: nat)
    requires n <= |v|
    ensures var s := Greedy(v, cls, q, n);
            && s.cates == CountKind(s.picks, CategoryType(cls), 0, |s.picks|) <= q.cate
            && s.items == |s.picks| - s.cates <= q.item
    decreases n
  {
    if n > 0 {
      GreedyCounts(v, cls, q, n - 1);
      DealCounts(Greedy(v, cls, q, n - 1), cls, q, v[n - 1]);
    }
  }

  lemma DealCounts(s: Split, cls: Class, q: Quota, u: UrlInfo)
    requires s.cates == CountKind(s.picks, CategoryType(cls), 0, |s.picks|) <= q.cate
    requires s.items == |s.picks| - s.cates <= q.item
    ensures var r := Deal(s, cls, q, u);
            && r.cates == CountKind(r.picks, CategoryType(cls), 0, |r.picks|) <= q.cate
            && r.items == |r.picks| - r.cates <= q.item
  {
    CountPrefix(s.picks, [u], CategoryType(cls), 0, |s.picks|);
  }

  /** The two counters of an iteration that pushed `g`, the first `k` of it by its scans. Of these the
      category counter has the categories of the class and the item counter all others; of the backfilled
      ones the item counter has those of type 0 and the category counter all others. */
  predicate Counts(cls: Class, g: seq<UrlInfo>, k: nat, items: int, cates: int)
    requires k <= |g|
  {
    && cates == CountKind(g, CategoryType(cls), 0, k) + (|g| - k - CountKind(g, 0, k, |g|))
    && items == k - CountKind(g, CategoryType(cls), 0, k) + CountKind(g, 0, k, |g|)
  }

  /** What was pushed into the selection buffer in the meantime. */
  function Since(before: seq<UrlInfo>, after: seq<UrlInfo>): seq<UrlInfo> {
    if |before| <= |after| then after[|before|..] else []
  }

  /** How many leftovers the backfill moves: none when the vector was used up or the total is at most 20
      below the cap, otherwise up to the cap, but five leftovers stay. */
  function Moves(cls: Class, q: Quota, whole: bool, picks: nat, leftovers: nat): nat {
    var cap := match cls case Priority => 2 * q.cate case Ordinary => q.cate + q.item;
    if whole || picks >= cap - 20 || leftovers <= 5 then 0 else Min(cap - picks, leftovers - 5)
  }

  /** The first scan takes the whole vector: before the last URL neither quota was met. */
  predicate UsedUp(v: seq<UrlInfo>, cls: Class, q: Quota) {
    v == []
    || (CountKind(v, CategoryType(cls), 0, |v| - 1) < q.cate
        && |v| - 1 - CountKind(v, CategoryType(cls), 0, |v| - 1) < q.item)
  }

  lemma WholeIffUsedUp(v: seq<UrlInfo>, cls: Class, q: Quota)
    ensures Cut(v, cls, q, |v|) == |v| <==> UsedUp(v, cls, q)
  {
    if v != [] {
      var n := |v| - 1;
      CutMeaning(v, cls, q, n);
      CountKindSplit(v, cls.CateKind(), 0, Cut(v, cls, q, n), n);
    }
  }

  /** The last `n` of a list, the very last one first. */
  function FromEnd(s: seq<UrlInfo>, n: nat): (r: seq<UrlInfo>)
    requires n <= |s|
  {
    seq(n, i requires 0 <= i < n => s[|s| - 1 - i])
  }

  lemma {:induction false} ReversedIsFromEnd(s: seq<UrlInfo>, lo: nat, n: nat)
    requires lo + n == |s|
    ensures ReversedTail(s, lo) == FromEnd(s, n)
    decreases n
  {
    if n > 0 {
      ReversedIsFromEnd(s, lo + 1, n - 1);
    }
  }

  /** The whole iteration: the greedy picks in order, then leftovers from the end, the last one first. */
  lemma IterationMeaning(v: seq<UrlInfo>, cls: Class, q: Quota, buffer: seq<UrlInfo>, back: seq<UrlInfo>)
    ensures var t, s := DomainTally(v, cls, q, buffer, back), Greedy(v, cls, q, |v|);
            var left := back + s.back;
            var n := Moves(cls, q, UsedUp(v, cls, q), |s.picks|, |left|);
            && t.buffer == buffer + s.picks + FromEnd(left, n) && t.back == left[..|left| - n]
            && t.items == s.items + CountKind(left, 0, |left| - n, |left|)
            && t.cates == s.cates + n - CountKind(left, 0, |left| - n, |left|)
  {
    ScansAreGreedy(v, cls, q);
    WholeIffUsedUp(v, cls, q);
    GreedyCounts(v, cls, q, |v|);
    var s := Greedy(v, cls, q, |v|);
    ToppedUpMeaning(Tally(buffer + s.picks, back + s.back, s.items, s.cates), cls, q, UsedUp(v, cls, q), |s.picks|);
  }

  lemma ToppedUpMeaning(t: Tally, cls: Class, q: Quota, whole: bool, picks: nat)
    requires t.items + t.cates == picks
    ensures var n, m := Moves(cls, q, whole, picks, |t.back|), |t.back|;
            ToppedUp(t, whole, cls.Cap(q))
            == Tally(t.buffer + FromEnd(t.back, n), t.back[..m - n],
                     t.items + CountKind(t.back, 0, m - n, m), t.cates + n - CountKind(t.back, 0, m - n, m))
  {
    var n, m := Moves(cls, q, whole, picks, |t.back|), |t.back|;
    ReversedIsFromEnd(t.back, m - n, n);
    assert t.back[..m] == t.back;
    assert t.buffer + [] == t.buffer;
  }

  /** The counters tell what the iteration pushed, for vectors and leftovers of any kinds. */
  lemma CountersMeaning(v: seq<UrlInfo>, cls: Class, q: Quota, buffer: seq<UrlInfo>, back: seq<UrlInfo>)
    ensures var t := DomainTally(v, cls, q, buffer, back);
            var g, k := Since(buffer, t.buffer), |SplitVector(v, cls, q).picks|;
            buffer + g == t.buffer && k <= |g| && Counts(cls, g, k, t.items, t.cates)
  {
    var s := Greedy(v, cls, q, |v|);
    var left := back + s.back;
    var n := Moves(cls, q, UsedUp(v, cls, q), |s.picks|, |left|);
    IterationMeaning(v, cls, q, buffer, back);
    ScansAreGreedy(v, cls, q);
    GreedyCounts(v, cls, q, |v|);
    TallyCounts(cls, buffer, s, left, |left| - n, DomainTally(v, cls, q, buffer, back));
  }

  lemma TallyCounts(cls: Class, buffer: seq<UrlInfo>, s: Split, left: seq<UrlInfo>, keep: nat, t: Tally)
    requires keep <= |left| && t.buffer == buffer + s.picks + FromEnd(left, |left| - keep)
    requires s.cates == CountKind(s.picks, CategoryType(cls), 0, |s.picks|) && s.items == |s.picks| - s.cates
    requires t.items == s.items + CountKind(left, 0, keep, |left|)
    requires t.cates == s.cates + |left| - keep - CountKind(left, 0, keep, |left|)
    ensures var g := Since(buffer, t.buffer);
            buffer + g == t.buffer && |s.picks| <= |g| && Counts(cls, g, |s.picks|, t.items, t.cates)
  {
    var moved := ReversedTail(left, keep);
    ReversedIsFromEnd(left, keep, |left| - keep);
    PushedIs(buffer, s.picks, moved, t.buffer);
    CountsOf(cls, s.picks, moved, left, keep, s.items, s.cates);
  }

  lemma PushedIs(before: seq<UrlInfo>, a: seq<UrlInfo>, b: seq<UrlInfo>, after: seq<UrlInfo>)
    requires after == before + a + b
    ensures Since(before, after) == a + b && before + (a + b) == after
  {
  }

  lemma CountsOf(cls: Class, picks: seq<UrlInfo>, moved: seq<UrlInfo>, left: seq<UrlInfo>, keep: nat,
                 items: int, cates: int)
    requires keep <= |left| && moved == ReversedTail(left, keep)
    requires cates == CountKind(picks, CategoryType(cls), 0, |picks|) && items == |picks| - cates
    ensures var zeros := CountKind(left, 0, keep, |left|);
            Counts(cls, picks + moved, |picks|, items + zeros, cates + |left| - keep - zeros)
  {
    var m, n, zeros := |picks|, |moved|, CountKind(left, 0, keep, |left|);
    CountReversed(left, 0, keep);
    CountJoined(picks, moved, CategoryType(cls), m, n);
    assert |picks + moved| == m + n;
    assert CountKind(picks + moved, 0, m, m + n) == zeros;
  }

  lemma CountJoined(a: seq<UrlInfo>, b: seq<UrlInfo>, k: int, m: nat, n: nat)
    requires m == |a| && n == |b|
    ensures CountKind(a + b, k, 0, m) == CountKind(a, k, 0, m)
    ensures CountKind(a + b, 0, m, m + n) == CountKind(b, 0, 0, n)
  {
    CountPrefix(a, b, k, 0, m);
    CountShift(a, b, 0, m, 0, n);
  }

  /** On a vector of its own class and without a backfill the counters are the numbers of categories and
      of items that the iteration pushed: of each type as many as the vector has, up to its quota. */
  lemma OwnKindsCounted(v: seq<UrlInfo>, cls: Class, q: Quota, buffer: seq<UrlInfo>, back: seq<UrlInfo>)
    requires OwnKinds(v, cls)
    ensures var t, s := DomainTally(v, cls, q, buffer, back), Greedy(v, cls, q, |v|);
            && s.cates == Min(q.cate, CountKind(v, CategoryType(cls), 0, |v|))
            && s.items == Min(q.item, CountKind(v, ItemType(cls), 0, |v|))
            && var g := Since(buffer, t.buffer);
               |g| == |s.picks| ==>
                 && t.cates == s.cates == CountKind(g, CategoryType(cls), 0, |g|)
                 && t.items == s.items == CountKind(g, ItemType(cls), 0, |g|)
  {
    var s := Greedy(v, cls, q, |v|);
    ScansAreGreedy(v, cls, q);
    GreedyCounts(v, cls, q, |v|);
    ScansTakeQuotaOfEachKind(v, cls, q, CategoryType(cls));
    ScansTakeQuotaOfEachKind(v, cls, q, ItemType(cls));
    CountersMeaning(v, cls, q, buffer, back);
    PicksAreOwn(v, cls, q);
    OwnCounts(s.picks, cls, |s.picks|);
    IterationMeaning(v, cls, q, buffer, back);
    if |Since(buffer, DomainTally(v, cls, q, buffer, back).buffer)| == |s.picks| {
      assert Since(buffer, DomainTally(v, cls, q, buffer, back).buffer) == s.picks;
    }
  }

  lemma PicksAreOwn(v: seq<UrlInfo>, cls: Class, q: Quota)
    requires OwnKinds(v, cls)
    ensures OwnKinds(Greedy(v, cls, q, |v|).picks, cls)
  {
    ScansAreGreedy(v, cls, q);
    SplitConserves(v, cls, q);
    forall u | u in Greedy(v, cls, q, |v|).picks
      ensures u in v
    {
      assert u in multiset(SplitVector(v, cls, q).picks);
      assert u in multiset(v);
    }
  }
}
