/** The selection of one domain in `CSpider::select_url`: a first scan that takes URLs in order
    until one of two quotas is met, a second scan that takes only the other kind, and a backfill
    from the list of leftovers. Priority and ordinary domains run the same code with different
    constants (spider.cpp:516-605 and 614-700). */
module Scans {
  import opened UrlPools
  import opened Arithmetic

  datatype Class = Priority | Ordinary {
    /** The value of `type` that the scans count as a category. */
    function CateKind(): int {
      if Priority? then 3 else 1
    }

    /** The value of `type` that the second scan takes when the category quota is met. */
    function ItemKind(): int {
      if Priority? then 2 else 0
    }

    /** The total up to which a domain is backfilled; the priority cap uses the category quota twice. */
    function Cap(q: Quota): nat {
      if Priority? then q.cate + q.cate else q.cate + q.item
    }
  }

  datatype Quota = Quota(cate: nat, item: nat)

  /** What one domain's vector is split into, and what the counters are set to. */
  datatype Split = Split(picks: seq<UrlInfo>, back: seq<UrlInfo>, items: int, cates: int)

  const BACKFILL_SLACK := 20
  const BACK_RESERVE := 5

  /** The number of URLs of kind `k` at positions `lo` to `hi`. */
  function CountKind(v: seq<UrlInfo>, k: int, lo: nat, hi: nat): (n: nat)
    requires lo <= hi <= |v|
    ensures n <= hi - lo
  {
    if lo == hi then 0 else CountKind(v, k, lo, hi - 1) + if v[hi - 1].kind == k then 1 else 0
  }

  /** The number of URLs that the first scan takes from the first `n`. */
  function Cut(v: seq<UrlInfo>, cls: Class, q: Quota, n: nat): (i: nat)
    requires n <= |v|
    ensures i <= n
  {
    if n == 0 then 0
    else
      var i := Cut(v, cls, q, n - 1);
      var c := CountKind(v, cls.CateKind(), 0, n - 1);
      if i == n - 1 && c < q.cate && i - c < q.item then n else i
  }

  /** The first `m` URLs of kind `k` among positions `lo` to `hi`, in order. */
  function FirstOf(v: seq<UrlInfo>, k: int, m: nat, lo: nat, hi: nat): (r: seq<UrlInfo>)
    requires lo <= hi <= |v|
    ensures |r| == Min(m, CountKind(v, k, lo, hi))
  {
    if lo == hi then []
    else
      var r := FirstOf(v, k, m, lo, hi - 1);
      if v[hi - 1].kind == k && |r| < m then r + [v[hi - 1]] else r
  }

  /** The URLs at positions `lo` to `hi` that `FirstOf` does not take. */
  function WithoutFirst(v: seq<UrlInfo>, k: int, m: nat, lo: nat, hi: nat): seq<UrlInfo>
    requires lo <= hi <= |v|
  {
    if lo == hi then []
    else
      var r := WithoutFirst(v, k, m, lo, hi - 1);
      if v[hi - 1].kind == k && |FirstOf(v, k, m, lo, hi - 1)| < m then r else r + [v[hi - 1]]
  }

  /** Both scans, for vectors that may also hold kinds of the other class. */
  function SplitVector(v: seq<UrlInfo>, cls: Class, q: Quota): Split {
    var i := Cut(v, cls, q, |v|);
    AfterPrefix(v[..i], RestSplit(v, cls, q, i, CountKind(v, cls.CateKind(), 0, i)))
  }

  function AfterPrefix(taken: seq<UrlInfo>, rest: Split): Split {
    rest.(picks := taken + rest.picks)
  }

  /** What becomes of the URLs from `i` on when the first scan takes the first `i`, `c` of them
      categories; the counters are those of the whole vector. */
  function RestSplit(v: seq<UrlInfo>, cls: Class, q: Quota, i: nat, c: nat): Split
    requires c <= i <= |v|
  {
    if i == |v| then Split([], [], i - c, c)
    else if c < q.cate then
      var more := FirstOf(v, cls.CateKind(), q.cate - c, i, |v|);
      Split(more, WithoutFirst(v, cls.CateKind(), q.cate - c, i, |v|), q.item, c + |more|)
    else
      var room := Room(q, i - c);
      var more := FirstOf(v, cls.ItemKind(), room, i, |v|);
      Split(more, WithoutFirst(v, cls.ItemKind(), room, i, |v|), i - c + |more|, q.cate)
  }

  /** The part of the item quota that is still free. */
  function Room(q: Quota, items: nat): nat {
    if items < q.item then q.item - items else 0
  }

  /** The selection buffer, the list of leftovers and the two counters after a domain. */
  datatype Tally = Tally(buffer: seq<UrlInfo>, back: seq<UrlInfo>, items: int, cates: int)

  /** The URLs from position `lo` on, last one first. */
  function ReversedTail(s: seq<UrlInfo>, lo: nat): (r: seq<UrlInfo>)
    requires lo <= |s|
    ensures |r| == |s| - lo
    decreases |s| - lo
  {
    if lo == |s| then [] else ReversedTail(s, lo + 1) + [s[lo]]
  }

  /** How many leftovers the backfill takes: it stops at the wanted number and never goes below five. */
  function BackfillCount(n: nat, wanted: int): (r: nat)
    ensures r <= n
  {
    if wanted <= 0 || n <= BACK_RESERVE then 0 else Min(wanted, n - BACK_RESERVE)
  }

  function Backfilled(t: Tally, wanted: int): Tally {
    var n := |t.back|;
    var keep := n - BackfillCount(n, wanted);
    var zeros := CountKind(t.back, 0, keep, n);
    Tally(t.buffer + ReversedTail(t.back, keep), t.back[..keep], t.items + zeros, t.cates + (n - keep) - zeros)
  }

  /** One domain from start to end. A domain whose vector is used up is not backfilled. */
  function DomainTally(v: seq<UrlInfo>, cls: Class, q: Quota, buffer: seq<UrlInfo>, back: seq<UrlInfo>): Tally {
    AfterScan(SplitVector(v, cls, q), Cut(v, cls, q, |v|) == |v|, cls.Cap(q), buffer, back)
  }

  /** What follows the scans: backfill unless the vector was used up or the total is near the cap. */
  function AfterScan(s: Split, whole: bool, cap: nat, buffer: seq<UrlInfo>, back: seq<UrlInfo>): Tally {
    ToppedUp(Tally(buffer + s.picks, back + s.back, s.items, s.cates), whole, cap)
  }

  function ToppedUp(t: Tally, whole: bool, cap: nat): Tally {
    if whole || t.items + t.cates >= cap - BACKFILL_SLACK then t else Backfilled(t, cap - (t.items + t.cates))
  }

  // ---------- facts about counting ----------

  lemma {:induction false} CountKindSplit(v: seq<UrlInfo>, k: int, lo: nat, mid: nat, hi: nat)
    requires lo <= mid <= hi <= |v|
    ensures CountKind(v, k, lo, mid) + CountKind(v, k, mid, hi) == CountKind(v, k, lo, hi)
  {
    if mid < hi {
      CountKindSplit(v, k, lo, mid, hi - 1);
    }
  }

  /** What the first scan stops at: no quota is exceeded, and unless all is taken one is met. */
  lemma {:induction false} CutMeaning(v: seq<UrlInfo>, cls: Class, q: Quota, n: nat)
    requires n <= |v|
    ensures var i := Cut(v, cls, q, n); var c := CountKind(v, cls.CateKind(), 0, i);
            && c <= q.cate && i - c <= q.item
            && (i < n ==> c == q.cate || i - c == q.item)
  {
    if n > 0 {
      CutMeaning(v, cls, q, n - 1);
    }
  }

  /** Once a quota is met, later URLs do not move the cut. */
  lemma {:induction false} CutStable(v: seq<UrlInfo>, cls: Class, q: Quota, i: nat, n: nat)
    requires i <= n <= |v|
    requires Cut(v, cls, q, i) == i
    requires var c := CountKind(v, cls.CateKind(), 0, i); c >= q.cate || i - c >= q.item
    ensures Cut(v, cls, q, n) == i
  {
    if i < n {
      CutStable(v, cls, q, i, n - 1);
    }
  }

  /** When enough URLs of a kind have been taken, everything that follows is left. */
  lemma {:induction false} FirstOfFull(v: seq<UrlInfo>, k: int, m: nat, lo: nat, mid: nat, hi: nat)
    requires lo <= mid <= hi <= |v|
    requires |FirstOf(v, k, m, lo, mid)| == m
    ensures FirstOf(v, k, m, lo, hi) == FirstOf(v, k, m, lo, mid)
    ensures WithoutFirst(v, k, m, lo, hi) == WithoutFirst(v, k, m, lo, mid) + v[mid..hi]
  {
    if mid < hi {
      FirstOfFull(v, k, m, lo, mid, hi - 1);
      assert v[mid..hi] == v[mid..hi - 1] + [v[hi - 1]];
    }
  }

  // ---------- the simple specification ----------

  /** The quota that applies to a kind of the domain's own class. */
  function QuotaOf(cls: Class, q: Quota, k: int): nat {
    if k == cls.CateKind() then q.cate else q.item
  }

  /** Whether the rank of the URL at `i` among the earlier URLs of its kind is below its kind's quota. */
  predicate WithinQuota(v: seq<UrlInfo>, cls: Class, q: Quota, i: nat)
    requires i < |v|
  {
    CountKind(v, v[i].kind, 0, i) < QuotaOf(cls, q, v[i].kind)
  }

  /** The URLs among the first `n` that are within their quota, in order. */
  function Chosen(v: seq<UrlInfo>, cls: Class, q: Quota, n: nat): seq<UrlInfo>
    requires n <= |v|
  {
    if n == 0 then []
    else if WithinQuota(v, cls, q, n - 1) then Chosen(v, cls, q, n - 1) + [v[n - 1]]
    else Chosen(v, cls, q, n - 1)
  }

  /** The other URLs among the first `n`, in order. */
  function Leftover(v: seq<UrlInfo>, cls: Class, q: Quota, n: nat): seq<UrlInfo>
    requires n <= |v|
  {
    if n == 0 then []
    else if WithinQuota(v, cls, q, n - 1) then Leftover(v, cls, q, n - 1)
    else Leftover(v, cls, q, n - 1) + [v[n - 1]]
  }

  predicate OwnKinds(v: seq<UrlInfo>, cls: Class) {
    forall u <- v :: u.kind == cls.CateKind() || u.kind == cls.ItemKind()
  }

  lemma {:induction false} OwnCounts(v: seq<UrlInfo>, cls: Class, n: nat)
    requires n <= |v| && OwnKinds(v, cls)
    ensures CountKind(v, cls.CateKind(), 0, n) + CountKind(v, cls.ItemKind(), 0, n) == n
  {
    if n > 0 {
      OwnCounts(v, cls, n - 1);
      assert v[n - 1] in v;
    }
  }

  /** Up to the cut everything is within its quota. */
  lemma {:induction false} ChosenBeforeCut(v: seq<UrlInfo>, cls: Class, q: Quota, n: nat)
    requires n <= |v| && OwnKinds(v, cls) && Cut(v, cls, q, n) == n
    ensures Chosen(v, cls, q, n) == v[..n] && Leftover(v, cls, q, n) == []
  {
    if n > 0 {
      var m := n - 1;
      ChosenBeforeCut(v, cls, q, m);
      WithinBeforeCut(v, cls, q, m, n);
      assert v[..n] == v[..m] + [v[m]];
    }
  }

  lemma WithinBeforeCut(v: seq<UrlInfo>, cls: Class, q: Quota, m: nat, n: nat)
    requires n == m + 1 <= |v| && OwnKinds(v, cls) && Cut(v, cls, q, n) == n
    ensures WithinQuota(v, cls, q, m)
  {
    OwnCounts(v, cls, m);
    assert v[m] in v;
  }

  /** At `i` the kind other than `k` has met its quota and kind `k` has room for `m` more. */
  predicate OneQuotaMet(v: seq<UrlInfo>, cls: Class, q: Quota, k: int, m: nat, i: nat)
    requires i <= |v|
  {
    var other := if k == cls.CateKind() then cls.ItemKind() else cls.CateKind();
    && (k == cls.CateKind() || k == cls.ItemKind())
    && CountKind(v, other, 0, i) >= QuotaOf(cls, q, other)
    && CountKind(v, k, 0, i) + m == QuotaOf(cls, q, k)
  }

  /** Past the cut, with the other kind's quota met, the second scan takes a URL just when it is within
      its quota. */
  lemma SecondScanByRank(v: seq<UrlInfo>, cls: Class, q: Quota, k: int, m: nat, i: nat, n: nat)
    requires i <= n < |v| && OwnKinds(v, cls) && OneQuotaMet(v, cls, q, k, m, i)
    ensures WithinQuota(v, cls, q, n) <==> v[n].kind == k && |FirstOf(v, k, m, i, n)| < m
  {
    assert v[n] in v;
    CountKindSplit(v, v[n].kind, 0, i, n);
  }

  /** Past the cut the second scan of kind `k` takes exactly what is within its quota, provided the
      other kind has met its quota at the cut. */
  lemma {:induction false} ChosenAfterCut(v: seq<UrlInfo>, cls: Class, q: Quota, k: int, m: nat, i: nat, n: nat,
                                          taken: seq<UrlInfo>)
    requires i <= n <= |v| && OwnKinds(v, cls) && OneQuotaMet(v, cls, q, k, m, i)
    requires Chosen(v, cls, q, i) == taken && Leftover(v, cls, q, i) == []
    ensures Chosen(v, cls, q, n) == taken + FirstOf(v, k, m, i, n)
    ensures Leftover(v, cls, q, n) == WithoutFirst(v, k, m, i, n)
    decreases n
  {
    if i < n {
      var j := n - 1;
      ChosenAfterCut(v, cls, q, k, m, i, j, taken);
      SecondScanByRank(v, cls, q, k, m, i, j);
      ChosenOneMore(v, cls, q, k, m, i, j, n, taken);
    }
  }

  lemma ChosenOneMore(v: seq<UrlInfo>, cls: Class, q: Quota, k: int, m: nat, i: nat, j: nat,
                      n: nat, taken: seq<UrlInfo>)
    requires i <= j < |v| && n == j + 1
    requires WithinQuota(v, cls, q, j) <==> v[j].kind == k && |FirstOf(v, k, m, i, j)| < m
    requires Chosen(v, cls, q, j) == taken + FirstOf(v, k, m, i, j)
    requires Leftover(v, cls, q, j) == WithoutFirst(v, k, m, i, j)
    ensures Chosen(v, cls, q, n) == taken + FirstOf(v, k, m, i, n)
    ensures Leftover(v, cls, q, n) == WithoutFirst(v, k, m, i, n)
  {
  }

  /** On a vector of its own class the two scans take exactly the URLs whose rank within their kind
      is below that kind's quota, in their original order, and leave exactly the others. */
  lemma ScansChooseByRank(v: seq<UrlInfo>, cls: Class, q: Quota)
    requires OwnKinds(v, cls)
    ensures SplitVector(v, cls, q).picks == Chosen(v, cls, q, |v|)
    ensures SplitVector(v, cls, q).back == Leftover(v, cls, q, |v|)
  {
    var i := Cut(v, cls, q, |v|);
    CutMeaning(v, cls, q, |v|);
    CutIsReached(v, cls, q, |v|);
    RestByRank(v, cls, q, i, CountKind(v, cls.CateKind(), 0, i));
  }

  lemma RestByRank(v: seq<UrlInfo>, cls: Class, q: Quota, i: nat, c: nat)
    requires OwnKinds(v, cls) && i <= |v| && Cut(v, cls, q, i) == i
    requires c == CountKind(v, cls.CateKind(), 0, i)
    requires c <= q.cate && i - c <= q.item && (i < |v| ==> c == q.cate || i - c == q.item)
    ensures v[..i] + RestSplit(v, cls, q, i, c).picks == Chosen(v, cls, q, |v|)
    ensures RestSplit(v, cls, q, i, c).back == Leftover(v, cls, q, |v|)
  {
    ChosenBeforeCut(v, cls, q, i);
    OwnCounts(v, cls, i);
    if i < |v| && c < q.cate {
      ChosenAfterCut(v, cls, q, cls.CateKind(), q.cate - c, i, |v|, v[..i]);
      RestParts(v, cls, q, i, c);
    } else if i < |v| {
      ChosenAfterCut(v, cls, q, cls.ItemKind(), Room(q, i - c), i, |v|, v[..i]);
      RestParts(v, cls, q, i, c);
    }
  }

  lemma RestParts(v: seq<UrlInfo>, cls: Class, q: Quota, i: nat, c: nat)
    requires c <= i < |v|
    ensures var k := if c < q.cate then cls.CateKind() else cls.ItemKind();
            var m := if c < q.cate then q.cate - c else Room(q, i - c);
            && RestSplit(v, cls, q, i, c).picks == FirstOf(v, k, m, i, |v|)
            && RestSplit(v, cls, q, i, c).back == WithoutFirst(v, k, m, i, |v|)
  {
  }

  lemma {:induction false} CutIsReached(v: seq<UrlInfo>, cls: Class, q: Quota, n: nat)
    requires n <= |v|
    ensures Cut(v, cls, q, Cut(v, cls, q, n)) == Cut(v, cls, q, n)
  {
    if n > 0 {
      CutIsReached(v, cls, q, n - 1);
    }
  }

  /** The URLs of kind `k` among the first `n`, in order. */
  function OfKind(v: seq<UrlInfo>, k: int, n: nat): (r: seq<UrlInfo>)
    requires n <= |v|
    ensures |r| == CountKind(v, k, 0, n)
  {
    if n == 0 then []
    else if v[n - 1].kind == k then OfKind(v, k, n - 1) + [v[n - 1]]
    else OfKind(v, k, n - 1)
  }

  lemma {:induction false} OfKindExtend(v: seq<UrlInfo>, u: UrlInfo, k: int, n: nat)
    requires n <= |v|
    ensures OfKind(v + [u], k, n) == OfKind(v, k, n)
  {
    if n > 0 {
      OfKindExtend(v, u, k, n - 1);
    }
  }

  /** Of each kind exactly the first `quota` URLs are chosen and the rest of that kind is left. */
  lemma {:induction false} ChosenByKind(v: seq<UrlInfo>, cls: Class, q: Quota, k: int, n: nat)
    requires n <= |v|
    ensures |OfKind(Chosen(v, cls, q, n), k, |Chosen(v, cls, q, n)|)| == Min(QuotaOf(cls, q, k), CountKind(v, k, 0, n))
    ensures OfKind(Chosen(v, cls, q, n), k, |Chosen(v, cls, q, n)|)
            + OfKind(Leftover(v, cls, q, n), k, |Leftover(v, cls, q, n)|)
         == OfKind(v, k, n)
  {
    if n > 0 {
      ChosenByKind(v, cls, q, k, n - 1);
      ChosenByKindStep(v[n - 1], k, WithinQuota(v, cls, q, n - 1), Chosen(v, cls, q, n - 1),
                       Leftover(v, cls, q, n - 1), OfKind(v, k, n - 1));
    }
  }

  lemma ChosenByKindStep(u: UrlInfo, k: int, within: bool, c: seq<UrlInfo>, l: seq<UrlInfo>, o: seq<UrlInfo>)
    requires OfKind(c, k, |c|) + OfKind(l, k, |l|) == o
    requires u.kind == k && within ==> OfKind(l, k, |l|) == []
    ensures var c', l' := if within then c + [u] else c, if within then l else l + [u];
            OfKind(c', k, |c'|) + OfKind(l', k, |l'|) == if u.kind == k then o + [u] else o
  {
    OfKindExtend(c, u, k, |c|);
    OfKindExtend(l, u, k, |l|);
  }

  /** The refinement stated kind by kind: the picks of each own kind are the first min(quota, count)
      URLs of that kind, and what is left of the kind follows them, both in their original order. */
  lemma ScansTakeQuotaOfEachKind(v: seq<UrlInfo>, cls: Class, q: Quota, k: int)
    requires OwnKinds(v, cls)
    requires k == cls.CateKind() || k == cls.ItemKind()
    ensures var s := SplitVector(v, cls, q);
            && OfKind(s.picks, k, |s.picks|) + OfKind(s.back, k, |s.back|) == OfKind(v, k, |v|)
            && CountKind(s.picks, k, 0, |s.picks|)
               == Min(if k == cls.CateKind() then q.cate else q.item, CountKind(v, k, 0, |v|))
  {
    ScansChooseByRank(v, cls, q);
    ChosenByKind(v, cls, q, k, |v|);
  }

  // ---------- conservation and counters, for vectors of any kinds ----------

  /** What the second scan takes and what it leaves are the URLs it saw. */
  ghost predicate Dealt(v: seq<UrlInfo>, k: int, m: nat, lo: nat, hi: nat)
    requires lo <= hi <= |v|
  {
    multiset(FirstOf(v, k, m, lo, hi)) + multiset(WithoutFirst(v, k, m, lo, hi)) == multiset(v[lo..hi])
  }

  lemma {:induction false} FirstOfConserves(v: seq<UrlInfo>, k: int, m: nat, lo: nat, hi: nat)
    requires lo <= hi <= |v|
    ensures Dealt(v, k, m, lo, hi)
  {
    if lo == hi {
      DealtNone(v, k, m, lo);
    } else {
      var h := hi - 1;
      FirstOfConserves(v, k, m, lo, h);
      DealtStep(v, k, m, lo, h, hi);
    }
  }

  lemma DealtNone(v: seq<UrlInfo>, k: int, m: nat, lo: nat)
    requires lo <= |v|
    ensures Dealt(v, k, m, lo, lo)
  {
    assert v[lo..lo] == [];
  }

  lemma DealtStep(v: seq<UrlInfo>, k: int, m: nat, lo: nat, h: nat, hi: nat)
    requires lo <= h < |v| && hi == h + 1 && Dealt(v, k, m, lo, h)
    ensures Dealt(v, k, m, lo, hi)
  {
    var a, b, u := FirstOf(v, k, m, lo, h), WithoutFirst(v, k, m, lo, h), v[h];
    assert v[lo..hi] == v[lo..h] + [u];
    DealOne(a, b, v[lo..h], u);
    if u.kind == k && |a| < m {
      assert FirstOf(v, k, m, lo, hi) == a + [u] && WithoutFirst(v, k, m, lo, hi) == b;
    } else {
      assert FirstOf(v, k, m, lo, hi) == a && WithoutFirst(v, k, m, lo, hi) == b + [u];
    }
  }

  /** A URL dealt to either of two lists. */
  lemma DealOne(a: seq<UrlInfo>, b: seq<UrlInfo>, c: seq<UrlInfo>, u: UrlInfo)
    requires multiset(a) + multiset(b) == multiset(c)
    ensures multiset(a + [u]) + multiset(b) == multiset(c + [u])
    ensures multiset(a) + multiset(b + [u]) == multiset(c + [u])
  {
  }

  lemma {:induction false} ReversedTailConserves(s: seq<UrlInfo>, lo: nat)
    requires lo <= |s|
    ensures multiset(ReversedTail(s, lo)) == multiset(s[lo..])
    decreases |s| - lo
  {
    if lo < |s| {
      ReversedTailConserves(s, lo + 1);
      assert s[lo..] == [s[lo]] + s[lo + 1..];
    }
  }

  lemma SplitConserves(v: seq<UrlInfo>, cls: Class, q: Quota)
    ensures multiset(SplitVector(v, cls, q).picks) + multiset(SplitVector(v, cls, q).back) == multiset(v)
  {
    var i := Cut(v, cls, q, |v|);
    var c := CountKind(v, cls.CateKind(), 0, i);
    RestConserves(v, cls, q, i, c);
    PrefixConserves(v, i, RestSplit(v, cls, q, i, c));
  }

  lemma RestConserves(v: seq<UrlInfo>, cls: Class, q: Quota, i: nat, c: nat)
    requires c <= i <= |v|
    ensures multiset(RestSplit(v, cls, q, i, c).picks) + multiset(RestSplit(v, cls, q, i, c).back)
            == multiset(v[i..|v|])
  {
    if i < |v| {
      FirstOfConserves(v, if c < q.cate then cls.CateKind() else cls.ItemKind(),
                       if c < q.cate then q.cate - c else Room(q, i - c), i, |v|);
      RestParts(v, cls, q, i, c);
    }
  }

  lemma PrefixConserves(v: seq<UrlInfo>, i: nat, rest: Split)
    requires i <= |v| && multiset(rest.picks) + multiset(rest.back) == multiset(v[i..|v|])
    ensures multiset(AfterPrefix(v[..i], rest).picks) + multiset(AfterPrefix(v[..i], rest).back) == multiset(v)
  {
    assert v == v[..i] + v[i..|v|];
  }

  /** The two counters of the scans add up to the number of picks, which the quotas bound. */
  lemma SplitCounts(v: seq<UrlInfo>, cls: Class, q: Quota)
    ensures var s := SplitVector(v, cls, q);
            s.items + s.cates == |s.picks| <= q.cate + q.item
  {
    CutMeaning(v, cls, q, |v|);
  }

  lemma BackfillConserves(t: Tally, wanted: int)
    ensures multiset(Backfilled(t, wanted).buffer) + multiset(Backfilled(t, wanted).back)
            == multiset(t.buffer) + multiset(t.back)
  {
    var n := |t.back|;
    var keep := n - BackfillCount(n, wanted);
    assert Backfilled(t, wanted).buffer == t.buffer + ReversedTail(t.back, keep);
    assert Backfilled(t, wanted).back == t.back[..keep];
    MoveTailConserves(t.buffer, t.back, keep);
  }

  lemma MoveTailConserves(buffer: seq<UrlInfo>, back: seq<UrlInfo>, keep: nat)
    requires keep <= |back|
    ensures multiset(buffer + ReversedTail(back, keep)) + multiset(back[..keep]) == multiset(buffer) + multiset(back)
  {
    assert back == back[..keep] + back[keep..];
    ReversedTailConserves(back, keep);
  }

  lemma BackfillCounts(t: Tally, wanted: int)
    ensures var t' := Backfilled(t, wanted);
            && t.buffer <= t'.buffer
            && |t'.buffer| - |t.buffer| == (t'.items - t.items) + (t'.cates - t.cates) <= Max(wanted, 0)
  {
  }

  /** A domain's iteration only moves URLs: none is lost or duplicated. */
  lemma DomainConserves(v: seq<UrlInfo>, cls: Class, q: Quota, buffer: seq<UrlInfo>, back: seq<UrlInfo>)
    ensures var t := DomainTally(v, cls, q, buffer, back);
            multiset(t.buffer) + multiset(t.back) == multiset(buffer) + multiset(back) + multiset(v)
  {
    SplitConserves(v, cls, q);
    AfterScanConserves(SplitVector(v, cls, q), Cut(v, cls, q, |v|) == |v|, cls.Cap(q), buffer, back);
  }

  lemma AfterScanConserves(s: Split, whole: bool, cap: nat, buffer: seq<UrlInfo>, back: seq<UrlInfo>)
    ensures multiset(AfterScan(s, whole, cap, buffer, back).buffer)
            + multiset(AfterScan(s, whole, cap, buffer, back).back)
         == multiset(buffer) + multiset(back) + (multiset(s.picks) + multiset(s.back))
  {
    ToppedUpConserves(Tally(buffer + s.picks, back + s.back, s.items, s.cates), whole, cap);
    FourLists(buffer, s.picks, back, s.back);
  }

  lemma ToppedUpConserves(t: Tally, whole: bool, cap: nat)
    ensures multiset(ToppedUp(t, whole, cap).buffer) + multiset(ToppedUp(t, whole, cap).back)
         == multiset(t.buffer) + multiset(t.back)
  {
    BackfillConserves(t, cap - (t.items + t.cates));
  }

  lemma FourLists(a: seq<UrlInfo>, b: seq<UrlInfo>, c: seq<UrlInfo>, d: seq<UrlInfo>)
    ensures multiset(a + b) + multiset(c + d) == multiset(a) + multiset(c) + (multiset(b) + multiset(d))
  {
  }

  lemma AfterScanCounts(s: Split, whole: bool, cap: nat, buffer: seq<UrlInfo>, back: seq<UrlInfo>)
    ensures var t := AfterScan(s, whole, cap, buffer, back); var more := |t.buffer| - |buffer| - |s.picks|;
            && buffer <= t.buffer
            && t.items + t.cates - (s.items + s.cates) == more
            && 0 <= more <= Max(cap - (s.items + s.cates), 0)
  {
    BackfillCounts(Tally(buffer + s.picks, back + s.back, s.items, s.cates), cap - (s.items + s.cates));
  }

  /** The two counters a domain ends with add up to the number of URLs it pushed into the selection
      buffer, backfill included. The scans push at most both quotas; with backfill an ordinary domain
      still pushes no more, and a priority domain can reach twice its category quota. */
  lemma DomainCounts(v: seq<UrlInfo>, cls: Class, q: Quota, buffer: seq<UrlInfo>, back: seq<UrlInfo>)
    ensures var t := DomainTally(v, cls, q, buffer, back); var n := |t.buffer| - |buffer|;
            && buffer <= t.buffer
            && t.items + t.cates == n
            && |SplitVector(v, cls, q).picks| <= n <= Max(q.cate + q.item, cls.Cap(q))
  {
    SplitCounts(v, cls, q);
    AfterScanCounts(SplitVector(v, cls, q), Cut(v, cls, q, |v|) == |v|, cls.Cap(q), buffer, back);
  }

  // ---------- backfill ----------

  /** A domain's iteration leaves the first five leftovers where they are. */
  lemma BackKeepsReserve(v: seq<UrlInfo>, cls: Class, q: Quota, buffer: seq<UrlInfo>, back: seq<UrlInfo>, p: nat)
    requires p <= |back| && p <= BACK_RESERVE
    ensures var back' := DomainTally(v, cls, q, buffer, back).back; p <= |back'| && back'[..p] == back[..p]
  {
    var s := SplitVector(v, cls, q);
    assert (back + s.back)[..p] == back[..p];
    KeepsReserve(Tally(buffer + s.picks, back + s.back, s.items, s.cates), Cut(v, cls, q, |v|) == |v|, cls.Cap(q), p);
  }

  lemma KeepsReserve(t: Tally, whole: bool, cap: nat, p: nat)
    requires p <= |t.back| && p <= BACK_RESERVE
    ensures p <= |ToppedUp(t, whole, cap).back| && ToppedUp(t, whole, cap).back[..p] == t.back[..p]
  {
  }

  /** Neither quota leaves room for a backfill: once one of them is met, the total is near the cap. */
  predicate NeverBackfills(cls: Class, q: Quota) {
    q.cate >= cls.Cap(q) - BACKFILL_SLACK && q.item >= cls.Cap(q) - BACKFILL_SLACK
  }

  /** A domain's iteration pushed more than its scans picked. */
  predicate BackfillsAt(v: seq<UrlInfo>, cls: Class, q: Quota, buffer: seq<UrlInfo>, back: seq<UrlInfo>) {
    |DomainTally(v, cls, q, buffer, back).buffer| > |buffer| + |SplitVector(v, cls, q).picks|
  }

  lemma RestMeetsQuota(v: seq<UrlInfo>, cls: Class, q: Quota, i: nat, c: nat)
    requires c <= i < |v| && c <= q.cate
    ensures var s := RestSplit(v, cls, q, i, c);
            (c < q.cate ==> s.items == q.item && s.cates >= 0) && (c == q.cate ==> s.cates == q.cate && s.items >= 0)
  {
  }

  lemma NoBackfill(v: seq<UrlInfo>, cls: Class, q: Quota, buffer: seq<UrlInfo>, back: seq<UrlInfo>)
    requires NeverBackfills(cls, q)
    ensures !BackfillsAt(v, cls, q, buffer, back)
  {
    var i := Cut(v, cls, q, |v|);
    CutMeaning(v, cls, q, |v|);
    if i < |v| {
      RestMeetsQuota(v, cls, q, i, CountKind(v, cls.CateKind(), 0, i));
    }
  }

  /** A domain's iteration either pushes what its scans pick, or is backfilled: then one quota is met, the
      picks are far below the cap, and the cap is not exceeded. */
  lemma IterationOutcome(v: seq<UrlInfo>, cls: Class, q: Quota, buffer: seq<UrlInfo>, back: seq<UrlInfo>)
    ensures var k, g := |SplitVector(v, cls, q).picks|, |DomainTally(v, cls, q, buffer, back).buffer| - |buffer|;
            && k <= q.cate + q.item
            && (g != k ==> Min(q.cate, q.item) <= k < cls.Cap(q) - BACKFILL_SLACK && k < g <= cls.Cap(q))
  {
    var s, i := SplitVector(v, cls, q), Cut(v, cls, q, |v|);
    SplitCounts(v, cls, q);
    AfterScanCounts(s, i == |v|, cls.Cap(q), buffer, back);
    CutMeaning(v, cls, q, |v|);
    if i < |v| {
      RestMeetsQuota(v, cls, q, i, CountKind(v, cls.CateKind(), 0, i));
    }
  }

  lemma {:induction false} UniformCount(v: seq<UrlInfo>, k: int, lo: nat, hi: nat)
    requires lo <= hi <= |v| && (forall j :: 0 <= j < |v| ==> v[j].kind == v[0].kind)
    ensures CountKind(v, k, lo, hi) == if v != [] && v[0].kind == k then hi - lo else 0
  {
    if lo < hi {
      UniformCount(v, k, lo, hi - 1);
    }
  }

  lemma {:induction false} UniformCut(v: seq<UrlInfo>, cls: Class, q: Quota, n: nat)
    requires n <= |v| && forall j :: 0 <= j < |v| ==> v[j].kind == v[0].kind
    requires q.cate > 0 && q.item > 0
    ensures Cut(v, cls, q, n) == Min(n, if v != [] && v[0].kind == cls.CateKind() then q.cate else q.item)
  {
    if n > 0 {
      UniformCut(v, cls, q, n - 1);
      UniformCount(v, cls.CateKind(), 0, n - 1);
    }
  }

  lemma {:induction false} NoneOfKind(v: seq<UrlInfo>, k: int, m: nat, lo: nat, hi: nat)
    requires lo <= hi <= |v| && forall j :: 0 <= j < |v| ==> v[j].kind != k
    ensures FirstOf(v, k, m, lo, hi) == [] && WithoutFirst(v, k, m, lo, hi) == v[lo..hi]
  {
    if lo < hi {
      NoneOfKind(v, k, m, lo, hi - 1);
      assert v[lo..hi] == v[lo..hi - 1] + [v[hi - 1]];
    }
  }

  /** A vector of one own kind and longer than that kind's quota: the scans take the quota and leave the
      rest, and backfilling goes on from there. */
  lemma UniformSplit(v: seq<UrlInfo>, cls: Class, q: Quota, k: int)
    requires q.cate > 0 && q.item > 0 && (k == cls.CateKind() || k == cls.ItemKind())
    requires |v| > QuotaOf(cls, q, k) && forall j :: 0 <= j < |v| ==> v[j].kind == k
    ensures var s := SplitVector(v, cls, q); var m := QuotaOf(cls, q, k);
            && Cut(v, cls, q, |v|) == m && s.picks == v[..m] && s.back == v[m..]
            && s.items + s.cates == m
  {
    var m := QuotaOf(cls, q, k);
    var c := if k == cls.CateKind() then m else 0;
    UniformCut(v, cls, q, |v|);
    UniformCount(v, cls.CateKind(), 0, m);
    UniformRest(v, cls, q, k, m, c);
    assert v[..m] + [] == v[..m];
  }

  lemma UniformRest(v: seq<UrlInfo>, cls: Class, q: Quota, k: int, m: nat, c: nat)
    requires q.cate > 0 && q.item > 0 && (k == cls.CateKind() || k == cls.ItemKind())
    requires m == QuotaOf(cls, q, k) && m < |v| && c == if k == cls.CateKind() then m else 0
    requires forall j :: 0 <= j < |v| ==> v[j].kind == k
    ensures var s := RestSplit(v, cls, q, m, c); s.picks == [] && s.back == v[m..] && s.items + s.cates == m
  {
    if k == cls.CateKind() {
      NoneOfKind(v, cls.ItemKind(), Room(q, 0), m, |v|);
    } else {
      NoneOfKind(v, cls.CateKind(), q.cate, m, |v|);
    }
    assert v[m..|v|] == v[m..];
  }

  /** A domain is backfilled for some vector and some list of leftovers exactly when one of its quotas is
      more than 20 below its cap. */
  lemma BackfillPossibleIff(cls: Class, q: Quota)
    requires q.cate > 0 && q.item > 0
    ensures (exists v, back :: BackfillsAt(v, cls, q, [], back)) <==> !NeverBackfills(cls, q)
  {
    if NeverBackfills(cls, q) {
      forall v, back
        ensures !BackfillsAt(v, cls, q, [], back)
      {
        NoBackfill(v, cls, q, [], back);
      }
    } else {
      var k := if q.cate < cls.Cap(q) - BACKFILL_SLACK then cls.CateKind() else cls.ItemKind();
      var u := UrlInfo("http", 0, "", "", k);
      var v := seq(QuotaOf(cls, q, k) + 1, _ => u);
      UniformBackfills(v, cls, q, k, [u, u, u, u, u]);
    }
  }

  /** With a quota more than 20 below the cap, any longer vector of its kind and five leftovers do it. */
  lemma UniformBackfills(v: seq<UrlInfo>, cls: Class, q: Quota, k: int, back: seq<UrlInfo>)
    requires q.cate > 0 && q.item > 0 && (k == cls.CateKind() || k == cls.ItemKind()) && |back| >= BACK_RESERVE
    requires |v| > QuotaOf(cls, q, k) && forall j :: 0 <= j < |v| ==> v[j].kind == k
    requires QuotaOf(cls, q, k) < cls.Cap(q) - BACKFILL_SLACK
    ensures BackfillsAt(v, cls, q, [], back)
  {
    UniformSplit(v, cls, q, k);
  }

  // ---------- the loops ----------

  /** The two scan loops of one domain, with the buffer and the list of leftovers passed in and out. */
  method Scan(v: seq<UrlInfo>, cls: Class, q: Quota, buffer: seq<UrlInfo>, back: seq<UrlInfo>)
      returns (buffer': seq<UrlInfo>, back': seq<UrlInfo>, items: int, cates: int, whole: bool)
    ensures var s := SplitVector(v, cls, q);
            && buffer' == buffer + s.picks && back' == back + s.back
            && items == s.items && cates == s.cates
    ensures whole <==> Cut(v, cls, q, |v|) == |v|
  {
    var iNum, cNum, i;
    buffer', iNum, cNum, i := FirstScan(v, cls, q, buffer);
    whole := i >= |v|;
    if whole {
      return buffer', back, iNum, cNum, true;
    }
    buffer', back', items, cates := ScanRest(v, cls, q, i, iNum, cNum, buffer', back);
  }

  /** The second scan looks for the kind whose quota the first scan left open. */
  method ScanRest(v: seq<UrlInfo>, cls: Class, q: Quota, i: nat, iNum: nat, cNum: nat,
                  buffer: seq<UrlInfo>, back: seq<UrlInfo>)
      returns (buffer': seq<UrlInfo>, back': seq<UrlInfo>, items: int, cates: int)
    requires i < |v| && iNum == i - cNum && cNum <= q.cate && iNum <= q.item
    ensures var s := RestSplit(v, cls, q, i, cNum);
            && buffer' == buffer + s.picks && back' == back + s.back
            && items == s.items && cates == s.cates
  {
    if cNum < q.cate {
      buffer', back', cates := SecondScan(v, cls.CateKind(), cNum, q.cate, i, buffer, back);
      items := q.item;
    } else {
      buffer', back', items := SecondScan(v, cls.ItemKind(), iNum, q.item, i, buffer, back);
      cates := q.cate;
    }
  }

  method FirstScan(v: seq<UrlInfo>, cls: Class, q: Quota, buffer: seq<UrlInfo>)
      returns (buffer': seq<UrlInfo>, iNum: nat, cNum: nat, i: nat)
    ensures i == Cut(v, cls, q, |v|)
    ensures cNum == CountKind(v, cls.CateKind(), 0, i) && iNum == i - cNum
    ensures cNum <= q.cate && iNum <= q.item && (i < |v| ==> cNum == q.cate || iNum == q.item)
    ensures buffer' == buffer + v[..i]
  {
    buffer', iNum, cNum, i := buffer, 0, 0, 0;
    while i < |v| && cNum < q.cate && iNum < q.item
      invariant i <= |v|
      invariant cNum == CountKind(v, cls.CateKind(), 0, i) && iNum == i - cNum
      invariant cNum <= q.cate && iNum <= q.item
      invariant Cut(v, cls, q, i) == i
      invariant buffer' == buffer + v[..i]
    {
      if v[i].kind == cls.CateKind() {
        cNum := cNum + 1;
      } else {
        iNum := iNum + 1;
      }
      buffer' := buffer' + [v[i]];
      i := i + 1;
    }
    if i < |v| {
      CutStable(v, cls, q, i, |v|);
    }
  }

  lemma TakeNext(v: seq<UrlInfo>, k: int, m: nat, lo: nat, hi: nat, next: nat)
    requires lo <= hi < |v| && next == hi + 1
    ensures var takes := v[hi].kind == k && |FirstOf(v, k, m, lo, hi)| < m;
            && FirstOf(v, k, m, lo, next) == FirstOf(v, k, m, lo, hi) + (if takes then [v[hi]] else [])
            && WithoutFirst(v, k, m, lo, next) == WithoutFirst(v, k, m, lo, hi) + (if takes then [] else [v[hi]])
  {
  }

  /** The second loop and the loop that leaves the rest. */
  method SecondScan(v: seq<UrlInfo>, flag: int, start: nat, maxTmpNum: nat, i: nat,
                    buffer: seq<UrlInfo>, back: seq<UrlInfo>)
      returns (buffer': seq<UrlInfo>, back': seq<UrlInfo>, tmpNum: nat)
    requires i <= |v| && start <= maxTmpNum
    ensures tmpNum == start + |FirstOf(v, flag, maxTmpNum - start, i, |v|)|
    ensures buffer' == buffer + FirstOf(v, flag, maxTmpNum - start, i, |v|)
    ensures back' == back + WithoutFirst(v, flag, maxTmpNum - start, i, |v|)
  {
    buffer', back', tmpNum := buffer, back, start;
    ghost var room := maxTmpNum - start;
    var k := i;
    while k != |v| && tmpNum < maxTmpNum
      invariant i <= k <= |v|
      invariant tmpNum == start + |FirstOf(v, flag, room, i, k)|
      invariant buffer' == buffer + FirstOf(v, flag, room, i, k)
      invariant back' == back + WithoutFirst(v, flag, room, i, k)
    {
      var next := k + 1;
      TakeNext(v, flag, room, i, k, next);
      if v[k].kind == flag {
        buffer' := buffer' + [v[k]];
        tmpNum := tmpNum + 1;
      } else {
        back' := back' + [v[k]];
      }
      k := next;
    }
    if k < |v| {
      FirstOfFull(v, flag, room, i, k, |v|);
    }
    back' := LeaveRest(v, k, back');
  }

  method LeaveRest(v: seq<UrlInfo>, k: nat, back: seq<UrlInfo>) returns (back': seq<UrlInfo>)
    requires k <= |v|
    ensures back' == back + v[k..|v|]
  {
    back' := back;
    var l := k;
    while l < |v|
      invariant k <= l <= |v|
      invariant back' == back + v[k..l]
    {
      back' := back' + [v[l]];
      l := l + 1;
    }
  }

  /** The backfill loop: move URLs from the end of the list of leftovers to the buffer. */
  method Backfill(t: Tally, wanted: int) returns (t': Tally)
    ensures t' == Backfilled(t, wanted)
  {
    var buffer, m, items, cates, left := t.buffer, |t.back|, t.items, t.cates, wanted;
    var n := |t.back|;
    while left > 0 && m > BACK_RESERVE
      invariant 0 <= m <= n
      invariant n - m == wanted - left
      invariant n - m <= BackfillCount(n, wanted)
      invariant buffer == t.buffer + ReversedTail(t.back, m)
      invariant items == t.items + CountKind(t.back, 0, m, n)
      invariant cates == t.cates + (n - m) - CountKind(t.back, 0, m, n)
    {
      m := m - 1;
      buffer := buffer + [t.back[m]];
      CountKindSplit(t.back, 0, m, m + 1, n);
      if t.back[m].kind == 0 {
        items := items + 1;
      } else {
        cates := cates + 1;
      }
      left := left - 1;
    }
    t' := Tally(buffer, t.back[..m], items, cates);
  }
}
