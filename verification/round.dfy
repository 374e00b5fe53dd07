/** One round of `CSpider::select_url` as a value: the per-domain vectors, the quotas, and the two
    passes over the priority and the ordinary domains (spider.cpp:427-723). */
module Rounds {
  import opened UrlPools
  import opened Scans
  import opened Arithmetic
  import opened Statistics

  /** The settings of the select thread. */
  datatype SelectConf = SelectConf(
    selectNums: nat, minSelectThreshold: nat, priorityQuota: nat, catePercent: nat, itemPercent: nat)
  {
    /** What the configuration loader accepts (spider.cpp:1676-1709). */
    predicate Valid() {
      selectNums > 0 && priorityQuota > 0 && catePercent > 0 && itemPercent > 0
    }

    function PrioNum(): nat {
      selectNums * priorityQuota / 10
    }
  }

  const MIN_QUOTA := 10

  const ROUNDS_BEFORE_ROLLOVER := 3

  /** Whether a selection that leaves `total` URLs in the lists rolls over to the next generation. */
  predicate RollsOver(conf: SelectConf, rounds: nat, total: nat) {
    rounds > ROUNDS_BEFORE_ROLLOVER && total < conf.minSelectThreshold
  }

  // ---------- quotas ----------

  /** C++ integer division and conversion truncate towards zero. */
  function TruncDiv(a: int, b: int): int
    requires b > 0
  {
    if a >= 0 then a / b else -(-a / b)
  }

  /** The quotas of a domain with `size` of the `links` URLs of its class when `num` URLs are wanted. */
  function QuotaFor(conf: SelectConf, num: int, size: nat, links: nat): Quota
    requires conf.Valid()
  {
    var c := if links == 0 then 0
             else TruncDiv(conf.catePercent * num * size, (conf.catePercent + conf.itemPercent) * links);
    var i := if links == 0 then 0 else TruncDiv(num * size, links) - c + 1;
    Quota(Max(c, MIN_QUOTA), Max(i, MIN_QUOTA))
  }

  lemma DivLess(a: int, b: int, c: int)
    requires b > 0 && a < b * (c + 1)
    ensures a / b <= c
  {
    assert a == b * (a / b) + a % b;
    assert b * (a / b) < b * (c + 1);
  }

  lemma MulLess(a: int, b: int, c: int)
    requires a > 0 && b < c
    ensures a * b < a * c
  {
  }

  lemma DivByProduct(a: nat, b: nat, x: nat, links: nat)
    requires links > 0 && b > 0 && a <= b
    ensures b * links > 0
    ensures (a * x) / (b * links) <= x / links
  {
    var c := x / links + 1;
    MulLess(b, x, links * c);
    assert b * (links * c) == (b * links) * c;
    assert a * x <= b * x;
    DivLess(a * x, b * links, x / links);
  }

  /** The two quotas exceed the domain's share by at most 20. */
  lemma QuotaBound(conf: SelectConf, num: nat, size: nat, links: nat)
    requires conf.Valid()
    ensures var q := QuotaFor(conf, num, size, links);
            q.cate + q.item <= (if links == 0 then 0 else num * size / links) + 2 * MIN_QUOTA
  {
    if links > 0 {
      var x := num * size;
      assert x >= 0;
      assert conf.catePercent * num * size == conf.catePercent * x;
      DivByProduct(conf.catePercent, conf.catePercent + conf.itemPercent, x, links);
    }
  }

  lemma FloorMeaning(a: nat, b: nat, q: int)
    requires b > 0 && q == a / b
    ensures q * b <= a < (q + 1) * b
  {
    assert a == b * q + a % b;
  }

  lemma FloorIs(a: nat, b: nat, q: int)
    requires b > 0 && q * b <= a < (q + 1) * b
    ensures a / b == q
  {
    FloorMeaning(a, b, a / b);
  }

  /** What the quotas mean: with `c` the percentage of the domain's share of the wanted number and `s` the
      whole share, both rounded down, `c` categories and the rest and one more of items, but at least ten of
      each. */
  lemma QuotaMeaning(conf: SelectConf, num: nat, size: nat, links: nat, c: nat, s: nat)
    requires conf.Valid() && links > 0
    requires var percent := (conf.catePercent + conf.itemPercent) * links;
             c * percent <= conf.catePercent * (num * size) < (c + 1) * percent
    requires s * links <= num * size < (s + 1) * links
    ensures QuotaFor(conf, num, size, links) == Quota(Max(c, 10), Max(s - c + 1, 10))
  {
    var percent, x := (conf.catePercent + conf.itemPercent) * links, num * size;
    QuotaIs(conf, num, size, links, percent, x);
    FloorIs(conf.catePercent * x, percent, c);
    FloorIs(x, links, s);
  }

  /** Without links every quota is ten. */
  lemma NoLinksQuota(conf: SelectConf, num: int, size: nat)
    requires conf.Valid()
    ensures QuotaFor(conf, num, size, 0) == Quota(10, 10)
  {
  }

  lemma QuotaIs(conf: SelectConf, num: nat, size: nat, links: nat, percent: nat, x: nat)
    requires conf.Valid() && links > 0
    requires percent == (conf.catePercent + conf.itemPercent) * links && x == num * size
    ensures percent > 0 && conf.catePercent * x >= 0
    ensures QuotaFor(conf, num, size, links).cate == Max(conf.catePercent * x / percent, MIN_QUOTA)
    ensures QuotaFor(conf, num, size, links).item == Max(x / links - conf.catePercent * x / percent + 1, MIN_QUOTA)
  {
    assert conf.catePercent * num * size == conf.catePercent * x;
  }

  // ---------- the vectors ----------

  /** The URLs of a pool with the kind that draining the pool gives them. */
  function Retag(s: seq<UrlInfo>, k: int): (r: seq<UrlInfo>)
    ensures |r| == |s|
    ensures forall i :: 0 <= i < |s| ==> r[i] == s[i].(kind := k)
  {
    seq(|s|, i requires 0 <= i < |s| => s[i].(kind := k))
  }

  /** Everything drained from the four pools, in the order of draining. */
  function Drained(cpq: seq<UrlInfo>, ipq: seq<UrlInfo>, ioq: seq<UrlInfo>, coq: seq<UrlInfo>): seq<UrlInfo> {
    Retag(cpq, 3) + Retag(ipq, 2) + Retag(ioq, 0) + Retag(coq, 1)
  }

  /** The vector of a domain after the first `n` URLs have been drained. */
  function OfDomain(all: seq<UrlInfo>, d: string, n: nat): seq<UrlInfo>
    requires n <= |all|
  {
    if n == 0 then []
    else if all[n - 1].domain == d then OfDomain(all, d, n - 1) + [all[n - 1]]
    else OfDomain(all, d, n - 1)
  }

  lemma {:induction false} OfDomainPrefix(a: seq<UrlInfo>, b: seq<UrlInfo>, d: string, n: nat)
    requires n <= |a|
    ensures OfDomain(a + b, d, n) == OfDomain(a, d, n)
    decreases n
  {
    if n > 0 {
      OfDomainPrefix(a, b, d, n - 1);
    }
  }

  /** The URLs among the first `n` whose domain is not one of the first `j` names. */
  function Unplaced(all: seq<UrlInfo>, names: seq<string>, j: nat, n: nat): seq<UrlInfo>
    requires n <= |all| && j <= |names|
  {
    if n == 0 then []
    else if all[n - 1].domain in names[..j] then Unplaced(all, names, j, n - 1)
    else Unplaced(all, names, j, n - 1) + [all[n - 1]]
  }

  /** The vectors of the first `m` names, one after another. */
  function Gather(all: seq<UrlInfo>, names: seq<string>, m: nat): seq<UrlInfo>
    requires m <= |names|
  {
    if m == 0 then [] else Gather(all, names, m - 1) + OfDomain(all, names[m - 1], |all|)
  }

  predicate Distinct(names: seq<string>) {
    forall i, j :: 0 <= i < j < |names| ==> names[i] != names[j]
  }

  lemma {:induction false} UnplacedNone(all: seq<UrlInfo>, names: seq<string>, n: nat)
    requires n <= |all|
    ensures Unplaced(all, names, 0, n) == all[..n]
  {
    if n > 0 {
      UnplacedNone(all, names, n - 1);
      assert all[..n] == all[..n - 1] + [all[n - 1]];
    }
  }

  lemma {:induction false} UnplacedStep(all: seq<UrlInfo>, names: seq<string>, j: nat, n: nat)
    requires n <= |all| && j < |names| && Distinct(names)
    ensures multiset(Unplaced(all, names, j, n))
         == multiset(Unplaced(all, names, j + 1, n)) + multiset(OfDomain(all, names[j], n))
  {
    if n > 0 {
      var u := all[n - 1];
      UnplacedStep(all, names, j, n - 1);
      OneMoreName(names, j, u.domain);
      PlaceOne(Unplaced(all, names, j, n - 1), Unplaced(all, names, j + 1, n - 1), OfDomain(all, names[j], n - 1), u);
    }
  }

  lemma OneMoreName(names: seq<string>, j: nat, d: string)
    requires j < |names| && Distinct(names)
    ensures d in names[..j + 1] <==> d in names[..j] || d == names[j]
    ensures d == names[j] ==> d !in names[..j]
  {
    assert names[..j + 1] == names[..j] + [names[j]];
  }

  lemma PlaceOne(before: seq<UrlInfo>, after: seq<UrlInfo>, v: seq<UrlInfo>, u: UrlInfo)
    requires multiset(before) == multiset(after) + multiset(v)
    ensures multiset(before + [u]) == multiset(after) + multiset(v + [u]) == multiset(after + [u]) + multiset(v)
  {
  }

  /** The vectors of distinct names together with the URLs of other domains are exactly what was drained. */
  lemma {:induction false} GatherPartitions(all: seq<UrlInfo>, names: seq<string>, m: nat)
    requires m <= |names| && Distinct(names)
    ensures multiset(Gather(all, names, m)) + multiset(Unplaced(all, names, m, |all|)) == multiset(all)
    decreases m
  {
    if m == 0 {
      UnplacedNone(all, names, |all|);
      assert all[..|all|] == all;
    } else {
      var k := m - 1;
      GatherPartitions(all, names, k);
      PartitionStep(all, names, k, m);
    }
  }

  lemma PartitionStep(all: seq<UrlInfo>, names: seq<string>, m: nat, m': nat)
    requires m' == m + 1 <= |names| && Distinct(names)
    requires multiset(Gather(all, names, m)) + multiset(Unplaced(all, names, m, |all|)) == multiset(all)
    ensures multiset(Gather(all, names, m')) + multiset(Unplaced(all, names, m', |all|)) == multiset(all)
  {
    UnplacedStep(all, names, m, |all|);
    MoveVector(Gather(all, names, m), OfDomain(all, names[m], |all|),
               Unplaced(all, names, m, |all|), Unplaced(all, names, m', |all|), all);
  }

  lemma MoveVector(g: seq<UrlInfo>, v: seq<UrlInfo>, rest: seq<UrlInfo>, rest': seq<UrlInfo>, all: seq<UrlInfo>)
    requires multiset(g) + multiset(rest) == multiset(all)
    requires multiset(rest) == multiset(rest') + multiset(v)
    ensures multiset(g + v) + multiset(rest') == multiset(all)
  {
  }

  // ---------- a pass over the domains of one class ----------

  /** The state of a pass; `picked` counts the URLs taken by the scans, without backfill. */
  datatype Pass = Pass(
    buffer: seq<UrlInfo>, back: seq<UrlInfo>, items: map<string, int>, cates: map<string, int>, picked: nat)

  /** What the pass does to each domain. */
  datatype Plan = Plan(cls: Class, conf: SelectConf, num: int, links: nat, all: seq<UrlInfo>, names: seq<string>) {
    predicate Valid() {
      conf.Valid() && Distinct(names)
    }

    function Vector(m: nat): seq<UrlInfo>
      requires m < |names|
    {
      OfDomain(all, names[m], |all|)
    }

    function QuotaAt(m: nat): Quota
      requires Valid() && m < |names|
    {
      QuotaFor(conf, num, |Vector(m)|, links)
    }
  }

  function AfterDomain(p: Pass, d: string, t: Tally, picks: nat): Pass {
    Pass(t.buffer, t.back, p.items[d := t.items], p.cates[d := t.cates], p.picked + picks)
  }

  /** The pass after the first `m` domains. */
  function RunPass(plan: Plan, start: Pass, m: nat): Pass
    requires plan.Valid() && m <= |plan.names|
  {
    if m == 0 then start
    else
      var p := RunPass(plan, start, m - 1);
      AfterDomain(p, plan.names[m - 1],
                  DomainTally(plan.Vector(m - 1), plan.cls, plan.QuotaAt(m - 1), p.buffer, p.back),
                  |SplitVector(plan.Vector(m - 1), plan.cls, plan.QuotaAt(m - 1)).picks|)
  }

  /** Buffer and leftovers hold what they held at the start and the vectors of the first `m` names. */
  ghost predicate Conserved(plan: Plan, start: Pass, m: nat)
    requires plan.Valid() && m <= |plan.names|
  {
    var p := RunPass(plan, start, m);
    multiset(p.buffer) + multiset(p.back)
    == multiset(start.buffer) + multiset(start.back) + multiset(Gather(plan.all, plan.names, m))
  }

  /** A pass neither loses nor duplicates a URL. */
  lemma {:induction false} PassConserves(plan: Plan, start: Pass, m: nat)
    requires plan.Valid() && m <= |plan.names|
    ensures Conserved(plan, start, m)
    decreases m
  {
    if m > 0 {
      var k := m - 1;
      PassConserves(plan, start, k);
      StepConserves(plan, start, k, m);
    }
  }

  lemma StepConserves(plan: Plan, start: Pass, m: nat, m': nat)
    requires plan.Valid() && m' == m + 1 <= |plan.names| && Conserved(plan, start, m)
    ensures Conserved(plan, start, m')
  {
    var p := RunPass(plan, start, m);
    DomainConserves(plan.Vector(m), plan.cls, plan.QuotaAt(m), p.buffer, p.back);
    AddVector(p, RunPass(plan, start, m'), start, plan.Vector(m), Gather(plan.all, plan.names, m));
  }

  lemma AddVector(p: Pass, p': Pass, start: Pass, v: seq<UrlInfo>, g: seq<UrlInfo>)
    requires multiset(p.buffer) + multiset(p.back) == multiset(start.buffer) + multiset(start.back) + multiset(g)
    requires multiset(p'.buffer) + multiset(p'.back) == multiset(p.buffer) + multiset(p.back) + multiset(v)
    ensures multiset(p'.buffer) + multiset(p'.back) == multiset(start.buffer) + multiset(start.back) + multiset(g + v)
  {
  }

  /** The number of URLs that the iteration of the domain at `i` pushes into the selection buffer. */
  function Growth(plan: Plan, start: Pass, i: nat): int
    requires plan.Valid() && i < |plan.names|
  {
    |RunPass(plan, start, i + 1).buffer| - |RunPass(plan, start, i).buffer|
  }

  /** The counters and the growth of one iteration. */
  lemma GrowthCounted(plan: Plan, start: Pass, i: nat, i': nat)
    requires plan.Valid() && i' == i + 1 <= |plan.names|
    ensures var p, p' := RunPass(plan, start, i), RunPass(plan, start, i'); var q := plan.QuotaAt(i);
            && Count(p'.items, plan.names[i]) + Count(p'.cates, plan.names[i]) == |p'.buffer| - |p.buffer|
            && 0 <= p'.picked - p.picked <= q.cate + q.item
            && p'.picked - p.picked <= |p'.buffer| - |p.buffer| <= Max(q.cate + q.item, plan.cls.Cap(q))
  {
    var p := RunPass(plan, start, i);
    SplitCounts(plan.Vector(i), plan.cls, plan.QuotaAt(i));
    DomainCounts(plan.Vector(i), plan.cls, plan.QuotaAt(i), p.buffer, p.back);
  }

  /** After the first `m` domains the two counters of each of them add up to what its iteration
      pushed, and the counters of other domains are as at the start. */
  ghost predicate Counted(plan: Plan, start: Pass, m: nat)
    requires plan.Valid() && m <= |plan.names|
  {
    var p := RunPass(plan, start, m);
    && (forall i :: 0 <= i < m ==> CountersOf(p, plan.names[i]) == Growth(plan, start, i))
    && (forall d :: d !in plan.names[..m] ==> SameCounters(p, start, d))
  }

  function CountersOf(p: Pass, d: string): int {
    Count(p.items, d) + Count(p.cates, d)
  }

  ghost predicate SameCounters(p: Pass, p': Pass, d: string) {
    Count(p.items, d) == Count(p'.items, d) && Count(p.cates, d) == Count(p'.cates, d)
  }

  lemma PassCounts(plan: Plan, start: Pass, m: nat)
    requires plan.Valid() && m <= |plan.names|
    ensures Counted(plan, start, m)
  {
    forall i | 0 <= i < m
      ensures CountersOf(RunPass(plan, start, m), plan.names[i]) == Growth(plan, start, i)
    {
      OwnCounters(plan, start, i, m, Growth(plan, start, i));
    }
    OtherCounters(plan, start, m);
  }

  lemma {:induction false} OwnCounters(plan: Plan, start: Pass, i: nat, m: nat, g: int)
    requires plan.Valid() && i < m <= |plan.names| && g == Growth(plan, start, i)
    ensures CountersOf(RunPass(plan, start, m), plan.names[i]) == g
    decreases m
  {
    var k := m - 1;
    if i == k {
      CountersNew(plan, start, i, m);
    } else {
      OwnCounters(plan, start, i, k, g);
      CountersKept(plan, start, k, m, i, g);
    }
  }

  lemma {:induction false} OtherCounters(plan: Plan, start: Pass, m: nat)
    requires plan.Valid() && m <= |plan.names|
    ensures forall d :: d !in plan.names[..m] ==> SameCounters(RunPass(plan, start, m), start, d)
    decreases m
  {
    if m > 0 {
      var k := m - 1;
      OtherCounters(plan, start, k);
      OthersKept(plan, start, k, m);
    }
  }

  lemma CountersKept(plan: Plan, start: Pass, m: nat, m': nat, i: nat, g: int)
    requires plan.Valid() && m' == m + 1 <= |plan.names| && i < m
    requires CountersOf(RunPass(plan, start, m), plan.names[i]) == g
    ensures CountersOf(RunPass(plan, start, m'), plan.names[i]) == g
  {
    StepSetsOwn(plan, start, m, m', plan.names[i]);
  }

  lemma CountersNew(plan: Plan, start: Pass, m: nat, m': nat)
    requires plan.Valid() && m' == m + 1 <= |plan.names|
    ensures CountersOf(RunPass(plan, start, m'), plan.names[m]) == Growth(plan, start, m)
  {
    GrowthCounted(plan, start, m, m');
  }

  lemma OthersKept(plan: Plan, start: Pass, m: nat, m': nat)
    requires plan.Valid() && m' == m + 1 <= |plan.names|
    requires forall d :: d !in plan.names[..m] ==> SameCounters(RunPass(plan, start, m), start, d)
    ensures forall d :: d !in plan.names[..m'] ==> SameCounters(RunPass(plan, start, m'), start, d)
  {
    forall d | d !in plan.names[..m']
      ensures SameCounters(RunPass(plan, start, m'), start, d)
    {
      assert plan.names[..m'] == plan.names[..m] + [plan.names[m]];
      assert SameCounters(RunPass(plan, start, m), start, d);
      StepSetsOwn(plan, start, m, m', d);
    }
  }

  lemma StepSetsOwn(plan: Plan, start: Pass, m: nat, m': nat, d: string)
    requires plan.Valid() && m' == m + 1 <= |plan.names| && d != plan.names[m]
    ensures SameCounters(RunPass(plan, start, m'), RunPass(plan, start, m), d)
  {
  }

  /** The sum of the counters of the first `m` names. */
  function SumCounts(items: map<string, int>, cates: map<string, int>, names: seq<string>, m: nat): int
    requires m <= |names|
  {
    if m == 0 then 0
    else SumCounts(items, cates, names, m - 1) + Count(items, names[m - 1]) + Count(cates, names[m - 1])
  }

  /** Over all domains of a pass the counters add up to the growth of the selection buffer. */
  lemma PassTotal(plan: Plan, start: Pass)
    requires plan.Valid()
    ensures var p := RunPass(plan, start, |plan.names|);
            SumCounts(p.items, p.cates, plan.names, |plan.names|) == |p.buffer| - |start.buffer|
  {
    var p := RunPass(plan, start, |plan.names|);
    PassCounts(plan, start, |plan.names|);
    SumOfGrowths(plan, start, p.items, p.cates, |plan.names|);
  }

  lemma {:induction false} SumOfGrowths(plan: Plan, start: Pass, items: map<string, int>, cates: map<string, int>,
                                        m: nat)
    requires plan.Valid() && m <= |plan.names|
    requires forall i :: 0 <= i < m ==>
               Count(items, plan.names[i]) + Count(cates, plan.names[i]) == Growth(plan, start, i)
    ensures SumCounts(items, cates, plan.names, m) == |RunPass(plan, start, m).buffer| - |start.buffer|
    decreases m
  {
    if m > 0 {
      var k := m - 1;
      SumOfGrowths(plan, start, items, cates, k);
      SumStep(plan, start, items, cates, k, m);
    }
  }

  lemma SumStep(plan: Plan, start: Pass, items: map<string, int>, cates: map<string, int>, m: nat, m': nat)
    requires plan.Valid() && m' == m + 1 <= |plan.names|
    requires Count(items, plan.names[m]) + Count(cates, plan.names[m]) == Growth(plan, start, m)
    requires SumCounts(items, cates, plan.names, m) == |RunPass(plan, start, m).buffer| - |start.buffer|
    ensures SumCounts(items, cates, plan.names, m') == |RunPass(plan, start, m').buffer| - |start.buffer|
  {
  }

  // ---------- the budget ----------

  lemma FloorAdd(a: nat, b: nat, l: nat)
    requires l > 0
    ensures a / l + b / l <= (a + b) / l
  {
    var x, y, c := a / l, b / l, (a + b) / l;
    assert l * x <= a && l * y <= b;
    assert a + b < l * (c + 1);
    assert l * (x + y) == l * x + l * y < l * (c + 1);
    MulCancel(l, x + y, c + 1);
  }

  lemma FloorMono(a: nat, b: nat, l: nat)
    requires l > 0 && a <= l * b
    ensures a / l <= b
  {
    assert a == l * (a / l) + a % l;
  }

  /** The share of `links` that the vectors of the first `m` names have of the wanted `num`. */
  function Share(plan: Plan, m: nat): int
    requires m <= |plan.names|
  {
    if plan.links == 0 then 0 else TruncDiv(plan.num * |Gather(plan.all, plan.names, m)|, plan.links)
  }

  lemma ShareStep(plan: Plan, m: nat)
    requires m < |plan.names| && plan.num >= 0
    ensures Share(plan, m) + (if plan.links == 0 then 0 else plan.num * |plan.Vector(m)| / plan.links)
               <= Share(plan, m + 1)
    ensures plan.num * |plan.Vector(m)| >= 0
  {
    var a, b := |Gather(plan.all, plan.names, m)|, |plan.Vector(m)|;
    assert plan.num * a >= 0 && plan.num * b >= 0;
    assert plan.num * (a + b) == plan.num * a + plan.num * b;
    if plan.links > 0 {
      FloorAdd(plan.num * a, plan.num * b, plan.links);
    }
  }

  /** The first `m` domains picked at most their share plus 20 a domain; ordinary ones stay within
      that even with backfill. */
  ghost predicate WithinShare(plan: Plan, start: Pass, m: nat)
    requires plan.Valid() && m <= |plan.names|
  {
    var p := RunPass(plan, start, m);
    && p.picked - start.picked <= Share(plan, m) + 20 * m
    && (plan.cls == Ordinary ==> |p.buffer| - |start.buffer| <= Share(plan, m) + 20 * m)
  }

  /** The bound holds for vectors of any origin. */
  lemma {:induction false} PassWithinShare(plan: Plan, start: Pass, m: nat)
    requires plan.Valid() && m <= |plan.names| && plan.num >= 0
    ensures WithinShare(plan, start, m)
    decreases m
  {
    if m > 0 {
      var k := m - 1;
      PassWithinShare(plan, start, k);
      StepWithinShare(plan, start, k, m);
    }
  }

  lemma StepWithinShare(plan: Plan, start: Pass, m: nat, m': nat)
    requires plan.Valid() && m' == m + 1 <= |plan.names| && plan.num >= 0 && WithinShare(plan, start, m)
    ensures WithinShare(plan, start, m')
  {
    GrowthCounted(plan, start, m, m');
    QuotaBound(plan.conf, plan.num, |plan.Vector(m)|, plan.links);
    ShareStep(plan, m);
  }

  /** With no more URLs in the pass's vectors than its class has links, the share is at most what is wanted. */
  lemma ShareBound(plan: Plan)
    requires plan.num >= 0 && |Gather(plan.all, plan.names, |plan.names|)| <= plan.links
    ensures Share(plan, |plan.names|) <= plan.num
  {
    var g := |Gather(plan.all, plan.names, |plan.names|)|;
    if plan.links > 0 {
      assert 0 <= plan.num * g <= plan.num * plan.links == plan.links * plan.num;
      FloorMono(plan.num * g, plan.num, plan.links);
    }
  }
}
