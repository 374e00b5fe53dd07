/** How many URLs a round adds to the selection buffer. The backfill of priority domains is not counted in
    `prio_count` (spider.cpp:583-596), so ordinary domains are offered that part once more (607-609). */
module Budgets {
  import opened UrlPools
  import opened Arithmetic
  import opened Scans
  import opened Rounds
  import opened RoundLaws
  import opened Statistics

  /** The category part of a wanted number. */
  function CategoryPart(conf: SelectConf, num: nat): int
    requires conf.Valid()
  {
    conf.catePercent * num / (conf.catePercent + conf.itemPercent)
  }

  function PrioCategories(conf: SelectConf): int
    requires conf.Valid()
  {
    CategoryPart(conf, conf.PrioNum())
  }

  // ---------- the parts of a selection ----------

  /** The number of URLs that a round adds to the selection buffer. */
  ghost function Selection(r: RoundIn, lists: Lists, items: map<string, int>, cates: map<string, int>): int
    requires r.Valid()
  {
    |RunRound(r, lists, items, cates).lists.buffer| - |lists.buffer|
  }

  /** The part of it that the backfill of priority domains adds. */
  ghost function PrioBackfill(r: RoundIn, lists: Lists, items: map<string, int>, cates: map<string, int>): int
    requires r.Valid()
  {
    var prio := PrioPass(r, PrioStart(lists, items, cates));
    |prio.buffer| - |lists.buffer| - prio.picked
  }

  // ---------- shares ----------

  /** `factor` times `size` divided by `divisor`, rounded down. */
  function Portion(factor: nat, divisor: nat, size: nat): int {
    if divisor == 0 then 0 else factor * size / divisor
  }

  lemma PortionAdd(factor: nat, divisor: nat, a: nat, b: nat)
    ensures 0 <= Portion(factor, divisor, a) && 0 <= Portion(factor, divisor, b)
    ensures Portion(factor, divisor, a) + Portion(factor, divisor, b) <= Portion(factor, divisor, a + b)
  {
    assert factor * a >= 0 && factor * b >= 0;
    assert factor * (a + b) == factor * a + factor * b;
    if divisor > 0 {
      FloorAdd(factor * a, factor * b, divisor);
    }
  }

  /** A portion of at most `links` is at most the portion of all of them. */
  lemma PortionBound(factor: nat, percent: nat, links: nat, size: nat)
    requires size <= links && percent > 0
    ensures percent * links >= 0
    ensures Portion(factor, percent * links, size) <= factor / percent
  {
    var c := factor / percent;
    if links > 0 {
      assert factor == percent * c + factor % percent;
      assert factor * size <= factor * links;
      MulLess(links, factor, percent * (c + 1));
      assert links * (percent * (c + 1)) == (percent * links) * (c + 1);
      assert percent * links > 0;
      DivLess(factor * size, percent * links, c);
    }
  }

  /** The two shares that the quotas of a domain come from. */
  function WholeShare(plan: Plan, size: nat): int
    requires plan.num >= 0
  {
    Portion(plan.num, plan.links, size)
  }

  function CategoryShare(plan: Plan, size: nat): int
    requires plan.num >= 0
  {
    Portion(plan.conf.catePercent * plan.num, (plan.conf.catePercent + plan.conf.itemPercent) * plan.links, size)
  }

  lemma QuotaShares(plan: Plan, size: nat, q: Quota)
    requires plan.conf.Valid() && plan.num >= 0 && q == QuotaFor(plan.conf, plan.num, size, plan.links)
    ensures 0 <= CategoryShare(plan, size) <= WholeShare(plan, size)
    ensures q.cate == Max(CategoryShare(plan, size), MIN_QUOTA)
    ensures plan.links > 0 ==> q.item == Max(WholeShare(plan, size) - CategoryShare(plan, size) + 1, MIN_QUOTA)
    ensures plan.links == 0 ==> q.item == MIN_QUOTA && WholeShare(plan, size) == 0
  {
    if plan.links > 0 {
      var percent, x := (plan.conf.catePercent + plan.conf.itemPercent) * plan.links, plan.num * size;
      QuotaIs(plan.conf, plan.num, size, plan.links, percent, x);
      assert plan.conf.catePercent * plan.num * size == plan.conf.catePercent * x;
      DivByProduct(plan.conf.catePercent, plan.conf.catePercent + plan.conf.itemPercent, x, plan.links);
    }
  }

  /** What one domain can push, backfill included, exceeds its two shares by at most 20. */
  lemma PushBound(plan: Plan, size: nat, q: Quota)
    requires plan.conf.Valid() && plan.num >= 0 && q == QuotaFor(plan.conf, plan.num, size, plan.links)
    ensures Max(q.cate + q.item, plan.cls.Cap(q)) <= WholeShare(plan, size) + CategoryShare(plan, size) + 2 * MIN_QUOTA
  {
    QuotaShares(plan, size, q);
  }

  /** The sum of these bounds over the first `m` domains. */
  function PushBounds(plan: Plan, m: nat): int
    requires plan.num >= 0 && m <= |plan.names|
  {
    if m == 0 then 0 else PushBounds(plan, m - 1) + DomainBound(plan, |plan.Vector(m - 1)|)
  }

  function DomainBound(plan: Plan, size: nat): int
    requires plan.num >= 0
  {
    WholeShare(plan, size) + CategoryShare(plan, size) + 20
  }

  /** The first `m` domains pushed at most the sum of their bounds. */
  ghost predicate WithinBounds(plan: Plan, start: Pass, m: nat)
    requires plan.Valid() && plan.num >= 0 && m <= |plan.names|
  {
    |RunPass(plan, start, m).buffer| - |start.buffer| <= PushBounds(plan, m)
  }

  lemma {:induction false} PassWithinBounds(plan: Plan, start: Pass, m: nat)
    requires plan.Valid() && plan.num >= 0 && m <= |plan.names|
    ensures WithinBounds(plan, start, m)
    decreases m
  {
    if m > 0 {
      var k := m - 1;
      PassWithinBounds(plan, start, k);
      GrowthWithin(plan, start, k, m, DomainBound(plan, |plan.Vector(k)|));
      StepWithinBounds(plan, start, k, m, DomainBound(plan, |plan.Vector(k)|));
    }
  }

  lemma StepWithinBounds(plan: Plan, start: Pass, k: nat, m: nat, bound: int)
    requires plan.Valid() && plan.num >= 0 && m == k + 1 <= |plan.names| && WithinBounds(plan, start, k)
    requires bound == DomainBound(plan, |plan.Vector(k)|)
    requires |RunPass(plan, start, m).buffer| - |RunPass(plan, start, k).buffer| <= bound
    ensures WithinBounds(plan, start, m)
  {
    assert PushBounds(plan, m) == PushBounds(plan, k) + bound;
  }

  lemma GrowthWithin(plan: Plan, start: Pass, k: nat, m: nat, bound: int)
    requires plan.Valid() && plan.num >= 0 && m == k + 1 <= |plan.names|
    requires bound == DomainBound(plan, |plan.Vector(k)|)
    ensures |RunPass(plan, start, m).buffer| - |RunPass(plan, start, k).buffer| <= bound
  {
    GrowthCounted(plan, start, k, m);
    PushBound(plan, |plan.Vector(k)|, plan.QuotaAt(k));
  }

  /** The shares of the vectors are together at most the share of all of them. */
  lemma {:induction false} BoundsAddUp(plan: Plan, m: nat)
    requires plan.num >= 0 && m <= |plan.names|
    ensures PushBounds(plan, m) + 20 <= DomainBound(plan, |Gather(plan.all, plan.names, m)|) + 20 * m
    decreases m
  {
    if m == 0 {
      NoShare(plan);
    } else {
      var k := m - 1;
      BoundsAddUp(plan, k);
      DomainBoundAdd(plan, |Gather(plan.all, plan.names, k)|, |plan.Vector(k)|, |Gather(plan.all, plan.names, m)|);
    }
  }

  lemma NoShare(plan: Plan)
    requires plan.num >= 0
    ensures DomainBound(plan, 0) == 20
  {
  }

  lemma DomainBoundAdd(plan: Plan, a: nat, b: nat, c: nat)
    requires plan.num >= 0 && c == a + b
    ensures DomainBound(plan, a) + DomainBound(plan, b) <= DomainBound(plan, c) + 20
  {
    PortionAdd(plan.num, plan.links, a, b);
    PortionAdd(plan.conf.catePercent * plan.num, (plan.conf.catePercent + plan.conf.itemPercent) * plan.links, a, b);
  }

  lemma SharesBound(plan: Plan, size: nat)
    requires plan.conf.Valid() && plan.num >= 0 && size <= plan.links
    ensures WholeShare(plan, size) <= plan.num
    ensures CategoryShare(plan, size) <= CategoryPart(plan.conf, plan.num)
  {
    PortionBound(plan.num, 1, plan.links, size);
    PortionBound(plan.conf.catePercent * plan.num, plan.conf.catePercent + plan.conf.itemPercent, plan.links, size);
  }

  /** A whole pass, backfill included, pushes at most the wanted number, its category part once more, and
      20 a domain. */
  lemma PassPushes(plan: Plan, start: Pass, n: nat, c: int)
    requires plan.Valid() && plan.num >= 0 && n == |plan.names| && |Gather(plan.all, plan.names, n)| <= plan.links
    requires c == CategoryPart(plan.conf, plan.num)
    ensures |RunPass(plan, start, n).buffer| - |start.buffer| <= plan.num + c + 20 * n
  {
    PassWithinBounds(plan, start, n);
    BoundsAddUp(plan, n);
    SharesBound(plan, |Gather(plan.all, plan.names, n)|);
  }

  // ---------- the real budget ----------

  /** The size of a whole selection: it exceeds the wanted number by at most 20 a domain and what the
      backfill of priority domains adds; and that, with the picks of their scans, is at most their part
      of the wanted number, its category part once more, and 20 a domain. */
  lemma SelectionBudget(r: RoundIn, lists: Lists, items: map<string, int>, cates: map<string, int>)
    requires r.Valid() && OwnPools(r) && r.conf.priorityQuota <= 10
    ensures var p, o := |Names(r, Priority)|, |Names(r, Ordinary)|;
            var more := PrioBackfill(r, lists, items, cates);
            && 0 <= more
            && Selection(r, lists, items, cates) <= r.conf.selectNums + 20 * (p + o) + more
            && RunRound(r, lists, items, cates).prioCount + more
               <= r.conf.PrioNum() + PrioCategories(r.conf) + 20 * p
            && Selection(r, lists, items, cates)
               <= r.conf.selectNums + r.conf.PrioNum() + PrioCategories(r.conf) + 20 * (p + o)
  {
    ValidPlans(r);
    RoundBudget(r, lists, items, cates);
    PrioWithin(r, lists, items, cates);
  }

  /** What the priority domains push, backfill included. */
  lemma PrioWithin(r: RoundIn, lists: Lists, items: map<string, int>, cates: map<string, int>)
    requires r.Valid() && OwnPools(r)
    ensures var prio := PrioPass(r, PrioStart(lists, items, cates));
            && 0 <= prio.picked <= |prio.buffer| - |lists.buffer|
            && |prio.buffer| - |lists.buffer| <= r.conf.PrioNum() + PrioCategories(r.conf) + 20 * |Names(r, Priority)|
  {
    ValidPlans(r);
    VectorsWithinLinks(r);
    var plan, start, c := PrioPlan(r), PrioStart(lists, items, cates), PrioCategories(r.conf);
    PicksArePushed(plan, start, |plan.names|);
    PassPushes(plan, start, |plan.names|, c);
  }

  lemma {:induction false} PicksArePushed(plan: Plan, start: Pass, m: nat)
    requires plan.Valid() && m <= |plan.names|
    ensures 0 <= RunPass(plan, start, m).picked - start.picked <= |RunPass(plan, start, m).buffer| - |start.buffer|
    decreases m
  {
    if m > 0 {
      var k := m - 1;
      PicksArePushed(plan, start, k);
      GrowthCounted(plan, start, k, m);
    }
  }

  // ---------- when the budget holds for the whole selection ----------

  /** No priority domain of the round has quotas that leave room for a backfill. */
  ghost predicate NoRoomToBackfill(r: RoundIn)
    requires r.Valid()
  {
    ValidPlans(r);
    forall i :: 0 <= i < |Names(r, Priority)| ==> NeverBackfills(Priority, PrioPlan(r).QuotaAt(i))
  }

  ghost predicate OnlyPicks(plan: Plan, start: Pass, m: nat)
    requires plan.Valid() && m <= |plan.names|
  {
    |RunPass(plan, start, m).buffer| - |start.buffer| == RunPass(plan, start, m).picked - start.picked
  }

  lemma {:induction false} PassOnlyPicks(plan: Plan, start: Pass, m: nat)
    requires plan.Valid() && m <= |plan.names|
    requires forall i :: 0 <= i < m ==> NeverBackfills(plan.cls, plan.QuotaAt(i))
    ensures OnlyPicks(plan, start, m)
    decreases m
  {
    if m > 0 {
      var k := m - 1;
      PassOnlyPicks(plan, start, k);
      StepOnlyPicks(plan, start, k, m);
    }
  }

  lemma StepOnlyPicks(plan: Plan, start: Pass, k: nat, m: nat)
    requires plan.Valid() && m == k + 1 <= |plan.names| && OnlyPicks(plan, start, k)
    requires NeverBackfills(plan.cls, plan.QuotaAt(k))
    ensures OnlyPicks(plan, start, m)
  {
    var p := RunPass(plan, start, k);
    NoBackfill(plan.Vector(k), plan.cls, plan.QuotaAt(k), p.buffer, p.back);
    GrowthCounted(plan, start, k, m);
  }

  /** When no priority domain's quotas leave room for a backfill, nothing is backfilled and the whole
      selection stays within the wanted number plus 20 a domain. */
  lemma SelectionWithinBudget(r: RoundIn, lists: Lists, items: map<string, int>, cates: map<string, int>)
    requires r.Valid() && OwnPools(r) && r.conf.priorityQuota <= 10 && NoRoomToBackfill(r)
    ensures PrioBackfill(r, lists, items, cates) == 0
    ensures Selection(r, lists, items, cates)
         <= r.conf.selectNums + 20 * (|Names(r, Priority)| + |Names(r, Ordinary)|)
  {
    NoRoomNoBackfill(r, lists, items, cates);
    SelectionBudget(r, lists, items, cates);
  }

  lemma {:induction false} VectorInGather(plan: Plan, i: nat, m: nat)
    requires i < m <= |plan.names|
    ensures |plan.Vector(i)| <= |Gather(plan.all, plan.names, m)|
    decreases m
  {
    if i < m - 1 {
      VectorInGather(plan, i, m - 1);
    }
  }

  /** A condition on the settings alone: with at most 15 category URLs wanted from priority domains no
      round can backfill there. */
  lemma FewCategoriesLeaveNoRoom(r: RoundIn)
    requires r.Valid() && OwnPools(r) && PrioCategories(r.conf) <= 15
    ensures NoRoomToBackfill(r)
  {
    ValidPlans(r);
    var plan := PrioPlan(r);
    VectorsWithinLinks(r);
    forall i | 0 <= i < |Names(r, Priority)|
      ensures NeverBackfills(Priority, plan.QuotaAt(i))
    {
      var size := |plan.Vector(i)|;
      VectorInGather(plan, i, |plan.names|);
      QuotaShares(plan, size, plan.QuotaAt(i));
      SharesBound(plan, size);
    }
  }

  // ---------- a round over a single domain ----------

  lemma OnlyName(order: seq<string>, domains: map<string, DomainAttr>, cls: Class, d: string)
    requires order == [d] && d in domains
    ensures NamesOf(order, domains, cls, 1) == if Selected(domains[d], cls) then [d] else []
  {
    assert NamesOf(order, domains, cls, 0) == [];
  }

  /** The iteration of the only domain of a round. */
  function OnlyTally(r: RoundIn, d: string, cls: Class, lists: Lists): Tally
    requires r.conf.Valid()
  {
    var v := OfDomain(r.All(), d, |r.All()|);
    DomainTally(v, cls, QuotaFor(r.conf, ClassNum(r.conf, cls), |v|, ClassLinks(r, cls)),
                lists.buffer, BackOf(lists, cls))
  }

  /** The number wanted from a class when the other class has no domains. */
  function ClassNum(conf: SelectConf, cls: Class): int {
    if cls.Priority? then conf.PrioNum() else OrdNum(conf, 0)
  }

  function ClassLinks(r: RoundIn, cls: Class): nat {
    if cls.Priority? then r.PrioLinks() else r.OrdLinks()
  }

  function BackOf(lists: Lists, cls: Class): seq<UrlInfo> {
    if cls.Priority? then lists.backP else lists.backO
  }

  /** That iteration, in terms of its vector and its quotas. */
  lemma OnlyTallyIs(r: RoundIn, d: string, cls: Class, lists: Lists, v: seq<UrlInfo>, q: Quota)
    requires r.conf.Valid() && v == OfDomain(r.All(), d, |r.All()|)
    requires q == QuotaFor(r.conf, ClassNum(r.conf, cls), |v|, ClassLinks(r, cls))
    ensures OnlyTally(r, d, cls, lists) == DomainTally(v, cls, q, lists.buffer, BackOf(lists, cls))
  {
  }

  /** A round whose only domain is of a class does that domain's iteration and nothing else. */
  lemma OneDomain(r: RoundIn, d: string, cls: Class, lists: Lists)
    requires r.Valid() && r.order == [d] && d in r.domains && Selected(r.domains[d], cls)
    ensures var t := OnlyTally(r, d, cls, lists);
            RunRound(r, lists, map[], map[]).lists
            == if cls.Priority? then Lists(t.buffer, lists.backO, t.back) else Lists(t.buffer, t.back, lists.backP)
  {
    ValidPlans(r);
    OnlyName(r.order, r.domains, Priority, d);
    OnlyName(r.order, r.domains, Ordinary, d);
    var start := PrioStart(lists, map[], map[]);
    if cls.Priority? {
      OnePass(PrioPlan(r), start);
    } else {
      OnePass(OrdPlan(r, 0), OrdStart(start, lists));
    }
  }

  lemma OnePass(plan: Plan, start: Pass)
    requires plan.Valid() && |plan.names| == 1
    ensures var t := DomainTally(plan.Vector(0), plan.cls, plan.QuotaAt(0), start.buffer, start.back);
            && RunPass(plan, start, 1).buffer == t.buffer && RunPass(plan, start, 1).back == t.back
            && RunPass(plan, start, 1).picked
               == start.picked + |SplitVector(plan.Vector(0), plan.cls, plan.QuotaAt(0)).picks|
  {
    assert RunPass(plan, start, 0) == start;
  }

  lemma {:induction false} AllOfDomain(all: seq<UrlInfo>, d: string, n: nat)
    requires n <= |all| && forall i :: 0 <= i < n ==> all[i].domain == d
    ensures OfDomain(all, d, n) == all[..n]
    decreases n
  {
    if n > 0 {
      AllOfDomain(all, d, n - 1);
      assert all[..n] == all[..n - 1] + [all[n - 1]];
    }
  }

  // ---------- settings under which a priority domain can be backfilled ----------

  /** Some round under these settings, with URLs in their own classes' pools, backfills a priority domain. */
  ghost predicate CanBackfill(conf: SelectConf)
    requires conf.Valid()
  {
    exists r: RoundIn, lists :: r.Valid() && OwnPools(r) && r.conf == conf && PrioBackfill(r, lists, map[], map[]) > 0
  }

  /** A domain with `size` of the `links` URLs of the priority pools is given quotas that leave no room. */
  predicate LeavesNoRoom(conf: SelectConf, size: nat, links: nat)
    requires conf.Valid()
  {
    NeverBackfills(Priority, QuotaFor(conf, conf.PrioNum(), size, links))
  }

  lemma SettingsLeaveNoRoom(r: RoundIn)
    requires r.Valid() && OwnPools(r) && forall size, links :: 0 <= size <= links ==> LeavesNoRoom(r.conf, size, links)
    ensures NoRoomToBackfill(r)
  {
    ValidPlans(r);
    var plan := PrioPlan(r);
    VectorsWithinLinks(r);
    forall i | 0 <= i < |plan.names|
      ensures NeverBackfills(Priority, plan.QuotaAt(i))
    {
      VectorInGather(plan, i, |plan.names|);
      assert LeavesNoRoom(r.conf, |plan.Vector(i)|, plan.links);
    }
  }

  lemma NoRoomNoBackfill(r: RoundIn, lists: Lists, items: map<string, int>, cates: map<string, int>)
    requires r.Valid() && NoRoomToBackfill(r)
    ensures PrioBackfill(r, lists, items, cates) == 0
  {
    ValidPlans(r);
    PassOnlyPicks(PrioPlan(r), PrioStart(lists, items, cates), |Names(r, Priority)|);
  }

  lemma ScaledDiv(a: nat, b: nat, n: nat)
    requires b > 0 && n > 0
    ensures n * b > 0 && (n * a) / (n * b) == a / b
  {
    var q := a / b;
    assert a == b * q + a % b;
    assert n * b > 0;
    MulLess(n, a, b * (q + 1));
    assert n * (b * (q + 1)) == (n * b) * (q + 1);
    DivLess(n * a, n * b, q);
    assert n * a >= n * (b * q) == (n * b) * q;
    MulCancel(n * b, q, (n * a) / (n * b) + 1);
  }

  /** Only the part that a domain has of the links matters for its quotas. */
  lemma ScaledQuota(conf: SelectConf, num: nat, size: nat, links: nat, n: nat)
    requires conf.Valid() && links > 0 && n > 0
    ensures n * size >= 0 && n * links > 0
    ensures QuotaFor(conf, num, n * size, n * links) == QuotaFor(conf, num, size, links)
  {
    var sum := conf.catePercent + conf.itemPercent;
    var percent, x := sum * links, num * size;
    var y := conf.catePercent * x;
    assert n * size >= 0 && n * links > 0 && y >= 0 && percent > 0;
    ScaledDiv(y, percent, n);
    ScaledDiv(x, links, n);
    MulSwap(num, n, size);
    MulSwap(conf.catePercent, n, x);
    MulSwap(sum, n, links);
    QuotaFromShares(conf, num, size, links, percent, x, y, y / percent, x / links);
    QuotaFromShares(conf, num, n * size, n * links, n * percent, n * x, n * y, y / percent, x / links);
  }

  lemma MulSwap(a: nat, b: nat, c: nat)
    ensures a * (b * c) == b * (a * c)
  {
  }

  lemma QuotaFromShares(conf: SelectConf, num: nat, size: nat, links: nat, percent: nat, x: nat, y: nat, a: int, t: int)
    requires conf.Valid() && links > 0 && percent > 0
    requires percent == (conf.catePercent + conf.itemPercent) * links && x == num * size && y == conf.catePercent * x
    requires a == y / percent && t == x / links
    ensures QuotaFor(conf, num, size, links) == Quota(Max(a, MIN_QUOTA), Max(t - a + 1, MIN_QUOTA))
  {
    QuotaIs(conf, num, size, links, percent, x);
  }

  /** `n` different URLs of a domain and a kind. */
  lemma Several(d: string, k: int, n: nat) returns (v: seq<UrlInfo>)
    ensures |v| == n && Uniform(v, d, k)
    ensures forall i :: 0 <= i < n ==> |v[i].url| == MIN_URL_LENGTH + i
  {
    v := seq(n, i requires 0 <= i < n => UrlInfo(seq(MIN_URL_LENGTH + i, _ => 'a'), 0, d, "", k));
  }

  const OWN := "a"
  const STRANGE := "b"

  predicate Uniform(v: seq<UrlInfo>, d: string, k: int) {
    forall i :: 0 <= i < |v| ==> v[i].kind == k && v[i].domain == d
  }

  lemma {:induction false} NoneOfDomain(all: seq<UrlInfo>, d: string, m: nat, n: nat)
    requires m <= n <= |all| && forall i :: m <= i < n ==> all[i].domain != d
    ensures OfDomain(all, d, n) == OfDomain(all, d, m)
    decreases n
  {
    if m < n {
      NoneOfDomain(all, d, m, n - 1);
    }
  }

  lemma DrainedOne(k: int, q: seq<UrlInfo>, a: seq<UrlInfo>, b: seq<UrlInfo>)
    requires 2 <= k <= 3 && forall i :: 0 <= i < |q| ==> q[i].kind == k
    requires if k == 3 then a == q && b == [] else a == [] && b == q
    ensures Drained(a, b, [], []) == q && |a| + |b| == |q|
  {
    assert Retag(q, k) == q && Retag([], 3) == [] && Retag([], 2) == [] && Retag([], 0) == [] && Retag([], 1) == [];
  }

  lemma OneSeed(order: seq<string>, domains: map<string, DomainAttr>, d: string)
    requires order == [d] && domains == map[d := DomainAttr(0, 1)]
    ensures Enumerates(order, domains.Keys)
    ensures NamesOf(order, domains, Priority, 1) == [d] && NamesOf(order, domains, Ordinary, 1) == []
  {
    OnlyName(order, domains, Priority, d);
    OnlyName(order, domains, Ordinary, d);
  }

  /** A round whose only known domain is a seed with the URLs `v`, beside those of another domain. */
  lemma CrowdedRound(conf: SelectConf, k: int, v: seq<UrlInfo>, w: seq<UrlInfo>) returns (r: RoundIn)
    requires conf.Valid() && 2 <= k <= 3 && Uniform(v, OWN, k) && Uniform(w, STRANGE, k)
    ensures r.Valid() && OwnPools(r) && r.conf == conf && r.PrioLinks() == |v| + |w|
    ensures Names(r, Priority) == [OWN] && Names(r, Ordinary) == []
    ensures VectorIs(r.All(), OWN, v)
  {
    var q := v + w;
    if k == 3 {
      r := RoundIn(conf, [OWN], map[OWN := DomainAttr(0, 1)], q, [], [], []);
    } else {
      r := RoundIn(conf, [OWN], map[OWN := DomainAttr(0, 1)], [], q, [], []);
    }
    OneSeed(r.order, r.domains, OWN);
    DrainedOne(k, q, r.cpq, r.ipq);
    CrowdedVector(v, w, q, k);
    OwnKindsOnly(r, k, q);
  }

  predicate VectorIs(all: seq<UrlInfo>, d: string, v: seq<UrlInfo>) {
    OfDomain(all, d, |all|) == v
  }

  lemma {:induction false} OfDomainConcat(a: seq<UrlInfo>, b: seq<UrlInfo>, d: string, n: nat)
    requires n <= |b|
    ensures OfDomain(a + b, d, |a| + n) == OfDomain(a, d, |a|) + OfDomain(b, d, n)
    decreases n
  {
    if n == 0 {
      OfDomainPrefix(a, b, d, |a|);
    } else {
      OfDomainConcat(a, b, d, n - 1);
    }
  }

  /** The vector of a domain in two lists after each other. */
  lemma VectorsJoin(a: seq<UrlInfo>, b: seq<UrlInfo>, d: string, x: seq<UrlInfo>, y: seq<UrlInfo>)
    requires VectorIs(a, d, x) && VectorIs(b, d, y)
    ensures VectorIs(a + b, d, x + y)
  {
    OfDomainConcat(a, b, d, |b|);
  }

  lemma OwnKindsOnly(r: RoundIn, k: int, q: seq<UrlInfo>)
    requires 2 <= k <= 3 && Names(r, Ordinary) == [] && r.All() == q && forall i :: 0 <= i < |q| ==> q[i].kind == k
    ensures OwnPools(r)
  {
  }

  lemma CrowdedVector(v: seq<UrlInfo>, w: seq<UrlInfo>, q: seq<UrlInfo>, k: int)
    requires q == v + w && Uniform(v, OWN, k) && Uniform(w, STRANGE, k)
    ensures VectorIs(q, OWN, v)
  {
    AllOfDomain(q, OWN, |v|);
    assert q[..|v|] == v;
    NoneOfDomain(q, OWN, |v|, |q|);
  }

  lemma RoomBackfills(conf: SelectConf, size: nat, links: nat)
    requires conf.Valid() && size <= links && !LeavesNoRoom(conf, size, links)
    ensures CanBackfill(conf)
  {
    var q := QuotaFor(conf, conf.PrioNum(), size, links);
    RoomNeedsLinks(conf, size, links);
    var n := q.cate + q.item + 1;
    var k := if q.cate < Priority.Cap(q) - BACKFILL_SLACK then 3 else 2;
    ScaledQuota(conf, conf.PrioNum(), size, links, n);
    var a, b := ScaleParts(n, size, links);
    CrowdedBackfills(conf, k, a, b, q);
  }

  lemma ScaleParts(n: nat, size: nat, links: nat) returns (a: nat, b: nat)
    requires 0 < size <= links
    ensures a == n * size && a + b == n * links && a >= n
  {
    assert n * size >= n && n * (links - size) >= 0 && n * size + n * (links - size) == n * links;
    a, b := n * size, n * (links - size);
  }

  lemma RoomNeedsLinks(conf: SelectConf, size: nat, links: nat)
    requires conf.Valid() && size <= links && !LeavesNoRoom(conf, size, links)
    ensures size > 0
  {
  }

  lemma CrowdedBackfills(conf: SelectConf, k: int, n: nat, m: nat, q: Quota)
    requires conf.Valid() && 2 <= k <= 3 && q == QuotaFor(conf, conf.PrioNum(), n, n + m)
    requires n > QuotaOf(Priority, q, k) && QuotaOf(Priority, q, k) < Priority.Cap(q) - BACKFILL_SLACK
    ensures CanBackfill(conf)
  {
    var v := Several(OWN, k, n);
    var w := Several(STRANGE, k, m);
    var back := Several(OWN, k, 5);
    var r := CrowdedRound(conf, k, v, w);
    UniformBackfills(v, Priority, q, k, back);
    SingleBackfills(r, OWN, v, q, back);
    BackfillShown(conf, r, Lists([], [], back));
  }

  lemma BackfillShown(conf: SelectConf, r: RoundIn, lists: Lists)
    requires conf.Valid() && r.Valid() && OwnPools(r) && r.conf == conf && PrioBackfill(r, lists, map[], map[]) > 0
    ensures CanBackfill(conf)
  {
  }

  /** A round whose only priority domain is backfilled. */
  lemma SingleBackfills(r: RoundIn, d: string, v: seq<UrlInfo>, q: Quota, back: seq<UrlInfo>)
    requires r.Valid() && Names(r, Priority) == [d] && VectorIs(r.All(), d, v)
    requires q == QuotaFor(r.conf, r.conf.PrioNum(), |v|, r.PrioLinks()) && BackfillsAt(v, Priority, q, [], back)
    ensures PrioBackfill(r, Lists([], [], back), map[], map[]) > 0
  {
    ValidPlans(r);
    OnePass(PrioPlan(r), PrioStart(Lists([], [], back), map[], map[]));
  }

  /** Exactly when settings let some round backfill a priority domain: when some part of the links gives a
      domain quotas that leave room. */
  lemma CanBackfillIff(conf: SelectConf)
    requires conf.Valid()
    ensures CanBackfill(conf) <==> exists size, links :: 0 <= size <= links && !LeavesNoRoom(conf, size, links)
  {
    if size, links :| 0 <= size <= links && !LeavesNoRoom(conf, size, links) {
      RoomBackfills(conf, size, links);
    } else {
      forall r: RoundIn, lists | r.Valid() && OwnPools(r) && r.conf == conf
        ensures PrioBackfill(r, lists, map[], map[]) == 0
      {
        SettingsLeaveNoRoom(r);
        NoRoomNoBackfill(r, lists, map[], map[]);
      }
    }
  }

  // ---------- a round over the budget ----------

  /** 1000 URLs wanted, all from priority domains, 99 categories for every item; one seed domain with the
      priority items `v`. */
  function Overshoot(d: string, v: seq<UrlInfo>): RoundIn {
    RoundIn(SelectConf(1000, 0, 10, 99, 1), [d], map[d := DomainAttr(0, 1)], [], v, [], [])
  }

  lemma OvershootNames(d: string, r: RoundIn, v: seq<UrlInfo>)
    requires |v| == 1500 && Uniform(v, d, 2) && r == Overshoot(d, v)
    ensures r.Valid() && Names(r, Priority) == [d] && Names(r, Ordinary) == [] && r.All() == v
  {
    OneSeed(r.order, r.domains, d);
    DrainedOne(2, v, r.cpq, r.ipq);
  }

  lemma OvershootQuota(d: string, r: RoundIn, v: seq<UrlInfo>)
    requires |v| == 1500 && r == Overshoot(d, v)
    ensures QuotaFor(r.conf, r.conf.PrioNum(), 1500, r.PrioLinks()) == Quota(990, 11)
  {
  }

  lemma WholeVector(v: seq<UrlInfo>, d: string, k: int)
    requires Uniform(v, d, k)
    ensures VectorIs(v, d, v)
  {
    AllOfDomain(v, d, |v|);
    assert v[..|v|] == v;
  }

  /** The selection of a round whose only domain is a seed, with empty lists before it. */
  lemma SingleSelection(r: RoundIn, d: string, v: seq<UrlInfo>, q: Quota)
    requires r.Valid() && r.order == [d] && d in r.domains && Selected(r.domains[d], Priority)
    requires VectorIs(r.All(), d, v) && q == QuotaFor(r.conf, r.conf.PrioNum(), |v|, r.PrioLinks())
    ensures Selection(r, Lists([], [], []), map[], map[]) == |DomainTally(v, Priority, q, [], []).buffer|
  {
    OneDomain(r, d, Priority, Lists([], [], []));
    OnlyTallyIs(r, d, Priority, Lists([], [], []), v, q);
  }

  lemma OvershootSize(v: seq<UrlInfo>, d: string)
    requires |v| == 1500 && Uniform(v, d, 2)
    ensures |SplitVector(v, Priority, Quota(990, 11)).picks| == 11
    ensures |DomainTally(v, Priority, Quota(990, 11), [], []).buffer| == 1495
  {
    UniformSplit(v, Priority, Quota(990, 11), 2);
  }

  /** The scans pick 11 URLs and the backfill adds 1484: the selection of the round is far above the
      wanted number and 20 for its one domain. */
  lemma SelectionCanOvershoot(d: string, v: seq<UrlInfo>)
    requires |v| == 1500 && Uniform(v, d, 2)
    ensures var r := Overshoot(d, v);
            && r.Valid() && OwnPools(r) && r.conf.priorityQuota <= 10
            && Selection(r, Lists([], [], []), map[], map[]) == 1495
            && r.conf.selectNums + 20 * (|Names(r, Priority)| + |Names(r, Ordinary)|) == 1020
  {
    var r := Overshoot(d, v);
    OvershootNames(d, r, v);
    OwnKindsOnly(r, 2, v);
    WholeVector(v, d, 2);
    OvershootQuota(d, r, v);
    SingleSelection(r, d, v, Quota(990, 11));
    OvershootSize(v, d);
  }
}
