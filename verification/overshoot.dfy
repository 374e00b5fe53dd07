/** Exactly which settings keep the selection of every round within the wanted number and 20 a domain. The
    worst round has one priority domain, which is backfilled up to twice its category quota, and one
    ordinary domain, which takes what the scans of the first did not pick. */
module Overshoots {
  import opened UrlPools
  import opened Arithmetic
  import opened Scans
  import opened Rounds
  import opened RoundLaws
  import opened Budgets
  import opened Statistics

  // ---------- quotas of a share ----------

  /** The category part of `y / l` wanted URLs, rounded down. */
  function CatPart(conf: SelectConf, y: nat, l: nat): int
    requires conf.Valid() && l > 0
  {
    PositiveProduct(conf.catePercent + conf.itemPercent, l);
    conf.catePercent * y / ((conf.catePercent + conf.itemPercent) * l)
  }

  lemma PositiveProduct(a: nat, b: nat)
    requires a > 0 && b > 0
    ensures a * b > 0
  {
  }

  /** The quotas for `y / l` wanted URLs, of which `a` are categories, out of `t`. */
  function QuotaOfParts(a: int, t: int): Quota {
    Quota(Max(a, MIN_QUOTA), Max(t - a + 1, MIN_QUOTA))
  }

  function ShareQuota(conf: SelectConf, y: nat, l: nat): Quota
    requires conf.Valid() && l > 0
  {
    QuotaOfParts(CatPart(conf, y, l), y / l)
  }

  lemma QuotaOfShare(conf: SelectConf, num: nat, size: nat, links: nat)
    requires conf.Valid() && links > 0
    ensures num * size >= 0
    ensures QuotaFor(conf, num, size, links) == ShareQuota(conf, num * size, links)
  {
    var percent, x := (conf.catePercent + conf.itemPercent) * links, num * size;
    PositiveProduct(conf.catePercent + conf.itemPercent, links);
    assert x >= 0 && conf.catePercent * x >= 0;
    QuotaFromShares(conf, num, size, links, percent, x, conf.catePercent * x, CatPart(conf, x, links), x / links);
  }

  /** What quotas exceed 20 by; what twice the category quota exceeds 20 by. */
  function Spare(q: Quota): int {
    q.cate + q.item - 20
  }

  function Double(q: Quota): int {
    2 * q.cate - 20
  }

  /** The fewest URLs that the scans can pick from a vector that is not used up. */
  function Fewest(q: Quota): nat {
    Min(q.cate, q.item)
  }

  // ---------- how parts of shares add up ----------

  lemma FloorAddUp(a: nat, b: nat, l: nat)
    requires l > 0
    ensures (a + b) / l <= a / l + b / l + 1
  {
    var x, y := a / l, b / l;
    assert a == l * x + a % l && b == l * y + b % l;
    assert a + b < l * (x + y + 2);
    DivLess(a + b, l, x + y + 1);
  }

  /** The parts of a sum are the sums of the parts, or one more. */
  predicate AddUp(a1: int, a2: int, a: int) {
    a1 + a2 <= a <= a1 + a2 + 1
  }

  lemma PartsAddUp(conf: SelectConf, y1: nat, y2: nat, l: nat)
    requires conf.Valid() && l > 0
    ensures AddUp(CatPart(conf, y1, l), CatPart(conf, y2, l), CatPart(conf, y1 + y2, l))
    ensures AddUp(y1 / l, y2 / l, (y1 + y2) / l)
  {
    var c, percent := conf.catePercent, (conf.catePercent + conf.itemPercent) * l;
    PositiveProduct(conf.catePercent + conf.itemPercent, l);
    assert c * (y1 + y2) == c * y1 + c * y2;
    assert c * y1 >= 0 && c * y2 >= 0;
    FloorAdd(c * y1, c * y2, percent);
    FloorAddUp(c * y1, c * y2, percent);
    FloorAdd(y1, y2, l);
    FloorAddUp(y1, y2, l);
  }

  /** There are no more categories than URLs; and at least, or at most, half of them, as the percentages
      say. */
  lemma PartsOrdered(conf: SelectConf, y: nat, l: nat)
    requires conf.Valid() && l > 0
    ensures 0 <= CatPart(conf, y, l) <= y / l
    ensures conf.catePercent >= conf.itemPercent ==> y / l <= 2 * CatPart(conf, y, l) + 1
    ensures conf.catePercent <= conf.itemPercent ==> 2 * CatPart(conf, y, l) <= y / l
  {
    var c, sum := conf.catePercent, conf.catePercent + conf.itemPercent;
    var a := CatPart(conf, y, l);
    PositiveProduct(sum, l);
    DivByProduct(c, sum, y, l);
    PartMeaning(c, sum, y, l, a);
    assert c * y >= 0;
    if c >= conf.itemPercent {
      HalfBelow(c, sum, y, l, a);
    }
    if c <= conf.itemPercent {
      HalfAbove(c, sum, y, l, a);
    }
  }

  lemma PartMeaning(c: nat, sum: nat, y: nat, l: nat, a: int)
    requires sum > 0 && l > 0 && sum * l > 0 && a == c * y / (sum * l)
    ensures 0 <= a && a * (sum * l) <= c * y < (a + 1) * (sum * l)
  {
    assert c * y >= 0;
    FloorMeaning(c * y, sum * l, a);
  }

  lemma HalfBelow(c: nat, sum: nat, y: nat, l: nat, a: nat)
    requires c > 0 && sum > 0 && l > 0 && sum <= 2 * c && c * y < (a + 1) * (sum * l)
    ensures y / l <= 2 * a + 1
  {
    assert sum * y <= 2 * c * y;
    assert 2 * (c * y) < 2 * ((a + 1) * (sum * l));
    assert 2 * ((a + 1) * (sum * l)) == sum * (l * (2 * a + 2));
    MulCancel(sum, y, l * (2 * a + 2));
    DivLess(y, l, 2 * a + 1);
  }

  lemma HalfAbove(c: nat, sum: nat, y: nat, l: nat, a: nat)
    requires c > 0 && sum > 0 && l > 0 && 2 * c <= sum && a * (sum * l) <= c * y
    ensures 2 * a <= y / l
  {
    assert 2 * (c * y) <= sum * y;
    assert 2 * (a * (sum * l)) == sum * (l * (2 * a));
    assert sum * (l * (2 * a)) < sum * (y + 1);
    MulCancel(sum, l * (2 * a), y + 1);
    MulCancel(l, 2 * a, y / l + 1);
  }

  // ---------- merging the shares of two domains ----------

  /** Two domains of a class spare no more than one of them or one with both shares. */
  lemma SpareMerges(a1: int, t1: int, a2: int, t2: int, a: int, t: int)
    requires 0 <= a1 <= t1 && 0 <= a2 <= t2 && AddUp(a1, a2, a) && AddUp(t1, t2, t)
    ensures var s1, s2 := Spare(QuotaOfParts(a1, t1)), Spare(QuotaOfParts(a2, t2));
            s1 + s2 <= Max(Spare(QuotaOfParts(a, t)), Max(s1, s2))
  {
  }

  /** Two domains that can be backfilled push 20 less than one with both shares, and their scans pick no
      more than 20 less. */
  lemma BackfilledMerge(a1: int, t1: int, a2: int, t2: int, a: int, t: int, more: bool)
    requires 16 <= a1 <= t1 && 16 <= a2 <= t2 && AddUp(a1, a2, a) && AddUp(t1, t2, t)
    requires if more then t1 <= 2 * a1 + 1 && t2 <= 2 * a2 + 1 else 2 * a1 <= t1 && 2 * a2 <= t2
    ensures var q1, q2, q := QuotaOfParts(a1, t1), QuotaOfParts(a2, t2), QuotaOfParts(a, t);
            && Double(q1) + Double(q2) + 20 <= Double(q)
            && Fewest(q) <= Fewest(q1) + Fewest(q2) + 20
            && 2 * q.cate - Fewest(q) > 20
  {
  }

  // ---------- what an ordinary domain can add ----------

  /** With `num` URLs wanted, some share of the links gives a domain quotas that spare `v`. */
  ghost predicate Adds(conf: SelectConf, num: int, v: int)
    requires conf.Valid()
  {
    exists y: nat, l: nat :: AddsWith(conf, num, v, y, l)
  }

  predicate AddsWith(conf: SelectConf, num: int, v: int, y: nat, l: nat)
    requires conf.Valid()
  {
    l > 0 && y <= num * l && v <= Spare(ShareQuota(conf, y, l))
  }

  lemma AddsMore(conf: SelectConf, num: int, v: int, num': int, v': int)
    requires conf.Valid() && Adds(conf, num, v) && num <= num' && v' <= v
    ensures Adds(conf, num', v')
  {
    var y: nat, l: nat :| AddsWith(conf, num, v, y, l);
    assert num * l <= num' * l;
    assert AddsWith(conf, num', v', y, l);
  }

  lemma AddsNothing(conf: SelectConf, num: nat, v: int)
    requires conf.Valid() && v <= 0
    ensures Adds(conf, num, v)
  {
    assert Spare(ShareQuota(conf, 0, 1)) >= 0;
    assert AddsWith(conf, num, v, 0, 1);
  }

  /** A whole number of wanted URLs spares all but 20 of them. */
  lemma AddsAllBut20(conf: SelectConf, num: nat, v: int)
    requires conf.Valid() && v <= Max(num - 20, 0)
    ensures Adds(conf, num, v)
  {
    PartsOrdered(conf, num, 1);
    assert AddsWith(conf, num, v, num, 1);
  }

  /** The whole-share part is at least the category part of a single URL's share. */
  lemma StepBack(conf: SelectConf, y: nat, l: nat)
    requires conf.Valid() && 0 < l <= y
    ensures Spare(ShareQuota(conf, y, l)) <= Spare(ShareQuota(conf, y - l, l)) + 1
  {
    PartsAddUp(conf, y - l, l, l);
    NoCategory(conf, l);
    DivMinusOne(y, l);
    PartsOrdered(conf, y, l);
    PartsOrdered(conf, y - l, l);
  }

  lemma NoCategory(conf: SelectConf, l: nat)
    requires conf.Valid() && l > 0
    ensures CatPart(conf, l, l) == 0
  {
    var c, sum := conf.catePercent, conf.catePercent + conf.itemPercent;
    PositiveProduct(sum, l);
    PartMeaning(c, sum, l, l, CatPart(conf, l, l));
    assert c * l < 1 * (sum * l);
    MulCancel(sum * l, CatPart(conf, l, l), 1);
  }

  lemma SmallShare(conf: SelectConf, y: nat, l: nat)
    requires conf.Valid() && y < l
    ensures Spare(ShareQuota(conf, y, l)) == 0
  {
    PartsOrdered(conf, y, l);
  }

  /** One URL less wanted spares at most one less. */
  lemma AddsOneLess(conf: SelectConf, num: int, v: int)
    requires conf.Valid() && num > 0 && Adds(conf, num, v)
    ensures Adds(conf, num - 1, v - 1)
  {
    var y: nat, l: nat :| AddsWith(conf, num, v, y, l);
    if y < l {
      SmallShare(conf, y, l);
      AddsNothing(conf, num - 1, v - 1);
    } else {
      OneLessWith(conf, num, v, y, l);
    }
  }

  lemma OneLessWith(conf: SelectConf, num: int, v: int, y: nat, l: nat)
    requires conf.Valid() && num > 0 && AddsWith(conf, num, v, y, l) && y >= l
    ensures Adds(conf, num - 1, v - 1)
  {
    StepBack(conf, y, l);
    assert (num - 1) * l == num * l - l;
    assert AddsWith(conf, num - 1, v - 1, y - l, l);
  }

  lemma {:induction false} AddsLess(conf: SelectConf, num: int, v: int, n: nat)
    requires conf.Valid() && num >= n && Adds(conf, num, v)
    ensures Adds(conf, num - n, v - n)
    decreases n
  {
    if n > 0 {
      AddsOneLess(conf, num, v);
      AddsLess(conf, num - 1, v - 1, n - 1);
    }
  }

  lemma ScaledShare(conf: SelectConf, y: nat, l: nat, n: nat)
    requires conf.Valid() && l > 0 && n > 0
    ensures n * l > 0 && n * y >= 0 && ShareQuota(conf, n * y, n * l) == ShareQuota(conf, y, l)
  {
    var c, sum := conf.catePercent, conf.catePercent + conf.itemPercent;
    PositiveProduct(n, l);
    PositiveProduct(sum, l);
    assert c * y >= 0;
    ScaledDiv(y, l, n);
    ScaledDiv(c * y, sum * l, n);
    MulSwap(c, n, y);
    MulSwap(sum, n, l);
  }

  /** Two shares of the same links. */
  lemma SharesMerge(conf: SelectConf, y1: nat, y2: nat, l: nat) returns (y: nat)
    requires conf.Valid() && l > 0
    ensures y <= y1 + y2
    ensures Spare(ShareQuota(conf, y1, l)) + Spare(ShareQuota(conf, y2, l)) <= Spare(ShareQuota(conf, y, l))
  {
    PartsAddUp(conf, y1, y2, l);
    PartsOrdered(conf, y1, l);
    PartsOrdered(conf, y2, l);
    SpareMerges(CatPart(conf, y1, l), y1 / l, CatPart(conf, y2, l), y2 / l, CatPart(conf, y1 + y2, l), (y1 + y2) / l);
    var s1, s2 := Spare(ShareQuota(conf, y1, l)), Spare(ShareQuota(conf, y2, l));
    y := if s1 + s2 <= s1 then y1 else if s1 + s2 <= s2 then y2 else y1 + y2;
  }

  /** What is spared with two wanted numbers is spared with their sum. */
  lemma AddsTogether(conf: SelectConf, num1: nat, v1: int, num2: nat, v2: int)
    requires conf.Valid() && Adds(conf, num1, v1) && Adds(conf, num2, v2)
    ensures Adds(conf, num1 + num2, v1 + v2)
  {
    var y1: nat, l1: nat :| AddsWith(conf, num1, v1, y1, l1);
    var y2: nat, l2: nat :| AddsWith(conf, num2, v2, y2, l2);
    TogetherWith(conf, num1, v1, y1, l1, num2, v2, y2, l2);
  }

  lemma TogetherWith(conf: SelectConf, num1: nat, v1: int, y1: nat, l1: nat, num2: nat, v2: int, y2: nat, l2: nat)
    requires conf.Valid() && AddsWith(conf, num1, v1, y1, l1) && AddsWith(conf, num2, v2, y2, l2)
    ensures Adds(conf, num1 + num2, v1 + v2)
  {
    var l := l2 * l1;
    ScaledShare(conf, y1, l1, l2);
    ScaledShare(conf, y2, l2, l1);
    assert l1 * l2 == l;
    var y := SharesMerge(conf, l2 * y1, l1 * y2, l);
    ProductBound(y1, num1, l1, l2);
    ProductBound(y2, num2, l2, l1);
    assert (num1 + num2) * l == num1 * l + num2 * l;
    assert AddsWith(conf, num1 + num2, v1 + v2, y, l);
  }

  lemma ProductBound(y: nat, num: nat, l: nat, k: nat)
    requires y <= num * l
    ensures k * y <= num * (k * l)
  {
    assert k * y <= k * (num * l) == num * (k * l);
  }

  /** For a wanted number such shares are those of some domain and its class's links. */
  lemma AddsIsDomain(conf: SelectConf, num: nat, v: int) returns (size: nat, links: nat)
    requires conf.Valid() && Adds(conf, num, v)
    ensures size <= links && v <= Spare(QuotaFor(conf, num, size, links))
  {
    var y: nat, l: nat :| AddsWith(conf, num, v, y, l);
    if num == 0 {
      SmallShare(conf, y, l);
      size, links := 0, 0;
    } else {
      size, links := y, num * l;
      PositiveProduct(num, l);
      QuotaOfShare(conf, num, size, links);
      ScaledShare(conf, y, l, num);
    }
  }

  lemma DomainAdds(conf: SelectConf, num: nat, size: nat, links: nat)
    requires conf.Valid() && size <= links
    ensures Adds(conf, num, Spare(QuotaFor(conf, num, size, links)))
  {
    if links == 0 {
      AddsNothing(conf, num, 0);
    } else {
      QuotaOfShare(conf, num, size, links);
      assert num * size <= num * links;
      assert AddsWith(conf, num, Spare(QuotaFor(conf, num, size, links)), num * size, links);
    }
  }

  // ---------- the two passes ----------

  /** What a domain of this size exceeds 20 by. */
  function SizeSpare(conf: SelectConf, num: nat, size: nat, links: nat): int
    requires conf.Valid() && links > 0
  {
    Spare(ShareQuota(conf, num * size, links))
  }

  /** Two domains of a class, by their sizes. */
  lemma SizesMerge(conf: SelectConf, num: nat, s1: nat, s2: nat, links: nat) returns (s: nat)
    requires conf.Valid() && links > 0
    ensures s <= s1 + s2
    ensures SizeSpare(conf, num, s1, links) + SizeSpare(conf, num, s2, links) <= SizeSpare(conf, num, s, links)
  {
    assert num * (s1 + s2) == num * s1 + num * s2;
    var y1, y2 := num * s1, num * s2;
    PartsAddUp(conf, y1, y2, links);
    PartsOrdered(conf, y1, links);
    PartsOrdered(conf, y2, links);
    SpareMerges(CatPart(conf, y1, links), y1 / links, CatPart(conf, y2, links), y2 / links,
                CatPart(conf, y1 + y2, links), (y1 + y2) / links);
    var a, b := Spare(ShareQuota(conf, y1, links)), Spare(ShareQuota(conf, y2, links));
    s := if a + b <= a then s1 else if a + b <= b then s2 else s1 + s2;
  }

  /** What a pass pushes beyond 20 for each domain so far. */
  ghost function Excess(plan: Plan, start: Pass, m: nat): int
    requires plan.Valid() && m <= |plan.names|
  {
    |RunPass(plan, start, m).buffer| - |start.buffer| - 20 * m
  }

  /** What the ordinary domains push beyond 20 each is spared by one of them. */
  lemma {:induction false} OrdinarySpares(plan: Plan, start: Pass, m: nat) returns (s: nat)
    requires plan.Valid() && plan.cls == Ordinary && plan.num >= 0 && plan.links > 0 && m <= |plan.names|
    ensures s <= |Gather(plan.all, plan.names, m)|
    ensures Excess(plan, start, m) <= SizeSpare(plan.conf, plan.num, s, plan.links)
    decreases m
  {
    if m == 0 {
      s := 0;
      NothingSpared(plan.conf, plan.num, plan.links);
    } else {
      var k := m - 1;
      var s1 := OrdinarySpares(plan, start, k);
      OrdinaryStep(plan, start, k, m);
      s := SizesMerge(plan.conf, plan.num, s1, |plan.Vector(k)|, plan.links);
    }
  }

  lemma NothingSpared(conf: SelectConf, num: nat, links: nat)
    requires conf.Valid() && links > 0
    ensures SizeSpare(conf, num, 0, links) >= 0
  {
  }

  lemma OrdinaryStep(plan: Plan, start: Pass, k: nat, m: nat)
    requires plan.Valid() && plan.cls == Ordinary && plan.num >= 0 && plan.links > 0 && m == k + 1 <= |plan.names|
    ensures Excess(plan, start, m)
         <= Excess(plan, start, k) + SizeSpare(plan.conf, plan.num, |plan.Vector(k)|, plan.links)
    ensures |Gather(plan.all, plan.names, m)| == |Gather(plan.all, plan.names, k)| + |plan.Vector(k)|
  {
    GrowthCounted(plan, start, k, m);
    QuotaOfShare(plan.conf, plan.num, |plan.Vector(k)|, plan.links);
  }

  /** The priority domains so far: what the backfilled ones pushed beyond 20 each, how much their scans
      picked, and how many URLs they have; and the same for the others, with a size that spares as much. */
  datatype Account = Account(
    backfilled: nat, pushed: int, picked: int, size: nat, slack: nat,
    otherPicked: int, spare: int, otherSize: nat, best: nat)

  /** The backfilled domains are no better than a single one with all their URLs. */
  predicate Backed(conf: SelectConf, num: nat, links: nat, a: Account)
    requires conf.Valid() && links > 0
  {
    if a.backfilled == 0 then a.pushed == 0 && a.picked == 0 && a.size == 0
    else
      var q := ShareQuota(conf, num * a.size, links);
      && CatPart(conf, num * a.size, links) >= 16 && 2 * q.cate - Fewest(q) > 20
      && a.pushed <= Double(q) - a.slack && a.picked >= Fewest(q) - a.slack
  }

  predicate Others(conf: SelectConf, num: nat, links: nat, a: Account)
    requires conf.Valid() && links > 0
  {
    && a.otherPicked >= 0 && a.spare <= Max(a.otherPicked - 20, 0)
    && a.best <= a.otherSize && a.spare <= Spare(ShareQuota(conf, num * a.best, links))
  }

  ghost predicate Accounted(plan: Plan, start: Pass, m: nat, a: Account)
    requires plan.Valid() && m <= |plan.names|
  {
    var p := RunPass(plan, start, m);
    && |p.buffer| - |start.buffer| - 20 * m == a.pushed + a.spare
    && p.picked - start.picked == a.picked + a.otherPicked
    && |Gather(plan.all, plan.names, m)| == a.size + a.otherSize
  }

  lemma OneMoreBackfilled(conf: SelectConf, num: nat, links: nat, a: Account, size: nat, g: nat, k: nat)
      returns (a': Account)
    requires conf.Valid() && links > 0 && Backed(conf, num, links, a)
    requires var q := QuotaFor(conf, num, size, links); Fewest(q) <= k < 2 * q.cate - 20 && g <= 2 * q.cate
    ensures Backed(conf, num, links, a')
    ensures a' == a.(backfilled := a'.backfilled, pushed := a.pushed + g - 20, picked := a.picked + k,
                     size := a.size + size, slack := a'.slack)
  {
    a' := a.(backfilled := a.backfilled + 1, pushed := a.pushed + g - 20, picked := a.picked + k,
             size := a.size + size, slack := if a.backfilled == 0 then 0 else a.slack + 20);
    QuotaOfShare(conf, num, size, links);
    if a.backfilled > 0 {
      MergeBackfilled(conf, num, links, a.size, size);
    }
  }

  lemma MergeBackfilled(conf: SelectConf, num: nat, links: nat, s1: nat, s2: nat)
    requires conf.Valid() && links > 0
    requires CatPart(conf, num * s1, links) >= 16 && CatPart(conf, num * s2, links) >= 16
    ensures var q1, q2, q := ShareQuota(conf, num * s1, links), ShareQuota(conf, num * s2, links),
                             ShareQuota(conf, num * (s1 + s2), links);
            && CatPart(conf, num * (s1 + s2), links) >= 16
            && Double(q1) + Double(q2) + 20 <= Double(q)
            && Fewest(q) <= Fewest(q1) + Fewest(q2) + 20
            && 2 * q.cate - Fewest(q) > 20
  {
    var y1, y2, y := num * s1, num * s2, num * (s1 + s2);
    assert y == y1 + y2;
    PartsAddUp(conf, y1, y2, links);
    PartsOrdered(conf, y1, links);
    PartsOrdered(conf, y2, links);
    BackfilledMerge(CatPart(conf, y1, links), y1 / links, CatPart(conf, y2, links), y2 / links,
                    CatPart(conf, y, links), y / links, conf.catePercent >= conf.itemPercent);
  }

  lemma OneMoreOther(conf: SelectConf, num: nat, links: nat, a: Account, size: nat, k: nat) returns (a': Account)
    requires conf.Valid() && links > 0 && Others(conf, num, links, a)
    requires k - 20 <= Spare(QuotaFor(conf, num, size, links))
    ensures Others(conf, num, links, a')
    ensures a' == a.(otherPicked := a.otherPicked + k, spare := a.spare + k - 20, otherSize := a.otherSize + size,
                     best := a'.best)
  {
    QuotaOfShare(conf, num, size, links);
    var s := SizesMerge(conf, num, a.best, size, links);
    a' := a.(otherPicked := a.otherPicked + k, spare := a.spare + k - 20, otherSize := a.otherSize + size, best := s);
  }

  lemma {:induction false} PassAccount(plan: Plan, start: Pass, m: nat) returns (a: Account)
    requires plan.Valid() && plan.cls == Priority && plan.num >= 0 && plan.links > 0 && m <= |plan.names|
    ensures Backed(plan.conf, plan.num, plan.links, a) && Others(plan.conf, plan.num, plan.links, a)
    ensures Accounted(plan, start, m, a)
    decreases m
  {
    if m == 0 {
      a := Account(0, 0, 0, 0, 0, 0, 0, 0, 0);
      NothingSpared(plan.conf, plan.num, plan.links);
    } else {
      var k := m - 1;
      var b := PassAccount(plan, start, k);
      a := StepAccount(plan, start, k, m, b);
    }
  }

  lemma StepAccount(plan: Plan, start: Pass, k: nat, m: nat, b: Account) returns (a: Account)
    requires plan.Valid() && plan.cls == Priority && plan.num >= 0 && plan.links > 0 && m == k + 1 <= |plan.names|
    requires Backed(plan.conf, plan.num, plan.links, b) && Others(plan.conf, plan.num, plan.links, b)
    requires Accounted(plan, start, k, b)
    ensures Backed(plan.conf, plan.num, plan.links, a) && Others(plan.conf, plan.num, plan.links, a)
    ensures Accounted(plan, start, m, a)
  {
    var g, picks := StepGrowth(plan, start, k, m);
    var size := |plan.Vector(k)|;
    assert |Gather(plan.all, plan.names, m)| == |Gather(plan.all, plan.names, k)| + size;
    if g == picks {
      a := OneMoreOther(plan.conf, plan.num, plan.links, b, size, picks);
    } else {
      a := OneMoreBackfilled(plan.conf, plan.num, plan.links, b, size, g, picks);
    }
  }

  lemma StepGrowth(plan: Plan, start: Pass, k: nat, m: nat) returns (g: nat, picks: nat)
    requires plan.Valid() && plan.cls == Priority && m == k + 1 <= |plan.names|
    ensures var p, p' := RunPass(plan, start, k), RunPass(plan, start, m);
            g == |p'.buffer| - |p.buffer| && picks == p'.picked - p.picked
    ensures var q := QuotaFor(plan.conf, plan.num, |plan.Vector(k)|, plan.links);
            && picks <= q.cate + q.item
            && (g != picks ==> Fewest(q) <= picks < 2 * q.cate - 20 && g <= 2 * q.cate)
  {
    var p := RunPass(plan, start, k);
    GrowthCounted(plan, start, k, m);
    IterationOutcome(plan.Vector(k), plan.cls, plan.QuotaAt(k), p.buffer, p.back);
    g := |RunPass(plan, start, m).buffer| - |p.buffer|;
    picks := RunPass(plan, start, m).picked - p.picked;
  }

  // ---------- a round over the budget has such domains ----------

  /** One priority domain and one ordinary domain, by their sizes and their classes' links: the first is
      backfilled after its scans pick as few URLs as they can, and both together are over the budget. */
  predicate OvershootAt(conf: SelectConf, size: nat, links: nat, size': nat, links': nat)
    requires conf.Valid()
  {
    var q := QuotaFor(conf, conf.PrioNum(), size, links);
    var o := QuotaFor(conf, conf.selectNums - Fewest(q), size', links');
    && size <= links && size' <= links'
    && 2 * q.cate - Fewest(q) > 20
    && 2 * q.cate + o.cate + o.item - 40 > conf.selectNums
  }

  ghost predicate HasOvershoot(conf: SelectConf)
    requires conf.Valid()
  {
    exists size, links, size', links' :: OvershootAt(conf, size, links, size', links')
  }

  /** A round of these settings, with URLs in their own classes' pools, selects more than wanted and 20 for
      every domain. */
  ghost predicate Overshoots(r: RoundIn, lists: Lists)
    requires r.Valid()
  {
    OwnPools(r) &&
    Selection(r, lists, map[], map[]) > r.conf.selectNums + 20 * (|Names(r, Priority)| + |Names(r, Ordinary)|)
  }

  lemma SpareAtMost(conf: SelectConf, y: nat, l: nat, num: nat)
    requires conf.Valid() && l > 0 && y <= l * num
    ensures Spare(ShareQuota(conf, y, l)) <= num
  {
    PartsOrdered(conf, y, l);
    FloorMono(y, num, l);
  }

  lemma AddsAtMost(conf: SelectConf, num: nat, v: int)
    requires conf.Valid() && Adds(conf, num, v)
    ensures v <= num
  {
    var y: nat, l: nat :| AddsWith(conf, num, v, y, l);
    SpareAtMost(conf, y, l, num);
  }

  lemma AddsOfSize(conf: SelectConf, num: nat, s: nat, links: nat, v: int)
    requires conf.Valid() && links > 0 && s <= links && v <= Spare(ShareQuota(conf, num * s, links))
    ensures Adds(conf, num, v)
  {
    assert num * s <= num * links;
    assert AddsWith(conf, num, v, num * s, links);
  }

  /** What the ordinary domains push beyond 20 each. */
  lemma OrdinaryAdds(plan: Plan, start: Pass, n: nat, v: int)
    requires plan.Valid() && plan.cls == Ordinary && plan.num >= 0 && n == |plan.names|
    requires |Gather(plan.all, plan.names, n)| <= plan.links
    requires v == |RunPass(plan, start, n).buffer| - |start.buffer| - 20 * n
    ensures Adds(plan.conf, plan.num, v)
  {
    if plan.links == 0 {
      NoOrdinary(plan, start, n);
      AddsNothing(plan.conf, plan.num, v);
    } else {
      var s := OrdinarySpares(plan, start, n);
      AddsOfSize(plan.conf, plan.num, s, plan.links, v);
    }
  }

  lemma NoOrdinary(plan: Plan, start: Pass, n: nat)
    requires plan.Valid() && plan.cls == Ordinary && plan.num >= 0 && n == |plan.names| && plan.links == 0
    ensures |RunPass(plan, start, n).buffer| - |start.buffer| <= 20 * n
  {
    PassWithinShare(plan, start, n);
  }

  lemma RestProduct(num: nat, links: nat, size: nat, rest: nat, c: nat)
    requires links > 0 && c * links <= num * size && size + rest <= links
    ensures c <= num && num * rest <= (num - c) * links
  {
    assert num * (size + rest) <= num * links;
    assert num * (size + rest) == num * size + num * rest;
    assert (num - c) * links == num * links - c * links;
    assert links * c <= links * num;
    MulCancel(links, c, num + 1);
  }

  /** The category part is at most the share of the backfilled domains, and the other domains' shares fit
      into the rest. */
  lemma RestOfShare(conf: SelectConf, num: nat, links: nat, size: nat, rest: nat)
    requires conf.Valid() && links > 0 && size + rest <= links
    ensures 0 <= CatPart(conf, num * size, links) <= num
    ensures num * rest <= (num - CatPart(conf, num * size, links)) * links
  {
    var y := num * size;
    PartsOrdered(conf, y, links);
    PartTimesLinks(y, links, CatPart(conf, y, links));
    RestProduct(num, links, size, rest, CatPart(conf, y, links));
  }

  lemma PartTimesLinks(y: nat, links: nat, c: nat)
    requires links > 0 && c <= y / links
    ensures c * links <= y
  {
    FloorMeaning(y, links, y / links);
    assert c * links <= (y / links) * links;
  }

  lemma NotBackfilled(conf: SelectConf, num: nat, links: nat, a: Account, wanted: nat, v: int)
    requires conf.Valid() && links > 0 && num <= wanted && a.otherSize <= links
    requires Others(conf, num, links, a) && Adds(conf, wanted - Min(a.otherPicked, num), v)
    ensures a.spare + v <= wanted
  {
    if a.otherPicked < num {
      AddsAllBut20(conf, a.otherPicked, a.spare);
      AddsTogether(conf, a.otherPicked, a.spare, wanted - a.otherPicked, v);
    } else {
      AddsOfSize(conf, num, a.best, links, a.spare);
      AddsTogether(conf, num, a.spare, wanted - num, v);
    }
    AddsAtMost(conf, wanted, a.spare + v);
  }

  /** The picks are below the priority number: what the scans of other domains picked is not offered to
      ordinary domains. */
  lemma FitsEarly(conf: SelectConf, wanted: nat, picked: int, other: nat, spare: int, fewest: nat, slack: nat, v: int)
    requires conf.Valid() && picked + other <= wanted && picked >= fewest - slack && fewest <= wanted
    requires spare <= Max(other - 20, 0) && Adds(conf, wanted - (picked + other), v)
    ensures Adds(conf, wanted - fewest, spare + v - slack)
  {
    AddsAllBut20(conf, other, spare);
    AddsTogether(conf, wanted - (picked + other), v, other, spare);
    AddsMore(conf, wanted - picked, spare + v, wanted - fewest + slack, spare + v);
    AddsLess(conf, wanted - fewest + slack, spare + v, slack);
  }

  /** The picks have reached the priority number. */
  lemma FitsLate(conf: SelectConf, wanted: nat, num: nat, c: nat, spare: int, fewest: nat, v: int)
    requires conf.Valid() && fewest <= c <= num <= wanted && Adds(conf, wanted - num, v) && Adds(conf, num - c, spare)
    ensures Adds(conf, wanted - fewest, spare + v)
  {
    AddsTogether(conf, wanted - num, v, num - c, spare);
    AddsMore(conf, wanted - c, spare + v, wanted - fewest, spare + v);
  }

  /** With backfilled domains everything else fits beside a single one of them. */
  lemma FitsBeside(conf: SelectConf, num: nat, links: nat, a: Account, wanted: nat, v: int, q: Quota)
    requires conf.Valid() && links > 0 && num <= wanted && a.size + a.otherSize <= links && a.backfilled > 0
    requires Backed(conf, num, links, a) && Others(conf, num, links, a) && q == ShareQuota(conf, num * a.size, links)
    requires Adds(conf, wanted - Min(a.picked + a.otherPicked, num), v)
    ensures Fewest(q) <= wanted && Adds(conf, wanted - Fewest(q), a.pushed - Double(q) + a.spare + v)
  {
    var c := CatPart(conf, num * a.size, links);
    RestOfShare(conf, num, links, a.size, a.otherSize);
    if a.picked + a.otherPicked < num {
      FitsEarly(conf, wanted, a.picked, a.otherPicked, a.spare, Fewest(q), a.slack, v);
      AddsMore(conf, wanted - Fewest(q), a.spare + v - a.slack, wanted - Fewest(q), a.pushed - Double(q) + a.spare + v);
    } else {
      OthersInRest(conf, num, links, a, c);
      FitsLate(conf, wanted, num, c, a.spare, Fewest(q), v);
      AddsMore(conf, wanted - Fewest(q), a.spare + v, wanted - Fewest(q), a.pushed - Double(q) + a.spare + v);
    }
  }

  lemma OthersInRest(conf: SelectConf, num: nat, links: nat, a: Account, c: nat)
    requires conf.Valid() && links > 0 && Others(conf, num, links, a) && c <= num
    requires num * a.otherSize <= (num - c) * links
    ensures Adds(conf, num - c, a.spare)
  {
    assert num * a.best <= num * a.otherSize;
    assert AddsWith(conf, num - c, a.spare, num * a.best, links);
  }

  /** What the priority domains of a round push and pick. */
  ghost function PrioGrowth(r: RoundIn, lists: Lists): int
    requires r.Valid()
  {
    |PrioPass(r, PrioStart(lists, map[], map[])).buffer| - |lists.buffer|
  }

  ghost function PrioPicks(r: RoundIn, lists: Lists): int
    requires r.Valid()
  {
    PrioPass(r, PrioStart(lists, map[], map[])).picked
  }

  lemma PrioAccount(r: RoundIn, lists: Lists) returns (a: Account)
    requires r.Valid() && OwnPools(r) && r.PrioLinks() > 0
    ensures Backed(r.conf, r.conf.PrioNum(), r.PrioLinks(), a) && Others(r.conf, r.conf.PrioNum(), r.PrioLinks(), a)
    ensures PrioGrowth(r, lists) - 20 * |Names(r, Priority)| == a.pushed + a.spare
    ensures PrioPicks(r, lists) == a.picked + a.otherPicked && a.size + a.otherSize <= r.PrioLinks()
  {
    ValidPlans(r);
    VectorsWithinLinks(r);
    var plan := PrioPlan(r);
    a := PassAccount(plan, PrioStart(lists, map[], map[]), |plan.names|);
  }

  lemma OrdinaryOf(r: RoundIn, lists: Lists)
    requires r.Valid() && OwnPools(r) && r.conf.priorityQuota <= 10
    ensures 0 <= PrioPicks(r, lists) && r.conf.PrioNum() <= r.conf.selectNums
    ensures Adds(r.conf, r.conf.selectNums - Min(PrioPicks(r, lists), r.conf.PrioNum()),
                 Selection(r, lists, map[], map[]) - PrioGrowth(r, lists) - 20 * |Names(r, Ordinary)|)
  {
    var prio := PrioPass(r, PrioStart(lists, map[], map[]));
    PrioNumWithin(r.conf);
    PicksNatural(r, lists);
    var v := Selection(r, lists, map[], map[]) - PrioGrowth(r, lists) - 20 * |Names(r, Ordinary)|;
    OrdinaryGrowth(r, lists, v);
    OrdinaryFrom(r, prio.picked, OrdStart(prio, lists), v);
  }

  lemma OrdinaryGrowth(r: RoundIn, lists: Lists, v: int)
    requires r.Valid()
    requires v == Selection(r, lists, map[], map[]) - PrioGrowth(r, lists) - 20 * |Names(r, Ordinary)|
    ensures var prio := PrioPass(r, PrioStart(lists, map[], map[]));
            var start := OrdStart(prio, lists);
            v == |OrdPass(r, prio.picked, start).buffer| - |start.buffer| - 20 * |Names(r, Ordinary)|
  {
  }

  lemma PicksNatural(r: RoundIn, lists: Lists)
    requires r.Valid()
    ensures 0 <= PrioPicks(r, lists)
  {
    ValidPlans(r);
    PicksArePushed(PrioPlan(r), PrioStart(lists, map[], map[]), |Names(r, Priority)|);
  }

  lemma OrdinaryFrom(r: RoundIn, picked: nat, start: Pass, v: int)
    requires r.Valid() && OwnPools(r) && r.conf.PrioNum() <= r.conf.selectNums
    requires v == |OrdPass(r, picked, start).buffer| - |start.buffer| - 20 * |Names(r, Ordinary)|
    ensures Adds(r.conf, r.conf.selectNums - Min(picked, r.conf.PrioNum()), v)
  {
    ValidPlans(r);
    VectorsWithinLinks(r);
    OrdinaryAdds(OrdPlan(r, picked), start, |Names(r, Ordinary)|, v);
  }

  /** A round over the budget. */
  lemma OvershootNeeds(r: RoundIn, lists: Lists)
    requires r.Valid() && r.conf.priorityQuota <= 10 && Overshoots(r, lists)
    ensures HasOvershoot(r.conf)
  {
    OrdinaryOf(r, lists);
    if r.PrioLinks() == 0 {
      NoLinks(r, lists);
      assert false;
    }
    var a := PrioAccount(r, lists);
    AccountOvershoots(r.conf, r.PrioLinks(), a,
                      Selection(r, lists, map[], map[]) - PrioGrowth(r, lists) - 20 * |Names(r, Ordinary)|);
  }

  lemma NoLinks(r: RoundIn, lists: Lists)
    requires r.Valid() && OwnPools(r) && r.PrioLinks() == 0 && r.conf.priorityQuota <= 10
    ensures !Overshoots(r, lists)
  {
    SelectionWithinBudget(r, lists, map[], map[]);
  }

  lemma AccountOvershoots(conf: SelectConf, links: nat, a: Account, v: int)
    requires conf.Valid() && links > 0 && conf.PrioNum() <= conf.selectNums && a.size + a.otherSize <= links
    requires Backed(conf, conf.PrioNum(), links, a) && Others(conf, conf.PrioNum(), links, a)
    requires Adds(conf, conf.selectNums - Min(a.picked + a.otherPicked, conf.PrioNum()), v)
    requires a.pushed + a.spare + v > conf.selectNums
    ensures HasOvershoot(conf)
  {
    var num := conf.PrioNum();
    if a.backfilled == 0 {
      NotBackfilled(conf, num, links, a, conf.selectNums, v);
      assert false;
    }
    var q := ShareQuota(conf, num * a.size, links);
    FitsBeside(conf, num, links, a, conf.selectNums, v, q);
    QuotaOfShare(conf, num, a.size, links);
    var size', links' := AddsIsDomain(conf, conf.selectNums - Fewest(q), a.pushed - Double(q) + a.spare + v);
    assert OvershootAt(conf, a.size, links, size', links');
  }

  // ---------- such domains make a round over the budget ----------

  const OTHER := "c"

  /** A long vector of the kind with the smaller quota: the scans pick that quota, and the backfill goes on
      to twice the category quota. */
  lemma BackfilledFull(v: seq<UrlInfo>, q: Quota, k: int)
    requires q.cate >= 10 && q.item >= 10 && 2 * q.cate - Fewest(q) > 20 && |v| >= 2 * q.cate + 5
    requires k == (if q.cate <= q.item then 3 else 2) && forall i :: 0 <= i < |v| ==> v[i].kind == k
    ensures |SplitVector(v, Priority, q).picks| == Fewest(q)
    ensures |DomainTally(v, Priority, q, [], []).buffer| == 2 * q.cate
  {
    UniformSplit(v, Priority, q, k);
  }

  lemma {:induction false} CountBoth(v: seq<UrlInfo>, n: nat)
    requires n <= |v|
    ensures CountKind(v, 0, 0, n) + CountKind(v, 1, 0, n) <= n
    decreases n
  {
    if n > 0 {
      CountBoth(v, n - 1);
    }
  }

  /** A vector with enough URLs of both kinds fills both quotas of an ordinary domain. */
  lemma FilledOrdinary(v: seq<UrlInfo>, q: Quota, buffer: seq<UrlInfo>, back: seq<UrlInfo>)
    requires OwnKinds(v, Ordinary) && CountKind(v, 1, 0, |v|) >= q.cate && CountKind(v, 0, 0, |v|) >= q.item
    ensures |DomainTally(v, Ordinary, q, buffer, back).buffer| - |buffer| == q.cate + q.item
  {
    var picks := SplitVector(v, Ordinary, q).picks;
    ScansTakeQuotaOfEachKind(v, Ordinary, q, 1);
    ScansTakeQuotaOfEachKind(v, Ordinary, q, 0);
    CountBoth(picks, |picks|);
    DomainCounts(v, Ordinary, q, buffer, back);
  }

  /** Both passes of a round with one domain of each class, from empty lists. */
  lemma TwoDomains(r: RoundIn, d: string, v: seq<UrlInfo>, q: Quota, e: string, w: seq<UrlInfo>, o: Quota)
    requires r.Valid() && Names(r, Priority) == [d] && Names(r, Ordinary) == [e]
    requires VectorIs(r.All(), d, v) && VectorIs(r.All(), e, w)
    requires q == QuotaFor(r.conf, r.conf.PrioNum(), |v|, r.PrioLinks())
    requires o == QuotaFor(r.conf, OrdNum(r.conf, |SplitVector(v, Priority, q).picks|), |w|, r.OrdLinks())
    ensures var t := DomainTally(v, Priority, q, [], []);
            Selection(r, Lists([], [], []), map[], map[]) == |DomainTally(w, Ordinary, o, t.buffer, []).buffer|
  {
    ValidPlans(r);
    var start := PrioStart(Lists([], [], []), map[], map[]);
    var prio := PrioPass(r, start);
    OnePass(PrioPlan(r), start);
    OnePass(OrdPlan(r, prio.picked), OrdStart(prio, Lists([], [], [])));
  }

  /** A round whose only domain is a seed, from empty lists. */
  lemma OnlySeed(r: RoundIn, d: string, v: seq<UrlInfo>, q: Quota)
    requires r.Valid() && Names(r, Priority) == [d] && Names(r, Ordinary) == []
    requires VectorIs(r.All(), d, v) && q == QuotaFor(r.conf, r.conf.PrioNum(), |v|, r.PrioLinks())
    ensures Selection(r, Lists([], [], []), map[], map[]) == |DomainTally(v, Priority, q, [], []).buffer|
  {
    ValidPlans(r);
    OnePass(PrioPlan(r), PrioStart(Lists([], [], []), map[], map[]));
  }

  lemma SeedAndOrdinary(order: seq<string>, domains: map<string, DomainAttr>)
    requires order == [OWN, OTHER] && domains == map[OWN := DomainAttr(0, 1), OTHER := DomainAttr(0, 0)]
    ensures Enumerates(order, domains.Keys)
    ensures NamesOf(order, domains, Priority, 2) == [OWN] && NamesOf(order, domains, Ordinary, 2) == [OTHER]
  {
    assert NamesOf(order, domains, Priority, 1) == [OWN] && NamesOf(order, domains, Ordinary, 1) == [];
  }

  lemma VectorOf(v: seq<UrlInfo>, e: string, k: int, d: string)
    requires Uniform(v, e, k)
    ensures VectorIs(v, d, if d == e then v else [])
  {
    if d == e {
      WholeVector(v, d, k);
    } else {
      NoneOfDomain(v, d, 0, |v|);
    }
  }

  /** The URLs of a round: `v` of a seed, `x` and `y` of an ordinary domain, `w` and `z` of unknown ones. */
  function Mixed(v: seq<UrlInfo>, w: seq<UrlInfo>, x: seq<UrlInfo>, z: seq<UrlInfo>, y: seq<UrlInfo>): seq<UrlInfo> {
    v + w + (x + z + y)
  }

  lemma MixedVectors(v: seq<UrlInfo>, w: seq<UrlInfo>, x: seq<UrlInfo>, z: seq<UrlInfo>, y: seq<UrlInfo>, k: int)
    requires Uniform(v, OWN, k) && Uniform(w, STRANGE, k)
    requires Uniform(x, OTHER, 0) && Uniform(z, STRANGE, 0) && Uniform(y, OTHER, 1)
    ensures VectorIs(Mixed(v, w, x, z, y), OWN, v) && VectorIs(Mixed(v, w, x, z, y), OTHER, x + y)
  {
    MixedVector(v, w, x, z, y, k, OWN, v, []);
    MixedVector(v, w, x, z, y, k, OTHER, [], x + y);
  }

  lemma MixedVector(v: seq<UrlInfo>, w: seq<UrlInfo>, x: seq<UrlInfo>, z: seq<UrlInfo>, y: seq<UrlInfo>, k: int,
                    d: string, p: seq<UrlInfo>, o: seq<UrlInfo>)
    requires Uniform(v, OWN, k) && Uniform(w, STRANGE, k)
    requires Uniform(x, OTHER, 0) && Uniform(z, STRANGE, 0) && Uniform(y, OTHER, 1)
    requires d != STRANGE && p == (if d == OWN then v else []) && o == if d == OTHER then x + y else []
    ensures VectorIs(Mixed(v, w, x, z, y), d, p + o)
  {
    VectorOf(v, OWN, k, d);
    VectorOf(w, STRANGE, k, d);
    VectorOf(x, OTHER, 0, d);
    VectorOf(z, STRANGE, 0, d);
    VectorOf(y, OTHER, 1, d);
    var x', y' := if d == OTHER then x else [], if d == OTHER then y else [];
    assert x' + y' == o;
    FiveVectors(v, w, x, z, y, d, p, x', y');
  }

  lemma FiveVectors(v: seq<UrlInfo>, w: seq<UrlInfo>, x: seq<UrlInfo>, z: seq<UrlInfo>, y: seq<UrlInfo>,
                    d: string, p: seq<UrlInfo>, x': seq<UrlInfo>, y': seq<UrlInfo>)
    requires VectorIs(v, d, p) && VectorIs(w, d, []) && VectorIs(x, d, x') && VectorIs(z, d, [])
    requires VectorIs(y, d, y')
    ensures VectorIs(Mixed(v, w, x, z, y), d, p + (x' + y'))
  {
    VectorsJoin(v, w, d, p, []);
    VectorsJoin(x, z, d, x', []);
    assert p + [] == p && x' + [] == x';
    VectorsJoin(x + z, y, d, x', y');
    VectorsJoin(v + w, x + z + y, d, p, x' + y');
  }

  lemma MixedDrained(k: int, p: seq<UrlInfo>, i: seq<UrlInfo>, c: seq<UrlInfo>, cpq: seq<UrlInfo>, ipq: seq<UrlInfo>)
    requires 2 <= k <= 3 && (forall j :: 0 <= j < |p| ==> p[j].kind == k)
    requires (forall j :: 0 <= j < |i| ==> i[j].kind == 0) && forall j :: 0 <= j < |c| ==> c[j].kind == 1
    requires if k == 3 then cpq == p && ipq == [] else cpq == [] && ipq == p
    ensures Drained(cpq, ipq, i, c) == p + (i + c) && |cpq| + |ipq| == |p|
  {
    assert Retag(p, k) == p && Retag(i, 0) == i && Retag(c, 1) == c && Retag([], 3) == [] && Retag([], 2) == [];
  }

  lemma MixedKinds(r: RoundIn, v: seq<UrlInfo>, w: seq<UrlInfo>, x: seq<UrlInfo>,
                   z: seq<UrlInfo>, y: seq<UrlInfo>, k: int)
    requires 2 <= k <= 3 && Uniform(v, OWN, k) && Uniform(w, STRANGE, k)
    requires Uniform(x, OTHER, 0) && Uniform(z, STRANGE, 0) && Uniform(y, OTHER, 1)
    requires r.All() == Mixed(v, w, x, z, y) && Names(r, Priority) == [OWN] && Names(r, Ordinary) == [OTHER]
    ensures OwnPools(r)
  {
  }

  /** A round with one seed and one ordinary domain, beside URLs of unknown domains. */
  lemma MixedRound(conf: SelectConf, k: int, v: seq<UrlInfo>, w: seq<UrlInfo>, x: seq<UrlInfo>, z: seq<UrlInfo>,
                   y: seq<UrlInfo>) returns (r: RoundIn)
    requires conf.Valid() && 2 <= k <= 3 && Uniform(v, OWN, k) && Uniform(w, STRANGE, k)
    requires Uniform(x, OTHER, 0) && Uniform(z, STRANGE, 0) && Uniform(y, OTHER, 1)
    ensures r.Valid() && OwnPools(r) && r.conf == conf && Names(r, Priority) == [OWN] && Names(r, Ordinary) == [OTHER]
    ensures r.PrioLinks() == |v| + |w| && r.OrdLinks() == |x| + |z| + |y|
    ensures VectorIs(r.All(), OWN, v) && VectorIs(r.All(), OTHER, x + y)
  {
    var domains := map[OWN := DomainAttr(0, 1), OTHER := DomainAttr(0, 0)];
    if k == 3 {
      r := RoundIn(conf, [OWN, OTHER], domains, v + w, [], x + z, y);
    } else {
      r := RoundIn(conf, [OWN, OTHER], domains, [], v + w, x + z, y);
    }
    SeedAndOrdinary(r.order, r.domains);
    MixedDrained(k, v + w, x + z, y, r.cpq, r.ipq);
    MixedVectors(v, w, x, z, y, k);
    MixedKinds(r, v, w, x, z, y, k);
  }

  lemma ItemsThenCategories(x: seq<UrlInfo>, y: seq<UrlInfo>)
    requires Uniform(x, OTHER, 0) && Uniform(y, OTHER, 1)
    ensures OwnKinds(x + y, Ordinary)
    ensures CountKind(x + y, 0, 0, |x + y|) == |x| && CountKind(x + y, 1, 0, |x + y|) == |y|
  {
    var v := x + y;
    CountKindSplit(v, 0, 0, |x|, |v|);
    CountKindSplit(v, 1, 0, |x|, |v|);
    CountKindOf(v, 0, 0, |x|, 0);
    CountKindOf(v, 1, 0, |x|, 0);
    CountKindOf(v, 0, |x|, |v|, 1);
    CountKindOf(v, 1, |x|, |v|, 1);
  }

  /** Some round of these settings goes over the budget, whatever the lists carried into it. */
  ghost predicate CanOvershoot(conf: SelectConf)
    requires conf.Valid()
  {
    exists r: RoundIn, lists :: r.Valid() && r.conf == conf && Overshoots(r, lists)
  }

  lemma OvershootShown(conf: SelectConf, r: RoundIn, lists: Lists)
    requires conf.Valid() && r.Valid() && r.conf == conf && Overshoots(r, lists)
    ensures CanOvershoot(conf)
  {
  }

  /** The seed alone is over the budget. */
  lemma SeedOvershoots(conf: SelectConf, a: nat, b: nat, q: Quota)
    requires conf.Valid() && q == QuotaFor(conf, conf.PrioNum(), a, a + b) && a >= 2 * q.cate + 5
    requires 2 * q.cate - Fewest(q) > 20 && 2 * q.cate - 20 > conf.selectNums
    ensures CanOvershoot(conf)
  {
    var k := if q.cate <= q.item then 3 else 2;
    var v := Several(OWN, k, a);
    var w := Several(STRANGE, k, b);
    var r := CrowdedRound(conf, k, v, w);
    BackfilledFull(v, q, k);
    OnlySeed(r, OWN, v, q);
    OvershootShown(conf, r, Lists([], [], []));
  }

  /** The seed and an ordinary domain together are over the budget. */
  lemma BothOvershoot(conf: SelectConf, a: nat, b: nat, q: Quota, a': nat, b': nat, o: Quota)
    requires conf.Valid() && q == QuotaFor(conf, conf.PrioNum(), a, a + b) && a >= 2 * q.cate + 5
    requires 2 * q.cate - Fewest(q) > 20 && OrdNum(conf, Fewest(q)) == conf.selectNums - Fewest(q)
    requires o == QuotaFor(conf, conf.selectNums - Fewest(q), a', a' + b') && a' >= o.cate + o.item
    requires 2 * q.cate + o.cate + o.item - 40 > conf.selectNums
    ensures CanOvershoot(conf)
  {
    var k := if q.cate <= q.item then 3 else 2;
    var v := Several(OWN, k, a);
    var w := Several(STRANGE, k, b);
    var x := Several(OTHER, 0, a' - o.cate);
    var z := Several(STRANGE, 0, b');
    var y := Several(OTHER, 1, o.cate);
    var r := MixedRound(conf, k, v, w, x, z, y);
    BackfilledFull(v, q, k);
    ItemsThenCategories(x, y);
    TwoDomains(r, OWN, v, q, OTHER, x + y, o);
    FilledOrdinary(x + y, o, DomainTally(v, Priority, q, [], []).buffer, []);
    OvershootShown(conf, r, Lists([], [], []));
  }

  lemma OvershootBuilt(conf: SelectConf, size: nat, links: nat, size': nat, links': nat)
    requires conf.Valid() && conf.priorityQuota <= 10 && OvershootAt(conf, size, links, size', links')
    ensures CanOvershoot(conf)
  {
    var num := conf.PrioNum();
    var q := QuotaFor(conf, num, size, links);
    var left := conf.selectNums - Fewest(q);
    var o := QuotaFor(conf, left, size', links');
    FewestWithin(conf, size, links, q);
    var n := 2 * q.cate + 5;
    ScaledQuota(conf, num, size, links, n);
    var a, b := ScaleParts(n, size, links);
    if o.cate + o.item == 20 {
      SeedOvershoots(conf, a, b, q);
    } else {
      ManyNeedLinks(conf, left, size', links');
      var n' := o.cate + o.item;
      ScaledQuota(conf, left, size', links', n');
      var a', b' := ScaleParts(n', size', links');
      BothOvershoot(conf, a, b, q, a', b', o);
    }
  }

  /** The scans of a domain that can be backfilled stay within the priority number. */
  lemma FewestWithin(conf: SelectConf, size: nat, links: nat, q: Quota)
    requires conf.Valid() && conf.priorityQuota <= 10
             && size <= links && q == QuotaFor(conf, conf.PrioNum(), size, links)
    requires 2 * q.cate - Fewest(q) > 20
    ensures size > 0 && Fewest(q) <= conf.PrioNum() <= conf.selectNums
    ensures OrdNum(conf, Fewest(q)) == conf.selectNums - Fewest(q)
  {
    PrioNumWithin(conf);
    ManyNeedLinks(conf, conf.PrioNum(), size, links);
    QuotaOfShare(conf, conf.PrioNum(), size, links);
    RestOfShare(conf, conf.PrioNum(), links, size, 0);
  }

  lemma ManyNeedLinks(conf: SelectConf, num: nat, size: nat, links: nat)
    requires conf.Valid() && size <= links
    requires var q := QuotaFor(conf, num, size, links); q.cate > 10 || q.item > 10
    ensures size > 0
  {
    if size == 0 && links > 0 {
      QuotaOfShare(conf, num, size, links);
      assert num * size == 0;
      SmallShare(conf, 0, links);
    }
  }

  // ---------- the exact condition ----------

  /** The settings that let some round select more than wanted and 20 a domain: exactly those under which
      a priority domain backfilled after its fewest picks and an ordinary domain, given what these picks
      leave, together go over. */
  lemma CanOvershootIff(conf: SelectConf)
    requires conf.Valid() && conf.priorityQuota <= 10
    ensures CanOvershoot(conf) <==> HasOvershoot(conf)
  {
    if HasOvershoot(conf) {
      var size, links, size', links' :| OvershootAt(conf, size, links, size', links');
      OvershootBuilt(conf, size, links, size', links');
    } else {
      forall r: RoundIn, lists | r.Valid() && r.conf == conf
        ensures !Overshoots(r, lists)
      {
        if Overshoots(r, lists) {
          OvershootNeeds(r, lists);
        }
      }
    }
  }

  /** All other settings keep every round, whatever the counters before it, within the wanted number and 20
      a domain. */
  lemma SettingsWithinBudget(r: RoundIn, lists: Lists, items: map<string, int>, cates: map<string, int>)
    requires r.Valid() && OwnPools(r) && r.conf.priorityQuota <= 10 && !HasOvershoot(r.conf)
    ensures Selection(r, lists, items, cates)
         <= r.conf.selectNums + 20 * (|Names(r, Priority)| + |Names(r, Ordinary)|)
  {
    RoundIgnoresCounters(r, lists, items, cates);
    if Overshoots(r, lists) {
      OvershootNeeds(r, lists);
    }
  }
}
