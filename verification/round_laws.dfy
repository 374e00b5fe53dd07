/** The whole of a selection round as a function of its inputs, and the laws it keeps: no URL is lost
    or duplicated, the counters add up, and the picks stay within the wanted number plus 20 a domain. */
module RoundLaws {
  import opened UrlPools
  import opened Scans
  import opened Arithmetic
  import opened Rounds
  import opened Statistics

  /** What `select_url` reads: settings, the domains in iteration order and the four pool queues. */
  datatype RoundIn = RoundIn(
    conf: SelectConf, order: seq<string>, domains: map<string, DomainAttr>,
    cpq: seq<UrlInfo>, ipq: seq<UrlInfo>, ioq: seq<UrlInfo>, coq: seq<UrlInfo>)
  {
    ghost predicate Valid() {
      conf.Valid() && Enumerates(order, domains.Keys)
    }

    function All(): seq<UrlInfo> {
      Drained(cpq, ipq, ioq, coq)
    }

    function PrioLinks(): nat {
      |cpq| + |ipq|
    }

    function OrdLinks(): nat {
      |coq| + |ioq|
    }
  }

  /** The lists that survive from one call to the next. */
  datatype Lists = Lists(buffer: seq<UrlInfo>, backO: seq<UrlInfo>, backP: seq<UrlInfo>)

  /** Whether a domain is taken by the pass over a class; shielded domains are taken by none. */
  predicate Selected(attr: DomainAttr, cls: Class) {
    attr.isShield == 0 && attr.isSeed == if cls.Priority? then 1 else 0
  }

  /** The domains of a class among the first `n`, in iteration order. */
  function NamesOf(order: seq<string>, domains: map<string, DomainAttr>, cls: Class, n: nat): seq<string>
    requires n <= |order|
  {
    if n == 0 then []
    else if order[n - 1] in domains && Selected(domains[order[n - 1]], cls)
    then NamesOf(order, domains, cls, n - 1) + [order[n - 1]]
    else NamesOf(order, domains, cls, n - 1)
  }

  function Names(r: RoundIn, cls: Class): seq<string> {
    NamesOf(r.order, r.domains, cls, |r.order|)
  }

  lemma {:induction false} NamesOfMeaning(order: seq<string>, domains: map<string, DomainAttr>, cls: Class, n: nat)
    requires n <= |order| && Distinct(order)
    ensures Distinct(NamesOf(order, domains, cls, n))
    ensures forall d :: d in NamesOf(order, domains, cls, n)
                    <==> d in order[..n] && d in domains && Selected(domains[d], cls)
    decreases n
  {
    if n > 0 {
      NamesOfMeaning(order, domains, cls, n - 1);
      assert order[..n] == order[..n - 1] + [order[n - 1]];
      assert order[n - 1] !in order[..n - 1];
    }
  }

  lemma NamesMeaning(r: RoundIn, cls: Class)
    requires r.Valid()
    ensures Distinct(Names(r, cls))
    ensures forall d :: d in Names(r, cls) <==> d in r.domains && Selected(r.domains[d], cls)
  {
    NamesOfMeaning(r.order, r.domains, cls, |r.order|);
    assert r.order[..|r.order|] == r.order;
  }

  /** The passes go over their domains in the order of iteration: unshielded seeds, unshielded ordinary
      domains. */
  lemma NamesInOrder(r: RoundIn, cls: Class, n: nat)
    requires r.Valid() && n < |r.order|
    ensures var a, d := r.domains[r.order[n]], r.order[n];
            NamesOf(r.order, r.domains, cls, n + 1)
            == NamesOf(r.order, r.domains, cls, n)
               + if a.isShield == 0 && a.isSeed == (match cls case Priority => 1 case Ordinary => 0) then [d] else []
    ensures NamesOf(r.order, r.domains, cls, 0) == [] && NamesOf(r.order, r.domains, cls, |r.order|) == Names(r, cls)
  {
    assert r.order[n] in r.order;
    OneMore(r.order, r.domains, cls, n, n + 1);
  }

  lemma OneMore(order: seq<string>, domains: map<string, DomainAttr>, cls: Class, n: nat, n': nat)
    requires n' == n + 1 <= |order| && order[n] in domains
    ensures NamesOf(order, domains, cls, n')
         == NamesOf(order, domains, cls, n) + if Selected(domains[order[n]], cls) then [order[n]] else []
  {
  }

  // ---------- the two passes ----------

  function PrioPlan(r: RoundIn): Plan {
    Plan(Priority, r.conf, r.conf.PrioNum(), r.PrioLinks(), r.All(), Names(r, Priority))
  }

  /** The number wanted from ordinary domains: what priority domains leave of their part is added. */
  function OrdNum(conf: SelectConf, prioCount: int): int {
    var ordNum := conf.selectNums - conf.PrioNum();
    if prioCount < conf.PrioNum() then ordNum + conf.PrioNum() - prioCount else ordNum
  }

  function OrdPlan(r: RoundIn, prioCount: int): Plan {
    Plan(Ordinary, r.conf, OrdNum(r.conf, prioCount), r.OrdLinks(), r.All(), Names(r, Ordinary))
  }

  function PrioStart(lists: Lists, items: map<string, int>, cates: map<string, int>): Pass {
    Pass(lists.buffer, lists.backP, items, cates, 0)
  }

  function OrdStart(prio: Pass, lists: Lists): Pass {
    Pass(prio.buffer, lists.backO, prio.items, prio.cates, 0)
  }

  lemma ValidPlans(r: RoundIn)
    requires r.Valid()
    ensures PrioPlan(r).Valid() && forall n :: OrdPlan(r, n).Valid()
  {
    NamesMeaning(r, Priority);
    NamesMeaning(r, Ordinary);
  }

  ghost function PrioPass(r: RoundIn, start: Pass): Pass
    requires r.Valid()
  {
    ValidPlans(r);
    RunPass(PrioPlan(r), start, |Names(r, Priority)|)
  }

  ghost function OrdPass(r: RoundIn, prioCount: int, start: Pass): Pass
    requires r.Valid()
  {
    ValidPlans(r);
    RunPass(OrdPlan(r, prioCount), start, |Names(r, Ordinary)|)
  }

  /** What a round leaves behind, before shuffling: the lists and the select counters. */
  datatype RoundOut = RoundOut(
    lists: Lists, items: map<string, int>, cates: map<string, int>, prioCount: nat, ordNum: int)

  ghost function RunRound(r: RoundIn, lists: Lists, items: map<string, int>, cates: map<string, int>): RoundOut
    requires r.Valid()
  {
    var prio := PrioPass(r, PrioStart(lists, items, cates));
    var ord := OrdPass(r, prio.picked, OrdStart(prio, lists));
    RoundOut(Lists(ord.buffer, ord.back, prio.back), ord.items, ord.cates, prio.picked, OrdNum(r.conf, prio.picked))
  }

  // ---------- conservation ----------

  /** The drained URLs that no pass takes up. */
  function Lost(r: RoundIn): seq<UrlInfo> {
    var names := Names(r, Priority) + Names(r, Ordinary);
    Unplaced(r.All(), names, |names|, |r.All()|)
  }

  lemma {:induction false} UnplacedMeaning(all: seq<UrlInfo>, names: seq<string>, n: nat, u: UrlInfo)
    requires n <= |all|
    ensures multiset(Unplaced(all, names, |names|, n))[u] == if u.domain in names then 0 else multiset(all[..n])[u]
    decreases n
  {
    if n > 0 {
      var m := n - 1;
      UnplacedMeaning(all, names, m, u);
      UnplacedOneMore(all, names, m, n, u);
    }
  }

  lemma UnplacedOneMore(all: seq<UrlInfo>, names: seq<string>, m: nat, n: nat, u: UrlInfo)
    requires n == m + 1 <= |all|
    requires multiset(Unplaced(all, names, |names|, m))[u] == if u.domain in names then 0 else multiset(all[..m])[u]
    ensures multiset(Unplaced(all, names, |names|, n))[u] == if u.domain in names then 0 else multiset(all[..n])[u]
  {
    assert names[..|names|] == names;
    assert all[..n] == all[..m] + [all[m]];
  }

  /** Lost are exactly the drained URLs whose domain is unknown, shielded or neither seed nor ordinary. */
  lemma LostMeaning(r: RoundIn, u: UrlInfo)
    requires r.Valid()
    ensures var taken := u.domain in r.domains && r.domains[u.domain].isShield == 0
                         && (r.domains[u.domain].isSeed == 1 || r.domains[u.domain].isSeed == 0);
            multiset(Lost(r))[u] == if taken then 0 else multiset(r.All())[u]
  {
    NamesMeaning(r, Priority);
    NamesMeaning(r, Ordinary);
    UnplacedMeaning(r.All(), Names(r, Priority) + Names(r, Ordinary), |r.All()|, u);
    assert r.All()[..|r.All()|] == r.All();
  }

  lemma {:induction false} GatherPrefix(all: seq<UrlInfo>, a: seq<string>, b: seq<string>, m: nat)
    requires m <= |a|
    ensures Gather(all, a + b, m) == Gather(all, a, m)
    decreases m
  {
    if m > 0 {
      GatherPrefix(all, a, b, m - 1);
    }
  }

  /** The vectors of the first `n` names of a concatenation are `base` and those of `m` names of `b`. */
  ghost predicate Extends(all: seq<UrlInfo>, ab: seq<string>, b: seq<string>, m: nat, n: nat, base: seq<UrlInfo>)
    requires m <= |b| && n <= |ab|
  {
    multiset(Gather(all, ab, n)) == multiset(base) + multiset(Gather(all, b, m))
  }

  lemma {:induction false} GatherConcat(
      all: seq<UrlInfo>, ab: seq<string>, a: seq<string>, b: seq<string>, m: nat, n: nat, base: seq<UrlInfo>)
    requires ab == a + b && m <= |b| && n == |a| + m && base == Gather(all, ab, |a|)
    ensures Extends(all, ab, b, m, n, base)
    decreases m
  {
    if m > 0 {
      var k, l := m - 1, n - 1;
      GatherConcat(all, ab, a, b, k, l, base);
      assert ab[l] == b[k];
      ExtendsStep(all, ab, b, k, l, m, n, base);
    }
  }

  lemma ExtendsStep(
      all: seq<UrlInfo>, ab: seq<string>, b: seq<string>, k: nat, l: nat, m: nat, n: nat, base: seq<UrlInfo>)
    requires m == k + 1 <= |b| && n == l + 1 <= |ab| && ab[l] == b[k] && Extends(all, ab, b, k, l, base)
    ensures Extends(all, ab, b, m, n, base)
  {
    var v := OfDomain(all, b[k], |all|);
    assert Gather(all, ab, n) == Gather(all, ab, l) + v;
    assert Gather(all, b, m) == Gather(all, b, k) + v;
  }

  /** All URLs in the three lists. */
  function Held(l: Lists): multiset<UrlInfo> {
    multiset(l.buffer) + multiset(l.backO) + multiset(l.backP)
  }

  /** A round loses nothing but the URLs of domains it does not select from, and invents nothing. */
  lemma RoundConserves(r: RoundIn, lists: Lists, items: map<string, int>, cates: map<string, int>)
    requires r.Valid()
    ensures Held(RunRound(r, lists, items, cates).lists) + multiset(Lost(r)) == Held(lists) + multiset(r.All())
  {
    ValidPlans(r);
    var prio := PrioPass(r, PrioStart(lists, items, cates));
    PassConserves(PrioPlan(r), PrioStart(lists, items, cates), |Names(r, Priority)|);
    PassConserves(OrdPlan(r, prio.picked), OrdStart(prio, lists), |Names(r, Ordinary)|);
    NamesPartition(r);
    RoundBalance(lists, prio, OrdPass(r, prio.picked, OrdStart(prio, lists)), r.All(), Lost(r),
                 Gather(r.All(), Names(r, Priority), |Names(r, Priority)|),
                 Gather(r.All(), Names(r, Ordinary), |Names(r, Ordinary)|));
  }

  lemma RoundBalance(l: Lists, prio: Pass, ord: Pass, all: seq<UrlInfo>, lost: seq<UrlInfo>,
                     p: seq<UrlInfo>, o: seq<UrlInfo>)
    requires multiset(prio.buffer) + multiset(prio.back) == multiset(l.buffer) + multiset(l.backP) + multiset(p)
    requires multiset(ord.buffer) + multiset(ord.back) == multiset(prio.buffer) + multiset(l.backO) + multiset(o)
    requires multiset(p) + multiset(o) + multiset(lost) == multiset(all)
    ensures Held(Lists(ord.buffer, ord.back, prio.back)) + multiset(lost) == Held(l) + multiset(all)
  {
    Balance(multiset(l.buffer), multiset(l.backO), multiset(l.backP), multiset(prio.buffer), multiset(prio.back),
            multiset(ord.buffer), multiset(ord.back), multiset(p), multiset(o), multiset(lost), multiset(all));
  }

  lemma Balance<T>(b: multiset<T>, bo: multiset<T>, bp: multiset<T>, b1: multiset<T>, bp1: multiset<T>,
                   b2: multiset<T>, bo2: multiset<T>, p: multiset<T>, o: multiset<T>, lost: multiset<T>,
                   all: multiset<T>)
    requires b1 + bp1 == b + bp + p
    requires b2 + bo2 == b1 + bo + o
    requires p + o + lost == all
    ensures b2 + bo2 + bp1 + lost == b + bo + bp + all
  {
    assert b2 + bo2 + bp1 + lost == (b1 + bp1) + bo + o + lost;
  }

  lemma NamesPartition(r: RoundIn)
    requires r.Valid()
    ensures multiset(Gather(r.All(), Names(r, Priority), |Names(r, Priority)|))
            + multiset(Gather(r.All(), Names(r, Ordinary), |Names(r, Ordinary)|))
            + multiset(Lost(r)) == multiset(r.All())
  {
    NamesMeaning(r, Priority);
    NamesMeaning(r, Ordinary);
    PartitionByNames(r.All(), Names(r, Priority), Names(r, Ordinary));
  }

  lemma PartitionByNames(all: seq<UrlInfo>, p: seq<string>, o: seq<string>)
    requires Distinct(p) && Distinct(o) && forall d <- p :: d !in o
    ensures multiset(Gather(all, p, |p|)) + multiset(Gather(all, o, |o|))
            + multiset(Unplaced(all, p + o, |p + o|, |all|))
         == multiset(all)
  {
    var po := p + o;
    DistinctConcat(p, o);
    GatherPartitions(all, po, |po|);
    BothGathers(all, po, p, o);
    ReplaceSum(multiset(Gather(all, po, |po|)), multiset(Gather(all, p, |p|)), multiset(Gather(all, o, |o|)),
               multiset(Unplaced(all, po, |po|, |all|)), multiset(all));
  }

  lemma BothGathers(all: seq<UrlInfo>, po: seq<string>, p: seq<string>, o: seq<string>)
    requires po == p + o
    ensures multiset(Gather(all, po, |po|)) == multiset(Gather(all, p, |p|)) + multiset(Gather(all, o, |o|))
  {
    GatherPrefix(all, p, o, |p|);
    GatherConcat(all, po, p, o, |o|, |po|, Gather(all, p, |p|));
  }

  lemma ReplaceSum<T>(whole: multiset<T>, a: multiset<T>, b: multiset<T>, rest: multiset<T>, all: multiset<T>)
    requires whole + rest == all && whole == a + b
    ensures a + b + rest == all
  {
  }

  lemma DistinctConcat(a: seq<string>, b: seq<string>)
    requires Distinct(a) && Distinct(b) && forall d <- a :: d !in b
    ensures Distinct(a + b)
  {
    forall i, j | 0 <= i < j < |a + b|
      ensures (a + b)[i] != (a + b)[j]
    {
      if i < |a| <= j {
        assert a[i] in a && b[j - |a|] in b;
      }
    }
  }

  // ---------- counters ----------

  /** What the iteration of a priority domain pushes into the selection buffer. */
  ghost function PrioPush(r: RoundIn, lists: Lists, items: map<string, int>, cates: map<string, int>, i: nat): int
    requires r.Valid() && i < |Names(r, Priority)|
  {
    ValidPlans(r);
    Growth(PrioPlan(r), PrioStart(lists, items, cates), i)
  }

  /** The same for an ordinary domain. */
  ghost function OrdPush(r: RoundIn, lists: Lists, items: map<string, int>, cates: map<string, int>, i: nat): int
    requires r.Valid() && i < |Names(r, Ordinary)|
  {
    ValidPlans(r);
    var prio := PrioPass(r, PrioStart(lists, items, cates));
    Growth(OrdPlan(r, prio.picked), OrdStart(prio, lists), i)
  }

  /** Just before the statistics are written, the two select counters of a selected domain add up to
      the number of URLs its iteration pushed into the selection buffer. */
  lemma RoundCounts(r: RoundIn, lists: Lists, items: map<string, int>, cates: map<string, int>, i: nat)
    requires r.Valid()
    ensures var out := RunRound(r, lists, items, cates);
            i < |Names(r, Priority)| ==>
              Count(out.items, Names(r, Priority)[i]) + Count(out.cates, Names(r, Priority)[i])
              == PrioPush(r, lists, items, cates, i)
    ensures var out := RunRound(r, lists, items, cates);
            i < |Names(r, Ordinary)| ==>
              Count(out.items, Names(r, Ordinary)[i]) + Count(out.cates, Names(r, Ordinary)[i])
              == OrdPush(r, lists, items, cates, i)
  {
    ValidPlans(r);
    var prio := PrioPass(r, PrioStart(lists, items, cates));
    NamesMeaning(r, Priority);
    NamesMeaning(r, Ordinary);
    PassCounts(PrioPlan(r), PrioStart(lists, items, cates), |Names(r, Priority)|);
    PassCounts(OrdPlan(r, prio.picked), OrdStart(prio, lists), |Names(r, Ordinary)|);
    if i < |Names(r, Priority)| {
      var d := Names(r, Priority)[i];
      assert d in Names(r, Priority);
      assert d !in Names(r, Ordinary)[..|Names(r, Ordinary)|];
      assert SameCounters(OrdPass(r, prio.picked, OrdStart(prio, lists)), OrdStart(prio, lists), d);
      assert CountersOf(prio, d) == Growth(PrioPlan(r), PrioStart(lists, items, cates), i);
    }
    if i < |Names(r, Ordinary)| {
      assert CountersOf(OrdPass(r, prio.picked, OrdStart(prio, lists)), Names(r, Ordinary)[i])
          == Growth(OrdPlan(r, prio.picked), OrdStart(prio, lists), i);
    }
  }

  /** Over all selected domains the counters add up to the growth of the selection buffer this round. */
  lemma RoundTotal(r: RoundIn, lists: Lists, items: map<string, int>, cates: map<string, int>)
    requires r.Valid()
    ensures var out := RunRound(r, lists, items, cates);
            SumCounts(out.items, out.cates, Names(r, Priority), |Names(r, Priority)|)
            + SumCounts(out.items, out.cates, Names(r, Ordinary), |Names(r, Ordinary)|)
            == |out.lists.buffer| - |lists.buffer|
  {
    ValidPlans(r);
    var out := RunRound(r, lists, items, cates);
    var prio := PrioPass(r, PrioStart(lists, items, cates));
    forall i | 0 <= i < |Names(r, Priority)|
      ensures Count(out.items, Names(r, Priority)[i]) + Count(out.cates, Names(r, Priority)[i])
           == Growth(PrioPlan(r), PrioStart(lists, items, cates), i)
    {
      RoundCounts(r, lists, items, cates, i);
    }
    SumOfGrowths(PrioPlan(r), PrioStart(lists, items, cates), out.items, out.cates, |Names(r, Priority)|);
    forall i | 0 <= i < |Names(r, Ordinary)|
      ensures Count(out.items, Names(r, Ordinary)[i]) + Count(out.cates, Names(r, Ordinary)[i])
           == Growth(OrdPlan(r, prio.picked), OrdStart(prio, lists), i)
    {
      RoundCounts(r, lists, items, cates, i);
    }
    SumOfGrowths(OrdPlan(r, prio.picked), OrdStart(prio, lists), out.items, out.cates, |Names(r, Ordinary)|);
  }

  /** The lists and the picks of a pass do not depend on the counters. */
  predicate SameLists(a: Pass, b: Pass) {
    a.buffer == b.buffer && a.back == b.back && a.picked == b.picked
  }

  lemma {:induction false} PassIgnoresCounters(plan: Plan, a: Pass, b: Pass, m: nat)
    requires plan.Valid() && m <= |plan.names| && SameLists(a, b)
    ensures SameLists(RunPass(plan, a, m), RunPass(plan, b, m))
    decreases m
  {
    if m > 0 {
      PassIgnoresCounters(plan, a, b, m - 1);
    }
  }

  /** What a round selects and leaves does not depend on the counters it finds. */
  lemma RoundIgnoresCounters(r: RoundIn, lists: Lists, items: map<string, int>, cates: map<string, int>)
    requires r.Valid()
    ensures RunRound(r, lists, items, cates).lists == RunRound(r, lists, map[], map[]).lists
  {
    ValidPlans(r);
    var a, b := PrioStart(lists, items, cates), PrioStart(lists, map[], map[]);
    PassIgnoresCounters(PrioPlan(r), a, b, |Names(r, Priority)|);
    var p, q := PrioPass(r, a), PrioPass(r, b);
    PassIgnoresCounters(OrdPlan(r, p.picked), OrdStart(p, lists), OrdStart(q, lists), |Names(r, Ordinary)|);
  }

  // ---------- budget ----------

  /** Every drained URL of a selected domain came from a pool of that domain's class. */
  predicate OwnPools(r: RoundIn) {
    forall u <- r.All() ::
      && (u.domain in Names(r, Priority) ==> u.kind == 3 || u.kind == 2)
      && (u.domain in Names(r, Ordinary) ==> u.kind == 1 || u.kind == 0)
  }

  /** The number of URLs among the first `n` whose domain is one of the first `m` names. */
  function Placed(all: seq<UrlInfo>, names: seq<string>, m: nat, n: nat): nat
    requires m <= |names| && n <= |all|
  {
    if n == 0 then 0 else Placed(all, names, m, n - 1) + if all[n - 1].domain in names[..m] then 1 else 0
  }

  lemma {:induction false} PlacedStep(all: seq<UrlInfo>, names: seq<string>, m: nat, n: nat)
    requires m < |names| && n <= |all| && Distinct(names)
    ensures Placed(all, names, m + 1, n) == Placed(all, names, m, n) + |OfDomain(all, names[m], n)|
    decreases n
  {
    if n > 0 {
      PlacedStep(all, names, m, n - 1);
      assert names[..m + 1] == names[..m] + [names[m]];
      assert names[m] !in names[..m];
    }
  }

  lemma {:induction false} PlacedNone(all: seq<UrlInfo>, names: seq<string>, n: nat)
    requires n <= |all|
    ensures Placed(all, names, 0, n) == 0
    decreases n
  {
    if n > 0 {
      PlacedNone(all, names, n - 1);
    }
  }

  lemma {:induction false} GatherLength(all: seq<UrlInfo>, names: seq<string>, m: nat)
    requires m <= |names| && Distinct(names)
    ensures |Gather(all, names, m)| == Placed(all, names, m, |all|)
    decreases m
  {
    if m == 0 {
      PlacedNone(all, names, |all|);
    } else {
      GatherLength(all, names, m - 1);
      PlacedStep(all, names, m - 1, |all|);
    }
  }

  lemma {:induction false} PlacedByKind(all: seq<UrlInfo>, names: seq<string>, k1: int, k2: int, n: nat)
    requires n <= |all| && k1 != k2
    requires forall u <- all :: u.domain in names ==> u.kind == k1 || u.kind == k2
    ensures Placed(all, names, |names|, n) <= CountKind(all, k1, 0, n) + CountKind(all, k2, 0, n)
    decreases n
  {
    if n > 0 {
      PlacedByKind(all, names, k1, k2, n - 1);
      assert all[n - 1] in all;
      assert names[..|names|] == names;
    }
  }

  lemma {:induction false} CountKindOf(s: seq<UrlInfo>, k: int, lo: nat, hi: nat, tag: int)
    requires lo <= hi <= |s| && forall i :: lo <= i < hi ==> s[i].kind == tag
    ensures CountKind(s, k, lo, hi) == if k == tag then hi - lo else 0
    decreases hi
  {
    if lo < hi {
      CountKindOf(s, k, lo, hi - 1, tag);
    }
  }

  lemma CountDrained(r: RoundIn, k: int)
    ensures CountKind(r.All(), k, 0, |r.All()|)
         == (if k == 3 then |r.cpq| else 0) + (if k == 2 then |r.ipq| else 0)
          + (if k == 0 then |r.ioq| else 0) + (if k == 1 then |r.coq| else 0)
  {
    var a := r.All();
    var i, j, n := |r.cpq|, |r.cpq| + |r.ipq|, |r.cpq| + |r.ipq| + |r.ioq|;
    CountKindOf(a, k, 0, i, 3);
    CountKindOf(a, k, i, j, 2);
    CountKindOf(a, k, j, n, 0);
    CountKindOf(a, k, n, |a|, 1);
    CountKindSplit(a, k, 0, i, j);
    CountKindSplit(a, k, 0, j, n);
    CountKindSplit(a, k, 0, n, |a|);
  }

  /** With URLs in their own classes' pools, the vectors of a class hold no more URLs than its links. */
  lemma VectorsWithinLinks(r: RoundIn)
    requires r.Valid() && OwnPools(r)
    ensures |Gather(r.All(), Names(r, Priority), |Names(r, Priority)|)| <= r.PrioLinks()
    ensures |Gather(r.All(), Names(r, Ordinary), |Names(r, Ordinary)|)| <= r.OrdLinks()
  {
    NamesMeaning(r, Priority);
    NamesMeaning(r, Ordinary);
    GatherLength(r.All(), Names(r, Priority), |Names(r, Priority)|);
    GatherLength(r.All(), Names(r, Ordinary), |Names(r, Ordinary)|);
    PlacedByKind(r.All(), Names(r, Priority), 3, 2, |r.All()|);
    PlacedByKind(r.All(), Names(r, Ordinary), 1, 0, |r.All()|);
    CountDrained(r, 3);
    CountDrained(r, 2);
    CountDrained(r, 1);
    CountDrained(r, 0);
  }

  lemma PrioNumWithin(conf: SelectConf)
    requires conf.priorityQuota <= 10
    ensures conf.PrioNum() <= conf.selectNums
  {
    assert conf.selectNums * conf.priorityQuota <= conf.selectNums * 10;
  }

  /** The budget of a round, not counting the backfill of priority domains: with at most 10 tenths for
      priority domains and URLs in their own classes' pools, the scans of the priority domains pick at
      most their part plus 20 a domain, the ordinary domains with backfill add at most what is left plus
      20 a domain, and both together stay within the wanted number plus 20 a domain. */
  lemma RoundBudget(r: RoundIn, lists: Lists, items: map<string, int>, cates: map<string, int>)
    requires r.Valid() && OwnPools(r) && r.conf.priorityQuota <= 10
    ensures var out := RunRound(r, lists, items, cates);
            var prio := PrioPass(r, PrioStart(lists, items, cates));
            var ordCount := |out.lists.buffer| - |prio.buffer|;
            && out.prioCount <= r.conf.PrioNum() + 20 * |Names(r, Priority)|
            && out.ordNum == r.conf.selectNums - Min(out.prioCount, r.conf.PrioNum())
            && ordCount <= out.ordNum + 20 * |Names(r, Ordinary)|
            && out.prioCount + ordCount <= r.conf.selectNums + 20 * (|Names(r, Priority)| + |Names(r, Ordinary)|)
  {
    ValidPlans(r);
    var prio := PrioPass(r, PrioStart(lists, items, cates));
    PrioNumWithin(r.conf);
    VectorsWithinLinks(r);
    PassWithinShare(PrioPlan(r), PrioStart(lists, items, cates), |Names(r, Priority)|);
    ShareBound(PrioPlan(r));
    PassWithinShare(OrdPlan(r, prio.picked), OrdStart(prio, lists), |Names(r, Ordinary)|);
    ShareBound(OrdPlan(r, prio.picked));
  }

  // ---------- where leftovers come from ----------

  lemma RestBackFrom(v: seq<UrlInfo>, cls: Class, q: Quota)
    ensures forall u <- SplitVector(v, cls, q).back :: u in v
  {
    SplitConserves(v, cls, q);
    forall u | u in SplitVector(v, cls, q).back
      ensures u in v
    {
      assert u in multiset(SplitVector(v, cls, q).back);
      assert u in multiset(v);
    }
  }

  lemma AfterScanBackFrom(s: Split, whole: bool, cap: nat, buffer: seq<UrlInfo>, back: seq<UrlInfo>)
    ensures forall u <- AfterScan(s, whole, cap, buffer, back).back :: u in back || u in s.back
  {
    assert AfterScan(s, whole, cap, buffer, back).back <= back + s.back;
    forall u | u in AfterScan(s, whole, cap, buffer, back).back
      ensures u in back || u in s.back
    {
      assert u in back + s.back;
    }
  }

  /** A leftover after a pass was a leftover before it or is in a vector of one of its domains. */
  ghost predicate BackFrom(plan: Plan, start: Pass, m: nat)
    requires plan.Valid() && m <= |plan.names|
  {
    forall u <- RunPass(plan, start, m).back :: u in start.back || u in Gather(plan.all, plan.names, m)
  }

  lemma {:induction false} PassBackFrom(plan: Plan, start: Pass, m: nat)
    requires plan.Valid() && m <= |plan.names|
    ensures BackFrom(plan, start, m)
    decreases m
  {
    if m > 0 {
      var k := m - 1;
      PassBackFrom(plan, start, k);
      StepBackFrom(plan, start, k, m);
    }
  }

  lemma StepBackFrom(plan: Plan, start: Pass, m: nat, m': nat)
    requires plan.Valid() && m' == m + 1 <= |plan.names| && BackFrom(plan, start, m)
    ensures BackFrom(plan, start, m')
  {
    var p := RunPass(plan, start, m);
    var v, q := plan.Vector(m), plan.QuotaAt(m);
    RestBackFrom(v, plan.cls, q);
    AfterScanBackFrom(SplitVector(v, plan.cls, q), Cut(v, plan.cls, q, |v|) == |v|, plan.cls.Cap(q), p.buffer, p.back);
    BackFromStep(RunPass(plan, start, m').back, p.back, v, start.back, Gather(plan.all, plan.names, m));
  }

  lemma BackFromStep(back': seq<UrlInfo>, back: seq<UrlInfo>, v: seq<UrlInfo>, start: seq<UrlInfo>, g: seq<UrlInfo>)
    requires forall u <- back' :: u in back || u in v
    requires forall u <- back :: u in start || u in g
    ensures forall u <- back' :: u in start || u in g + v
  {
  }

  lemma {:induction false} OfDomainMembers(all: seq<UrlInfo>, d: string, n: nat)
    requires n <= |all|
    ensures forall u <- OfDomain(all, d, n) :: u in all && u.domain == d
    decreases n
  {
    if n > 0 {
      OfDomainMembers(all, d, n - 1);
    }
  }

  lemma {:induction false} GatherMembers(all: seq<UrlInfo>, names: seq<string>, m: nat)
    requires m <= |names|
    ensures forall u <- Gather(all, names, m) :: u in all && u.domain in names
    decreases m
  {
    if m > 0 {
      GatherMembers(all, names, m - 1);
      OfDomainMembers(all, names[m - 1], |all|);
    }
  }

  predicate KindsAre(s: seq<UrlInfo>, k1: int, k2: int) {
    forall u <- s :: u.kind == k1 || u.kind == k2
  }

  /** With URLs in their own classes' pools, each list of leftovers keeps to the kinds of its class. */
  lemma LeftoversKeepClass(r: RoundIn, lists: Lists, items: map<string, int>, cates: map<string, int>)
    requires r.Valid() && OwnPools(r)
    requires KindsAre(lists.backO, 1, 0) && KindsAre(lists.backP, 3, 2)
    ensures var l := RunRound(r, lists, items, cates).lists; KindsAre(l.backO, 1, 0) && KindsAre(l.backP, 3, 2)
  {
    ValidPlans(r);
    var start := PrioStart(lists, items, cates);
    var prio := PrioPass(r, start);
    PassBackFrom(PrioPlan(r), start, |Names(r, Priority)|);
    GatherMembers(r.All(), Names(r, Priority), |Names(r, Priority)|);
    PassBackFrom(OrdPlan(r, prio.picked), OrdStart(prio, lists), |Names(r, Ordinary)|);
    GatherMembers(r.All(), Names(r, Ordinary), |Names(r, Ordinary)|);
  }

  /** A pass leaves the first five leftovers where they are. */
  lemma {:induction false} PassKeepsReserve(plan: Plan, start: Pass, m: nat, p: nat)
    requires plan.Valid() && m <= |plan.names| && p <= |start.back| && p <= BACK_RESERVE
    ensures p <= |RunPass(plan, start, m).back| && RunPass(plan, start, m).back[..p] == start.back[..p]
    decreases m
  {
    if m > 0 {
      var k := m - 1;
      PassKeepsReserve(plan, start, k, p);
      StepKeepsReserve(plan, start, k, m, p);
    }
  }

  lemma StepKeepsReserve(plan: Plan, start: Pass, k: nat, m: nat, p: nat)
    requires plan.Valid() && m == k + 1 <= |plan.names| && p <= BACK_RESERVE
    requires p <= |RunPass(plan, start, k).back|
    ensures p <= |RunPass(plan, start, m).back|
            && RunPass(plan, start, m).back[..p] == RunPass(plan, start, k).back[..p]
  {
    var r := RunPass(plan, start, k);
    BackKeepsReserve(plan.Vector(k), plan.cls, plan.QuotaAt(k), r.buffer, r.back, p);
  }

  /** The first five leftovers of both lists stay where they are over a round. */
  lemma RoundKeepsReserve(r: RoundIn, lists: Lists, o: nat, p: nat)
    requires r.Valid() && o == Min(|lists.backO|, BACK_RESERVE) && p == Min(|lists.backP|, BACK_RESERVE)
    ensures var l := RunRound(r, lists, map[], map[]).lists;
            && o <= |l.backO| && l.backO[..o] == lists.backO[..o]
            && p <= |l.backP| && l.backP[..p] == lists.backP[..p]
  {
    ValidPlans(r);
    var start := PrioStart(lists, map[], map[]);
    var prio := PrioPass(r, start);
    PassKeepsReserve(PrioPlan(r), start, |Names(r, Priority)|, p);
    PassKeepsReserve(OrdPlan(r, prio.picked), OrdStart(prio, lists), |Names(r, Ordinary)|, o);
  }

  // ---------- small domains ----------

  lemma {:induction false} SmallVectorIsTaken(v: seq<UrlInfo>, cls: Class, q: Quota, n: nat)
    requires n <= |v| && n <= q.cate && n <= q.item
    ensures Cut(v, cls, q, n) == n
    decreases n
  {
    if n > 0 {
      SmallVectorIsTaken(v, cls, q, n - 1);
    }
  }

  lemma {:induction false} OfDomainLength(all: seq<UrlInfo>, d: string, n: nat)
    requires n <= |all|
    ensures |OfDomain(all, d, n)| <= n
    decreases n
  {
    if n > 0 {
      OfDomainLength(all, d, n - 1);
    }
  }

  /** A domain with at most ten URLs is taken whole: its iteration leaves no leftovers. */
  lemma SmallDomainLeavesNothing(v: seq<UrlInfo>, cls: Class, q: Quota, buffer: seq<UrlInfo>, back: seq<UrlInfo>)
    requires |v| <= MIN_QUOTA <= q.cate && MIN_QUOTA <= q.item
    ensures DomainTally(v, cls, q, buffer, back).back == back
  {
    SmallVectorIsTaken(v, cls, q, |v|);
  }

  lemma {:induction false} SmallVectorsLeaveNothing(plan: Plan, start: Pass, m: nat)
    requires plan.Valid() && m <= |plan.names| && |plan.all| <= MIN_QUOTA
    ensures RunPass(plan, start, m).back == start.back
    decreases m
  {
    if m > 0 {
      var k := m - 1;
      SmallVectorsLeaveNothing(plan, start, k);
      SmallStep(plan, start, k, m);
    }
  }

  lemma SmallStep(plan: Plan, start: Pass, m: nat, m': nat)
    requires plan.Valid() && m' == m + 1 <= |plan.names| && |plan.all| <= MIN_QUOTA
    ensures RunPass(plan, start, m').back == RunPass(plan, start, m).back
  {
    var p := RunPass(plan, start, m);
    OfDomainLength(plan.all, plan.names[m], |plan.all|);
    QuotaAtLeastTen(plan.conf, plan.num, |plan.Vector(m)|, plan.links);
    SmallDomainLeavesNothing(plan.Vector(m), plan.cls, plan.QuotaAt(m), p.buffer, p.back);
  }

  lemma QuotaAtLeastTen(conf: SelectConf, num: int, size: nat, links: nat)
    requires conf.Valid()
    ensures QuotaFor(conf, num, size, links).cate >= MIN_QUOTA && QuotaFor(conf, num, size, links).item >= MIN_QUOTA
  {
  }
}
