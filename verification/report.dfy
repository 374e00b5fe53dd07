/** What the statistics report of a round says: of each selected domain, how many of the URLs that its
    iteration pushed were categories and how many were items (spider.cpp:544-598, 642-693). */
module Reports {
  import opened UrlPools
  import opened Arithmetic
  import opened Scans
  import opened Rounds
  import opened RoundLaws
  import opened Statistics
  import opened Iterations
  import opened Budgets

  // ---------- a pass ----------

  /** What the iteration of the domain at `i` pushes into the selection buffer. */
  ghost function Pushed(plan: Plan, start: Pass, i: nat): seq<UrlInfo>
    requires plan.Valid() && i < |plan.names|
  {
    Since(RunPass(plan, start, i).buffer, RunPass(plan, start, i + 1).buffer)
  }

  /** How many of these its scans picked. */
  ghost function Picked(plan: Plan, start: Pass, i: nat): int
    requires plan.Valid() && i < |plan.names|
  {
    RunPass(plan, start, i + 1).picked - RunPass(plan, start, i).picked
  }

  /** The counters tell the kinds of what the iteration of the domain at `i` pushed. */
  ghost predicate Reported(plan: Plan, start: Pass, i: nat, items: int, cates: int)
    requires plan.Valid() && i < |plan.names|
  {
    0 <= Picked(plan, start, i) <= |Pushed(plan, start, i)|
    && Counts(plan.cls, Pushed(plan, start, i), Picked(plan, start, i), items, cates)
  }

  lemma StepReports(plan: Plan, start: Pass, i: nat, i': nat)
    requires plan.Valid() && i' == i + 1 <= |plan.names|
    ensures var p := RunPass(plan, start, i');
            Reported(plan, start, i, Count(p.items, plan.names[i]), Count(p.cates, plan.names[i]))
    ensures RunPass(plan, start, i').buffer == RunPass(plan, start, i).buffer + Pushed(plan, start, i)
  {
    var p := RunPass(plan, start, i);
    CountersMeaning(plan.Vector(i), plan.cls, plan.QuotaAt(i), p.buffer, p.back);
  }

  /** After a pass the counters of each of its domains tell what its own iteration pushed. */
  lemma {:induction false} PassReports(plan: Plan, start: Pass, i: nat, m: nat)
    requires plan.Valid() && i < m <= |plan.names|
    ensures var p := RunPass(plan, start, m);
            Reported(plan, start, i, Count(p.items, plan.names[i]), Count(p.cates, plan.names[i]))
    decreases m
  {
    var k := m - 1;
    if i == k {
      StepReports(plan, start, i, m);
    } else {
      PassReports(plan, start, i, k);
      StepSetsOwn(plan, start, k, m, plan.names[i]);
    }
  }

  /** What the first `m` domains pushed, one after another. */
  ghost function AllPushed(plan: Plan, start: Pass, m: nat): seq<UrlInfo>
    requires plan.Valid() && m <= |plan.names|
  {
    if m == 0 then [] else AllPushed(plan, start, m - 1) + Pushed(plan, start, m - 1)
  }

  lemma {:induction false} BufferIsPushed(plan: Plan, start: Pass, m: nat)
    requires plan.Valid() && m <= |plan.names|
    ensures RunPass(plan, start, m).buffer == start.buffer + AllPushed(plan, start, m)
    decreases m
  {
    if m > 0 {
      var k := m - 1;
      BufferIsPushed(plan, start, k);
      StepPushes(plan, start, k, m);
    }
  }

  lemma StepPushes(plan: Plan, start: Pass, k: nat, m: nat)
    requires plan.Valid() && m == k + 1 <= |plan.names|
    requires RunPass(plan, start, k).buffer == start.buffer + AllPushed(plan, start, k)
    ensures RunPass(plan, start, m).buffer == start.buffer + AllPushed(plan, start, m)
  {
    StepReports(plan, start, k, m);
    Associate(start.buffer, AllPushed(plan, start, k), Pushed(plan, start, k));
  }

  lemma Associate(a: seq<UrlInfo>, b: seq<UrlInfo>, c: seq<UrlInfo>)
    ensures (a + b) + c == a + (b + c)
  {
  }

  // ---------- a round ----------

  /** The plan of a class in a round. */
  ghost function ClassPlan(r: RoundIn, lists: Lists, items: map<string, int>, cates: map<string, int>, cls: Class)
      : (plan: Plan)
    requires r.Valid()
    ensures plan.Valid() && plan.names == Names(r, cls) && plan.cls == cls
  {
    ValidPlans(r);
    match cls
    case Priority => PrioPlan(r)
    case Ordinary => OrdPlan(r, PrioPass(r, PrioStart(lists, items, cates)).picked)
  }

  ghost function ClassStart(r: RoundIn, lists: Lists, items: map<string, int>, cates: map<string, int>, cls: Class)
      : Pass
    requires r.Valid()
  {
    match cls
    case Priority => PrioStart(lists, items, cates)
    case Ordinary => OrdStart(PrioPass(r, PrioStart(lists, items, cates)), lists)
  }

  /** The round as its two passes. */
  lemma RoundIsPasses(r: RoundIn, lists: Lists, items: map<string, int>, cates: map<string, int>)
    requires r.Valid()
    ensures var out := RunRound(r, lists, items, cates);
            var prio := RunPass(ClassPlan(r, lists, items, cates, Priority), PrioStart(lists, items, cates),
                                |Names(r, Priority)|);
            var ord := RunPass(ClassPlan(r, lists, items, cates, Ordinary),
                               ClassStart(r, lists, items, cates, Ordinary), |Names(r, Ordinary)|);
            && ClassStart(r, lists, items, cates, Ordinary) == OrdStart(prio, lists)
            && out.lists.buffer == ord.buffer && out.items == ord.items && out.cates == ord.cates
  {
  }

  /** For every selected domain the reported counters tell the kinds of what its iteration pushed. */
  lemma RoundReports(r: RoundIn, lists: Lists, items: map<string, int>, cates: map<string, int>, cls: Class, i: nat)
    requires r.Valid() && i < |Names(r, cls)|
    ensures var out, d := RunRound(r, lists, items, cates), Names(r, cls)[i];
            Reported(ClassPlan(r, lists, items, cates, cls), ClassStart(r, lists, items, cates, cls), i,
                     Count(out.items, d), Count(out.cates, d))
  {
    var plan, start := ClassPlan(r, lists, items, cates, cls), ClassStart(r, lists, items, cates, cls);
    PassReports(plan, start, i, |Names(r, cls)|);
    PassCountersLast(r, lists, items, cates, cls, Names(r, cls)[i]);
  }

  /** The ordinary pass leaves the counters of priority domains alone. */
  lemma PassCountersLast(r: RoundIn, lists: Lists, items: map<string, int>, cates: map<string, int>,
                         cls: Class, d: string)
    requires r.Valid() && d in Names(r, cls)
    ensures var out := RunRound(r, lists, items, cates);
            var p := RunPass(ClassPlan(r, lists, items, cates, cls), ClassStart(r, lists, items, cates, cls),
                             |Names(r, cls)|);
            Count(out.items, d) == Count(p.items, d) && Count(out.cates, d) == Count(p.cates, d)
  {
    RoundIsPasses(r, lists, items, cates);
    if cls.Priority? {
      NamesMeaning(r, Priority);
      NamesMeaning(r, Ordinary);
      var ord, start := ClassPlan(r, lists, items, cates, Ordinary), ClassStart(r, lists, items, cates, Ordinary);
      OtherCounters(ord, start, |ord.names|);
      assert d !in ord.names[..|ord.names|];
      assert SameCounters(RunPass(ord, start, |ord.names|), start, d);
    }
  }

  /** The selection buffer after a round is what it was, and then what each domain pushed, the priority
      domains first. */
  lemma RoundPushes(r: RoundIn, lists: Lists, items: map<string, int>, cates: map<string, int>)
    requires r.Valid()
    ensures RunRound(r, lists, items, cates).lists.buffer
         == lists.buffer
            + AllPushed(ClassPlan(r, lists, items, cates, Priority), ClassStart(r, lists, items, cates, Priority),
                        |Names(r, Priority)|)
            + AllPushed(ClassPlan(r, lists, items, cates, Ordinary), ClassStart(r, lists, items, cates, Ordinary),
                        |Names(r, Ordinary)|)
  {
    RoundIsPasses(r, lists, items, cates);
    BufferIsPushed(ClassPlan(r, lists, items, cates, Priority), ClassStart(r, lists, items, cates, Priority),
                   |Names(r, Priority)|);
    BufferIsPushed(ClassPlan(r, lists, items, cates, Ordinary), ClassStart(r, lists, items, cates, Ordinary),
                   |Names(r, Ordinary)|);
  }

  /** The counters of a domain that the round does not select from are as before. */
  lemma OthersUnreported(r: RoundIn, lists: Lists, items: map<string, int>, cates: map<string, int>, d: string)
    requires r.Valid() && d !in Names(r, Priority) && d !in Names(r, Ordinary)
    ensures var out := RunRound(r, lists, items, cates);
            Count(out.items, d) == Count(items, d) && Count(out.cates, d) == Count(cates, d)
  {
    RoundIsPasses(r, lists, items, cates);
    var prio, ord := ClassPlan(r, lists, items, cates, Priority), ClassPlan(r, lists, items, cates, Ordinary);
    var start := ClassStart(r, lists, items, cates, Priority);
    OtherCounters(prio, start, |prio.names|);
    OtherCounters(ord, ClassStart(r, lists, items, cates, Ordinary), |ord.names|);
    assert d !in prio.names[..|prio.names|] && d !in ord.names[..|ord.names|];
    assert SameCounters(RunPass(prio, start, |prio.names|), start, d);
  }

  /** Every line of the report about a selected domain tells the kinds of what that domain's iteration
      pushed. */
  ghost predicate Truthful(r: RoundIn, lists: Lists, items: map<string, int>, cates: map<string, int>,
                           report: seq<Line>)
    requires r.Valid()
  {
    forall cls, i, j :: 0 <= i < |Names(r, cls)| && 0 <= j < |report| && report[j].domain == Names(r, cls)[i] ==>
      Reported(ClassPlan(r, lists, items, cates, cls), ClassStart(r, lists, items, cates, cls), i,
               report[j].itemSelect, report[j].cateSelect)
  }

  lemma ReportIsTruthful(r: RoundIn, lists: Lists, items: map<string, int>, cates: map<string, int>,
                         report: seq<Line>)
    requires r.Valid()
    requires var out := RunRound(r, lists, items, cates);
             forall j :: 0 <= j < |report| ==>
               report[j].cateSelect == Count(out.cates, report[j].domain)
               && report[j].itemSelect == Count(out.items, report[j].domain)
    ensures Truthful(r, lists, items, cates, report)
  {
    forall cls, i, j | 0 <= i < |Names(r, cls)| && 0 <= j < |report| && report[j].domain == Names(r, cls)[i]
      ensures Reported(ClassPlan(r, lists, items, cates, cls), ClassStart(r, lists, items, cates, cls), i,
                       report[j].itemSelect, report[j].cateSelect)
    {
      RoundReports(r, lists, items, cates, cls, i);
    }
  }

  // ---------- a domain whose URLs are all in the pools of its class ----------

  /** The number of URLs of a domain among the first `n` of a pool. */
  function CountDomain(pool: seq<UrlInfo>, d: string, n: nat): nat
    requires n <= |pool|
  {
    if n == 0 then 0 else CountDomain(pool, d, n - 1) + if pool[n - 1].domain == d then 1 else 0
  }

  /** The URLs of a domain in a pool, with the type that draining gives them. */
  function FromPool(pool: seq<UrlInfo>, d: string, k: int): seq<UrlInfo> {
    OfDomain(Retag(pool, k), d, |pool|)
  }

  lemma {:induction false} FromPoolCounts(pool: seq<UrlInfo>, d: string, k: int, n: nat)
    requires n <= |pool|
    ensures var v := OfDomain(Retag(pool, k), d, n);
            |v| == CountDomain(pool, d, n) && forall i :: 0 <= i < |v| ==> v[i].kind == k
    decreases n
  {
    if n > 0 {
      FromPoolCounts(pool, d, k, n - 1);
    }
  }

  /** The vector of a domain has its priority categories first, then its priority items, its ordinary items
      and its ordinary categories, each in the order of their pool. */
  lemma VectorMeaning(r: RoundIn, d: string)
    ensures VectorIs(r.All(), d, FromPool(r.cpq, d, 3) + FromPool(r.ipq, d, 2) + FromPool(r.ioq, d, 0)
                                 + FromPool(r.coq, d, 1))
  {
    var a, b, c, e := Retag(r.cpq, 3), Retag(r.ipq, 2), Retag(r.ioq, 0), Retag(r.coq, 1);
    VectorsJoin(a, b, d, FromPool(r.cpq, d, 3), FromPool(r.ipq, d, 2));
    VectorsJoin(a + b, c, d, FromPool(r.cpq, d, 3) + FromPool(r.ipq, d, 2), FromPool(r.ioq, d, 0));
    VectorsJoin(a + b + c, e, d, FromPool(r.cpq, d, 3) + FromPool(r.ipq, d, 2) + FromPool(r.ioq, d, 0),
                FromPool(r.coq, d, 1));
  }

  /** No URL of the domain is in a pool of the other class. */
  predicate OwnPoolsOnly(r: RoundIn, d: string, cls: Class) {
    match cls
    case Priority => CountDomain(r.ioq, d, |r.ioq|) == 0 && CountDomain(r.coq, d, |r.coq|) == 0
    case Ordinary => CountDomain(r.ipq, d, |r.ipq|) == 0 && CountDomain(r.cpq, d, |r.cpq|) == 0
  }

  /** The numbers of categories and items of a domain in the pools of its class. */
  function CategoriesOf(r: RoundIn, d: string, cls: Class): nat {
    match cls
    case Priority => CountDomain(r.cpq, d, |r.cpq|)
    case Ordinary => CountDomain(r.coq, d, |r.coq|)
  }

  function ItemsOf(r: RoundIn, d: string, cls: Class): nat {
    match cls
    case Priority => CountDomain(r.ipq, d, |r.ipq|)
    case Ordinary => CountDomain(r.ioq, d, |r.ioq|)
  }

  lemma TwoPools(a: seq<UrlInfo>, b: seq<UrlInfo>, v: seq<UrlInfo>, k: int, l: int, n: nat)
    requires k != l && v == a + b && n == |a| && (forall i :: 0 <= i < |a| ==> a[i].kind == k)
    requires forall i :: 0 <= i < |b| ==> b[i].kind == l
    ensures CountKind(v, k, 0, |v|) == |a| && CountKind(v, l, 0, |v|) == |b|
    ensures forall u <- v :: u.kind == k || u.kind == l
  {
    CountKindOf(v, k, 0, n, k);
    CountKindOf(v, l, 0, n, k);
    CountKindOf(v, k, n, |v|, l);
    CountKindOf(v, l, n, |v|, l);
    CountKindSplit(v, k, 0, n, |v|);
    CountKindSplit(v, l, 0, n, |v|);
  }

  lemma OwnVector(r: RoundIn, d: string, cls: Class, v: seq<UrlInfo>)
    requires OwnPoolsOnly(r, d, cls) && VectorIs(r.All(), d, v)
    ensures OwnKinds(v, cls)
    ensures CountKind(v, CategoryType(cls), 0, |v|) == CategoriesOf(r, d, cls)
    ensures CountKind(v, ItemType(cls), 0, |v|) == ItemsOf(r, d, cls)
  {
    VectorMeaning(r, d);
    FromPoolCounts(r.cpq, d, 3, |r.cpq|);
    FromPoolCounts(r.ipq, d, 2, |r.ipq|);
    FromPoolCounts(r.ioq, d, 0, |r.ioq|);
    FromPoolCounts(r.coq, d, 1, |r.coq|);
    var a, b, c, e := FromPool(r.cpq, d, 3), FromPool(r.ipq, d, 2), FromPool(r.ioq, d, 0), FromPool(r.coq, d, 1);
    match cls {
      case Priority =>
        LastTwoEmpty(a, b, c, e);
        TwoPools(a, b, v, 3, 2, |a|);
      case Ordinary =>
        FirstTwoEmpty(a, b, c, e);
        TwoPools(c, e, v, 0, 1, |c|);
    }
  }

  lemma LastTwoEmpty(a: seq<UrlInfo>, b: seq<UrlInfo>, c: seq<UrlInfo>, e: seq<UrlInfo>)
    requires |c| == 0 && |e| == 0
    ensures a + b + c + e == a + b
  {
  }

  lemma FirstTwoEmpty(a: seq<UrlInfo>, b: seq<UrlInfo>, c: seq<UrlInfo>, e: seq<UrlInfo>)
    requires |a| == 0 && |b| == 0
    ensures a + b + c + e == c + e
  {
  }

  /** What a class is given in a round: the wanted number is tenths of the whole for priority domains and
      for ordinary ones the rest, with what the scans of the first left of theirs; the links are the URLs in
      the two pools of the class. */
  lemma PlanMeaning(r: RoundIn, lists: Lists, items: map<string, int>, cates: map<string, int>, cls: Class)
    requires r.Valid()
    ensures var plan := ClassPlan(r, lists, items, cates, cls);
            var part := r.conf.selectNums * r.conf.priorityQuota / 10;
            && plan.conf == r.conf && plan.all == r.All()
            && plan.num == (match cls
                            case Priority => part
                            case Ordinary => r.conf.selectNums - Min(part, RunRound(r, lists, items, cates).prioCount))
            && plan.links == (match cls case Priority => |r.cpq| + |r.ipq| case Ordinary => |r.coq| + |r.ioq|)
  {
  }

  /** A selected domain with URLs in its own class's pools: the scans pick as many categories and items as
      its quotas allow, and without a backfill these two numbers are what is reported. */
  lemma DomainReport(r: RoundIn, lists: Lists, items: map<string, int>, cates: map<string, int>, cls: Class, i: nat)
    requires r.Valid() && i < |Names(r, cls)| && OwnPoolsOnly(r, Names(r, cls)[i], cls)
    ensures var out, d := RunRound(r, lists, items, cates), Names(r, cls)[i];
            var plan, start := ClassPlan(r, lists, items, cates, cls), ClassStart(r, lists, items, cates, cls);
            var c := Min(plan.QuotaAt(i).cate, CategoriesOf(r, d, cls));
            var n := Min(plan.QuotaAt(i).item, ItemsOf(r, d, cls));
            && Picked(plan, start, i) == c + n
            && (|Pushed(plan, start, i)| == c + n ==> Count(out.cates, d) == c && Count(out.items, d) == n)
  {
    var plan, start := ClassPlan(r, lists, items, cates, cls), ClassStart(r, lists, items, cates, cls);
    RoundReports(r, lists, items, cates, cls, i);
    OwnVector(r, Names(r, cls)[i], cls, plan.Vector(i));
    StepPicks(plan, start, i, i + 1);
  }

  lemma StepPicks(plan: Plan, start: Pass, i: nat, i': nat)
    requires plan.Valid() && i' == i + 1 <= |plan.names| && OwnKinds(plan.Vector(i), plan.cls)
    ensures var v, q := plan.Vector(i), plan.QuotaAt(i);
            var c := Min(q.cate, CountKind(v, CategoryType(plan.cls), 0, |v|));
            var n := Min(q.item, CountKind(v, ItemType(plan.cls), 0, |v|));
            && Picked(plan, start, i) == c + n
            && var g := Pushed(plan, start, i); |g| == c + n ==> CountKind(g, CategoryType(plan.cls), 0, |g|) == c
  {
    var p := RunPass(plan, start, i);
    var v, q := plan.Vector(i), plan.QuotaAt(i);
    OwnKindsCounted(v, plan.cls, q, p.buffer, p.back);
    ScansAreGreedy(v, plan.cls, q);
    GreedyCounts(v, plan.cls, q, |v|);
  }
}
