/** The lifecycle of a queued URL in `crawl_thread` (spider.cpp:175-420) as a state machine: any
    number of threads pop items, resolve, ask for a grant, fetch with redirects, release, and drop or
    requeue. Every access to a shared object is one atomic step; I/O results are inputs of steps. */
module Crawls {
  import opened Options
  import opened Arithmetic
  import Q = SelectedQueues
  import L = LevelPools

  datatype CrawlConf = CrawlConf(maxFail: int, maxDns: int, maxRedirect: int, level: L.LevelConf) {
    /** What the configuration loader accepts (spider.cpp:1563-1625). */
    predicate Accepted() {
      maxFail > 0 && maxDns > 0 && maxRedirect > 0 && level.maxThreads > 0 && level.interval > 0
    }
  }

  const NOT_FOUND := -404
  const REDIRECT := -300

  /** Where a redirect answer points; for another site, whether its address could be resolved. */
  datatype Location = Missing | Path | Unbuildable | SameSite | OtherSite(resolved: bool)
  {
    predicate Reachable() {
      Path? || SameSite? || (OtherSite? && resolved)
    }
  }

  /** Where a thread is in the loop body. `NoIp` and `Delayed` are about to push the item back,
      `Releasing` is about to call `finish_crawl`, `Released` has done so. */
  datatype Stage =
    | Idle
    | Checking(qi: Q.SQItem)
    | Resolving(qi: Q.SQItem, site: string)
    | NoIp(qi: Q.SQItem, site: string)
    | Asking(qi: Q.SQItem, site: string)
    | Delayed(qi: Q.SQItem)
    | Fetching(qi: Q.SQItem, site: string)
    | Redirecting(qi: Q.SQItem, site: string, len: int, loc: Location, count: nat)
    | Releasing(qi: Q.SQItem, site: string, len: int)
    | Released(qi: Q.SQItem, len: int)
  {
    /** Whether the thread holds a grant for the site. */
    predicate Holds(s: string) {
      (Fetching? || Redirecting? || Releasing?) && site == s
    }
  }

  datatype State = State(queue: Q.State, pool: L.Pool, threads: seq<Stage>)

  datatype Event =
    | Insert(item: Q.SQItem)                                  // the select thread pushes a new item
    | Pop(t: nat)
    | Check(t: nat, site: Option<string>)                     // limits and URL format
    | Lookup(t: nat, resolved: bool)
    | PushBack(t: nat)                                        // the requeue of the NO_IP branch
    | Ask(t: nat, now: int)
    | Requeue(t: nat)                                         // the requeue after a refused grant
    | Fetch(t: nat, len: int, loc: Location)
    | Redirect(t: nat, len: int, loc: Location)
    | Release(t: nat)
    | Settle(t: nat)

  /** Whether the loop head drops an item without looking further. */
  predicate TooOften(c: CrawlConf, qi: Q.SQItem) {
    qi.failCount > c.maxFail || qi.dnsCount > c.maxDns
  }

  /** Whether the redirect loop goes round once more. */
  predicate Follows(c: CrawlConf, st: Stage)
    requires st.Redirecting?
  {
    st.len == REDIRECT && st.count < c.maxRedirect && st.loc.Reachable()
  }

  predicate Enabled(s: State, e: Event) {
    if e.Insert? then e.item.failCount == 0 && e.item.dnsCount == 0 && s.queue.count != s.queue.size
    else
      e.t < |s.threads| &&
      var st := s.threads[e.t];
      match e
      case Pop(_) => st.Idle? && s.queue.queue != []
      case Check(_, _) => st.Checking?
      case Lookup(_, _) => st.Resolving?
      case PushBack(_) => st.NoIp?
      case Ask(_, _) => st.Asking?
      case Requeue(_) => st.Delayed?
      case Fetch(_, _, _) => st.Fetching?
      case Redirect(_, _, _) => st.Redirecting?
      case Release(_) => st.Releasing?
      case Settle(_) => st.Released?
  }

  /** The stage that a step moves its thread to. */
  function NextStage(c: CrawlConf, s: State, e: Event): Stage
    requires Enabled(s, e) && !e.Insert?
  {
    var st := s.threads[e.t];
    match e
    case Pop(_) => Checking(s.queue.queue[0])
    case Check(_, site) => if TooOften(c, st.qi) || site.None? then Idle else Resolving(st.qi, site.value)
    case Lookup(_, resolved) =>
      if resolved then Asking(st.qi, st.site) else NoIp(st.qi.(dnsCount := st.qi.dnsCount + 1), st.site)
    case PushBack(_) => Asking(st.qi, st.site)
    case Ask(_, now) => if L.Grants(c.level, s.pool, st.site, now) then Fetching(st.qi, st.site) else Delayed(st.qi)
    case Requeue(_) => Idle
    case Fetch(_, len, loc) =>
      if len == NOT_FOUND then Releasing(st.qi, st.site, len) else Redirecting(st.qi, st.site, len, loc, 0)
    case Redirect(_, len, loc) =>
      if Follows(c, st) then Redirecting(st.qi, st.site, len, loc, st.count + 1) else Releasing(st.qi, st.site, st.len)
    case Release(_) => Released(st.qi, st.len)
    case Settle(_) => Idle
  }

  /** Whether the item of a finished fetch is queued again: any failure but "not found". */
  predicate Retries(len: int) {
    len < 0 && len != NOT_FOUND
  }

  /** The queue after a step; a push to a full queue is lost without notice. */
  function NextQueue(s: State, e: Event): Q.State
    requires Enabled(s, e)
  {
    match e
    case Insert(item) => Q.Apply(s.queue, Q.Push(item))
    case Pop(_) => Q.Apply(s.queue, Q.Op.Pop)
    case PushBack(t) => Q.Apply(s.queue, Q.Push(s.threads[t].qi))
    case Requeue(t) => Q.Apply(s.queue, Q.Push(s.threads[t].qi))
    case Settle(t) =>
      var st := s.threads[t];
      if Retries(st.len) then Q.Apply(s.queue, Q.Push(st.qi.(failCount := st.qi.failCount + 1))) else s.queue
    case _ => s.queue
  }

  function NextPool(c: CrawlConf, s: State, e: Event): L.Pool
    requires Enabled(s, e)
  {
    match e
    case Ask(t, now) => L.AfterAsk(c.level, s.pool, s.threads[t].site, now)
    case Release(t) => L.AfterFinish(s.pool, s.threads[t].site)
    case _ => s.pool
  }

  function Next(c: CrawlConf, s: State, e: Event): State
    requires Enabled(s, e)
  {
    State(NextQueue(s, e), NextPool(c, s, e),
          if e.Insert? then s.threads else s.threads[e.t := NextStage(c, s, e)])
  }

  predicate ValidRun(c: CrawlConf, s: State, events: seq<Event>)
    decreases |events|
  {
    events == [] || (Enabled(s, events[0]) && ValidRun(c, Next(c, s, events[0]), events[1..]))
  }

  function Run(c: CrawlConf, s: State, events: seq<Event>): State
    requires ValidRun(c, s, events)
    decreases |events|
  {
    if events == [] then s else Run(c, Next(c, s, events[0]), events[1..])
  }

  /** An empty queue, an empty throttle pool and all threads at the loop head. */
  function Start(size: int, n: nat): State {
    State(Q.Init(size), map[], seq(n, _ => Idle))
  }

  // ---------- permits ----------

  /** The number of the first `n` threads that hold a grant for the site. */
  function Holders(threads: seq<Stage>, site: string, n: nat): nat
    requires n <= |threads|
  {
    if n == 0 then 0 else Holders(threads, site, n - 1) + if threads[n - 1].Holds(site) then 1 else 0
  }

  lemma {:induction false} HoldersUpdate(threads: seq<Stage>, site: string, n: nat, t: nat, st: Stage)
    requires n <= |threads| && t < |threads|
    ensures Holders(threads[t := st], site, n)
         == Holders(threads, site, n)
            + (if t < n && st.Holds(site) then 1 else 0) - (if t < n && threads[t].Holds(site) then 1 else 0)
    decreases n
  {
    if n > 0 {
      HoldersUpdate(threads, site, n - 1, t, st);
    }
  }

  function Permits(pool: L.Pool, site: string): int {
    if site in pool then pool[site].crawlThreadCount else 0
  }

  /** The counter of every site is the number of threads holding a grant for it, and within the limit;
      a first grant is given even when the limit is not positive. */
  ghost predicate PermitsMatch(c: CrawlConf, s: State) {
    forall site ::
      && Permits(s.pool, site) == Holders(s.threads, site, |s.threads|)
      && Permits(s.pool, site) <= Max(1, c.level.maxThreads)
  }

  lemma PermitStep(c: CrawlConf, s: State, e: Event, site: string)
    requires PermitsMatch(c, s) && Enabled(s, e)
    ensures var s' := Next(c, s, e);
            && Permits(s'.pool, site) == Holders(s'.threads, site, |s'.threads|)
            && Permits(s'.pool, site) <= Max(1, c.level.maxThreads)
  {
    assert Permits(s.pool, site) == Holders(s.threads, site, |s.threads|);
    if !e.Insert? {
      HoldersUpdate(s.threads, site, |s.threads|, e.t, NextStage(c, s, e));
    }
  }

  /** In every run of any number of threads the throttle counters are exact. */
  lemma {:induction false} RunsKeepPermits(c: CrawlConf, s: State, events: seq<Event>)
    requires PermitsMatch(c, s) && ValidRun(c, s, events)
    ensures PermitsMatch(c, Run(c, s, events))
    decreases |events|
  {
    if events != [] {
      var s' := Next(c, s, events[0]);
      forall site
        ensures Permits(s'.pool, site) == Holders(s'.threads, site, |s'.threads|)
             && Permits(s'.pool, site) <= Max(1, c.level.maxThreads)
      {
        PermitStep(c, s, events[0], site);
      }
      RunsKeepPermits(c, s', events[1..]);
    }
  }

  /** At the start nobody holds a grant. */
  lemma StartPermits(c: CrawlConf, size: int, n: nat)
    ensures PermitsMatch(c, Start(size, n))
  {
    forall site
      ensures Holders(Start(size, n).threads, site, n) == 0
    {
      NoHolders(Start(size, n).threads, site, n);
    }
  }

  lemma {:induction false} NoHolders(threads: seq<Stage>, site: string, n: nat)
    requires n <= |threads| && forall i :: 0 <= i < n ==> threads[i].Idle?
    ensures Holders(threads, site, n) == 0
    decreases n
  {
    if n > 0 {
      NoHolders(threads, site, n - 1);
    }
  }

  /** Under every accepted configuration and in every run, the counter of a site is the number of threads
      that hold a grant for it, and within 0 and the limit. */
  lemma PermitsWithinLimit(c: CrawlConf, size: int, n: nat, events: seq<Event>, site: string)
    requires c.Accepted() && ValidRun(c, Start(size, n), events)
    ensures var s := Run(c, Start(size, n), events);
            && Permits(s.pool, site) == Holders(s.threads, site, |s.threads|)
            && 0 <= Permits(s.pool, site) <= c.level.maxThreads
  {
    StartPermits(c, size, n);
    RunsKeepPermits(c, Start(size, n), events);
  }

  /** Some run from the start exceeds the configured limit for some site. */
  ghost predicate CanExceed(c: CrawlConf, size: int, n: nat) {
    exists events, site ::
      ValidRun(c, Start(size, n), events) && Permits(Run(c, Start(size, n), events).pool, site) > c.level.maxThreads
  }

  /** With items able to enter and at least one thread, the throttle class keeps every site within its
      limit exactly when that limit is at least one. The configuration accepts no other. */
  lemma LimitRespectedIffPositive(c: CrawlConf, size: int, n: nat, item: Q.SQItem, site: string, now: int)
    requires n > 0 && size != 0 && c.maxFail >= 0 && c.maxDns >= 0
    requires item.failCount == 0 && item.dnsCount == 0
    ensures !CanExceed(c, size, n) <==> c.level.maxThreads >= 1
  {
    var s0 := Start(size, n);
    if c.level.maxThreads >= 1 {
      forall events, x | ValidRun(c, s0, events)
        ensures Permits(Run(c, s0, events).pool, x) <= c.level.maxThreads
      {
        StartPermits(c, size, n);
        RunsKeepPermits(c, s0, events);
      }
    } else {
      FirstGrant(c, size, n, item, site, now);
    }
  }

  /** The first fetch of a site is granted whatever the limit. */
  lemma FirstGrant(c: CrawlConf, size: int, n: nat, item: Q.SQItem, site: string, now: int)
    requires n > 0 && size != 0 && c.maxFail >= 0 && c.maxDns >= 0
    requires item.failCount == 0 && item.dnsCount == 0
    ensures exists events :: ValidRun(c, Start(size, n), events)
               && Permits(Run(c, Start(size, n), events).pool, site) == 1
  {
    var s1 := Next(c, Start(size, n), Insert(item));
    var s2 := Next(c, s1, Pop(0));
    var s3 := Next(c, s2, Check(0, Some(site)));
    var s4 := Next(c, s3, Lookup(0, true));
    var s5 := Next(c, s4, Ask(0, now));
    assert s5.pool == map[site := L.LevelInfo(c.level.maxThreads, 1, now, c.level.interval)];
    RunCons(c, s4, Ask(0, now), []);
    RunCons(c, s3, Lookup(0, true), [Ask(0, now)]);
    RunCons(c, s2, Check(0, Some(site)), [Lookup(0, true), Ask(0, now)]);
    RunCons(c, s1, Pop(0), [Check(0, Some(site)), Lookup(0, true), Ask(0, now)]);
    RunCons(c, Start(size, n), Insert(item), [Pop(0), Check(0, Some(site)), Lookup(0, true), Ask(0, now)]);
  }

  lemma RunCons(c: CrawlConf, s: State, e: Event, rest: seq<Event>)
    requires Enabled(s, e) && ValidRun(c, Next(c, s, e), rest)
    ensures ValidRun(c, s, [e] + rest) && Run(c, s, [e] + rest) == Run(c, Next(c, s, e), rest)
  {
    assert ([e] + rest)[1..] == rest;
  }

  // ---------- bounds on the counters of an item ----------

  predicate ItemBounded(c: CrawlConf, qi: Q.SQItem) {
    && 0 <= qi.failCount <= Max(c.maxFail + 1, 0)
    && 0 <= qi.dnsCount <= Max(c.maxDns + 1, 0)
  }

  /** What is known of the item a thread works on: past the check of the limits its fail count is
      within the limit, and until the lookup its DNS count too. */
  predicate StageBounded(c: CrawlConf, st: Stage) {
    match st
    case Idle => true
    case Checking(qi) => ItemBounded(c, qi)
    case Resolving(qi, _) => ItemBounded(c, qi) && !TooOften(c, qi)
    case _ => ItemBounded(c, st.qi) && st.qi.failCount <= c.maxFail
  }

  ghost predicate ItemsBounded(c: CrawlConf, s: State) {
    && (forall i :: 0 <= i < |s.queue.queue| ==> ItemBounded(c, s.queue.queue[i]))
    && (forall t :: 0 <= t < |s.threads| ==> StageBounded(c, s.threads[t]))
  }

  /** The item that a step tries to push. */
  function Pushes(s: State, e: Event): Option<Q.SQItem>
    requires Enabled(s, e)
  {
    match e
    case Insert(item) => Some(item)
    case PushBack(t) => Some(s.threads[t].qi)
    case Requeue(t) => Some(s.threads[t].qi)
    case Settle(t) =>
      var st := s.threads[t];
      if Retries(st.len) then Some(st.qi.(failCount := st.qi.failCount + 1)) else None
    case _ => None
  }

  lemma QueueShape(s: State, e: Event)
    requires Enabled(s, e)
    ensures var q, q' := s.queue.queue, NextQueue(s, e).queue;
            && (e.Pop? ==> q != [] && q' == q[1..])
            && (!e.Pop? ==> q' == q || (Pushes(s, e).Some? && q' == q + [Pushes(s, e).value]))
  {
  }

  lemma StageStaysBounded(c: CrawlConf, s: State, e: Event)
    requires ItemsBounded(c, s) && Enabled(s, e)
    ensures !e.Insert? ==> StageBounded(c, NextStage(c, s, e))
    ensures Pushes(s, e).Some? ==> ItemBounded(c, Pushes(s, e).value)
  {
    if !e.Insert? {
      assert StageBounded(c, s.threads[e.t]);
    }
  }

  lemma StepKeepsBounds(c: CrawlConf, s: State, e: Event)
    requires ItemsBounded(c, s) && Enabled(s, e)
    ensures ItemsBounded(c, Next(c, s, e))
  {
    StageStaysBounded(c, s, e);
    QueueShape(s, e);
  }

  // ---------- the weight of a state ----------

  function Pow3(n: nat): (r: nat)
    ensures r >= 1
  {
    if n == 0 then 1 else 3 * Pow3(n - 1)
  }

  /** How many more failures of one kind an item can have before it is dropped. */
  function Left(limit: int, used: int): nat {
    if used > limit then 0 else limit + 1 - used
  }

  function Weight(c: CrawlConf, qi: Q.SQItem): nat {
    Pow3(Left(c.maxFail, qi.failCount) + Left(c.maxDns, qi.dnsCount))
  }

  /** A thread about to push back an unresolved item will leave two copies of it. */
  function StageWeight(c: CrawlConf, st: Stage): nat {
    if st.Idle? then 0 else if st.NoIp? then 2 * Weight(c, st.qi) else Weight(c, st.qi)
  }

  function QueueWeight(c: CrawlConf, q: seq<Q.SQItem>): nat {
    if q == [] then 0 else Weight(c, q[0]) + QueueWeight(c, q[1..])
  }

  function ThreadsWeight(c: CrawlConf, threads: seq<Stage>, n: nat): nat
    requires n <= |threads|
  {
    if n == 0 then 0 else ThreadsWeight(c, threads, n - 1) + StageWeight(c, threads[n - 1])
  }

  /** The potential of a state: three to the number of failures left, over queued and held items. */
  function Potential(c: CrawlConf, s: State): nat {
    QueueWeight(c, s.queue.queue) + ThreadsWeight(c, s.threads, |s.threads|)
  }

  lemma {:induction false} QueueWeightAppend(c: CrawlConf, q: seq<Q.SQItem>, item: Q.SQItem)
    ensures QueueWeight(c, q + [item]) == QueueWeight(c, q) + Weight(c, item)
    decreases |q|
  {
    if q != [] {
      QueueWeightAppend(c, q[1..], item);
      assert (q + [item])[1..] == q[1..] + [item];
    } else {
      assert (q + [item])[1..] == [];
    }
  }

  lemma {:induction false} ThreadsWeightUpdate(c: CrawlConf, threads: seq<Stage>, n: nat, t: nat, st: Stage)
    requires n <= |threads| && t < |threads|
    ensures ThreadsWeight(c, threads[t := st], n)
         == ThreadsWeight(c, threads, n) + if t < n then StageWeight(c, st) - StageWeight(c, threads[t]) else 0
    decreases n
  {
    if n > 0 {
      ThreadsWeightUpdate(c, threads, n - 1, t, st);
    }
  }

  /** One more failure divides the weight by three. */
  lemma FailureDividesWeight(c: CrawlConf, qi: Q.SQItem)
    ensures qi.failCount <= c.maxFail ==> 3 * Weight(c, qi.(failCount := qi.failCount + 1)) == Weight(c, qi)
    ensures qi.dnsCount <= c.maxDns ==> 3 * Weight(c, qi.(dnsCount := qi.dnsCount + 1)) == Weight(c, qi)
  {
  }

  /** Whether a step ends an attempt other than by a refused grant, or finds no address. */
  predicate Consumes(c: CrawlConf, s: State, e: Event)
    requires Enabled(s, e)
  {
    match e
    case Check(t, site) => TooOften(c, s.threads[t].qi) || site.None?
    case Lookup(_, resolved) => !resolved
    case Settle(_) => true
    case _ => false
  }

  function PushedWeight(c: CrawlConf, s: State, e: Event): nat
    requires Enabled(s, e)
  {
    if Pushes(s, e).Some? then Weight(c, Pushes(s, e).value) else 0
  }

  /** What a step does to the weight of its own thread and the item it moves. */
  lemma LocalBalance(c: CrawlConf, s: State, e: Event)
    requires ItemsBounded(c, s) && Enabled(s, e) && !e.Insert?
    ensures PushedWeight(c, s, e) + StageWeight(c, NextStage(c, s, e)) + (if Consumes(c, s, e) then 1 else 0)
         <= StageWeight(c, s.threads[e.t]) + if e.Pop? then Weight(c, s.queue.queue[0]) else 0
  {
    var st := s.threads[e.t];
    assert StageBounded(c, st);
    if !st.Idle? {
      FailureDividesWeight(c, st.qi);
    }
  }

  lemma QueueBalance(c: CrawlConf, s: State, e: Event)
    requires Enabled(s, e)
    ensures QueueWeight(c, NextQueue(s, e).queue) + (if e.Pop? then Weight(c, s.queue.queue[0]) else 0)
         <= QueueWeight(c, s.queue.queue) + PushedWeight(c, s, e)
  {
    QueueShape(s, e);
    if Pushes(s, e).Some? {
      QueueWeightAppend(c, s.queue.queue, Pushes(s, e).value);
    }
  }

  /** No step raises the potential except an insertion, by the weight of the new item; every step that
      ends an attempt other than by a refused grant, and every failed lookup, lowers it. */
  lemma PotentialStep(c: CrawlConf, s: State, e: Event)
    requires ItemsBounded(c, s) && Enabled(s, e)
    ensures Potential(c, Next(c, s, e)) + (if Consumes(c, s, e) then 1 else 0)
         <= Potential(c, s) + if e.Insert? then Weight(c, e.item) else 0
  {
    QueueBalance(c, s, e);
    if !e.Insert? {
      LocalBalance(c, s, e);
      ThreadsWeightUpdate(c, s.threads, |s.threads|, e.t, NextStage(c, s, e));
    }
  }

  // ---------- whole runs ----------

  /** The number of consuming steps of a run. */
  function Consumed(c: CrawlConf, s: State, events: seq<Event>): nat
    requires ValidRun(c, s, events)
    decreases |events|
  {
    if events == [] then 0
    else (if Consumes(c, s, events[0]) then 1 else 0) + Consumed(c, Next(c, s, events[0]), events[1..])
  }

  /** The weight of all items inserted in a run. */
  function Inserted(c: CrawlConf, events: seq<Event>): nat {
    if events == [] then 0
    else (if events[0].Insert? then Weight(c, events[0].item) else 0) + Inserted(c, events[1..])
  }

  /** Every run has at most as many consuming steps as the potential it starts from and the weight
      inserted on the way; what remains bounds the number of queued and held items. */
  lemma {:induction false} RunsConsumeWeight(c: CrawlConf, s: State, events: seq<Event>)
    requires ItemsBounded(c, s) && ValidRun(c, s, events)
    ensures ItemsBounded(c, Run(c, s, events))
    ensures Consumed(c, s, events) + Potential(c, Run(c, s, events)) <= Potential(c, s) + Inserted(c, events)
    decreases |events|
  {
    if events != [] {
      var s' := Next(c, s, events[0]);
      StepKeepsBounds(c, s, events[0]);
      PotentialStep(c, s, events[0]);
      RunsConsumeWeight(c, s', events[1..]);
    }
  }

  /** The items in the queue and in the hands of threads. */
  function Copies(s: State, n: nat): nat
    requires n <= |s.threads|
  {
    if n == 0 then |s.queue.queue| else Copies(s, n - 1) + if s.threads[n - 1].Idle? then 0 else 1
  }

  lemma {:induction false} QueueWithinWeight(c: CrawlConf, q: seq<Q.SQItem>)
    ensures |q| <= QueueWeight(c, q)
    decreases |q|
  {
    if q != [] {
      QueueWithinWeight(c, q[1..]);
    }
  }

  lemma {:induction false} CopiesWithinPotential(c: CrawlConf, s: State, n: nat)
    requires n <= |s.threads|
    ensures Copies(s, n) <= QueueWeight(c, s.queue.queue) + ThreadsWeight(c, s.threads, n)
    decreases n
  {
    if n == 0 {
      QueueWithinWeight(c, s.queue.queue);
    } else {
      CopiesWithinPotential(c, s, n - 1);
    }
  }

  function Inserts(events: seq<Event>): nat {
    if events == [] then 0 else (if events[0].Insert? then 1 else 0) + Inserts(events[1..])
  }

  lemma {:induction false} InsertedWeight(c: CrawlConf, s: State, events: seq<Event>)
    requires ValidRun(c, s, events)
    ensures Inserted(c, events) == Inserts(events) * Pow3(Left(c.maxFail, 0) + Left(c.maxDns, 0))
    decreases |events|
  {
    if events != [] {
      var w := Pow3(Left(c.maxFail, 0) + Left(c.maxDns, 0));
      InsertedWeight(c, Next(c, s, events[0]), events[1..]);
      assert events[0].Insert? ==> (1 + Inserts(events[1..])) * w == w + Inserts(events[1..]) * w;
    }
  }

  lemma {:induction false} IdleWeighsNothing(c: CrawlConf, threads: seq<Stage>, n: nat)
    requires n <= |threads| && forall i :: 0 <= i < n ==> threads[i].Idle?
    ensures ThreadsWeight(c, threads, n) == 0
    decreases n
  {
    if n > 0 {
      IdleWeighsNothing(c, threads, n - 1);
    }
  }

  /** From an empty start, whatever the threads do and however the branch without an address doubles
      items: each inserted URL causes at most 3^(F+D+2) consuming steps and copies together, where F
      and D are the limits on failures and DNS queries; and no item exceeds a limit by more than one. */
  lemma LifecycleIsBounded(c: CrawlConf, size: int, n: nat, events: seq<Event>)
    requires ValidRun(c, Start(size, n), events)
    ensures var s := Run(c, Start(size, n), events);
            && ItemsBounded(c, s)
            && Consumed(c, Start(size, n), events) + Copies(s, |s.threads|)
               <= Inserts(events) * Pow3(Left(c.maxFail, 0) + Left(c.maxDns, 0))
  {
    var s0 := Start(size, n);
    IdleWeighsNothing(c, s0.threads, n);
    RunsConsumeWeight(c, s0, events);
    InsertedWeight(c, s0, events);
    CopiesWithinPotential(c, Run(c, s0, events), |Run(c, s0, events).threads|);
  }

  // ---------- termination ----------

  function Redirects(c: CrawlConf): nat {
    Max(c.maxRedirect, 0)
  }

  /** How far a thread is from the loop head. */
  function Rank(c: CrawlConf, st: Stage): nat {
    match st
    case Idle => Redirects(c) + 9
    case Checking(_) => Redirects(c) + 8
    case Resolving(_, _) => Redirects(c) + 7
    case NoIp(_, _) => Redirects(c) + 6
    case Asking(_, _) => Redirects(c) + 5
    case Delayed(_) => Redirects(c) + 4
    case Fetching(_, _) => Redirects(c) + 4
    case Redirecting(_, _, _, _, count) => 3 + Max(Redirects(c) - count, 0)
    case Releasing(_, _, _) => 2
    case Released(_, _) => 1
  }

  function Span(c: CrawlConf): nat {
    Redirects(c) + 10
  }

  function Ranks(c: CrawlConf, threads: seq<Stage>, n: nat): nat
    requires n <= |threads|
  {
    if n == 0 then 0 else Ranks(c, threads, n - 1) + Rank(c, threads[n - 1])
  }

  function Measure(c: CrawlConf, s: State): nat {
    Span(c) * Potential(c, s) + Ranks(c, s.threads, |s.threads|)
  }

  lemma {:induction false} RanksUpdate(c: CrawlConf, threads: seq<Stage>, n: nat, t: nat, st: Stage)
    requires n <= |threads| && t < |threads|
    ensures Ranks(c, threads[t := st], n)
         == Ranks(c, threads, n) + if t < n then Rank(c, st) - Rank(c, threads[t]) else 0
    decreases n
  {
    if n > 0 {
      RanksUpdate(c, threads, n - 1, t, st);
    }
  }

  const DELAY_COST := 5

  lemma RankStep(c: CrawlConf, s: State, e: Event)
    requires Enabled(s, e) && !e.Insert?
    ensures var before, after := Rank(c, s.threads[e.t]), Rank(c, NextStage(c, s, e));
            if e.Requeue? then after == before + DELAY_COST
            else if Consumes(c, s, e) then after < before + Span(c)
            else after < before
  {
  }

  lemma MulStep(k: nat, p: nat, p': nat, consumed: nat, gain: nat)
    requires p' + consumed <= p + gain
    ensures k * p' + k * consumed <= k * p + k * gain
  {
    assert k * (p' + consumed) <= k * (p + gain);
  }

  /** Whether a step is neither an insertion nor the requeue of a throttled item. */
  predicate Progresses(e: Event) {
    !e.Insert? && !e.Requeue?
  }

  lemma MeasureStep(c: CrawlConf, s: State, e: Event)
    requires ItemsBounded(c, s) && Enabled(s, e)
    ensures Measure(c, Next(c, s, e)) + (if Progresses(e) then 1 else 0)
         <= Measure(c, s) + (if e.Requeue? then DELAY_COST else 0)
            + if e.Insert? then Span(c) * Weight(c, e.item) else 0
  {
    PotentialStep(c, s, e);
    MulStep(Span(c), Potential(c, s), Potential(c, Next(c, s, e)),
            if Consumes(c, s, e) then 1 else 0, if e.Insert? then Weight(c, e.item) else 0);
    if !e.Insert? {
      RankStep(c, s, e);
      RanksUpdate(c, s.threads, |s.threads|, e.t, NextStage(c, s, e));
    }
  }

  function Delays(events: seq<Event>): nat {
    if events == [] then 0 else (if events[0].Requeue? then 1 else 0) + Delays(events[1..])
  }

  function Progress(events: seq<Event>): nat {
    if events == [] then 0 else (if Progresses(events[0]) then 1 else 0) + Progress(events[1..])
  }

  /** In every run the steps that are neither insertions nor throttle delays are bounded by a number
      fixed at the start, plus a constant for each delay and a multiple of the inserted weight: without
      new insertions only throttle delays can keep the threads busy for ever. */
  lemma {:induction false} OnlyDelaysGoOn(c: CrawlConf, s: State, events: seq<Event>)
    requires ItemsBounded(c, s) && ValidRun(c, s, events)
    ensures Progress(events) + Measure(c, Run(c, s, events))
         <= Measure(c, s) + DELAY_COST * Delays(events) + Span(c) * Inserted(c, events)
    decreases |events|
  {
    if events != [] {
      var s' := Next(c, s, events[0]);
      var rest := events[1..];
      StepKeepsBounds(c, s, events[0]);
      MeasureStep(c, s, events[0]);
      OnlyDelaysGoOn(c, s', rest);
      InsertedSplit(c, events, events[0], rest);
    }
  }

  lemma InsertedSplit(c: CrawlConf, events: seq<Event>, e: Event, rest: seq<Event>)
    requires events != [] && e == events[0] && rest == events[1..]
    ensures Span(c) * Inserted(c, events)
         == (if e.Insert? then Span(c) * Weight(c, e.item) else 0) + Span(c) * Inserted(c, rest)
  {
    if e.Insert? {
      Distribute(Span(c), Weight(c, e.item), Inserted(c, rest));
    }
  }

  lemma Distribute(k: nat, a: nat, b: nat)
    ensures k * (a + b) == k * a + k * b
  {
  }
}
