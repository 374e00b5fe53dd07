/** Per-site throttling (level_pool.cpp): a bound on concurrent fetches and a minimum interval
    between grants. The clock is an input of every request. */
module LevelPools {
  import opened Arithmetic

  datatype LevelInfo = LevelInfo(
    maxCrawlThreadCount: int, crawlThreadCount: int, lastCrawlTime: int, crawlInterval: int)

  /** `default_max_concurrent_thread_count` and `default_site_crawl_interval`. */
  datatype LevelConf = LevelConf(maxThreads: int, interval: int)

  type Pool = map<string, LevelInfo>

  /** Whether `is_crawl_enabled` grants a fetch of the site. A site never seen before is granted
      without looking at the limits. */
  predicate Grants(conf: LevelConf, pool: Pool, site: string, now: int) {
    site in pool ==>
      && pool[site].crawlThreadCount < conf.maxThreads
      && now - pool[site].lastCrawlTime >= conf.interval
  }

  function AfterAsk(conf: LevelConf, pool: Pool, site: string, now: int): Pool {
    if !Grants(conf, pool, site, now) then pool
    else if site in pool then
      pool[site := pool[site].(lastCrawlTime := now, crawlThreadCount := pool[site].crawlThreadCount + 1)]
    else
      pool[site := LevelInfo(conf.maxThreads, 1, now, conf.interval)]
  }

  function AfterFinish(pool: Pool, site: string): Pool {
    if site in pool then pool[site := pool[site].(crawlThreadCount := pool[site].crawlThreadCount - 1)] else pool
  }

  class LevelPool {
    const conf: LevelConf
    var pool: Pool

    constructor (conf: LevelConf)
      ensures this.conf == conf && pool == map[]
    {
      this.conf, pool := conf, map[];
    }

    method IsCrawlEnabled(site: string, now: int) returns (ok: bool)
      modifies this`pool
      ensures ok <==> site !in old(pool)
                      || (old(pool)[site].crawlThreadCount < conf.maxThreads
                          && now - old(pool)[site].lastCrawlTime >= conf.interval)
      ensures ok <==> Grants(conf, old(pool), site, now)
      ensures pool == AfterAsk(conf, old(pool), site, now)
    {
      if site !in pool {
        pool := pool[site := LevelInfo(conf.maxThreads, 1, now, conf.interval)];
        return true;
      }
      var li := pool[site];
      if li.crawlThreadCount >= conf.maxThreads {
        return false;
      }
      if now - li.lastCrawlTime < conf.interval {
        return false;
      }
      pool := pool[site := li.(lastCrawlTime := now, crawlThreadCount := li.crawlThreadCount + 1)];
      return true;
    }

    method FinishCrawl(site: string)
      modifies this`pool
      ensures pool == AfterFinish(old(pool), site)
    {
      if site !in pool {
        return;
      }
      pool := pool[site := pool[site].(crawlThreadCount := pool[site].crawlThreadCount - 1)];
    }
  }

  // ---------- the rate of grants over whole runs ----------

  datatype Op = Ask(site: string, now: int) | Finish(site: string)

  function Apply(conf: LevelConf, pool: Pool, op: Op): Pool {
    match op
    case Ask(site, now) => AfterAsk(conf, pool, site, now)
    case Finish(site) => AfterFinish(pool, site)
  }

  /** The pool after the first `n` operations of a run; the clock readings are arbitrary. */
  function Run(conf: LevelConf, ops: seq<Op>, n: nat): Pool
    requires n <= |ops|
  {
    if n == 0 then map[] else Apply(conf, Run(conf, ops, n - 1), ops[n - 1])
  }

  predicate IsGrant(conf: LevelConf, ops: seq<Op>, site: string, i: nat)
    requires i < |ops|
  {
    ops[i].Ask? && ops[i].site == site && Grants(conf, Run(conf, ops, i), site, ops[i].now)
  }

  /** The clock readings of the grants for a site, in the order of the run. */
  function GrantTimes(conf: LevelConf, ops: seq<Op>, site: string, n: nat): seq<int>
    requires n <= |ops|
  {
    if n == 0 then []
    else if IsGrant(conf, ops, site, n - 1) then GrantTimes(conf, ops, site, n - 1) + [ops[n - 1].now]
    else GrantTimes(conf, ops, site, n - 1)
  }

  predicate Spaced(times: seq<int>, gap: int) {
    forall i :: 0 < i < |times| ==> times[i] - times[i - 1] >= gap
  }

  /** Consecutive grants for a site are at least the interval apart, whatever the clock does in
      between; the pool remembers the last of them. */
  lemma {:induction false} GrantsAreSpaced(conf: LevelConf, ops: seq<Op>, site: string, n: nat)
    requires n <= |ops|
    ensures var times := GrantTimes(conf, ops, site, n); var pool := Run(conf, ops, n);
            && Spaced(times, conf.interval)
            && (site in pool <==> times != [])
            && (times != [] ==> pool[site].lastCrawlTime == times[|times| - 1])
    decreases n
  {
    if n > 0 {
      GrantsAreSpaced(conf, ops, site, n - 1);
    }
  }

  // ---------- exactly when a request is granted ----------

  /** The releases of a site's grants among the first `n` operations; those before its first grant find
      nothing to release. */
  function Releases(conf: LevelConf, ops: seq<Op>, site: string, n: nat): nat
    requires n <= |ops|
  {
    if n == 0 then 0
    else Releases(conf, ops, site, n - 1)
         + if ops[n - 1].Finish? && ops[n - 1].site == site && GrantTimes(conf, ops, site, n - 1) != [] then 1 else 0
  }

  /** The counter of a site is the number of its grants that are not released. */
  lemma {:induction false} CounterIsOpenGrants(conf: LevelConf, ops: seq<Op>, site: string, n: nat)
    requires n <= |ops|
    ensures var times, pool := GrantTimes(conf, ops, site, n), Run(conf, ops, n);
            && (site in pool <==> times != [])
            && (if times == [] then Releases(conf, ops, site, n) == 0
                else pool[site].crawlThreadCount == |times| - Releases(conf, ops, site, n))
    decreases n
  {
    if n > 0 {
      CounterIsOpenGrants(conf, ops, site, n - 1);
    }
  }

  /** In every run from an empty pool and at every clock reading, a request for a site is granted exactly when
      the site never had a grant, or has fewer open grants than the limit and had its last grant at least
      the interval ago. */
  lemma GrantedIff(conf: LevelConf, ops: seq<Op>, site: string, n: nat)
    requires n < |ops| && ops[n].Ask? && ops[n].site == site
    ensures var times := GrantTimes(conf, ops, site, n);
            IsGrant(conf, ops, site, n) <==>
              || times == []
              || (|times| - Releases(conf, ops, site, n) < conf.maxThreads
                  && ops[n].now - times[|times| - 1] >= conf.interval)
  {
    GrantsAreSpaced(conf, ops, site, n);
    CounterIsOpenGrants(conf, ops, site, n);
  }

  /** The number of grants with a clock reading in the window from `lo` to `hi`. */
  function InWindow(times: seq<int>, lo: int, hi: int): nat {
    if times == [] then 0
    else InWindow(times[..|times| - 1], lo, hi) + if lo <= times[|times| - 1] <= hi then 1 else 0
  }

  lemma {:induction false} SpacedIsBelow(times: seq<int>, gap: int, i: nat)
    requires gap > 0 && Spaced(times, gap) && i + 1 < |times|
    ensures times[i] <= times[|times| - 1] - gap
    decreases |times| - i
  {
    if i + 2 < |times| {
      SpacedIsBelow(times, gap, i + 1);
    }
  }

  lemma {:induction false} WindowCut(times: seq<int>, lo: int, hi: int, cut: int)
    requires cut <= hi && forall i :: 0 <= i < |times| ==> times[i] <= cut
    ensures InWindow(times, lo, hi) == InWindow(times, lo, cut)
  {
    if times != [] {
      WindowCut(times[..|times| - 1], lo, hi, cut);
    }
  }

  lemma BeforeLast(times: seq<int>, gap: int)
    requires gap > 0 && Spaced(times, gap) && times != []
    ensures forall i :: 0 <= i < |times| - 1 ==> times[i] <= times[|times| - 1] - gap
  {
    forall i | 0 <= i < |times| - 1
      ensures times[i] <= times[|times| - 1] - gap
    {
      SpacedIsBelow(times, gap, i);
    }
  }

  /** The most readings that a window can hold when any two are at least `gap` apart. */
  function Slots(gap: int, lo: int, hi: int): nat
    requires gap > 0
  {
    if hi < lo then 0 else (hi - lo) / gap + 1
  }

  lemma {:induction false} WindowOfSpaced(times: seq<int>, gap: int, lo: int, hi: int)
    requires gap > 0 && Spaced(times, gap)
    ensures InWindow(times, lo, hi) <= Slots(gap, lo, hi)
    decreases |times|
  {
    if times != [] {
      var last, before := times[|times| - 1], times[..|times| - 1];
      if lo <= last <= hi {
        BeforeLast(times, gap);
        WindowCut(before, lo, hi, last - gap);
        WindowOfSpaced(before, gap, lo, last - gap);
        WindowStep(last, gap, lo, hi);
      } else {
        WindowOfSpaced(before, gap, lo, hi);
      }
    }
  }

  lemma WindowStep(last: int, gap: int, lo: int, hi: int)
    requires gap > 0 && lo <= last <= hi
    ensures Slots(gap, lo, last - gap) + 1 <= Slots(gap, lo, hi)
  {
    DivMonotone(last - lo, hi - lo, gap);
    if last - gap >= lo {
      DivMinusOne(last - lo, gap);
    }
  }

  /** In every run, any time window of length `w` contains at most w / interval + 1 grants for a site. */
  lemma GrantRate(conf: LevelConf, ops: seq<Op>, site: string, lo: int, w: nat)
    requires conf.interval > 0
    ensures InWindow(GrantTimes(conf, ops, site, |ops|), lo, lo + w) <= w / conf.interval + 1
  {
    GrantsAreSpaced(conf, ops, site, |ops|);
    WindowOfSpaced(GrantTimes(conf, ops, site, |ops|), conf.interval, lo, lo + w);
  }
}
