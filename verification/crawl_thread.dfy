/** One pass through the loop of `crawl_thread` (spider.cpp:175-344) on the shared objects, proved to
    be a run of the life-cycle machine. The URL library, DNS answers, the clock and fetch results are
    inputs; output files and the page body are left out. */
module CrawlThreads {
  import opened Options
  import opened Crawls
  import Q = SelectedQueues
  import L = LevelPools
  import D = DnsClients

  /** What the outside answers during one pass: the site of a URL, when it can be built; the result of
      a real DNS query; the clock; and the length and location header of each fetch in turn. */
  datatype World = World(
    build: string -> Option<string>, answer: string -> string, now: int, fetch: nat -> (int, Option<string>))

  /** The events lead from one state to the other. */
  ghost predicate Leads(c: CrawlConf, from: State, events: seq<Event>, to: State) {
    ValidRun(c, from, events) && Run(c, from, events) == to
  }

  lemma {:induction false} LeadsOn(c: CrawlConf, from: State, events: seq<Event>, mid: State, e: Event)
    requires Leads(c, from, events, mid) && Enabled(mid, e)
    ensures Leads(c, from, events + [e], Next(c, mid, e))
    decreases |events|
  {
    if events == [] {
      assert ([] + [e])[1..] == [];
    } else {
      LeadsOn(c, Next(c, from, events[0]), events[1..], mid, e);
      assert (events + [e])[1..] == events[1..] + [e];
    }
  }

  lemma {:induction false} LeadsJoin(c: CrawlConf, from: State, a: seq<Event>, mid: State, b: seq<Event>, to: State)
    requires Leads(c, from, a, mid) && Leads(c, mid, b, to)
    ensures Leads(c, from, a + b, to)
    decreases |a|
  {
    if a == [] {
      assert a + b == b;
    } else {
      LeadsJoin(c, Next(c, from, a[0]), a[1..], mid, b, to);
      assert (a + b)[1..] == a[1..] + b;
    }
  }

  // ---------- what a pass should do, on values ----------

  type Cache = map<string, string>

  function Address(cache: Cache, w: World, site: string): string {
    if site in cache then cache[site] else w.answer(site)
  }

  function Looked(cache: Cache, w: World, site: string): Cache {
    cache[site := Address(cache, w, site)]
  }

  /** Where a location header points, seen from the site and the present cache. */
  function Where(cache: Cache, w: World, site: string, location: Option<string>): Location {
    if location.None? then Missing
    else if location.value != "" && location.value[0] == '/' then Path
    else if w.build(location.value).None? then Unbuildable
    else
      var other := w.build(location.value).value;
      if other == site then SameSite else OtherSite(Address(cache, w, other) != D.NO_IP)
  }

  function AfterWhere(cache: Cache, w: World, site: string, location: Option<string>): Cache {
    if Where(cache, w, site, location).OtherSite? then Looked(cache, w, w.build(location.value).value) else cache
  }

  /** The length and the cache that the redirect loop ends with, from fetch number `k` on. */
  function Followed(c: CrawlConf, cache: Cache, w: World, site: string, k: nat): (int, Cache)
    decreases c.maxRedirect - k
  {
    var (len, location) := w.fetch(k);
    if len != REDIRECT || k >= c.maxRedirect then (len, cache)
    else
      var cache' := AfterWhere(cache, w, site, location);
      if Where(cache, w, site, location).Reachable() then Followed(c, cache', w, site, k + 1)
      else (len, cache')
  }

  /** The item as the grant decision finds it. */
  function Resolved(cache: Cache, w: World, qi: Q.SQItem, site: string): Q.SQItem {
    if Address(cache, w, site) == D.NO_IP then qi.(dnsCount := qi.dnsCount + 1) else qi
  }

  /** What is pushed once the address is known: the item after a refused grant, the item with one more
      failure after a fetch that failed other than by "not found". */
  function PushedLate(c: CrawlConf, pool: L.Pool, cache: Cache, w: World, qi: Q.SQItem, site: string): seq<Q.SQItem> {
    if !L.Grants(c.level, pool, site, w.now) then [qi]
    else if Retries(Followed(c, cache, w, site, 0).0) then [qi.(failCount := qi.failCount + 1)]
    else []
  }

  /** All that a pass tries to push for an item, in order: two copies when no address is found and the
      attempt goes wrong as well. */
  function Pushed(c: CrawlConf, pool: L.Pool, cache: Cache, w: World, qi: Q.SQItem): seq<Q.SQItem> {
    var site := w.build(qi.url);
    if TooOften(c, qi) || site.None? then []
    else
      var qi' := Resolved(cache, w, qi, site.value);
      (if qi' != qi then [qi'] else []) + PushedLate(c, pool, Looked(cache, w, site.value), w, qi', site.value)
  }

  function PushAll(q: Q.State, items: seq<Q.SQItem>): Q.State
    decreases |items|
  {
    if items == [] then q else PushAll(Q.Apply(q, Q.Push(items[0])), items[1..])
  }

  // ---------- what a pass means for its item, case by case ----------

  /** The item is given up before anything is looked up: it failed too often, or its URL cannot be built. */
  predicate GivenUp(c: CrawlConf, w: World, qi: Q.SQItem) {
    qi.failCount > c.maxFail || qi.dnsCount > c.maxDns || w.build(qi.url).None?
  }

  /** The throttle refuses a site that has as many open fetches as the limit allows, or was granted one
      too recently. */
  predicate Throttled(c: CrawlConf, pool: L.Pool, site: string, now: int) {
    site in pool
    && (pool[site].crawlThreadCount >= c.level.maxThreads || now - pool[site].lastCrawlTime < c.level.interval)
  }

  /** A redirect can be followed: to a path, or to a URL that can be built, of the same site or of one with
      an address. */
  predicate CanGo(cache: Cache, w: World, site: string, location: Option<string>) {
    location.Some?
    && var to := location.value;
       (to != "" && to[0] == '/')
       || (w.build(to).Some? && (w.build(to).value == site || Address(cache, w, w.build(to).value) != "NO_IP"))
  }

  /** Fetch number `n` is the last one: those before it were answered with redirects that could be followed,
      and it was not, or the limit on redirects is reached. */
  predicate LastFetch(c: CrawlConf, cache: Cache, w: World, site: string, n: nat) {
    && (n > 0 ==> n <= c.maxRedirect)
    && (forall k :: 0 <= k < n ==> w.fetch(k).0 == -300 && CanGo(cache, w, site, w.fetch(k).1))
    && (w.fetch(n).0 != -300 || n >= c.maxRedirect || !CanGo(cache, w, site, w.fetch(n).1))
  }

  /** After the last fetch the item is queued with one more failure exactly when that fetch failed other
      than by "not found". */
  ghost predicate FetchOutcome(c: CrawlConf, cache: Cache, w: World, site: string, qi: Q.SQItem, items: seq<Q.SQItem>) {
    exists n ::
      && LastFetch(c, cache, w, site, n)
      && items == if w.fetch(n).0 < 0 && w.fetch(n).0 != -404 then [qi.(failCount := qi.failCount + 1)] else []
  }

  /** What a pass pushes for an item: nothing when it is given up; the item with one more DNS failure when
      its site has no address; then the item as it is when the throttle refuses it, or what its fetches
      make of it. */
  ghost predicate PassOutcome(c: CrawlConf, pool: L.Pool, cache: Cache, w: World, qi: Q.SQItem, items: seq<Q.SQItem>) {
    && (GivenUp(c, w, qi) ==> items == [])
    && (!GivenUp(c, w, qi) ==>
          var site := w.build(qi.url).value;
          if Address(cache, w, site) != "NO_IP" then AttemptOutcome(c, pool, cache, w, site, qi, items)
          else
            var again := qi.(dnsCount := qi.dnsCount + 1);
            items != [] && items[0] == again && AttemptOutcome(c, pool, cache, w, site, again, items[1..]))
  }

  ghost predicate AttemptOutcome(c: CrawlConf, pool: L.Pool, cache: Cache, w: World, site: string, qi: Q.SQItem,
                                 items: seq<Q.SQItem>) {
    && (Throttled(c, pool, site, w.now) ==> items == [qi])
    && (!Throttled(c, pool, site, w.now) ==> FetchOutcome(c, cache, w, site, qi, items))
  }

  /** Lookups on the way change no address. */
  lemma SameAddresses(cache: Cache, w: World, x: string, site: string)
    ensures Address(Looked(cache, w, x), w, site) == Address(cache, w, site)
  {
  }

  /** The caches agree with the world on the address of every site. */
  ghost predicate Agree(a: Cache, b: Cache, w: World) {
    forall site :: Address(a, w, site) == Address(b, w, site)
  }

  lemma CanGoIff(cache: Cache, cache0: Cache, w: World, site: string, location: Option<string>)
    requires Agree(cache, cache0, w)
    ensures Where(cache, w, site, location).Reachable() <==> CanGo(cache0, w, site, location)
    ensures Agree(AfterWhere(cache, w, site, location), cache0, w)
  {
    if location.Some? && w.build(location.value).Some? {
      assert Address(cache, w, w.build(location.value).value) == Address(cache0, w, w.build(location.value).value);
    }
    forall s
      ensures Address(AfterWhere(cache, w, site, location), w, s) == Address(cache0, w, s)
    {
      assert Address(cache, w, s) == Address(cache0, w, s);
    }
  }

  /** The redirect loop ends at the last fetch. */
  lemma {:induction false} FollowsToLast(c: CrawlConf, cache: Cache, cache0: Cache, w: World, site: string, k: nat)
      returns (n: nat)
    requires Agree(cache, cache0, w) && (k > 0 ==> k <= c.maxRedirect)
    requires forall j :: 0 <= j < k ==> w.fetch(j).0 == -300 && CanGo(cache0, w, site, w.fetch(j).1)
    ensures LastFetch(c, cache0, w, site, n) && Followed(c, cache, w, site, k).0 == w.fetch(n).0
    decreases c.maxRedirect - k
  {
    n := k;
    CanGoIff(cache, cache0, w, site, w.fetch(k).1);
    if w.fetch(k).0 == -300 && k < c.maxRedirect && CanGo(cache0, w, site, w.fetch(k).1) {
      n := FollowsToLast(c, AfterWhere(cache, w, site, w.fetch(k).1), cache0, w, site, k + 1);
    }
  }

  /** What a pass pushes is what these cases say. */
  lemma PushedMeaning(c: CrawlConf, pool: L.Pool, cache: Cache, w: World, qi: Q.SQItem)
    ensures PassOutcome(c, pool, cache, w, qi, Pushed(c, pool, cache, w, qi))
  {
    if !GivenUp(c, w, qi) {
      var site := w.build(qi.url).value;
      var late := PushedLate(c, pool, Looked(cache, w, site), w, Resolved(cache, w, qi, site), site);
      LateMeaning(c, pool, cache, w, Resolved(cache, w, qi, site), site);
      assert [] + late == late;
      assert ([Resolved(cache, w, qi, site)] + late)[1..] == late;
    }
  }

  lemma LateMeaning(c: CrawlConf, pool: L.Pool, cache: Cache, w: World, qi: Q.SQItem, site: string)
    ensures AttemptOutcome(c, pool, cache, w, site, qi, PushedLate(c, pool, Looked(cache, w, site), w, qi, site))
  {
    forall s
      ensures Address(Looked(cache, w, site), w, s) == Address(cache, w, s)
    {
      SameAddresses(cache, w, site, s);
    }
    var n := FollowsToLast(c, Looked(cache, w, site), cache, w, site, 0);
  }

  /** The pass comes to fetching: the item is not given up, its site has an address and is not throttled. */
  predicate Fetches(c: CrawlConf, pool: L.Pool, cache: Cache, w: World, qi: Q.SQItem) {
    && !GivenUp(c, w, qi)
    && Address(cache, w, w.build(qi.url).value) != "NO_IP"
    && !Throttled(c, pool, w.build(qi.url).value, w.now)
  }

  /** Such an item leaves the queue, and comes back once, with one more failure, exactly when its last fetch
      failed other than by "not found". */
  ghost predicate FetchedOutcome(c: CrawlConf, cache: Cache, w: World, before: seq<Q.SQItem>, after: seq<Q.SQItem>)
    requires before != [] && w.build(before[0].url).Some?
  {
    var qi := before[0];
    exists n ::
      && LastFetch(c, cache, w, w.build(qi.url).value, n)
      && after
         == before[1..] + if w.fetch(n).0 < 0 && w.fetch(n).0 != -404 then [qi.(failCount := qi.failCount + 1)] else []
  }

  /** With room in the queue, which the item itself has left. */
  lemma FetchedPass(c: CrawlConf, before: Q.State, pool: L.Pool, cache: Cache, w: World, items: seq<Q.SQItem>)
    requires before.queue != [] && before.count == |before.queue| && before.count - 1 != before.size
    requires PassOutcome(c, pool, cache, w, before.queue[0], items) && Fetches(c, pool, cache, w, before.queue[0])
    ensures FetchedOutcome(c, cache, w, before.queue, PushAll(Q.Apply(before, Q.Op.Pop), items).queue)
  {
    var qi := before.queue[0];
    var n :| LastFetch(c, cache, w, w.build(qi.url).value, n)
             && items == if w.fetch(n).0 < 0 && w.fetch(n).0 != -404 then [qi.(failCount := qi.failCount + 1)] else [];
    var popped := Q.Apply(before, Q.Op.Pop);
    if items == [] {
      assert popped.queue + [] == popped.queue;
    } else {
      assert PushAll(popped, items) == PushAll(Q.Apply(popped, Q.Push(items[0])), []);
    }
  }

  class CrawlThread {
    const c: CrawlConf
    const queue: Q.SelectedQueue
    const levels: L.LevelPool
    const dns: D.DnsClient

    constructor (c: CrawlConf, queue: Q.SelectedQueue, levels: L.LevelPool, dns: D.DnsClient)
      ensures this.c == c && this.queue == queue && this.levels == levels && this.dns == dns
    {
      this.c, this.queue, this.levels, this.dns := c, queue, levels, dns;
    }

    /** The state of the machine with this thread as the only one. */
    ghost function Value(st: Stage): State
      reads queue, levels
    {
      State(queue.Value(), levels.pool, [st])
    }

    /** Whether the body of the redirect loop reaches its fetch. */
    method CanFollow(w: World, site: string, location: Option<string>) returns (ok: bool)
      modifies dns
      ensures dns.ipList == AfterWhere(old(dns.ipList), w, site, location)
      ensures ok <==> Where(old(dns.ipList), w, site, location).Reachable()
    {
      if location.None? {
        return false;
      }
      if location.value != "" && location.value[0] == '/' {
        return true;
      }
      var other := w.build(location.value);
      if other.None? {
        return false;
      }
      if other.value != site {
        var ip := dns.GetIp(other.value, w.answer(other.value));
        if ip == D.NO_IP {
          return false;
        }
      }
      return true;
    }

    /** Fetches the page and follows its redirects, up to the release of the grant. */
    method FetchPage(qi: Q.SQItem, site: string, w: World) returns (len: int, ghost events: seq<Event>)
      modifies dns
      ensures Leads(c, Value(Fetching(qi, site)), events, Value(Releasing(qi, site, len)))
      ensures (len, dns.ipList) == Followed(c, old(dns.ipList), w, site, 0)
    {
      ghost var from := Value(Fetching(qi, site));
      var location := w.fetch(0).1;
      len := w.fetch(0).0;
      ghost var step := Fetch(0, len, Where(dns.ipList, w, site, location));
      LeadsOn(c, from, [], from, step);
      events := [] + [step];
      if len == NOT_FOUND {
        return;
      }
      var count := 0;
      while len == REDIRECT && count < c.maxRedirect
        invariant Leads(c, from, events, Value(Redirecting(qi, site, len, Where(dns.ipList, w, site, location), count)))
        invariant (len, location) == w.fetch(count)
        invariant Followed(c, dns.ipList, w, site, count) == Followed(c, old(dns.ipList), w, site, 0)
        decreases c.maxRedirect - count
      {
        ghost var at := Value(Redirecting(qi, site, len, Where(dns.ipList, w, site, location), count));
        var ok := CanFollow(w, site, location);
        if !ok {
          break;
        }
        len, location := w.fetch(count + 1).0, w.fetch(count + 1).1;
        step := Redirect(0, len, Where(dns.ipList, w, site, location));
        LeadsOn(c, from, events, at, step);
        events := events + [step];
        count := count + 1;
      }
      step := Redirect(0, 0, Missing);
      LeadsOn(c, from, events, Value(Redirecting(qi, site, len, Where(dns.ipList, w, site, location), count)), step);
      events := events + [step];
    }

    /** What follows a grant: the fetch, the release, and another place in the queue after a failure. */
    method CrawlGranted(qi: Q.SQItem, site: string, w: World) returns (ghost events: seq<Event>)
      modifies queue`queue, queue`count, levels`pool, dns
      ensures Leads(c, old(Value(Fetching(qi, site))), events, Value(Idle))
      ensures levels.pool == L.AfterFinish(old(levels.pool), site)
      ensures var (len, cache) := Followed(c, old(dns.ipList), w, site, 0);
              && dns.ipList == cache
              && queue.Value()
                 == if Retries(len) then Q.Apply(old(queue.Value()), Q.Push(qi.(failCount := qi.failCount + 1)))
                                  else old(queue.Value())
      ensures old(queue.Valid()) ==> queue.Valid()
    {
      ghost var from := Value(Fetching(qi, site));
      var len;
      len, events := FetchPage(qi, site, w);
      ghost var at := Value(Releasing(qi, site, len));
      levels.FinishCrawl(site);
      LeadsOn(c, from, events, at, Release(0));
      events := events + [Release(0)];
      at := Value(Released(qi, len));
      if len != NOT_FOUND && len < 0 {
        var _ := queue.Push(qi.(failCount := qi.failCount + 1));
      }
      LeadsOn(c, from, events, at, Settle(0));
      events := events + [Settle(0)];
    }

    /** From the grant decision to the end of the pass. */
    method Crawl(qi: Q.SQItem, site: string, w: World) returns (ghost events: seq<Event>)
      requires levels.conf == c.level
      modifies queue`queue, queue`count, levels`pool, dns
      ensures Leads(c, old(Value(Asking(qi, site))), events, Value(Idle))
      ensures queue.Value()
           == PushAll(old(queue.Value()), PushedLate(c, old(levels.pool), old(dns.ipList), w, qi, site))
      ensures forall s :: Permits(levels.pool, s) == old(Permits(levels.pool, s))
      ensures old(queue.Valid()) ==> queue.Valid()
    {
      ghost var from := Value(Asking(qi, site));
      var ok := levels.IsCrawlEnabled(site, w.now);
      LeadsOn(c, from, [], from, Ask(0, w.now));
      events := [] + [Ask(0, w.now)];
      if !ok {
        ghost var at := Value(Delayed(qi));
        var _ := queue.Push(qi);
        LeadsOn(c, from, events, at, Requeue(0));
        events := events + [Requeue(0)];
      } else {
        ghost var at := Value(Fetching(qi, site));
        ghost var rest := CrawlGranted(qi, site, w);
        LeadsJoin(c, from, events, at, rest, Value(Idle));
        events := events + rest;
      }
    }

    /** The lookup of the site; without an address the item is queued again and the pass goes on. */
    method Resolve(qi: Q.SQItem, site: string, w: World) returns (qi': Q.SQItem, ghost events: seq<Event>)
      modifies queue`queue, queue`count, dns
      ensures Leads(c, old(Value(Resolving(qi, site))), events, Value(Asking(qi', site)))
      ensures qi' == Resolved(old(dns.ipList), w, qi, site) && dns.ipList == Looked(old(dns.ipList), w, site)
      ensures queue.Value() == if qi' != qi then Q.Apply(old(queue.Value()), Q.Push(qi')) else old(queue.Value())
      ensures old(queue.Valid()) ==> queue.Valid()
    {
      ghost var from := Value(Resolving(qi, site));
      var ip := dns.GetIp(site, w.answer(site));
      ghost var step := Lookup(0, ip != D.NO_IP);
      LeadsOn(c, from, [], from, step);
      events := [] + [step];
      qi' := qi;
      if ip == D.NO_IP {
        qi' := qi.(dnsCount := qi.dnsCount + 1);
        ghost var at := Value(NoIp(qi', site));
        var _ := queue.Push(qi');
        LeadsOn(c, from, events, at, PushBack(0));
        events := events + [PushBack(0)];
      }
    }

    /** From the check of the limits and the URL to the end of the pass. */
    method Handle(qi: Q.SQItem, w: World) returns (ghost events: seq<Event>)
      requires levels.conf == c.level
      modifies queue`queue, queue`count, levels`pool, dns
      ensures Leads(c, old(Value(Checking(qi))), events, Value(Idle))
      ensures queue.Value() == PushAll(old(queue.Value()), Pushed(c, old(levels.pool), old(dns.ipList), w, qi))
      ensures events != []
      ensures forall s :: Permits(levels.pool, s) == old(Permits(levels.pool, s))
      ensures old(queue.Valid()) ==> queue.Valid()
    {
      ghost var from := Value(Checking(qi));
      if qi.failCount > c.maxFail || qi.dnsCount > c.maxDns {
        LeadsOn(c, from, [], from, Check(0, None));
        events := [] + [Check(0, None)];
        return;
      }
      var site := w.build(qi.url);
      LeadsOn(c, from, [], from, Check(0, site));
      events := [] + [Check(0, site)];
      if site.Some? {
        ghost var at := Value(Resolving(qi, site.value));
        var qi';
        ghost var rest;
        qi', rest := Resolve(qi, site.value, w);
        LeadsJoin(c, from, events, at, rest, Value(Asking(qi', site.value)));
        events := events + rest;
        at := Value(Asking(qi', site.value));
        rest := Crawl(qi', site.value, w);
        LeadsJoin(c, from, events, at, rest, Value(Idle));
        events := events + rest;
      }
    }

    /** One pass: it pops at most one item and takes it through a run of the machine that ends at the
        loop head; the pass leaves no grant behind, on any path. */
    method CrawlOnce(w: World)
        returns (popped: Option<Q.SQItem>, ghost events: seq<Event>, ghost pushed: seq<Q.SQItem>)
      requires levels.conf == c.level
      modifies queue`queue, queue`count, levels`pool, dns
      ensures Leads(c, old(Value(Idle)), events, Value(Idle))
      ensures popped.None? <==> old(queue.queue) == []
      ensures popped.None? ==> events == []
      ensures popped.Some? ==> popped.value == old(queue.queue)[0] && |events| >= 2 && events[0] == Pop(0)
      ensures popped.Some? ==>
        && queue.Value() == PushAll(Q.Apply(old(queue.Value()), Q.Op.Pop), pushed)
        && PassOutcome(c, old(levels.pool), old(dns.ipList), w, popped.value, pushed)
      ensures popped.Some? && Fetches(c, old(levels.pool), old(dns.ipList), w, popped.value)
              && old(queue.Valid()) && old(queue.count) - 1 != queue.size ==>
        FetchedOutcome(c, old(dns.ipList), w, old(queue.queue), queue.queue)
      ensures forall s :: Permits(levels.pool, s) == old(Permits(levels.pool, s))
      ensures old(queue.Valid()) ==> queue.Valid()
    {
      ghost var from := Value(Idle);
      events, pushed := [], [];
      popped := queue.Pop();
      if popped.Some? {
        pushed := Pushed(c, levels.pool, dns.ipList, w, popped.value);
        PushedMeaning(c, levels.pool, dns.ipList, w, popped.value);
        LeadsOn(c, from, [], from, Event.Pop(0));
        events := [] + [Event.Pop(0)];
        ghost var at := Value(Checking(popped.value));
        ghost var pool, cache := levels.pool, dns.ipList;
        ghost var rest := Handle(popped.value, w);
        if Fetches(c, pool, cache, w, popped.value) && old(queue.Valid()) && old(queue.count) - 1 != queue.size {
          FetchedPass(c, old(queue.Value()), pool, cache, w, pushed);
        }
        LeadsJoin(c, from, events, at, rest, Value(Idle));
        events := events + rest;
      }
    }
  }
}
