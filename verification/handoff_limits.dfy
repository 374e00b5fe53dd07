/** When hand-off is exactly-once after a clear: exactly when, as the set of a pool is cleared, no URL of
    the pool is under way anywhere. The other direction builds the runs that hand a URL over twice. */
module HandOffLimits {
  import opened Arithmetic
  import opened UrlPools
  import opened Scans
  import opened Rounds
  import opened RoundLaws
  import opened Budgets
  import opened Statistics
  import opened HandOffs

  // ---------- what is under way ----------

  /** A leftover of kind `k` that is returned to its pool, or that a backfill can reach. */
  predicate Recoverable(v: seq<UrlInfo>, k1: int, k2: int, k: int) {
    exists i :: 0 <= i < |v| && v[i].kind == k && (i >= BACK_RESERVE || k == k1 || k == k2)
  }

  /** A URL of pool `k` is between the two critical sections of a push, in the queue of the pool, in the
      selection buffer, or among the leftovers. */
  predicate InFlight(s: State, k: int) {
    || (exists i :: 0 <= i < |s.pending| && s.pending[i].kind == k)
    || s.PoolOf(k).queue != []
    || (exists i :: 0 <= i < |s.lists.buffer| && s.lists.buffer[i].kind == k)
    || Recoverable(s.lists.backO, 1, 0, k) || Recoverable(s.lists.backP, 3, 2, k)
  }

  /** The pools accept no shorter URLs. */
  predicate AllLong(s: State) {
    && LongUrls(s.pending)
    && LongUrls(s.cpq.queue) && LongUrls(s.ipq.queue) && LongUrls(s.ioq.queue) && LongUrls(s.coq.queue)
    && LongUrls(s.lists.buffer) && LongUrls(s.lists.backO) && LongUrls(s.lists.backP)
  }

  /** The state behind the second critical section of `clear_urls`; the record of hand-overs starts anew. */
  function Cleared(s: State, k: int): State {
    AfterClearSet(s, k).(handed := [], turn := BehindSet(k))
  }

  /** Some run up to the next clear of the set hands a URL of pool `k` over twice. */
  ghost predicate CanRepeat(s: State, k: int) {
    exists steps :: ValidRun(s, steps) && NoReset(steps, k) && !HandedOnce(Run(s, steps), k)
  }

  // ---------- nothing under way: exactly once ----------

  lemma {:induction false} NoCopies(f: seq<UrlInfo>, k: int, url: string)
    requires forall i :: 0 <= i < |f| ==> f[i].kind != k
    ensures Copies(f, k, url) == 0
  {
    if f != [] {
      NoCopies(f[1..], k, url);
    }
  }

  lemma {:induction false} InLiveBack(v: seq<UrlInfo>, k1: int, k2: int, n: nat, j: nat)
    requires n <= |v| && j < |LiveBack(v, k1, k2, n)|
    ensures exists i :: 0 <= i < n && v[i] == LiveBack(v, k1, k2, n)[j]
                     && (i >= BACK_RESERVE || v[i].kind == k1 || v[i].kind == k2)
    decreases n
  {
    if j < |LiveBack(v, k1, k2, n - 1)| {
      InLiveBack(v, k1, k2, n - 1, j);
    } else {
      assert v[n - 1] == LiveBack(v, k1, k2, n)[j];
    }
  }

  lemma LiveBackWithout(v: seq<UrlInfo>, k1: int, k2: int, k: int)
    requires !Recoverable(v, k1, k2, k)
    ensures forall j :: 0 <= j < |LiveBack(v, k1, k2, |v|)| ==> LiveBack(v, k1, k2, |v|)[j].kind != k
  {
    forall j | 0 <= j < |LiveBack(v, k1, k2, |v|)|
      ensures LiveBack(v, k1, k2, |v|)[j].kind != k
    {
      InLiveBack(v, k1, k2, |v|, j);
    }
  }

  predicate Without(f: seq<UrlInfo>, k: int) {
    forall i :: 0 <= i < |f| ==> f[i].kind != k
  }

  lemma QueuesWithout(s: State, k: int)
    requires WellFormed(s) && 0 <= k <= 3 && s.PoolOf(k).queue == []
    ensures Without(s.cpq.queue + s.ipq.queue + s.ioq.queue + s.coq.queue, k)
  {
  }

  /** With nothing under way the invariant holds whatever the pool's set remembers. */
  lemma NothingUnderWay(s: State, k: int)
    requires WellFormed(s) && 0 <= k <= 3 && !InFlight(s, k) && s.handed == []
    ensures Inv(s, k)
  {
    QueuesWithout(s, k);
    LiveBackWithout(s.lists.backO, 1, 0, k);
    LiveBackWithout(s.lists.backP, 3, 2, k);
    assert Without(s.pending, k) && Without(s.lists.buffer, k);
    assert Without(Flow(s), k);
    forall url
      ensures Copies(Flow(s), k, url) == 0
    {
      NoCopies(Flow(s), k, url);
    }
  }

  lemma ClearedShape(s: State, k: int)
    requires WellFormed(s) && 0 <= k <= 3
    ensures var c := Cleared(s, k);
            && WellFormed(c) && c.handed == [] && c.pending == s.pending && c.lists == s.lists
            && c.PoolOf(k) == Pool(s.PoolOf(k).queue, {})
            && (InFlight(c, k) <==> InFlight(s, k))
  {
  }

  /** Exactly-once hand-off: after the set of a pool was cleared with no URL of the pool under way, no
      interleaving of pushes, selections, returns, hand-overs and clears of other pools hands a URL of
      the pool over twice before the set is cleared again. */
  lemma ExactlyOnce(s: State, k: int, steps: seq<Step>)
    requires WellFormed(s) && 0 <= k <= 3 && !InFlight(s, k)
    requires ValidRun(Cleared(s, k), steps) && NoReset(steps, k)
    ensures HandedOnce(Run(Cleared(s, k), steps), k)
  {
    ClearedShape(s, k);
    NothingUnderWay(Cleared(s, k), k);
    RunKeeps(Cleared(s, k), steps, k);
    UniqueMeansOnce(Run(Cleared(s, k), steps), k);
  }

  // ---------- putting runs together ----------

  lemma NoResetCons(e: Step, rest: seq<Step>, k: int)
    requires NoReset(rest, k) && e != ClearSet(k)
    ensures NoReset([e] + rest, k)
  {
  }

  lemma RepeatsBefore(s: State, e: Step, k: int)
    requires Enabled(s, e) && e != ClearSet(k) && CanRepeat(Next(s, e), k)
    ensures CanRepeat(s, k)
  {
    var steps :| ValidRun(Next(s, e), steps) && NoReset(steps, k) && !HandedOnce(Run(Next(s, e), steps), k);
    RunCons(s, e, steps);
    NoResetCons(e, steps, k);
  }

  lemma {:induction false} RepeatsAfter(s: State, steps: seq<Step>, k: int)
    requires ValidRun(s, steps) && NoReset(steps, k) && CanRepeat(Run(s, steps), k)
    ensures CanRepeat(s, k)
    decreases |steps|
  {
    if steps != [] {
      assert steps[0] in steps && forall e <- steps[1..] :: e in steps;
      RepeatsAfter(Next(s, steps[0]), steps[1..], k);
      RepeatsBefore(s, steps[0], k);
    }
  }

  lemma RepeatsNow(s: State, k: int)
    requires !HandedOnce(s, k)
    ensures CanRepeat(s, k)
  {
    assert ValidRun(s, []) && Run(s, []) == s && NoReset([], k);
  }

  // ---------- whole turns ----------

  lemma {:induction false} HandOversOnly(n: nat, k: int)
    ensures NoReset(HandOvers(n), k)
    decreases n
  {
    if n > 0 {
      HandOversOnly(n - 1, k);
      NoResetCons(HandOver, HandOvers(n - 1), k);
    }
  }

  lemma TurnKeepsSet(e: Step, k: int)
    requires e.Select?
    ensures NoReset(TurnSteps(e), k)
  {
    HandOversOnly(|e.shuffled|, k);
    NoResetCons(ReturnLeftovers, HandOvers(|e.shuffled|), k);
    NoResetCons(e, [ReturnLeftovers] + HandOvers(|e.shuffled|), k);
  }

  /** The leftovers of a pool's own kind are all that it holds after a turn. */
  predicate Returned(s: State, l: Lists, t: State, k: int) {
    && t.PoolOf(k).urls == s.PoolOf(k).urls
    && t.PoolOf(k).queue == OfKind(BackOf(l, ClassOf(k)), k, |BackOf(l, ClassOf(k))|)
  }

  lemma TurnReturns(s: State, l: Lists, t: State, k: int)
    requires 0 <= k <= 3
    requires t.cpq == Pool(OfKind(l.backP, 3, |l.backP|), s.cpq.urls)
    requires t.ipq == Pool(OfKind(l.backP, 2, |l.backP|), s.ipq.urls)
    requires t.coq == Pool(OfKind(l.backO, 1, |l.backO|), s.coq.urls)
    requires t.ioq == Pool(OfKind(l.backO, 0, |l.backO|), s.ioq.urls)
    ensures Returned(s, l, t, k)
  {
  }

  /** The state after a turn that selects by `e`. */
  lemma TakeTurn(s: State, e: Step, k: int) returns (t: State)
    requires e.Select? && Enabled(s, e) && !Rolls(s, e) && 0 <= k <= 3
    ensures t.turn == Choosing && t.handed == s.handed + e.shuffled
    ensures Returned(s, RoundLists(s, e), t, k)
    ensures CanRepeat(t, k) ==> CanRepeat(s, k)
  {
    TurnIsRun(s, e, map[], map[]);
    t := Run(s, TurnSteps(e));
    TurnReturns(s, RoundLists(s, e), t, k);
    TurnKeepsSet(e, k);
    if CanRepeat(t, k) {
      RepeatsAfter(s, TurnSteps(e), k);
    }
  }

  function ClassOf(k: int): Class {
    if k >= 2 then Priority else Ordinary
  }

  // ---------- a URL that will be handed over twice ----------

  predicate Handed(s: State, k: int, url: string) {
    exists i :: 0 <= i < |s.handed| && s.handed[i].kind == k && s.handed[i].url == url
  }

  /** The URL was handed over already, or its pool would accept it once more. */
  predicate Again(s: State, k: int, url: string) {
    Handed(s, k, url) || url !in s.PoolOf(k).urls
  }

  predicate GoodUrl(k: int, u: UrlInfo) {
    0 <= k <= 3 && u.kind == k && |u.url| >= MIN_URL_LENGTH
  }

  lemma HandedNow(s: State, t: State, k: int, u: UrlInfo, more: seq<UrlInfo>)
    requires t.handed == s.handed + more && u in more && u.kind == k
    ensures Handed(t, k, u.url)
    ensures Handed(s, k, u.url) ==> !HandedOnce(t, k)
  {
    var j :| 0 <= j < |more| && more[j] == u;
    assert t.handed[|s.handed| + j] == u;
    if Handed(s, k, u.url) {
      var i :| 0 <= i < |s.handed| && s.handed[i].kind == k && s.handed[i].url == u.url;
      assert t.handed[i] == s.handed[i];
    }
  }

  /** A turn that hands the URL over: the second time, or the first time before it is pushed once more. */
  lemma {:induction false} HandedBy(s: State, e: Step, k: int, u: UrlInfo)
    requires GoodUrl(k, u) && Again(s, k, u.url) && e.Select? && Enabled(s, e) && !Rolls(s, e) && u in e.shuffled
    ensures CanRepeat(s, k)
    decreases if Handed(s, k, u.url) then 0 else 1, 0
  {
    var t := TakeTurn(s, e, k);
    HandedNow(s, t, k, u, e.shuffled);
    if Handed(s, k, u.url) {
      RepeatsNow(t, k);
    } else {
      ClaimAgain(t, k, u);
    }
  }

  lemma {:induction false} ClaimAgain(s: State, k: int, u: UrlInfo)
    requires s.turn == Choosing && GoodUrl(k, u) && Handed(s, k, u.url) && u.url !in s.PoolOf(k).urls
    ensures CanRepeat(s, k)
    decreases 0, 3
  {
    var t := Next(s, Claim(k, u));
    assert t.pending[|s.pending|] == u && t.handed == s.handed;
    PendingRepeats(t, k, u, |s.pending|);
    RepeatsBefore(s, Claim(k, u), k);
  }

  lemma {:induction false} PendingRepeats(s: State, k: int, u: UrlInfo, j: nat)
    requires s.turn == Choosing && GoodUrl(k, u) && Again(s, k, u.url) && j < |s.pending| && s.pending[j] == u
    ensures CanRepeat(s, k)
    decreases if Handed(s, k, u.url) then 0 else 1, 2
  {
    var t := Next(s, Enqueue(j));
    var q := s.PoolOf(k).queue;
    assert t.PoolOf(k).queue == q + [u] && t.PoolOf(k).urls == s.PoolOf(k).urls && t.handed == s.handed;
    assert (q + [u])[|q|] == u;
    QueuedRepeats(t, k, u);
    RepeatsBefore(s, Enqueue(j), k);
  }

  lemma {:induction false} QueuedRepeats(s: State, k: int, u: UrlInfo)
    requires s.turn == Choosing && GoodUrl(k, u) && Again(s, k, u.url) && u in s.PoolOf(k).queue
    ensures CanRepeat(s, k)
    decreases if Handed(s, k, u.url) then 0 else 1, 1
  {
    var e := TakeAll(s, k, u);
    HandedBy(s, e, k, u);
  }

  // ---------- selections over a single domain ----------

  lemma DivExact(a: nat, b: nat)
    requires a > 0
    ensures a * b / a == b
  {
    DivLess(a * b, a, b);
    MulCancel(a, b, a * b / a + 1);
  }

  function OnlyDomain(d: string, cls: Class): map<string, DomainAttr> {
    map[d := DomainAttr(0, if cls.Priority? then 1 else 0)]
  }

  function RoundFor(s: State, conf: SelectConf, d: string, cls: Class): RoundIn {
    RoundIn(conf, [d], OnlyDomain(d, cls), s.cpq.queue, s.ipq.queue, s.ioq.queue, s.coq.queue)
  }

  /** The selection under settings with no threshold, so that it does not roll over. */
  lemma SelectOne(s: State, conf: SelectConf, d: string, cls: Class, t: Tally) returns (e: Step)
    requires s.turn == Choosing && conf.Valid() && conf.minSelectThreshold == 0
    requires t == OnlyTally(RoundFor(s, conf, d, cls), d, cls, s.lists)
    ensures e.Select? && Enabled(s, e) && !Rolls(s, e) && e.shuffled == t.buffer
  {
    var r := RoundFor(s, conf, d, cls);
    assert Enumerates([d], OnlyDomain(d, cls).Keys);
    OneDomain(r, d, cls, s.lists);
    e := Select(conf, [d], OnlyDomain(d, cls), t.buffer);
    assert Input(s, e) == r;
  }

  // ---------- a selection that takes all of a domain ----------

  /** Settings under which the only domain of a class is given quotas as large as its vector. */
  function Ample(links: nat): SelectConf {
    SelectConf(2 * links, 0, 10, 1, 1)
  }

  lemma AmpleQuota(links: nat, size: nat)
    requires links > 0
    ensures Ample(links).Valid()
    ensures var q := QuotaFor(Ample(links), 2 * links, size, links); q.cate >= size && q.item >= size
  {
    var c := Ample(links);
    QuotaFromShares(c, 2 * links, size, links, 2 * links, 2 * links * size, 2 * links * size, size, 2 * size) by {
      DivExact(2 * links, size);
      DivExact(links, 2 * size);
      assert 2 * links * size == links * (2 * size);
    }
  }

  lemma AmpleNum(cls: Class, links: nat)
    ensures ClassNum(Ample(links), cls) == 2 * links
  {
  }

  function Links(s: State, cls: Class): nat {
    if cls.Priority? then |s.cpq.queue| + |s.ipq.queue| else |s.coq.queue| + |s.ioq.queue|
  }

  lemma {:induction false} InOfDomain(all: seq<UrlInfo>, d: string, n: nat, i: nat)
    requires i < n <= |all| && all[i].domain == d
    ensures all[i] in OfDomain(all, d, n)
    decreases n
  {
    if i < n - 1 {
      InOfDomain(all, d, n - 1, i);
    }
  }

  lemma InDrained(s: State, k: int, u: UrlInfo, r: RoundIn)
    requires 0 <= k <= 3 && u.kind == k && u in s.PoolOf(k).queue
    requires r.cpq == s.cpq.queue && r.ipq == s.ipq.queue && r.ioq == s.ioq.queue && r.coq == s.coq.queue
    ensures u in OfDomain(r.All(), u.domain, |r.All()|)
  {
    var q := s.PoolOf(k).queue;
    var i :| 0 <= i < |q| && q[i] == u;
    var before := if k == 3 then 0 else if k == 2 then |r.cpq| else if k == 0 then |r.cpq| + |r.ipq|
                  else |r.cpq| + |r.ipq| + |r.ioq|;
    assert r.All()[before + i] == u;
    InOfDomain(r.All(), u.domain, |r.All()|, before + i);
  }

  /** A domain whose quotas are no smaller than its vector is taken whole. */
  lemma TakenWhole(v: seq<UrlInfo>, cls: Class, q: Quota, buffer: seq<UrlInfo>, back: seq<UrlInfo>)
    requires q.cate >= |v| && q.item >= |v|
    ensures DomainTally(v, cls, q, buffer, back).buffer == buffer + v
  {
    SmallVectorIsTaken(v, cls, q, |v|);
    assert v[..|v|] == v;
  }

  lemma AmpleTally(s: State, cls: Class, d: string, r: RoundIn, v: seq<UrlInfo>)
    requires Links(s, cls) > 0 && r == RoundFor(s, Ample(Links(s, cls)), d, cls)
    requires v == OfDomain(r.All(), d, |r.All()|)
    ensures r.conf.Valid() && OnlyTally(r, d, cls, s.lists).buffer == s.lists.buffer + v
  {
    var links := Links(s, cls);
    AmpleQuota(links, |v|);
    var q := QuotaFor(Ample(links), 2 * links, |v|, links);
    AmpleNum(cls, links);
    OnlyTallyIs(r, d, cls, s.lists, v, q);
    TakenWhole(v, cls, q, s.lists.buffer, BackOf(s.lists, cls));
  }

  lemma TakeAll(s: State, k: int, u: UrlInfo) returns (e: Step)
    requires s.turn == Choosing && 0 <= k <= 3 && u.kind == k && u in s.PoolOf(k).queue
    ensures e.Select? && Enabled(s, e) && !Rolls(s, e) && u in e.shuffled
  {
    var cls := ClassOf(k);
    var r := RoundFor(s, Ample(Links(s, cls)), u.domain, cls);
    InDrained(s, k, u, r);
    AmpleTally(s, cls, u.domain, r, OfDomain(r.All(), u.domain, |r.All()|));
    e := SelectOne(s, Ample(Links(s, cls)), u.domain, cls, OnlyTally(r, u.domain, cls, s.lists));
  }

  // ---------- a carried buffer and leftovers ----------

  /** A selection without domains leaves the lists as they are. */
  lemma TakeNothing(s: State) returns (e: Step)
    requires s.turn == Choosing
    ensures e.Select? && Enabled(s, e) && !Rolls(s, e) && e.shuffled == s.lists.buffer && RoundLists(s, e) == s.lists
  {
    e := Select(SelectConf(1, 0, 1, 1, 1), [], map[], s.lists.buffer);
    var r := Input(s, e);
    assert Enumerates([], r.domains.Keys);
    assert Names(r, Priority) == [] && Names(r, Ordinary) == [];
    assert RunRound(r, s.lists, map[], map[]).lists == s.lists;
  }

  lemma BufferedRepeats(s: State, k: int, u: UrlInfo)
    requires s.turn == Choosing && GoodUrl(k, u) && Again(s, k, u.url) && u in s.lists.buffer
    ensures CanRepeat(s, k)
  {
    var e := TakeNothing(s);
    HandedBy(s, e, k, u);
  }

  lemma {:induction false} InOfKind(v: seq<UrlInfo>, k: int, n: nat, i: nat)
    requires i < n <= |v| && v[i].kind == k
    ensures v[i] in OfKind(v, k, n)
    decreases n
  {
    if i < n - 1 {
      InOfKind(v, k, n - 1, i);
    }
  }

  /** A leftover of its own class is returned to its pool. */
  lemma LeftoverRepeats(s: State, k: int, u: UrlInfo, i: nat)
    requires s.turn == Choosing && GoodUrl(k, u) && u.url !in s.PoolOf(k).urls
    requires i < |BackOf(s.lists, ClassOf(k))| && BackOf(s.lists, ClassOf(k))[i] == u
    ensures CanRepeat(s, k)
  {
    var e := TakeNothing(s);
    var t := TakeTurn(s, e, k);
    InOfKind(BackOf(s.lists, ClassOf(k)), k, |BackOf(s.lists, ClassOf(k))|, i);
    QueuedRepeats(t, k, u);
  }

  // ---------- leftovers of another class ----------

  /** A length above that of every string in a set. */
  lemma LongerThanAll(strings: set<string>) returns (n: nat)
    ensures forall x <- strings :: |x| < n
    decreases |strings|
  {
    n := 0;
    if strings != {} {
      var y :| y in strings;
      var m := LongerThanAll(strings - {y});
      n := Max(m, |y| + 1);
    }
  }

  /** One more URL of a kind and a domain in the queue of its pool, by a push of a new URL. */
  lemma AddOne(s: State, f: int, d: string, k: int) returns (t: State, u: UrlInfo)
    requires 0 <= f <= 3 && 0 <= k <= 3 && f != k
    ensures u.kind == f && u.domain == d
    ensures t.lists == s.lists && t.handed == s.handed && t.turn == s.turn
    ensures t.PoolOf(f).queue == s.PoolOf(f).queue + [u]
    ensures forall j :: 0 <= j <= 3 && j != f ==> t.PoolOf(j) == s.PoolOf(j)
    ensures CanRepeat(t, k) ==> CanRepeat(s, k)
  {
    var n := LongerThanAll(s.PoolOf(f).urls);
    u := UrlInfo(seq(n + MIN_URL_LENGTH, _ => 'a'), 0, d, "", f);
    assert u.url !in s.PoolOf(f).urls;
    var m := Next(s, Claim(f, u));
    assert m.pending[|s.pending|] == u;
    t := Next(m, Enqueue(|s.pending|));
    AddedLast(s, m, t, f, u);
    if CanRepeat(t, k) {
      RepeatsBefore(m, Enqueue(|s.pending|), k);
      RepeatsBefore(s, Claim(f, u), k);
    }
  }

  lemma AddedLast(s: State, m: State, t: State, f: int, u: UrlInfo)
    requires 0 <= f <= 3 && u.kind == f && Enabled(s, Claim(f, u)) && m == Next(s, Claim(f, u))
    requires m.pending[|s.pending|] == u && t == Next(m, Enqueue(|s.pending|))
    ensures t.lists == s.lists && t.handed == s.handed && t.turn == s.turn
    ensures t.PoolOf(f).queue == s.PoolOf(f).queue + [u]
    ensures forall j :: 0 <= j <= 3 && j != f ==> t.PoolOf(j) == s.PoolOf(j)
  {
  }

  /** `n` more URLs of a kind and a domain. */
  lemma {:induction false} AddMany(s: State, f: int, d: string, k: int, n: nat) returns (t: State, v: seq<UrlInfo>)
    requires 0 <= f <= 3 && 0 <= k <= 3 && f != k
    ensures |v| == n && Uniform(v, d, f)
    ensures t.lists == s.lists && t.handed == s.handed && t.turn == s.turn
    ensures t.PoolOf(f).queue == s.PoolOf(f).queue + v
    ensures forall j :: 0 <= j <= 3 && j != f ==> t.PoolOf(j) == s.PoolOf(j)
    ensures CanRepeat(t, k) ==> CanRepeat(s, k)
    decreases n
  {
    t, v := s, [];
    if n > 0 {
      var m, u := AddOne(s, f, d, k);
      var rest;
      t, rest := AddMany(m, f, d, k, n - 1);
      v := [u] + rest;
    }
  }

  /** A domain that no queued URL has. */
  lemma NewDomain(s: State) returns (d: string)
    ensures forall k :: 0 <= k <= 3 ==> NoneFrom(s.PoolOf(k).queue, d)
  {
    var q := s.cpq.queue + s.ipq.queue + s.coq.queue + s.ioq.queue;
    var n := LongerThanAll(set u <- q :: u.domain);
    d := seq(n, _ => 'a');
    forall u | u in q
      ensures u.domain != d
    {
      assert u.domain in set u <- q :: u.domain;
    }
    forall k | 0 <= k <= 3
      ensures NoneFrom(s.PoolOf(k).queue, d)
    {
      QueueWithin(s, k, q);
    }
  }

  predicate NoneFrom(q: seq<UrlInfo>, d: string) {
    forall i :: 0 <= i < |q| ==> q[i].domain != d
  }

  lemma QueueWithin(s: State, k: int, q: seq<UrlInfo>)
    requires 0 <= k <= 3 && q == s.cpq.queue + s.ipq.queue + s.coq.queue + s.ioq.queue
    ensures forall i :: 0 <= i < |s.PoolOf(k).queue| ==> s.PoolOf(k).queue[i] in q
  {
    forall i | 0 <= i < |s.PoolOf(k).queue|
      ensures s.PoolOf(k).queue[i] in q
    {
      assert s.PoolOf(k).queue[i] in s.PoolOf(k).queue;
    }
  }

  /** A number wanted under which a domain with eleven of the `links` is given a share of `x` URLs, all but
      one of them categories. */
  function Hungry(n: nat, links: nat): SelectConf {
    SelectConf(links * (n + 13), 0, 10, (n + 13) * 11, 1)
  }

  lemma HungryQuota(n: nat, links: nat)
    requires links > 0
    ensures Hungry(n, links).Valid()
    ensures QuotaFor(Hungry(n, links), links * (n + 13), 11, links) == Quota((n + 13) * 11 - 1, 10)
  {
    var x := (n + 13) * 11;
    assert links * (n + 13) > 0;
    HungryParts(links, x, n + 13);
    QuotaFromShares(Hungry(n, links), links * (n + 13), 11, links, (x + 1) * links, links * x,
                    x * (links * x), x - 1, x);
  }

  lemma HungryParts(links: nat, x: nat, m: nat)
    requires links > 0 && x == m * 11 && x > 0
    ensures links * m * 11 == links * x && (x + 1) * links > 0
    ensures links * x / links == x && x * (links * x) / ((x + 1) * links) == x - 1
  {
    DivExact(links, x);
    MulSwap(x, links, x);
    assert (x + 1) * links == links * (x + 1);
    ScaledDiv(x * x, x + 1, links);
    assert x * x == (x + 1) * (x - 1) + 1;
    DivIs(x * x, x + 1, x - 1);
  }

  lemma DivIs(a: nat, b: nat, q: nat)
    requires b > 1 && a == b * q + 1
    ensures a / b == q
  {
    assert a < b * (q + 1);
    DivLess(a, b, q);
    MulCancel(b, q, a / b + 1);
  }

  lemma HungryNum(cls: Class, n: nat, links: nat)
    ensures ClassNum(Hungry(n, links), cls) == links * (n + 13)
  {
    var num := links * (n + 13);
    assert num * 10 / 10 == num;
  }

  lemma {:induction false} InReversedTail(s: seq<UrlInfo>, lo: nat, i: nat)
    requires lo <= i < |s|
    ensures s[i] in ReversedTail(s, lo)
    decreases |s| - lo
  {
    if lo < i {
      InReversedTail(s, lo + 1, i);
    }
  }

  lemma BackfillReaches(v: seq<UrlInfo>, cls: Class, want: nat, buffer: seq<UrlInfo>, back: seq<UrlInfo>, i: nat)
    requires |v| == 11 && (forall j :: 0 <= j < 11 ==> v[j].kind == cls.ItemKind())
    requires want >= |back| + 40 && BACK_RESERVE <= i < |back|
    ensures back[i] in DomainTally(v, cls, Quota(want, 10), buffer, back).buffer
  {
    var q := Quota(want, 10);
    UniformSplit(v, cls, q, cls.ItemKind());
    var s := SplitVector(v, cls, q);
    var t := Tally(buffer + s.picks, back + s.back, s.items, s.cates);
    assert DomainTally(v, cls, q, buffer, back) == Backfilled(t, cls.Cap(q) - 10);
    assert t.back[i] == back[i];
    InReversedTail(t.back, BACK_RESERVE, i);
  }

  lemma NoVector(q: seq<UrlInfo>, k: int, d: string)
    requires NoneFrom(q, d)
    ensures VectorIs(Retag(q, k), d, [])
  {
    NoneOfDomain(Retag(q, k), d, 0, |q|);
  }

  lemma NewVector(q: seq<UrlInfo>, v: seq<UrlInfo>, k: int, d: string)
    requires NoneFrom(q, d) && Uniform(v, d, k)
    ensures VectorIs(Retag(q + v, k), d, v)
  {
    assert Retag(q + v, k) == Retag(q, k) + v;
    NoVector(q, k, d);
    WholeVector(v, d, k);
    VectorsJoin(Retag(q, k), v, d, [], v);
    assert [] + v == v;
  }

  /** The vector of a new domain when only one pool has URLs of it. */
  lemma OnlyVector(r: RoundIn, f: int, q: seq<UrlInfo>, v: seq<UrlInfo>, d: string)
    requires (f == 0 || f == 2) && NoneFrom(q, d) && Uniform(v, d, f)
    requires NoneFrom(r.cpq, d) && NoneFrom(r.coq, d)
    requires if f == 0 then r.ioq == q + v && NoneFrom(r.ipq, d) else r.ipq == q + v && NoneFrom(r.ioq, d)
    ensures VectorIs(r.All(), d, v)
  {
    var a, b, c, e := Retag(r.cpq, 3), Retag(r.ipq, 2), Retag(r.ioq, 0), Retag(r.coq, 1);
    var x, y := if f == 2 then v else [], if f == 0 then v else [];
    NoVector(r.cpq, 3, d);
    NoVector(r.coq, 1, d);
    NewVector(q, v, f, d);
    if f == 0 {
      NoVector(r.ipq, 2, d);
    } else {
      NoVector(r.ioq, 0, d);
    }
    VectorsJoin(a, b, d, [], x);
    VectorsJoin(a + b, c, d, [] + x, y);
    VectorsJoin(a + b + c, e, d, [] + x + y, []);
    assert [] + x + y + [] == v;
  }

  /** The round that reaches a leftover behind the first five. */
  lemma HungryTally(lists: Lists, cls: Class, d: string, v: seq<UrlInfo>, i: nat, r: RoundIn)
    requires |v| == 11 && Uniform(v, d, cls.ItemKind()) && VectorIs(r.All(), d, v) && ClassLinks(r, cls) > 0
    requires r.conf == Hungry(|BackOf(lists, cls)|, ClassLinks(r, cls)) && BACK_RESERVE <= i < |BackOf(lists, cls)|
    ensures r.conf.Valid() && BackOf(lists, cls)[i] in OnlyTally(r, d, cls, lists).buffer
  {
    var n, links := |BackOf(lists, cls)|, ClassLinks(r, cls);
    HungryNum(cls, n, links);
    HungryQuota(n, links);
    OnlyTallyIs(r, d, cls, lists, v, Quota((n + 13) * 11 - 1, 10));
    BackfillReaches(v, cls, (n + 13) * 11 - 1, lists.buffer, BackOf(lists, cls), i);
  }

  /** A state that the system can reach by pushes, with eleven URLs of a new domain queued for a class. */
  lemma Fill(s: State, k: int, cls: Class) returns (t: State, v: seq<UrlInfo>, d: string)
    requires 0 <= k <= 3 && cls != ClassOf(k)
    ensures |v| == 11 && Uniform(v, d, cls.ItemKind()) && t.turn == s.turn
    ensures forall conf :: VectorIs(RoundFor(t, conf, d, cls).All(), d, v)
               && ClassLinks(RoundFor(t, conf, d, cls), cls) >= 11
    ensures t.lists == s.lists && t.handed == s.handed && t.PoolOf(k).urls == s.PoolOf(k).urls
    ensures CanRepeat(t, k) ==> CanRepeat(s, k)
  {
    d := NewDomain(s);
    t, v := AddMany(s, cls.ItemKind(), d, k, 11);
    assert t.PoolOf(3).queue == t.cpq.queue && t.PoolOf(2).queue == t.ipq.queue;
    assert t.PoolOf(1).queue == t.coq.queue && t.PoolOf(0).queue == t.ioq.queue;
    forall conf
      ensures VectorIs(RoundFor(t, conf, d, cls).All(), d, v) && ClassLinks(RoundFor(t, conf, d, cls), cls) >= 11
    {
      OnlyVector(RoundFor(t, conf, d, cls), cls.ItemKind(), s.PoolOf(cls.ItemKind()).queue, v, d);
    }
  }

  /** A leftover of another class behind the first five is reached by a backfill, in the first selection
      after the clear. */
  lemma StrayRepeats(s: State, k: int, cls: Class, i: nat, u: UrlInfo)
    requires s.turn == Choosing && GoodUrl(k, u) && u.url !in s.PoolOf(k).urls
    requires cls != ClassOf(k) && BACK_RESERVE <= i < |BackOf(s.lists, cls)| && BackOf(s.lists, cls)[i] == u
    ensures CanRepeat(s, k)
  {
    var t, v, d := Fill(s, k, cls);
    var links := ClassLinks(RoundFor(t, Ample(1), d, cls), cls);
    var conf := Hungry(|BackOf(s.lists, cls)|, links);
    var r := RoundFor(t, conf, d, cls);
    HungryTally(t.lists, cls, d, v, i, r);
    var e := SelectOne(t, conf, d, cls, OnlyTally(r, d, cls, t.lists));
    HandedBy(t, e, k, u);
  }

  // ---------- the rest of the clear ----------

  /** The pools below `j` are cleared; then the select thread chooses. */
  lemma {:induction false} FinishClear(s: State, j: int, k: int) returns (t: State)
    requires -1 <= j < k <= 3 && s.turn == (if j >= 0 then Clearing(QueueSection(j)) else Choosing)
    ensures t.turn == Choosing && t.PoolOf(k) == s.PoolOf(k)
    ensures t.pending == s.pending && t.lists == s.lists && t.handed == s.handed
    ensures CanRepeat(t, k) ==> CanRepeat(s, k)
    decreases j + 1
  {
    t := s;
    if j >= 0 {
      var m := Next(s, ClearQueue(j));
      var n := Next(m, ClearSet(j));
      t := FinishClear(n, j - 1, k);
      if CanRepeat(t, k) {
        RepeatsBefore(m, ClearSet(j), k);
        RepeatsBefore(s, ClearQueue(j), k);
      }
    }
  }

  // ---------- the exact condition ----------

  lemma ChoosingRepeats(s: State, k: int)
    requires s.turn == Choosing && 0 <= k <= 3 && InFlight(s, k) && s.PoolOf(k).urls == {}
    requires LongUrls(s.pending) && LongUrls(s.PoolOf(k).queue) && Tagged(s.PoolOf(k).queue, k)
    requires LongUrls(s.lists.buffer) && LongUrls(s.lists.backO) && LongUrls(s.lists.backP)
    ensures CanRepeat(s, k)
  {
    if i :| 0 <= i < |s.pending| && s.pending[i].kind == k {
      PendingRepeats(s, k, s.pending[i], i);
    } else if s.PoolOf(k).queue != [] {
      QueuedRepeats(s, k, s.PoolOf(k).queue[0]);
    } else if i :| 0 <= i < |s.lists.buffer| && s.lists.buffer[i].kind == k {
      BufferedRepeats(s, k, s.lists.buffer[i]);
    } else {
      var cls := if Recoverable(s.lists.backO, 1, 0, k) then Ordinary else Priority;
      var back := BackOf(s.lists, cls);
      var i :| 0 <= i < |back| && back[i].kind == k && (i >= BACK_RESERVE || cls == ClassOf(k));
      if cls == ClassOf(k) {
        LeftoverRepeats(s, k, back[i], i);
      } else {
        StrayRepeats(s, k, cls, i, back[i]);
      }
    }
  }

  lemma QueueOfPool(s: State, k: int)
    requires WellFormed(s) && AllLong(s) && 0 <= k <= 3
    ensures LongUrls(s.PoolOf(k).queue) && Tagged(s.PoolOf(k).queue, k)
  {
  }

  lemma InFlightRepeats(s: State, k: int)
    requires WellFormed(s) && AllLong(s) && 0 <= k <= 3 && InFlight(s, k)
    ensures CanRepeat(Cleared(s, k), k)
  {
    ClearedShape(s, k);
    QueueOfPool(s, k);
    var t := FinishClear(Cleared(s, k), k - 1, k);
    ChoosingRepeats(t, k);
  }

  /** Between two clears of the set of a pool, hand-off of its URLs is exactly-once in every run exactly
      when, at the first of them, none is under way. */
  lemma OnceIffNoneInFlight(s: State, k: int)
    requires WellFormed(s) && AllLong(s) && 0 <= k <= 3
    ensures !CanRepeat(Cleared(s, k), k) <==> !InFlight(s, k)
  {
    if InFlight(s, k) {
      InFlightRepeats(s, k);
    } else {
      forall steps | ValidRun(Cleared(s, k), steps) && NoReset(steps, k)
        ensures HandedOnce(Run(Cleared(s, k), steps), k)
      {
        ExactlyOnce(s, k, steps);
      }
    }
  }

  // ---------- the ways to fail, and the way not to ----------

  /** A system with nothing in its pools, and these lists and pushes under way. */
  function Idle(pending: seq<UrlInfo>, lists: Lists, turn: Turn): State {
    State(Pool([], {}), Pool([], {}), Pool([], {}), Pool([], {}), pending, lists, [], 0, turn)
  }

  /** The two critical sections of a clear right after each other, with no push of the pool's URLs under
      way and none of them in the lists: hand-off is exactly-once. */
  lemma QuietClear(s: State, k: int)
    requires WellFormed(s) && AllLong(s) && 0 <= k <= 3
    requires Without(s.pending, k) && Without(s.lists.buffer, k)
             && Without(s.lists.backO, k) && Without(s.lists.backP, k)
    ensures !CanRepeat(Cleared(AfterClearQueue(s, k), k), k)
  {
    var c := AfterClearQueue(s, k);
    assert c.lists == s.lists && c.pending == s.pending && c.PoolOf(k).queue == [];
    ClearShape(s, k, k);
    QuietMeansNone(c, k);
    OnceIffNoneInFlight(c, k);
  }

  lemma QuietMeansNone(s: State, k: int)
    requires s.PoolOf(k).queue == []
    requires Without(s.pending, k) && Without(s.lists.buffer, k)
             && Without(s.lists.backO, k) && Without(s.lists.backP, k)
    ensures !InFlight(s, k)
  {
  }

  /** The clear of the set as a step, when its time has come. */
  lemma ClearedIsNext(s: State, k: int)
    requires 0 <= k <= 3 && s.turn == Clearing(SetSection(k)) && s.handed == []
    ensures Enabled(s, ClearSet(k)) && Next(s, ClearSet(k)) == Cleared(s, k)
  {
  }

  /** A push between its two critical sections at the clear. */
  lemma PushUnderWayRepeats(u: UrlInfo)
    requires 0 <= u.kind <= 3 && |u.url| >= MIN_URL_LENGTH
    ensures var s := Idle([u], Lists([], [], []), Clearing(SetSection(u.kind)));
            Enabled(s, ClearSet(u.kind)) && CanRepeat(Next(s, ClearSet(u.kind)), u.kind)
  {
    var s := Idle([u], Lists([], [], []), Clearing(SetSection(u.kind)));
    assert s.pending[0] == u;
    InFlightRepeats(s, u.kind);
    ClearedIsNext(s, u.kind);
  }

  /** The clear of the pools from `j` down to `k`. */
  function ClearsDown(j: int, k: int): seq<Step>
    decreases j - k
  {
    if j < k then [] else [ClearQueue(j)] + ([ClearSet(j)] + ClearsDown(j - 1, k))
  }

  lemma {:induction false} ClearsReach(s: State, j: int, k: int)
    requires 0 <= k <= 3 && k - 1 <= j <= 3 && s.turn == (if j >= 0 then Clearing(QueueSection(j)) else Choosing)
    requires j < k ==> s.PoolOf(k) == Pool([], {})
    ensures ValidRun(s, ClearsDown(j, k))
    ensures var t := Run(s, ClearsDown(j, k));
            && t.PoolOf(k) == Pool([], {}) && t.turn == BehindSet(k)
            && t.pending == s.pending && t.lists == s.lists && t.handed == s.handed
    decreases j - k
  {
    if j >= k {
      var m := Next(s, ClearQueue(j));
      var n := Next(m, ClearSet(j));
      ClearsReach(n, j - 1, k);
      RunCons(m, ClearSet(j), ClearsDown(j - 1, k));
      RunCons(s, ClearQueue(j), [ClearSet(j)] + ClearsDown(j - 1, k));
    }
  }

  /** Three rounds counted, and one URL pushed since the last. */
  function OneQueued(u: UrlInfo): State {
    Idle([], Lists([], [], []), Choosing).WithPool(u.kind, Pool([u], {u.url})).(rounds := 3)
  }

  /** A round that selects one URL and rolls over, since that is less than the threshold. */
  lemma SelectAndRoll(u: UrlInfo) returns (e: Step)
    requires 0 <= u.kind <= 3
    ensures e.Select? && Enabled(OneQueued(u), e) && Rolls(OneQueued(u), e)
    ensures RoundLists(OneQueued(u), e) == Lists([u], [], []) && e.shuffled == [u]
  {
    var s, cls := OneQueued(u), ClassOf(u.kind);
    e := Select(SelectConf(1, 2, 1, 1, 1), [u.domain], OnlyDomain(u.domain, cls), [u]);
    assert Enumerates([u.domain], OnlyDomain(u.domain, cls).Keys);
    var r := Input(s, e);
    OneVector(u, r);
    TakenAlone(u, r, cls, s.lists);
  }

  lemma TakenAlone(u: UrlInfo, r: RoundIn, cls: Class, lists: Lists)
    requires r.Valid() && r.order == [u.domain] && r.domains == OnlyDomain(u.domain, cls)
    requires VectorIs(r.All(), u.domain, [u]) && lists == Lists([], [], [])
    ensures RunRound(r, lists, map[], map[]).lists == Lists([u], [], [])
  {
    var num, links := ClassNum(r.conf, cls), ClassLinks(r, cls);
    var q := QuotaFor(r.conf, num, |[u]|, links);
    QuotaAtLeastTen(r.conf, num, |[u]|, links);
    OnlyTallyIs(r, u.domain, cls, lists, [u], q);
    TakenWhole([u], cls, q, [], []);
    SmallDomainLeavesNothing([u], cls, q, [], []);
    OneDomain(r, u.domain, cls, lists);
  }

  lemma OneVector(u: UrlInfo, r: RoundIn)
    requires 0 <= u.kind <= 3
    requires var s := OneQueued(u);
             r.cpq == s.cpq.queue && r.ipq == s.ipq.queue && r.ioq == s.ioq.queue && r.coq == s.coq.queue
    ensures VectorIs(r.All(), u.domain, [u])
  {
    assert Retag([], 3) == [] && Retag([], 2) == [] && Retag([], 0) == [] && Retag([], 1) == [];
    assert Retag([u], u.kind) == [u];
    assert r.All() == [u];
    AllOfDomain([u], u.domain, 1);
  }

  /** A selection carried over a rollover: `select_url` returns -1 with its lists as they are, the pools are
      cleared, and behind the clear of the set the URL can be pushed, and handed over, once more. */
  lemma CarriedSelectionRepeats(u: UrlInfo)
    requires 0 <= u.kind <= 3 && |u.url| >= MIN_URL_LENGTH
    ensures exists e: Step :: RollsAndRepeats(OneQueued(u), e, u.kind)
  {
    var s := OneQueued(u);
    var e := SelectAndRoll(u);
    RollingRepeats(s, e, u);
  }

  lemma RollingRepeats(s: State, e: Step, u: UrlInfo)
    requires 0 <= u.kind <= 3 && |u.url| >= MIN_URL_LENGTH && s.pending == []
    requires e.Select? && Enabled(s, e) && Rolls(s, e)
    requires RoundLists(s, e) == Lists([u], [], []) && e.shuffled == [u]
    ensures RollsAndRepeats(s, e, u.kind)
  {
    RollingKeeps(s, e);
    RolledRepeats(Next(s, e), u);
  }

  /** A selection that rolls over keeps its lists, and the clears come next. */
  lemma RollingKeeps(s: State, e: Step)
    requires e.Select? && Enabled(s, e) && Rolls(s, e)
    ensures var t := Next(s, e);
            && t.lists == Lists(e.shuffled, RoundLists(s, e).backO, RoundLists(s, e).backP)
            && t.turn == Clearing(QueueSection(3)) && t.pending == s.pending
  {
  }

  /** The selection rolls over, the pools are cleared down to pool `k`, and from there some run hands a URL of
      it over twice. */
  ghost predicate RollsAndRepeats(s: State, e: Step, k: int) {
    && e.Select? && Enabled(s, e) && Rolls(s, e)
    && ValidRun(Next(s, e), ClearsDown(3, k))
    && CanRepeat(Run(Next(s, e), ClearsDown(3, k)), k)
  }

  /** With the selection carried, the clears lead to a state from which the URL is handed over twice. */
  lemma RolledRepeats(s: State, u: UrlInfo)
    requires 0 <= u.kind <= 3 && |u.url| >= MIN_URL_LENGTH
    requires s.lists == Lists([u], [], []) && s.turn == Clearing(QueueSection(3)) && s.pending == []
    ensures ValidRun(s, ClearsDown(3, u.kind)) && CanRepeat(Run(s, ClearsDown(3, u.kind)), u.kind)
  {
    var k := u.kind;
    ClearsReach(s, 3, k);
    var t := FinishClear(Run(s, ClearsDown(3, k)), k - 1, k);
    assert t.lists.buffer[0] == u;
    ChoosingRepeats(t, k);
  }

  /** A whole push between the two critical sections of the clear: the queue keeps what the set forgets. */
  lemma PushInsideClearRepeats(u: UrlInfo)
    requires 0 <= u.kind <= 3 && |u.url| >= MIN_URL_LENGTH
    ensures var k, s := u.kind, Idle([], Lists([], [], []), Clearing(QueueSection(u.kind)));
            var steps := [ClearQueue(k), Claim(k, u), Enqueue(0), ClearSet(k)];
            ValidRun(s, steps) && CanRepeat(Run(s, steps), k)
  {
    var k, s := u.kind, Idle([], Lists([], [], []), Clearing(QueueSection(u.kind)));
    var s1 := Next(s, ClearQueue(k));
    var s2 := Next(s1, Claim(k, u));
    assert s2.pending == [u];
    var s3 := Next(s2, Enqueue(0));
    assert s3.PoolOf(k).queue == [u] && s3.handed == [];
    PushedInside(s3, u);
    ClearedIsNext(s3, k);
    FourSteps(s, s1, s2, s3, ClearQueue(k), Claim(k, u), Enqueue(0), ClearSet(k));
  }

  lemma FourSteps(s: State, s1: State, s2: State, s3: State, a: Step, b: Step, c: Step, d: Step)
    requires Enabled(s, a) && s1 == Next(s, a) && Enabled(s1, b) && s2 == Next(s1, b)
    requires Enabled(s2, c) && s3 == Next(s2, c) && Enabled(s3, d)
    ensures ValidRun(s, [a, b, c, d]) && Run(s, [a, b, c, d]) == Next(s3, d)
  {
    var s4 := Next(s3, d);
    assert ValidRun(s4, []) && Run(s4, []) == s4;
    RunCons(s3, d, []);
    RunCons(s2, c, [d]);
    RunCons(s1, b, [c, d]);
    RunCons(s, a, [b, c, d]);
    assert [a] + [b, c, d] == [a, b, c, d] && [b] + [c, d] == [b, c, d] && [c] + [d] == [c, d] && [d] + [] == [d];
  }

  lemma PushedInside(s: State, u: UrlInfo)
    requires 0 <= u.kind <= 3 && |u.url| >= MIN_URL_LENGTH && s.PoolOf(u.kind).queue == [u]
    requires forall j :: 0 <= j <= 3 && j != u.kind ==> s.PoolOf(j).queue == []
    requires s.pending == [] && s.lists == Lists([], [], [])
    ensures CanRepeat(Cleared(s, u.kind), u.kind)
  {
    assert s.PoolOf(3).queue == s.cpq.queue && s.PoolOf(2).queue == s.ipq.queue;
    assert s.PoolOf(1).queue == s.coq.queue && s.PoolOf(0).queue == s.ioq.queue;
    InFlightRepeats(s, u.kind);
  }
}
