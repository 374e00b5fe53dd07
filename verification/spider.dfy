/** The select thread of the spider: `CSpider::select_url` and `CSpider::insert_url` on the shared
    objects, and one turn of the loop of `select_thread` (spider.cpp:56-92, 427-723, 796-849). */
module Spiders {
  import opened Options
  import opened Arithmetic
  import opened UrlPools
  import opened Scans
  import opened Rounds
  import opened RoundLaws
  import opened Statistics
  import opened SelectedQueues
  import opened DnsClients
  import opened Reports
  import C = Crawls

  /** The queue item made of a selected URL; an unknown kind counts as an ordinary category. */
  function ToItem(u: UrlInfo): SQItem {
    SQItem(u.url, 0, 0, u.lastCrawlTime,
           if u.kind == 0 then IOQ else if u.kind == 2 then IPQ else if u.kind == 3 then CPQ else COQ)
  }

  function ToItems(s: seq<UrlInfo>): (r: seq<SQItem>)
    ensures |r| == |s|
    ensures forall i :: 0 <= i < |s| ==> r[i] == ToItem(s[i])
  {
    seq(|s|, i requires 0 <= i < |s| => ToItem(s[i]))
  }

  /** What a queue item takes from the selected URL: its address and its last crawl time, no failures yet,
      and the queue that its type stands for; an unknown type stands for an ordinary category. */
  predicate Carries(item: SQItem, u: UrlInfo) {
    && item.url == u.url && item.lastCrawlTime == u.lastCrawlTime
    && item.failCount == 0 && item.dnsCount == 0
    && (item.whichQueue == IOQ <==> u.kind == 0)
    && (item.whichQueue == COQ <==> u.kind !in {0, 2, 3})
    && (item.whichQueue == IPQ <==> u.kind == 2)
    && (item.whichQueue == CPQ <==> u.kind == 3)
  }

  /** The items at the end of a queue carry the URLs one by one. */
  predicate AllCarry(items: seq<SQItem>, before: nat, urls: seq<UrlInfo>) {
    && |items| == before + |urls|
    && forall i :: 0 <= i < |urls| ==> Carries(items[before + i], urls[i])
  }

  lemma ItemsCarry(queue: seq<SQItem>, urls: seq<UrlInfo>)
    ensures AllCarry(queue + ToItems(urls), |queue|, urls)
  {
  }

  /** Such an item may enter the life cycle that crawl threads take it through, whenever there is room. */
  lemma CarriedMayEnter(item: SQItem, u: UrlInfo, s: C.State)
    requires Carries(item, u)
    ensures C.Enabled(s, C.Insert(item)) <==> s.queue.count != s.queue.size
  {
  }

  // ---------- vectors ----------

  /** The vectors hold what has been drained so far, domain by domain. */
  ghost predicate Sorted(vectors: map<string, seq<UrlInfo>>, all: seq<UrlInfo>, n: nat)
    requires n <= |all|
  {
    forall d :: d in vectors ==> vectors[d] == OfDomain(all, d, n)
  }

  /** Drain a pool: tag every URL with the kind of the pool and add it to the vector of its domain,
      if the domain is known. */
  method Drain(pool: UrlPool, kind: int, vectors: map<string, seq<UrlInfo>>,
               ghost seen: seq<UrlInfo>, ghost all: seq<UrlInfo>)
      returns (vectors': map<string, seq<UrlInfo>>)
    requires Sorted(vectors, seen, |seen|)
    requires all == seen + Retag(pool.queue, kind)
    modifies pool`queue
    ensures pool.queue == []
    ensures vectors'.Keys == vectors.Keys
    ensures Sorted(vectors', all, |all|)
  {
    vectors' := vectors;
    forall d | d in vectors
      ensures vectors[d] == OfDomain(all, d, |seen|)
    {
      OfDomainPrefix(seen, Retag(pool.queue, kind), d, |seen|);
    }
    var i := 0;
    while i < |pool.queue|
      invariant 0 <= i <= |pool.queue| && pool.queue == old(pool.queue)
      invariant vectors'.Keys == vectors.Keys
      invariant Sorted(vectors', all, |seen| + i)
    {
      var u := pool.queue[i].(kind := kind);
      assert all[|seen| + i] == u;
      if u.domain in vectors' {
        vectors' := vectors'[u.domain := vectors'[u.domain] + [u]];
      }
      i := i + 1;
    }
    pool.queue := [];
  }

  // ---------- shuffling ----------

  function Swapped(s: seq<UrlInfo>, i: nat, j: nat): (r: seq<UrlInfo>)
    requires i < |s| && j < |s|
    ensures |r| == |s|
  {
    s[i := s[j]][j := s[i]]
  }

  /** The position up to `i` that the random number for `i` stands for. */
  function Drawn(draw: nat -> nat, i: nat): (j: nat)
    ensures j <= i
    ensures draw(i) <= i ==> j == draw(i)
  {
    draw(i) % (i + 1)
  }

  /** What the shuffle has made of `v` when the first `n` positions are done. */
  function Shuffled(v: seq<UrlInfo>, draw: nat -> nat, n: nat): (r: seq<UrlInfo>)
    requires n <= |v|
    ensures |r| == |v|
  {
    if n <= 1 then v else Swapped(Shuffled(v, draw, n - 1), n - 1, Drawn(draw, n - 1))
  }

  lemma ShuffledStep(v: seq<UrlInfo>, draw: nat -> nat, i: nat, n: nat)
    requires 1 <= i && n == i + 1 <= |v|
    ensures Shuffled(v, draw, n) == Swapped(Shuffled(v, draw, i), i, Drawn(draw, i))
  {
  }

  /** `random_shuffle`; `draw(i)` is the random number used at position `i`. */
  method RandomShuffle(v: seq<UrlInfo>, draw: nat -> nat) returns (r: seq<UrlInfo>)
    ensures multiset(r) == multiset(v)
    ensures r == Shuffled(v, draw, |v|)
  {
    r := v;
    var i := 1;
    while i < |r|
      invariant 1 <= i <= |v| || (i == 1 && v == [])
      invariant |r| == |v| && multiset(r) == multiset(v)
      invariant r == if v == [] then v else Shuffled(v, draw, i)
    {
      var j, next := Drawn(draw, i), i + 1;
      SwapKeeps(r, i, j);
      ShuffledStep(v, draw, i, next);
      r := Swapped(r, i, j);
      i := next;
    }
  }

  lemma {:induction false} SameDraws(v: seq<UrlInfo>, a: nat -> nat, b: nat -> nat, n: nat)
    requires n <= |v| && forall i :: 0 <= i < n ==> a(i) == b(i)
    ensures Shuffled(v, a, n) == Shuffled(v, b, n)
    decreases n
  {
    if n > 1 {
      var i := n - 1;
      SameDraws(v, a, b, i);
      ShuffledStep(v, a, i, n);
      ShuffledStep(v, b, i, n);
    }
  }

  /** Draws that bring the first `n` positions into any order. */
  lemma {:induction false} OrderOfFirst(v: seq<UrlInfo>, t: seq<UrlInfo>, n: nat) returns (draw: nat -> nat)
    requires n <= |v| == |t| && t[n..] == v[n..] && multiset(t[..n]) == multiset(v[..n])
    ensures Shuffled(v, draw, n) == t
    decreases n
  {
    if n <= 1 {
      SameShort(v[..n], t[..n]);
      assert v == v[..n] + v[n..] && t == t[..n] + t[n..];
      draw := (i: nat) => 0;
    } else {
      var i := n - 1;
      var j := PlaceOf(v, t, i, n);
      OneLess(v, t, i, j, n);
      var before := OrderOfFirst(v, Swapped(t, i, j), i);
      draw := LastDraw(v, t, before, i, j, n);
    }
  }

  lemma PlaceOf(v: seq<UrlInfo>, t: seq<UrlInfo>, i: nat, n: nat) returns (j: nat)
    requires n == i + 1 <= |v| == |t| && multiset(t[..n]) == multiset(v[..n])
    ensures j < n && t[j] == v[i]
  {
    assert v[..n][i] in multiset(t[..n]);
    j :| 0 <= j < n && t[..n][j] == v[i];
  }

  lemma LastDraw(v: seq<UrlInfo>, t: seq<UrlInfo>, before: nat -> nat, i: nat, j: nat, n: nat)
      returns (draw: nat -> nat)
    requires n == i + 1 <= |v| == |t| && 1 < n && j < n && Shuffled(v, before, i) == Swapped(t, i, j)
    ensures Shuffled(v, draw, n) == t
  {
    draw := (k: nat) => if k == i then j else before(k);
    SameDraws(v, draw, before, i);
    ShuffledStep(v, draw, i, n);
    SwapBack(t, i, j);
  }

  lemma SameShort(a: seq<UrlInfo>, b: seq<UrlInfo>)
    requires |a| == |b| <= 1 && multiset(a) == multiset(b)
    ensures a == b
  {
    if |a| == 1 {
      assert a == [a[0]] && b == [b[0]];
      assert a[0] in multiset(b);
    }
  }

  lemma SwapBack(t: seq<UrlInfo>, i: nat, j: nat)
    requires i < |t| && j < |t|
    ensures Swapped(Swapped(t, i, j), i, j) == t
  {
  }

  /** With the last of the first `n` in its place, the others are still in some order. */
  lemma OneLess(v: seq<UrlInfo>, t: seq<UrlInfo>, i: nat, j: nat, n: nat)
    requires n == i + 1 <= |v| == |t| && j < n && t[j] == v[i]
    requires t[n..] == v[n..] && multiset(t[..n]) == multiset(v[..n])
    ensures var s := Swapped(t, i, j); s[i..] == v[i..] && multiset(s[..i]) == multiset(v[..i])
  {
    var s := Swapped(t, i, j);
    assert s[n..] == t[n..] && s[i] == v[i];
    assert s[i..] == [s[i]] + s[n..] && v[i..] == [v[i]] + v[n..];
    SwapKeeps(t[..n], i, j);
    assert s[..n] == Swapped(t[..n], i, j);
    assert s[..n] == s[..i] + [v[i]] && v[..n] == v[..i] + [v[i]];
    DropLast(multiset(s[..i]), multiset(v[..i]), v[i]);
  }

  lemma DropLast<T>(a: multiset<T>, b: multiset<T>, x: T)
    requires a + multiset{x} == b + multiset{x}
    ensures a == b
  {
    assert (a + multiset{x}) - multiset{x} == a && (b + multiset{x}) - multiset{x} == b;
  }

  /** Every order of the buffer comes out for some random numbers. */
  lemma AnyOrder(v: seq<UrlInfo>, t: seq<UrlInfo>)
    requires multiset(t) == multiset(v)
    ensures exists draw :: Shuffled(v, draw, |v|) == t
  {
    assert |multiset(t)| == |t| && |multiset(v)| == |v|;
    assert t[..|t|] == t && v[..|v|] == v && t[|v|..] == v[|v|..];
    var draw := OrderOfFirst(v, t, |v|);
  }

  lemma SwapKeeps(s: seq<UrlInfo>, i: nat, j: nat)
    requires i < |s| && j < |s|
    ensures multiset(Swapped(s, i, j)) == multiset(s)
  {
  }

  // ---------- leftovers ----------

  /** The URLs among the first `n` that are of neither kind. */
  function OtherKinds(v: seq<UrlInfo>, k1: int, k2: int, n: nat): seq<UrlInfo>
    requires n <= |v|
  {
    if n == 0 then []
    else if v[n - 1].kind == k1 || v[n - 1].kind == k2 then OtherKinds(v, k1, k2, n - 1)
    else OtherKinds(v, k1, k2, n - 1) + [v[n - 1]]
  }

  /** The URLs of two kinds and the others are all URLs. */
  ghost predicate Partitioned(v: seq<UrlInfo>, k1: int, k2: int, n: nat)
    requires n <= |v|
  {
    multiset(OfKind(v, k1, n)) + multiset(OfKind(v, k2, n)) + multiset(OtherKinds(v, k1, k2, n)) == multiset(v[..n])
  }

  lemma {:induction false} KindsPartition(v: seq<UrlInfo>, k1: int, k2: int, n: nat)
    requires n <= |v| && k1 != k2
    ensures Partitioned(v, k1, k2, n)
    decreases n
  {
    if n > 0 {
      KindsPartition(v, k1, k2, n - 1);
      PartitionedStep(v, k1, k2, n - 1, n);
    } else {
      NonePartitioned(v, k1, k2);
    }
  }

  lemma NonePartitioned(v: seq<UrlInfo>, k1: int, k2: int)
    ensures Partitioned(v, k1, k2, 0)
  {
    assert OfKind(v, k1, 0) == [] && OfKind(v, k2, 0) == [] && OtherKinds(v, k1, k2, 0) == [] && v[..0] == [];
  }

  lemma PartitionedStep(v: seq<UrlInfo>, k1: int, k2: int, m: nat, n: nat)
    requires n == m + 1 <= |v| && k1 != k2 && Partitioned(v, k1, k2, m)
    ensures Partitioned(v, k1, k2, n)
  {
    assert v[..n] == v[..m] + [v[m]];
    DealOneOfThree(OfKind(v, k1, m), OfKind(v, k2, m), OtherKinds(v, k1, k2, m), v[..m], v[m]);
  }

  lemma DealOneOfThree(a: seq<UrlInfo>, b: seq<UrlInfo>, c: seq<UrlInfo>, all: seq<UrlInfo>, u: UrlInfo)
    requires multiset(a) + multiset(b) + multiset(c) == multiset(all)
    ensures multiset(a + [u]) + multiset(b) + multiset(c) == multiset(all + [u])
    ensures multiset(a) + multiset(b + [u]) + multiset(c) == multiset(all + [u])
    ensures multiset(a) + multiset(b) + multiset(c + [u]) == multiset(all + [u])
  {
  }

  lemma {:induction false} OfKindIsLong(v: seq<UrlInfo>, k: int, n: nat)
    requires n <= |v| && LongUrls(v)
    ensures LongUrls(OfKind(v, k, n))
    decreases n
  {
    if n > 0 {
      OfKindIsLong(v, k, n - 1);
      assert v[n - 1] in v;
    }
  }

  /** Return leftovers to two pools by kind; any other kind is dropped. */
  method ReturnTo(v: seq<UrlInfo>, k1: int, pool1: UrlPool, k2: int, pool2: UrlPool)
    requires pool1 != pool2 && k1 != k2 && LongUrls(v)
    modifies pool1`queue, pool2`queue
    ensures pool1.queue == old(pool1.queue) + OfKind(v, k1, |v|)
    ensures pool2.queue == old(pool2.queue) + OfKind(v, k2, |v|)
  {
    ghost var queue1, queue2 := pool1.queue, pool2.queue;
    for i := 0 to |v|
      invariant pool1.queue == queue1 + OfKind(v, k1, i)
      invariant pool2.queue == queue2 + OfKind(v, k2, i)
    {
      assert v[i] in v;
      OfKindStep(queue1, v, k1, i, i + 1);
      OfKindStep(queue2, v, k2, i, i + 1);
      ReturnOne(v[i], k1, pool1, k2, pool2);
    }
  }

  method ReturnOne(u: UrlInfo, k1: int, pool1: UrlPool, k2: int, pool2: UrlPool)
    requires pool1 != pool2 && k1 != k2 && |u.url| >= MIN_URL_LENGTH
    modifies pool1`queue, pool2`queue
    ensures pool1.queue == if u.kind == k1 then old(pool1.queue) + [u] else old(pool1.queue)
    ensures pool2.queue == if u.kind == k2 then old(pool2.queue) + [u] else old(pool2.queue)
  {
    if u.kind == k1 {
      pool1.AddToQue(u);
    } else if u.kind == k2 {
      pool2.AddToQue(u);
    }
  }

  lemma OfKindStep(queue: seq<UrlInfo>, v: seq<UrlInfo>, k: int, n: nat, n': nat)
    requires n' == n + 1 <= |v|
    ensures queue + OfKind(v, k, n')
         == if v[n].kind == k then (queue + OfKind(v, k, n)) + [v[n]] else queue + OfKind(v, k, n)
  {
    var o := OfKind(v, k, n);
    if v[n].kind == k {
      assert OfKind(v, k, n') == o + [v[n]];
      AppendLast(queue, o, v[n]);
    } else {
      assert OfKind(v, k, n') == o;
    }
  }

  lemma AppendLast(a: seq<UrlInfo>, b: seq<UrlInfo>, u: UrlInfo)
    ensures a + (b + [u]) == (a + b) + [u]
  {
  }

  /** Push an item, waiting while the queue is full; the wait ends when a crawl thread has popped. */
  method PushWaiting(sq: SelectedQueue, item: SQItem) returns (consumed: seq<SQItem>)
    requires sq.Valid() && sq.size != 0
    modifies sq`queue, sq`count
    ensures sq.Valid()
    ensures consumed + sq.queue == old(sq.queue) + [item]
    ensures |consumed| == if old(sq.count) == sq.size then 1 else 0
  {
    ghost var before := sq.queue;
    consumed := [];
    var ok := sq.Push(item);
    while !ok
      invariant sq.Valid() && (!ok ==> sq.count == sq.size && consumed + sq.queue == before)
      invariant ok ==> consumed + sq.queue == before + [item]
      invariant if ok then |consumed| == (if |before| == sq.size then 1 else 0) else consumed == []
      decreases !ok
    {
      ghost var gone := consumed;
      var popped, now := PopThenPush(sq, item);
      consumed := consumed + [popped];
      ok := now;
      assert consumed + sq.queue == gone + ([popped] + sq.queue);
    }
  }

  /** A crawl thread makes room, then the next attempt to push succeeds. */
  method PopThenPush(sq: SelectedQueue, item: SQItem) returns (popped: SQItem, ok: bool)
    requires sq.Valid() && sq.size != 0 && sq.count == sq.size
    modifies sq`queue, sq`count
    ensures sq.Valid() && ok
    ensures [popped] + sq.queue == old(sq.queue) + [item]
  {
    var r := sq.Pop();
    popped := r.value;
    ghost var rest := sq.queue;
    ok := sq.Push(item);
    assert [popped] + (rest + [item]) == ([popped] + rest) + [item];
  }

  /** Pushes and pops of crawl threads: what is popped and then queued is what was queued and then
      accepted. */
  method Meanwhile(sq: SelectedQueue, ops: seq<Op>) returns (popped: seq<SQItem>, requeued: seq<SQItem>)
    requires sq.Valid() && forall op <- ops :: op != Op.Clear
    modifies sq`queue, sq`count
    ensures sq.Valid() && popped + sq.queue == old(sq.queue) + requeued
    ensures forall item <- requeued :: Op.Push(item) in ops
  {
    popped, requeued := [], [];
    for i := 0 to |ops|
      invariant sq.Valid() && popped + sq.queue == old(sq.queue) + requeued
      invariant forall item <- requeued :: Op.Push(item) in ops
    {
      ghost var gone, left := popped, sq.queue;
      assert ops[i] in ops;
      if ops[i].Push? {
        var ok := sq.Push(ops[i].item);
        if ok {
          assert popped + sq.queue == (gone + left) + [ops[i].item];
          requeued := requeued + [ops[i].item];
        }
      } else {
        var r := sq.Pop();
        if r.Some? {
          popped := popped + [r.value];
          assert popped + sq.queue == gone + ([r.value] + sq.queue);
        }
      }
    }
  }

  /** What crawl threads took from the queue and put back while the select thread waited, and what it
      then threw away. */
  datatype Wait = Wait(popped: seq<SQItem>, requeued: seq<SQItem>, thrown: seq<SQItem>)

  /** No operation of a crawl thread clears the queue. */
  predicate OnlyCrawl(busy: seq<seq<Op>>) {
    forall i :: 0 <= i < |busy| ==> forall op <- busy[i] :: op != Op.Clear
  }

  /** Wait while the queue holds more than a threshold. Before the next look crawl threads do
      `busy[0]`, before the one after it `busy[1]`, and so on; at last they only pop. */
  method WaitForQueue(sq: SelectedQueue, threshold: nat, busy: seq<seq<Op>>)
      returns (popped: seq<SQItem>, requeued: seq<SQItem>)
    requires sq.Valid() && OnlyCrawl(busy)
    modifies sq`queue, sq`count
    ensures sq.Valid() && popped + sq.queue == old(sq.queue) + requeued
    ensures |sq.queue| <= threshold
    ensures forall item <- requeued :: exists i :: 0 <= i < |busy| && Op.Push(item) in busy[i]
    ensures |old(sq.queue)| <= threshold ==> popped == requeued == []
    ensures busy == [] && |old(sq.queue)| > threshold ==> requeued == [] && |sq.queue| == threshold
  {
    popped, requeued := [], [];
    var i := 0;
    while sq.count > threshold
      invariant i <= |busy| && sq.Valid() && popped + sq.queue == old(sq.queue) + requeued
      invariant forall item <- requeued :: exists i :: 0 <= i < |busy| && Op.Push(item) in busy[i]
      invariant |old(sq.queue)| <= threshold ==> popped == requeued == []
      invariant busy == [] && |old(sq.queue)| > threshold ==> requeued == [] && |sq.queue| >= threshold
      decreases |busy| - i, sq.count
    {
      ghost var gone, left := popped, sq.queue;
      if i < |busy| {
        var out, back := Meanwhile(sq, busy[i]);
        assert gone + out + sq.queue == gone + (left + back) == (gone + left) + back;
        popped, requeued, i := popped + out, requeued + back, i + 1;
      } else {
        var r := sq.Pop();
        popped := popped + [r.value];
        assert popped + sq.queue == gone + ([r.value] + sq.queue);
      }
    }
  }

  /** What is popped during the wait and thrown away after it is what was queued and what was requeued. */
  predicate Waited(wait: Wait, queued: seq<SQItem>, threshold: int, busy: seq<seq<Op>>) {
    && wait.popped + wait.thrown == queued + wait.requeued
    && |wait.thrown| <= threshold
    && forall item <- wait.requeued :: exists i :: 0 <= i < |busy| && Op.Push(item) in busy[i]
  }

  /** The end of a generation: wait, then throw the rest of the queue away. */
  method WaitAndClear(sq: SelectedQueue, threshold: nat, busy: seq<seq<Op>>) returns (wait: Wait)
    requires sq.Valid() && OnlyCrawl(busy)
    modifies sq`queue, sq`count
    ensures sq.Valid() && sq.queue == [] && Waited(wait, old(sq.queue), threshold, busy)
  {
    var popped, requeued := WaitForQueue(sq, threshold, busy);
    wait := Wait(popped, requeued, sq.queue);
    sq.Clear();
  }

  class Spider {
    const conf: SelectConf
    const cpq: UrlPool
    const ipq: UrlPool
    const coq: UrlPool
    const ioq: UrlPool
    const sq: SelectedQueue
    const statis: SpiderStatis
    const dns: DnsClient
    var selectBuffer: seq<UrlInfo>
    var selectBackO: seq<UrlInfo>
    var selectBackP: seq<UrlInfo>
    var selectRounds: nat

    ghost predicate Valid()
      reads this, cpq, ipq, coq, ioq, sq
    {
      && conf.Valid()
      && cpq != ipq && cpq != coq && cpq != ioq && ipq != coq && ipq != ioq && coq != ioq
      && cpq.Valid() && ipq.Valid() && coq.Valid() && ioq.Valid() && sq.Valid()
      && LongUrls(selectBuffer) && LongUrls(selectBackO) && LongUrls(selectBackP)
    }

    /** What a call of `select_url` reads, for a given iteration order of the domains. */
    ghost function Input(order: seq<string>): RoundIn
      reads cpq, ipq, coq, ioq, statis
    {
      RoundIn(conf, order, statis.domains, cpq.queue, ipq.queue, ioq.queue, coq.queue)
    }

    ghost function Carried(): Lists
      reads this
    {
      Lists(selectBuffer, selectBackO, selectBackP)
    }

    ghost function BackOf(cls: Class): seq<UrlInfo>
      reads this
    {
      if cls.Priority? then selectBackP else selectBackO
    }

    ghost function OtherBack(cls: Class): seq<UrlInfo>
      reads this
    {
      if cls.Priority? then selectBackO else selectBackP
    }

    /** The part of the state that a pass over a class works on. */
    ghost function ClassPass(cls: Class, picked: nat): Pass
      reads this, statis
    {
      Pass(selectBuffer, BackOf(cls), statis.itemSelect, statis.cateSelect, picked)
    }

    constructor (conf: SelectConf, cpq: UrlPool, ipq: UrlPool, coq: UrlPool, ioq: UrlPool,
                 sq: SelectedQueue, statis: SpiderStatis, dns: DnsClient)
      ensures this.conf == conf && this.cpq == cpq && this.ipq == ipq && this.coq == coq && this.ioq == ioq
      ensures this.sq == sq && this.statis == statis && this.dns == dns
      ensures Carried() == Lists([], [], []) && selectRounds == 0
    {
      this.conf := conf;
      this.cpq, this.ipq, this.coq, this.ioq := cpq, ipq, coq, ioq;
      this.sq, this.statis, this.dns := sq, statis, dns;
      selectBuffer, selectBackO, selectBackP, selectRounds := [], [], [], 0;
    }

    /** Record the counters of the scans, then backfill unless the vector was used up or the total is
        near the cap, and record the counters again. */
    method TopUp(d: string, scanned: Tally, whole: bool, cap: nat) returns (t: Tally)
      modifies statis`itemSelect, statis`cateSelect
      ensures t == ToppedUp(scanned, whole, cap)
      ensures statis.itemSelect == old(statis.itemSelect)[d := t.items]
      ensures statis.cateSelect == old(statis.cateSelect)[d := t.cates]
    {
      t := scanned;
      statis.SetDomainItemSelectNum(d, t.items);
      statis.SetDomainCateSelectNum(d, t.cates);
      if whole {
        return;
      }
      var itemNum := statis.GetDomainItemSelectNum(d);
      var cateNum := statis.GetDomainCateSelectNum(d);
      var totalSelect := itemNum + cateNum;
      if totalSelect >= cap - BACKFILL_SLACK {
        return;
      }
      t := Backfill(t, cap - totalSelect);
      statis.SetDomainItemSelectNum(d, t.items);
      statis.SetDomainCateSelectNum(d, t.cates);
    }

    /** One iteration of the loop over the domains of a class; returns what the scans picked. */
    method SelectDomain(cls: Class, d: string, v: seq<UrlInfo>, q: Quota) returns (picks: nat)
      modifies this`selectBuffer, this`selectBackO, this`selectBackP, statis`itemSelect, statis`cateSelect
      ensures ClassPass(cls, picks) == AfterDomain(old(ClassPass(cls, 0)), d,
                DomainTally(v, cls, q, old(selectBuffer), old(BackOf(cls))), |SplitVector(v, cls, q).picks|)
      ensures OtherBack(cls) == old(OtherBack(cls))
    {
      var back := if cls.Priority? then selectBackP else selectBackO;
      var buffer, rest, items, cates, whole := Scan(v, cls, q, selectBuffer, back);
      picks := |buffer| - |selectBuffer|;
      var t := TopUp(d, Tally(buffer, rest, items, cates), whole, cls.Cap(q));
      selectBuffer := t.buffer;
      if cls.Priority? {
        selectBackP := t.back;
      } else {
        selectBackO := t.back;
      }
    }

    /** The loop over the domains of a class. */
    method SelectClass(ghost plan: Plan, cls: Class, names: seq<string>, vectors: map<string, seq<UrlInfo>>,
                       num: int, links: nat)
        returns (count: nat)
      requires plan.Valid() && plan.conf == conf && plan.cls == cls && plan.num == num && plan.links == links
               && plan.names == names
      requires forall i :: 0 <= i < |names| ==> names[i] in vectors && vectors[names[i]] == plan.Vector(i)
      modifies this`selectBuffer, this`selectBackO, this`selectBackP, statis`itemSelect, statis`cateSelect
      ensures ClassPass(cls, count) == RunPass(plan, old(ClassPass(cls, 0)), |names|)
      ensures OtherBack(cls) == old(OtherBack(cls))
    {
      count := 0;
      ghost var start := ClassPass(cls, 0);
      var i := 0;
      while i != |names|
        invariant i <= |names|
        invariant ClassPass(cls, count) == RunPass(plan, start, i)
        invariant OtherBack(cls) == old(OtherBack(cls))
        decreases |names| - i
      {
        var next := i + 1;
        count := SelectNext(plan, start, i, next, cls, names[i], vectors[names[i]], num, links, count);
        i := next;
      }
    }

    /** The body of that loop: quotas, then the domain. */
    method SelectNext(ghost plan: Plan, ghost start: Pass, ghost i: nat, ghost i': nat,
                      cls: Class, d: string, v: seq<UrlInfo>, num: int, links: nat, count: nat)
        returns (count': nat)
      requires plan.Valid() && i' == i + 1 <= |plan.names|
      requires plan.conf == conf && plan.cls == cls && plan.num == num && plan.links == links
      requires d == plan.names[i] && v == plan.Vector(i)
      requires ClassPass(cls, count) == RunPass(plan, start, i)
      modifies this`selectBuffer, this`selectBackO, this`selectBackP, statis`itemSelect, statis`cateSelect
      ensures ClassPass(cls, count') == RunPass(plan, start, i')
      ensures OtherBack(cls) == old(OtherBack(cls))
    {
      var picks := SelectDomain(cls, d, v, QuotaFor(conf, num, |v|, links));
      count' := count + picks;
      RunPassStep(plan, start, i, i', old(ClassPass(cls, count)), ClassPass(cls, count'));
    }

    /** The loop over `m_domain`: the names of both classes and an empty vector for every domain. */
    method CollectDomains(order: seq<string>)
        returns (prio: seq<string>, ord: seq<string>, vectors: map<string, seq<UrlInfo>>)
      requires Enumerates(order, statis.domains.Keys)
      ensures prio == NamesOf(order, statis.domains, Priority, |order|)
      ensures ord == NamesOf(order, statis.domains, Ordinary, |order|)
      ensures vectors.Keys == statis.domains.Keys
      ensures forall d <- vectors.Keys :: vectors[d] == []
    {
      prio, ord, vectors := [], [], map[];
      var i := 0;
      while i != |order|
        invariant i <= |order|
        invariant prio == NamesOf(order, statis.domains, Priority, i)
        invariant ord == NamesOf(order, statis.domains, Ordinary, i)
        invariant vectors.Keys == set d | d in order[..i]
        invariant forall d <- vectors.Keys :: vectors[d] == []
        decreases |order| - i
      {
        var d := order[i];
        assert d in order;
        var attr := statis.domains[d];
        if attr.isSeed == 1 && attr.isShield == 0 {
          prio := prio + [d];
        } else if attr.isSeed == 0 && attr.isShield == 0 {
          ord := ord + [d];
        }
        assert order[..i + 1] == order[..i] + [d];
        vectors := vectors[d := []];
        i := i + 1;
      }
      assert order[..|order|] == order;
    }

    /** Drain the four pools in the order of the program. */
    method DrainPools(vectors: map<string, seq<UrlInfo>>) returns (vectors': map<string, seq<UrlInfo>>)
      requires Valid()
      requires forall d <- vectors.Keys :: vectors[d] == []
      modifies cpq`queue, ipq`queue, coq`queue, ioq`queue
      ensures Valid()
      ensures cpq.queue == [] && ipq.queue == [] && coq.queue == [] && ioq.queue == []
      ensures vectors'.Keys == vectors.Keys
      ensures var all := old(Drained(cpq.queue, ipq.queue, ioq.queue, coq.queue)); Sorted(vectors', all, |all|)
    {
      ghost var a := Retag(cpq.queue, 3);
      ghost var b := a + Retag(ipq.queue, 2);
      ghost var c := b + Retag(ioq.queue, 0);
      assert [] + a == a;
      vectors' := Drain(cpq, 3, vectors, [], a);
      vectors' := Drain(ipq, 2, vectors', a, b);
      vectors' := Drain(ioq, 0, vectors', b, c);
      vectors' := Drain(coq, 1, vectors', c, c + Retag(coq.queue, 1));
    }

    /** Everything `select_url` does up to writing the statistics. */
    method RunPasses(order: seq<string>) returns (prioCount: nat)
      requires Valid() && Enumerates(order, statis.domains.Keys)
      modifies this`selectBuffer, this`selectBackO, this`selectBackP, statis`itemSelect, statis`cateSelect
      modifies cpq`queue, ipq`queue, coq`queue, ioq`queue
      ensures Valid()
      ensures cpq.queue == [] && ipq.queue == [] && coq.queue == [] && ioq.queue == []
      ensures var out := RunRound(old(Input(order)), old(Carried()), old(statis.itemSelect), old(statis.cateSelect));
              && Carried() == out.lists && statis.itemSelect == out.items && statis.cateSelect == out.cates
              && prioCount == out.prioCount
    {
      ghost var r := Input(order);
      ghost var carried := Carried();
      ghost var out := RunRound(r, carried, statis.itemSelect, statis.cateSelect);
      var prio, ord, vectors := CollectDomains(order);
      var oLinkNum := |coq.queue| + |ioq.queue|;
      var pLinkNum := |cpq.queue| + |ipq.queue|;
      vectors := DrainPools(vectors);
      var prioNum := conf.PrioNum();
      var ordNum := conf.selectNums - prioNum;
      NamesMeaning(r, Priority);
      prioCount := SelectClass(PrioPlan(r), Priority, prio, vectors, prioNum, pLinkNum);
      if prioCount < prioNum {
        ordNum := ordNum + prioNum - prioCount;
      }
      NamesMeaning(r, Ordinary);
      var ordCount := SelectClass(OrdPlan(r, prioCount), Ordinary, ord, vectors, ordNum, oLinkNum);
      RoundKeepsLong(r, carried, old(statis.itemSelect), old(statis.cateSelect));
    }

    /** `select_url`: -1 means roll over to the next generation of lists, 0 go on to `insert_url`. On
        a rollover the lists stay as the passes left them; otherwise the buffer is shuffled. The
        report is what the statistics file gets, counters before their reset. Before a rollover the
        thread waits, while crawl threads pop and requeue, until at most a threshold of items is left,
        and throws these away. */
    method SelectUrl(order: seq<string>, draw: nat -> nat, busy: seq<seq<Op>>)
        returns (rc: int, report: seq<Line>, wait: Wait)
      requires Valid() && Enumerates(order, statis.domains.Keys) && OnlyCrawl(busy)
      modifies this, statis`itemSelect, statis`cateSelect
      modifies cpq`queue, ipq`queue, coq`queue, ioq`queue, sq`queue, sq`count
      ensures Valid()
      ensures cpq.queue == [] && ipq.queue == [] && coq.queue == [] && ioq.queue == []
      ensures var out := RunRound(old(Input(order)), old(Carried()), old(statis.itemSelect), old(statis.cateSelect));
              && multiset(selectBuffer) == multiset(out.lists.buffer)
              && selectBackO == out.lists.backO && selectBackP == out.lists.backP
              && |report| == |order|
              && (forall i :: 0 <= i < |order| ==>
                    report[i] == Line(order[i], Count(out.cates, order[i]), Count(out.items, order[i])))
              && (rc == -1 ==> selectBuffer == out.lists.buffer)
      ensures Truthful(old(Input(order)), old(Carried()), old(statis.itemSelect), old(statis.cateSelect), report)
      ensures rc == if old(selectRounds) > 3
                       && |selectBuffer| + |selectBackO| + |selectBackP| < conf.minSelectThreshold then -1 else 0
      ensures rc == -1 ==> selectRounds == 0 && sq.queue == []
      ensures rc == -1 ==> Waited(wait, old(sq.queue), conf.minSelectThreshold, busy)
      ensures rc == 0 ==> selectRounds == old(selectRounds) && sq.Value() == old(sq.Value())
      ensures rc == 0 ==> wait == Wait([], [], [])
    {
      var prioCount := RunPasses(order);
      report := statis.SetStatisToFile(order);
      ReportIsTruthful(old(Input(order)), old(Carried()), old(statis.itemSelect), old(statis.cateSelect), report);
      if selectRounds > ROUNDS_BEFORE_ROLLOVER
         && |selectBuffer| + |selectBackO| + |selectBackP| < conf.minSelectThreshold {
        wait := WaitAndClear(sq, conf.minSelectThreshold, busy);
        selectRounds := 0;
        return -1, report, wait;
      }
      var shuffled := RandomShuffle(selectBuffer, draw);
      SameMultiset(shuffled, selectBuffer);
      selectBuffer := shuffled;
      rc, wait := 0, Wait([], [], []);
    }

    /** Forget all addresses and look up those of `sites`. */
    method WarmUp(sites: seq<string>, answer: string -> string)
      modifies dns
      ensures dns.ipList == map s | s in sites :: answer(s)
    {
      dns.ClearMap();
      var i := 0;
      while i != |sites|
        invariant i <= |sites|
        invariant dns.ipList == map s | s in sites[..i] :: answer(s)
      {
        var _ := dns.GetIp(sites[i], answer(sites[i]));
        assert sites[..i + 1] == sites[..i] + [sites[i]];
        i := i + 1;
      }
      assert sites[..|sites|] == sites;
    }

    /** `insert_url`: leftovers go back to the pools of their class by kind, the address cache is
        filled anew with the addresses of `sites`, the keys of `m_sites`, and the buffer is pushed into
        the selected queue in order. `consumed` is what crawl threads popped while the select thread
        waited for room. */
    method InsertUrl(sites: seq<string>, answer: string -> string) returns (consumed: seq<SQItem>)
      requires Valid() && (sq.size != 0 || selectBuffer == [])
      modifies this`selectBuffer, this`selectBackO, this`selectBackP, dns
      modifies cpq`queue, ipq`queue, coq`queue, ioq`queue, sq`queue, sq`count
      ensures Valid() && Carried() == Lists([], [], [])
      ensures coq.queue == old(coq.queue) + OfKind(old(selectBackO), 1, |old(selectBackO)|)
      ensures ioq.queue == old(ioq.queue) + OfKind(old(selectBackO), 0, |old(selectBackO)|)
      ensures cpq.queue == old(cpq.queue) + OfKind(old(selectBackP), 3, |old(selectBackP)|)
      ensures ipq.queue == old(ipq.queue) + OfKind(old(selectBackP), 2, |old(selectBackP)|)
      ensures consumed + sq.queue == old(sq.queue) + ToItems(old(selectBuffer))
      ensures AllCarry(consumed + sq.queue, |old(sq.queue)|, old(selectBuffer))
      ensures |old(sq.queue)| <= sq.size ==> |sq.queue| == Min(|old(sq.queue)| + |old(selectBuffer)|, sq.size)
      ensures dns.ipList == map s | s in sites :: answer(s)
    {
      ReturnTo(selectBackO, 1, coq, 0, ioq);
      ReturnTo(selectBackP, 3, cpq, 2, ipq);
      OfKindIsLong(selectBackO, 1, |selectBackO|);
      OfKindIsLong(selectBackO, 0, |selectBackO|);
      OfKindIsLong(selectBackP, 3, |selectBackP|);
      OfKindIsLong(selectBackP, 2, |selectBackP|);
      WarmUp(sites, answer);
      selectBackO := [];
      selectBackP := [];
      consumed := PushAllWaiting(sq, selectBuffer);
      ItemsCarry(old(sq.queue), selectBuffer);
      selectBuffer := [];
    }

    /** The next turn rolls over or selects nothing, so that nothing is pushed into the queue. */
    ghost predicate PushesNothing(order: seq<string>)
      requires Valid() && Enumerates(order, statis.domains.Keys)
      reads this, cpq, ipq, coq, ioq, sq, statis
    {
      var l := RunRound(Input(order), Carried(), statis.itemSelect, statis.cateSelect).lists;
      l.buffer == [] || RollsOver(conf, selectRounds + 1, |l.buffer| + |l.backO| + |l.backP|)
    }

    /** One turn of the loop of `select_thread` that does not roll over: select, then insert. Every
        URL that was in a pool or carried over is afterwards in a pool, in the hands of the selected
        queue, lost with its domain, or dropped as a leftover of the other class, and none is twice. */
    method SelectTurn(order: seq<string>, draw: nat -> nat, busy: seq<seq<Op>>,
                      sites: seq<string>, answer: string -> string)
        returns (rc: int, ghost handed: seq<UrlInfo>, consumed: seq<SQItem>)
      requires Valid() && Enumerates(order, statis.domains.Keys) && OnlyCrawl(busy)
      requires sq.size != 0 || PushesNothing(order)
      modifies this, statis`itemSelect, statis`cateSelect, dns
      modifies cpq`queue, ipq`queue, coq`queue, ioq`queue, sq`queue, sq`count
      ensures Valid()
      ensures TurnStep(old(selectRounds), rc, selectRounds)
      ensures rc == 0 ==> Carried() == Lists([], [], [])
      ensures rc == 0 ==>
                var out := RunRound(old(Input(order)), old(Carried()), old(statis.itemSelect), old(statis.cateSelect));
                && consumed + sq.queue == old(sq.queue) + ToItems(handed)
                && AllCarry(consumed + sq.queue, |old(sq.queue)|, handed)
                && multiset(cpq.queue) + multiset(ipq.queue) + multiset(coq.queue) + multiset(ioq.queue)
                   + multiset(handed) + multiset(Lost(old(Input(order)))) + multiset(Dropped(out.lists))
                   == Held(old(Carried())) + multiset(old(Input(order)).All())
    {
      ghost var r, carried := Input(order), Carried();
      ghost var out := RunRound(r, carried, statis.itemSelect, statis.cateSelect);
      handed, consumed := [], [];
      selectRounds := selectRounds + 1;
      var report, wait;
      rc, report, wait := SelectUrl(order, draw, busy);
      SameLength(selectBuffer, out.lists.buffer);
      if rc == 0 {
        handed := selectBuffer;
        consumed := InsertUrl(sites, answer);
        RoundConserves(r, carried, old(statis.itemSelect), old(statis.cateSelect));
        InsertConserves(out.lists, handed);
        TurnBalance(multiset(cpq.queue), multiset(ipq.queue), multiset(coq.queue), multiset(ioq.queue),
                    multiset(handed), multiset(Dropped(out.lists)), multiset(Lost(r)),
                    Held(out.lists), Held(carried) + multiset(r.All()));
      }
    }
  }

  /** What a turn does to the round counter. */
  predicate TurnStep(rounds: nat, rc: int, rounds': nat) {
    || (rc == -1 && rounds + 1 > ROUNDS_BEFORE_ROLLOVER && rounds' == 0)
    || (rc == 0 && rounds' == rounds + 1)
  }

  /** A run of the loop of `select_thread`: the round counter before each turn and the turns' results. */
  ghost predicate TurnLog(rounds: seq<nat>, rcs: seq<int>) {
    && |rounds| == |rcs| + 1 && rounds[0] == 0
    && forall i, j :: 0 <= i < |rcs| && j == i + 1 ==> TurnStep(rounds[i], rcs[i], rounds[j])
  }

  lemma {:induction false} RoundsCountSelections(rounds: seq<nat>, rcs: seq<int>, i: nat)
    requires TurnLog(rounds, rcs) && i <= |rcs|
    ensures rounds[i] <= i
    ensures forall k :: i - rounds[i] <= k < i ==> rcs[k] == 0
    decreases i
  {
    if i > 0 {
      RoundsCountSelections(rounds, rcs, i - 1);
      assert TurnStep(rounds[i - 1], rcs[i - 1], rounds[i]);
    }
  }

  /** In every run, the three turns before a rollover are complete select-and-insert rounds: there is
      no rollover before the fourth turn, and at least three rounds between any two. */
  lemma RolloverSpacing(rounds: seq<nat>, rcs: seq<int>, i: nat)
    requires TurnLog(rounds, rcs) && i < |rcs| && rcs[i] == -1
    ensures i >= 3 && rcs[i - 1] == 0 && rcs[i - 2] == 0 && rcs[i - 3] == 0
  {
    RoundsCountSelections(rounds, rcs, i);
    assert TurnStep(rounds[i], rcs[i], rounds[i + 1]);
  }

  /** The leftovers that `insert_url` returns to no pool. */
  function Dropped(l: Lists): seq<UrlInfo> {
    OtherKinds(l.backO, 1, 0, |l.backO|) + OtherKinds(l.backP, 3, 2, |l.backP|)
  }

  lemma {:induction false} NoOtherKinds(v: seq<UrlInfo>, k1: int, k2: int, n: nat)
    requires n <= |v| && KindsAre(v, k1, k2)
    ensures OtherKinds(v, k1, k2, n) == []
    decreases n
  {
    if n > 0 {
      assert v[n - 1] in v;
      NoOtherKinds(v, k1, k2, n - 1);
    }
  }

  /** When every drained URL belongs to a known, unshielded domain of its pool's class, a round and
      the insertion after it lose nothing at all. */
  lemma NothingLost(r: RoundIn, lists: Lists, items: map<string, int>, cates: map<string, int>)
    requires r.Valid() && OwnPools(r)
    requires KindsAre(lists.backO, 1, 0) && KindsAre(lists.backP, 3, 2)
    requires forall u <- r.All() :: u.domain in Names(r, Priority) || u.domain in Names(r, Ordinary)
    ensures Lost(r) == [] && Dropped(RunRound(r, lists, items, cates).lists) == []
  {
    var l := RunRound(r, lists, items, cates).lists;
    LeftoversKeepClass(r, lists, items, cates);
    NoOtherKinds(l.backO, 1, 0, |l.backO|);
    NoOtherKinds(l.backP, 3, 2, |l.backP|);
    AllPlaced(r.All(), Names(r, Priority) + Names(r, Ordinary), |r.All()|);
  }

  lemma {:induction false} AllPlaced(all: seq<UrlInfo>, names: seq<string>, n: nat)
    requires n <= |all| && forall u <- all :: u.domain in names
    ensures Unplaced(all, names, |names|, n) == []
    decreases n
  {
    if n > 0 {
      assert all[n - 1] in all;
      assert names[..|names|] == names;
      AllPlaced(all, names, n - 1);
    }
  }

  lemma InsertConserves(l: Lists, handed: seq<UrlInfo>)
    requires multiset(handed) == multiset(l.buffer)
    ensures multiset(OfKind(l.backP, 3, |l.backP|)) + multiset(OfKind(l.backP, 2, |l.backP|))
            + multiset(OfKind(l.backO, 1, |l.backO|)) + multiset(OfKind(l.backO, 0, |l.backO|))
            + multiset(handed) + multiset(Dropped(l)) == Held(l)
  {
    KindsPartition(l.backO, 1, 0, |l.backO|);
    KindsPartition(l.backP, 3, 2, |l.backP|);
    assert l.backO[..|l.backO|] == l.backO;
    assert l.backP[..|l.backP|] == l.backP;
  }

  lemma TurnBalance<T>(a: multiset<T>, b: multiset<T>, c: multiset<T>, d: multiset<T>, handed: multiset<T>,
                       dropped: multiset<T>, lost: multiset<T>, held: multiset<T>, all: multiset<T>)
    requires a + b + c + d + handed + dropped == held && held + lost == all
    ensures a + b + c + d + handed + lost + dropped == all
  {
  }

  lemma SameLength(a: seq<UrlInfo>, b: seq<UrlInfo>)
    requires multiset(a) == multiset(b)
    ensures |a| == |b|
  {
    assert |a| == |multiset(a)| && |b| == |multiset(b)|;
  }

  lemma SameMultiset(a: seq<UrlInfo>, b: seq<UrlInfo>)
    requires multiset(a) == multiset(b) && LongUrls(b)
    ensures LongUrls(a) && |a| == |b|
  {
    SameLength(a, b);
    forall u | u in a
      ensures |u.url| >= MIN_URL_LENGTH
    {
      assert u in multiset(a);
      assert u in multiset(b);
    }
  }

  /** Push items in order, waiting for room before each when needed. */
  method PushAllWaiting(sq: SelectedQueue, buffer: seq<UrlInfo>) returns (consumed: seq<SQItem>)
    requires sq.Valid() && (sq.size != 0 || buffer == [])
    modifies sq`queue, sq`count
    ensures sq.Valid()
    ensures consumed + sq.queue == old(sq.queue) + ToItems(buffer)
    ensures |old(sq.queue)| <= sq.size ==> |sq.queue| == Min(|old(sq.queue)| + |buffer|, sq.size)
  {
    consumed := [];
    var i := 0;
    while i != |buffer|
      invariant i <= |buffer| && sq.Valid()
      invariant consumed + sq.queue == old(sq.queue) + ToItems(buffer[..i])
      invariant |old(sq.queue)| <= sq.size ==> |sq.queue| == Min(|old(sq.queue)| + i, sq.size)
      decreases |buffer| - i
    {
      ghost var before := consumed + sq.queue;
      var popped := PushWaiting(sq, ToItem(buffer[i]));
      consumed := consumed + popped;
      assert consumed + sq.queue == (consumed[..|consumed| - |popped|]) + (popped + sq.queue);
      assert consumed + sq.queue == before + [ToItem(buffer[i])];
      assert ToItems(buffer[..i + 1]) == ToItems(buffer[..i]) + [ToItem(buffer[i])];
      i := i + 1;
    }
    assert buffer[..|buffer|] == buffer;
  }

  lemma RoundKeepsLong(r: RoundIn, lists: Lists, items: map<string, int>, cates: map<string, int>)
    requires r.Valid()
    requires LongUrls(r.cpq) && LongUrls(r.ipq) && LongUrls(r.ioq) && LongUrls(r.coq)
    requires LongUrls(lists.buffer) && LongUrls(lists.backO) && LongUrls(lists.backP)
    ensures var l := RunRound(r, lists, items, cates).lists;
            LongUrls(l.buffer) && LongUrls(l.backO) && LongUrls(l.backP)
  {
    RoundConserves(r, lists, items, cates);
    DrainedIsLong(r);
    LongFromHeld(RunRound(r, lists, items, cates).lists, Lost(r), lists, r.All());
  }

  lemma DrainedIsLong(r: RoundIn)
    requires LongUrls(r.cpq) && LongUrls(r.ipq) && LongUrls(r.ioq) && LongUrls(r.coq)
    ensures LongUrls(r.All())
  {
    RetagIsLong(r.cpq, 3);
    RetagIsLong(r.ipq, 2);
    RetagIsLong(r.ioq, 0);
    RetagIsLong(r.coq, 1);
  }

  lemma RetagIsLong(s: seq<UrlInfo>, k: int)
    requires LongUrls(s)
    ensures LongUrls(Retag(s, k))
  {
    forall u | u in Retag(s, k)
      ensures |u.url| >= MIN_URL_LENGTH
    {
      var i :| 0 <= i < |s| && Retag(s, k)[i] == u;
      assert s[i] in s;
    }
  }

  lemma LongFromHeld(l': Lists, lost: seq<UrlInfo>, l: Lists, all: seq<UrlInfo>)
    requires Held(l') + multiset(lost) == Held(l) + multiset(all)
    requires LongUrls(l.buffer) && LongUrls(l.backO) && LongUrls(l.backP) && LongUrls(all)
    ensures LongUrls(l'.buffer) && LongUrls(l'.backO) && LongUrls(l'.backP)
  {
    forall u | u in l'.buffer || u in l'.backO || u in l'.backP
      ensures |u.url| >= MIN_URL_LENGTH
    {
      assert u in Held(l') + multiset(lost);
      assert u in Held(l) + multiset(all);
      assert u in l.buffer || u in l.backO || u in l.backP || u in all;
    }
  }

  lemma RunPassStep(plan: Plan, start: Pass, m: nat, m': nat, p: Pass, p': Pass)
    requires plan.Valid() && m' == m + 1 <= |plan.names|
    requires p == RunPass(plan, start, m)
    requires p' == AfterDomain(p, plan.names[m],
                               DomainTally(plan.Vector(m), plan.cls, plan.QuotaAt(m), p.buffer, p.back),
                               |SplitVector(plan.Vector(m), plan.cls, plan.QuotaAt(m)).picks|)
    ensures p' == RunPass(plan, start, m')
  {
  }
}
