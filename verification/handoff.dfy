/** Hand-off over whole runs: any number of crawl threads pushing URLs into the four pools while the
    select thread selects, returns leftovers, pushes into the selected queue and clears the pools. Between
    two clears of a pool no URL of it is handed to the selected queue twice, if none was under way. */
module HandOffs {
  import opened Arithmetic
  import opened UrlPools
  import opened Scans
  import opened Rounds
  import opened RoundLaws
  import opened Statistics
  import opened Spiders

  /** Where the select thread is. `load_input_urls` clears the pools one by one, each in two critical
      sections, at the start and after a rollover; then `select_url` chooses, and `insert_url` returns the
      leftovers and hands the buffer over. */
  datatype Turn = Clearing(section: nat) | Choosing | Returning | HandingOver

  /** The sections of the clear in order; pool 3 comes first. */
  function QueueSection(k: int): int {
    2 * (3 - k)
  }

  function SetSection(k: int): int {
    2 * (3 - k) + 1
  }

  /** `pending` are URLs already entered in the set of their pool and not yet in its queue, the state
      between the two critical sections of `push_url`. URLs carry the kind of their pool. */
  datatype State = State(
    cpq: Pool, ipq: Pool, ioq: Pool, coq: Pool,
    pending: seq<UrlInfo>, lists: Lists, handed: seq<UrlInfo>, rounds: nat, turn: Turn)
  {
    function PoolOf(k: int): Pool {
      if k == 0 then ioq else if k == 1 then coq else if k == 2 then ipq else cpq
    }

    function WithPool(k: int, p: Pool): State {
      if k == 0 then this.(ioq := p) else if k == 1 then this.(coq := p)
      else if k == 2 then this.(ipq := p) else this.(cpq := p)
    }
  }

  /** The steps of the threads; `Select` carries the settings and domains of that moment and the
      outcome of the shuffle. */
  datatype Step =
    | Claim(kind: int, ui: UrlInfo)
    | Enqueue(j: nat)
    | Select(conf: SelectConf, order: seq<string>, domains: map<string, DomainAttr>, shuffled: seq<UrlInfo>)
    | ReturnLeftovers
    | HandOver
    | EndTurn
    | ClearQueue(kind: int)
    | ClearSet(kind: int)

  function Input(s: State, e: Step): RoundIn
    requires e.Select?
  {
    RoundIn(e.conf, e.order, e.domains, s.cpq.queue, s.ipq.queue, s.ioq.queue, s.coq.queue)
  }

  ghost function RoundLists(s: State, e: Step): Lists
    requires e.Select? && Input(s, e).Valid()
  {
    RunRound(Input(s, e), s.lists, map[], map[]).lists
  }

  ghost predicate Rolls(s: State, e: Step)
    requires e.Select? && Input(s, e).Valid()
  {
    var l := RoundLists(s, e);
    RollsOver(e.conf, s.rounds + 1, |l.buffer| + |l.backO| + |l.backP|)
  }

  /** Pushes may come at any time; the select thread does one thing after another. A rollover leaves the
      buffer as it is. */
  ghost predicate Enabled(s: State, e: Step) {
    match e
    case Claim(k, ui) => 0 <= k <= 3 && |ui.url| >= MIN_URL_LENGTH && ui.url !in s.PoolOf(k).urls
    case Enqueue(j) => j < |s.pending|
    case Select(_, _, _, shuffled) =>
      && s.turn == Choosing && Input(s, e).Valid()
      && multiset(shuffled) == multiset(RoundLists(s, e).buffer)
      && (Rolls(s, e) ==> shuffled == RoundLists(s, e).buffer)
    case ReturnLeftovers => s.turn == Returning
    case HandOver => s.turn == HandingOver && s.lists.buffer != []
    case EndTurn => s.turn == HandingOver && s.lists.buffer == []
    case ClearQueue(k) => 0 <= k <= 3 && s.turn == Clearing(QueueSection(k))
    case ClearSet(k) => 0 <= k <= 3 && s.turn == Clearing(SetSection(k))
  }

  function AfterClaim(s: State, k: int, ui: UrlInfo): State {
    var p := s.PoolOf(k);
    s.WithPool(k, Pool(p.queue, p.urls + {ui.url})).(pending := s.pending + [ui.(kind := k)])
  }

  function AfterEnqueue(s: State, j: nat): State
    requires j < |s.pending|
  {
    var u := s.pending[j]; var p := s.PoolOf(u.kind);
    s.WithPool(u.kind, Pool(p.queue + [u], p.urls)).(pending := s.pending[..j] + s.pending[j + 1..])
  }

  /** The pools are drained; `l` are the lists the round leaves. */
  function AfterSelect(s: State, l: Lists): State {
    s.(cpq := Pool([], s.cpq.urls), ipq := Pool([], s.ipq.urls), ioq := Pool([], s.ioq.urls),
       coq := Pool([], s.coq.urls), lists := l)
  }

  function AfterReturn(s: State): State {
    var o, p := s.lists.backO, s.lists.backP;
    s.(cpq := Pool(s.cpq.queue + OfKind(p, 3, |p|), s.cpq.urls),
       ipq := Pool(s.ipq.queue + OfKind(p, 2, |p|), s.ipq.urls),
       ioq := Pool(s.ioq.queue + OfKind(o, 0, |o|), s.ioq.urls),
       coq := Pool(s.coq.queue + OfKind(o, 1, |o|), s.coq.urls),
       lists := Lists(s.lists.buffer, [], []))
  }

  function AfterHandOver(s: State): State
    requires s.lists.buffer != []
  {
    s.(lists := s.lists.(buffer := s.lists.buffer[1..]), handed := s.handed + [s.lists.buffer[0]])
  }

  /** The first critical section of `clear_urls`. */
  function AfterClearQueue(s: State, k: int): State {
    s.WithPool(k, Pool([], s.PoolOf(k).urls))
  }

  /** The second one. */
  function AfterClearSet(s: State, k: int): State {
    s.WithPool(k, Pool(s.PoolOf(k).queue, {}))
  }

  /** What a step does to the pools, the lists and the hand-overs. */
  ghost function Effect(s: State, e: Step): State
    requires Enabled(s, e)
  {
    match e
    case Claim(k, ui) => AfterClaim(s, k, ui)
    case Enqueue(j) => AfterEnqueue(s, j)
    case Select(_, _, _, shuffled) =>
      AfterSelect(s, Lists(shuffled, RoundLists(s, e).backO, RoundLists(s, e).backP))
    case ReturnLeftovers => AfterReturn(s)
    case HandOver => AfterHandOver(s)
    case EndTurn => s
    case ClearQueue(k) => AfterClearQueue(s, k)
    case ClearSet(k) => AfterClearSet(s, k)
  }

  /** Where the select thread is afterwards. */
  ghost function NextTurn(s: State, e: Step): Turn
    requires Enabled(s, e)
  {
    match e
    case Select(_, _, _, _) => if Rolls(s, e) then Clearing(0) else Returning
    case ReturnLeftovers => HandingOver
    case EndTurn => Choosing
    case ClearQueue(k) => Clearing(SetSection(k))
    case ClearSet(k) => BehindSet(k)
    case _ => s.turn
  }

  function BehindSet(k: int): Turn {
    if 0 < k <= 3 then Clearing(QueueSection(k - 1)) else Choosing
  }

  ghost function NextRounds(s: State, e: Step): nat
    requires Enabled(s, e)
  {
    if e.Select? then if Rolls(s, e) then 0 else s.rounds + 1 else s.rounds
  }

  ghost function Next(s: State, e: Step): State
    requires Enabled(s, e)
  {
    Effect(s, e).(turn := NextTurn(s, e), rounds := NextRounds(s, e))
  }

  ghost predicate ValidRun(s: State, steps: seq<Step>)
    decreases |steps|
  {
    steps == [] || (Enabled(s, steps[0]) && ValidRun(Next(s, steps[0]), steps[1..]))
  }

  ghost function Run(s: State, steps: seq<Step>): State
    requires ValidRun(s, steps)
    decreases |steps|
  {
    if steps == [] then s else Run(Next(s, steps[0]), steps[1..])
  }

  // ---------- counting copies of a URL ----------

  /** The copies of a URL of a kind. */
  function Copies(s: seq<UrlInfo>, k: int, url: string): nat {
    if s == [] then 0 else (if s[0].kind == k && s[0].url == url then 1 else 0) + Copies(s[1..], k, url)
  }

  lemma {:induction false} CopiesConcat(a: seq<UrlInfo>, b: seq<UrlInfo>, k: int, url: string)
    ensures Copies(a + b, k, url) == Copies(a, k, url) + Copies(b, k, url)
    decreases |a|
  {
    if a == [] {
      assert a + b == b;
    } else {
      assert (a + b)[1..] == a[1..] + b;
      CopiesConcat(a[1..], b, k, url);
    }
  }

  /** Fewer URLs mean no more copies. */
  lemma {:induction false} CopiesMonotone(a: seq<UrlInfo>, b: seq<UrlInfo>, k: int, url: string)
    requires multiset(a) <= multiset(b)
    ensures Copies(a, k, url) <= Copies(b, k, url)
    decreases |a|
  {
    if a != [] {
      assert a[0] in multiset(a);
      assert a[0] in multiset(b);
      var j :| 0 <= j < |b| && b[j] == a[0];
      var rest := b[..j] + b[j + 1..];
      RemoveKeeps(a, b, j);
      CopiesMonotone(a[1..], rest, k, url);
      CopiesRemove(b, j, k, url);
    }
  }

  lemma CopiesRemove(b: seq<UrlInfo>, j: nat, k: int, url: string)
    requires j < |b|
    ensures Copies(b, k, url)
         == Copies(b[..j] + b[j + 1..], k, url) + if b[j].kind == k && b[j].url == url then 1 else 0
  {
    var tail := [b[j]] + b[j + 1..];
    assert b == b[..j] + tail;
    assert tail[1..] == b[j + 1..];
    CopiesConcat(b[..j], tail, k, url);
    CopiesConcat(b[..j], b[j + 1..], k, url);
  }

  lemma RemoveKeeps(a: seq<UrlInfo>, b: seq<UrlInfo>, j: nat)
    requires a != [] && j < |b| && b[j] == a[0] && multiset(a) <= multiset(b)
    ensures multiset(a[1..]) <= multiset(b[..j] + b[j + 1..])
  {
    assert a == [a[0]] + a[1..];
    assert b == b[..j] + [b[j]] + b[j + 1..];
    CancelOne(a[0], multiset(a[1..]), multiset(b[..j] + b[j + 1..]));
  }

  lemma CancelOne<T>(x: T, a: multiset<T>, b: multiset<T>)
    requires multiset{x} + a <= multiset{x} + b
    ensures a <= b
  {
    forall y
      ensures a[y] <= b[y]
    {
      assert (multiset{x} + a)[y] <= (multiset{x} + b)[y];
    }
  }

  lemma {:induction false} TwoCopies(s: seq<UrlInfo>, k: int, url: string, i: nat, j: nat)
    requires i < j < |s| && s[i].kind == s[j].kind == k && s[i].url == s[j].url == url
    ensures Copies(s, k, url) >= 2
    decreases |s|
  {
    if i > 0 {
      TwoCopies(s[1..], k, url, i - 1, j - 1);
    } else {
      OneCopy(s[1..], k, url, j - 1);
    }
  }

  lemma {:induction false} OneCopy(s: seq<UrlInfo>, k: int, url: string, i: nat)
    requires i < |s| && s[i].kind == k && s[i].url == url
    ensures Copies(s, k, url) >= 1
    decreases |s|
  {
    if i > 0 {
      OneCopy(s[1..], k, url, i - 1);
    }
  }

  // ---------- leftovers that can still be handed over ----------

  /** The leftovers among the first `n` that can be handed over: those of their own class, which are
      returned to a pool, and those a backfill can reach. */
  function LiveBack(v: seq<UrlInfo>, k1: int, k2: int, n: nat): seq<UrlInfo>
    requires n <= |v|
  {
    if n == 0 then []
    else if n > BACK_RESERVE || v[n - 1].kind == k1 || v[n - 1].kind == k2 then LiveBack(v, k1, k2, n - 1) + [v[n - 1]]
    else LiveBack(v, k1, k2, n - 1)
  }

  /** The others: of another class, and among the five that a backfill leaves. */
  function StuckBack(v: seq<UrlInfo>, k1: int, k2: int, n: nat): seq<UrlInfo>
    requires n <= |v|
  {
    if n == 0 then []
    else if n > BACK_RESERVE || v[n - 1].kind == k1 || v[n - 1].kind == k2 then StuckBack(v, k1, k2, n - 1)
    else StuckBack(v, k1, k2, n - 1) + [v[n - 1]]
  }

  ghost predicate Halved(v: seq<UrlInfo>, k1: int, k2: int, n: nat)
    requires n <= |v|
  {
    multiset(LiveBack(v, k1, k2, n)) + multiset(StuckBack(v, k1, k2, n)) == multiset(v[..n])
  }

  lemma {:induction false} BackPartition(v: seq<UrlInfo>, k1: int, k2: int, n: nat)
    requires n <= |v|
    ensures Halved(v, k1, k2, n)
    decreases n
  {
    if n > 0 {
      BackPartition(v, k1, k2, n - 1);
      HalvedStep(v, k1, k2, n - 1, n);
    }
  }

  lemma HalvedStep(v: seq<UrlInfo>, k1: int, k2: int, m: nat, n: nat)
    requires n == m + 1 <= |v| && Halved(v, k1, k2, m)
    ensures Halved(v, k1, k2, n)
  {
    assert v[..n] == v[..m] + [v[m]];
    DealOne(LiveBack(v, k1, k2, m), StuckBack(v, k1, k2, m), v[..m], v[m]);
  }

  lemma {:induction false} StuckWithin(v: seq<UrlInfo>, k1: int, k2: int, p: nat, n: nat)
    requires p <= n <= |v|
    ensures StuckBack(v, k1, k2, p) <= StuckBack(v, k1, k2, n)
    ensures p >= BACK_RESERVE ==> StuckBack(v, k1, k2, n) == StuckBack(v, k1, k2, p)
    decreases n
  {
    if p < n {
      StuckWithin(v, k1, k2, p, n - 1);
    }
  }

  lemma {:induction false} StuckSame(v: seq<UrlInfo>, w: seq<UrlInfo>, k1: int, k2: int, p: nat)
    requires p <= |v| && p <= |w| && v[..p] == w[..p]
    ensures StuckBack(v, k1, k2, p) == StuckBack(w, k1, k2, p)
    decreases p
  {
    if p > 0 {
      assert v[p - 1] == v[..p][p - 1] == w[..p][p - 1] == w[p - 1];
      assert v[..p - 1] == v[..p][..p - 1] == w[..p][..p - 1] == w[..p - 1];
      StuckSame(v, w, k1, k2, p - 1);
    }
  }

  /** What is stuck stays stuck while the first five leftovers stay. */
  lemma StuckStays(v: seq<UrlInfo>, w: seq<UrlInfo>, k1: int, k2: int, p: nat)
    requires p == Min(|v|, BACK_RESERVE) && p <= |w| && v[..p] == w[..p]
    ensures multiset(StuckBack(v, k1, k2, |v|)) <= multiset(StuckBack(w, k1, k2, |w|))
  {
    StuckWithin(v, k1, k2, p, |v|);
    StuckWithin(w, k1, k2, p, |w|);
    StuckSame(v, w, k1, k2, p);
    PrefixBag(StuckBack(w, k1, k2, p), StuckBack(w, k1, k2, |w|));
  }

  lemma PrefixBag(a: seq<UrlInfo>, b: seq<UrlInfo>)
    requires a <= b
    ensures multiset(a) <= multiset(b)
  {
    assert b == a + b[|a|..];
  }

  /** Leftovers of their own class are live. */
  ghost predicate OwnLive(v: seq<UrlInfo>, k1: int, k2: int, n: nat)
    requires n <= |v|
  {
    multiset(OfKind(v, k1, n)) + multiset(OfKind(v, k2, n)) <= multiset(LiveBack(v, k1, k2, n))
  }

  lemma {:induction false} OwnIsLive(v: seq<UrlInfo>, k1: int, k2: int, n: nat)
    requires n <= |v| && k1 != k2
    ensures OwnLive(v, k1, k2, n)
    decreases n
  {
    if n > 0 {
      OwnIsLive(v, k1, k2, n - 1);
      OwnLiveStep(OfKind(v, k1, n - 1), OfKind(v, k2, n - 1), LiveBack(v, k1, k2, n - 1), v[n - 1]);
    }
  }

  lemma OwnLiveStep(a: seq<UrlInfo>, b: seq<UrlInfo>, c: seq<UrlInfo>, u: UrlInfo)
    requires multiset(a) + multiset(b) <= multiset(c)
    ensures multiset(a + [u]) + multiset(b) <= multiset(c + [u])
    ensures multiset(a) + multiset(b + [u]) <= multiset(c + [u])
    ensures multiset(a) + multiset(b) <= multiset(c + [u])
  {
  }

  /** What the lists hold that can still be handed over. */
  function LiveLists(l: Lists): multiset<UrlInfo> {
    multiset(l.buffer) + multiset(LiveBack(l.backO, 1, 0, |l.backO|)) + multiset(LiveBack(l.backP, 3, 2, |l.backP|))
  }

  function StuckLists(l: Lists): multiset<UrlInfo> {
    multiset(StuckBack(l.backO, 1, 0, |l.backO|)) + multiset(StuckBack(l.backP, 3, 2, |l.backP|))
  }

  lemma ListsPartition(l: Lists)
    ensures LiveLists(l) + StuckLists(l) == Held(l)
  {
    BackPartition(l.backO, 1, 0, |l.backO|);
    BackPartition(l.backP, 3, 2, |l.backP|);
    assert l.backO[..|l.backO|] == l.backO && l.backP[..|l.backP|] == l.backP;
    FiveParts(multiset(l.buffer),
              multiset(LiveBack(l.backO, 1, 0, |l.backO|)), multiset(StuckBack(l.backO, 1, 0, |l.backO|)),
              multiset(l.backO),
              multiset(LiveBack(l.backP, 3, 2, |l.backP|)), multiset(StuckBack(l.backP, 3, 2, |l.backP|)),
              multiset(l.backP));
  }

  lemma FiveParts<T>(b: multiset<T>, a: multiset<T>, x: multiset<T>, o: multiset<T>,
                     c: multiset<T>, y: multiset<T>, p: multiset<T>)
    requires a + x == o && c + y == p
    ensures (b + a + c) + (x + y) == b + o + p
  {
    assert (b + a + c) + (x + y) == b + (a + x) + (c + y);
  }

  // ---------- the invariant ----------

  /** Every URL that can be handed over or was handed over, wherever it is now. */
  function Flow(s: State): seq<UrlInfo> {
    s.pending + (s.cpq.queue + s.ipq.queue + s.ioq.queue + s.coq.queue)
    + (s.lists.buffer + LiveBack(s.lists.backO, 1, 0, |s.lists.backO|) + LiveBack(s.lists.backP, 3, 2, |s.lists.backP|))
    + s.handed
  }

  /** The same as a multiset. */
  function FlowBag(s: State): multiset<UrlInfo> {
    multiset(s.pending) + QueueBag(s) + LiveLists(s.lists) + multiset(s.handed)
  }

  function QueueBag(s: State): multiset<UrlInfo> {
    multiset(s.cpq.queue) + multiset(s.ipq.queue) + multiset(s.ioq.queue) + multiset(s.coq.queue)
  }

  lemma FlowIsBag(s: State)
    ensures multiset(Flow(s)) == FlowBag(s)
  {
  }

  predicate Tagged(q: seq<UrlInfo>, k: int) {
    forall i :: 0 <= i < |q| ==> q[i].kind == k
  }

  /** URLs on their way to a pool or in its queue carry the kind of the pool. */
  predicate WellFormed(s: State) {
    && Tagged(s.cpq.queue, 3) && Tagged(s.ipq.queue, 2) && Tagged(s.ioq.queue, 0) && Tagged(s.coq.queue, 1)
    && forall i :: 0 <= i < |s.pending| ==> 0 <= s.pending[i].kind <= 3
  }

  /** At most one copy of a URL of pool `k` exists, and none unless the pool's set remembers it. */
  ghost predicate Unique(s: State, k: int) {
    forall url :: Copies(Flow(s), k, url) <= if url in s.PoolOf(k).urls then 1 else 0
  }

  ghost predicate Inv(s: State, k: int) {
    WellFormed(s) && Unique(s, k)
  }

  /** Two handed URLs of the pool are different URLs. */
  ghost predicate HandedOnce(s: State, k: int) {
    forall i, j :: 0 <= i < j < |s.handed| && s.handed[i].kind == k && s.handed[j].kind == k ==>
      s.handed[i].url != s.handed[j].url
  }

  lemma UniqueMeansOnce(s: State, k: int)
    requires Unique(s, k)
    ensures HandedOnce(s, k)
  {
    forall i, j | 0 <= i < j < |s.handed| && s.handed[i].kind == k && s.handed[j].kind == k
      ensures s.handed[i].url != s.handed[j].url
    {
      if s.handed[i].url == s.handed[j].url {
        HandedTwice(s, i, j);
        assert false;
      }
    }
  }

  lemma HandedTwice(s: State, i: nat, j: nat)
    requires i < j < |s.handed| && s.handed[i].kind == s.handed[j].kind && s.handed[i].url == s.handed[j].url
    ensures Copies(Flow(s), s.handed[i].kind, s.handed[i].url) >= 2
  {
    var f := Flow(s);
    var n := |f| - |s.handed|;
    assert f[n + i] == s.handed[i] && f[n + j] == s.handed[j];
    TwoCopies(f, s.handed[i].kind, s.handed[i].url, n + i, n + j);
  }

  /** A step that adds nothing to the flow and keeps the pool's set keeps the invariant. */
  lemma ShrinkKeeps(s: State, s': State, k: int)
    requires Unique(s, k) && FlowBag(s') <= FlowBag(s) && s'.PoolOf(k).urls == s.PoolOf(k).urls
    ensures Unique(s', k)
  {
    FlowIsBag(s);
    FlowIsBag(s');
    forall url
      ensures Copies(Flow(s'), k, url) <= if url in s'.PoolOf(k).urls then 1 else 0
    {
      CopiesMonotone(Flow(s'), Flow(s), k, url);
    }
  }

  lemma RetagTagged(q: seq<UrlInfo>, k: int)
    requires Tagged(q, k)
    ensures Retag(q, k) == q
  {
  }

  // ---------- every step keeps the invariant ----------

  /** What the replacement of one pool changes. */
  lemma PoolReplaced(s: State, j: int, p: Pool, k: int)
    requires 0 <= j <= 3 && 0 <= k <= 3 && WellFormed(s) && Tagged(p.queue, j)
    ensures var s' := s.WithPool(j, p);
            && WellFormed(s') && s'.pending == s.pending && s'.lists == s.lists && s'.handed == s.handed
            && s'.PoolOf(k) == (if j == k then p else s.PoolOf(k))
            && QueueBag(s') + multiset(s.PoolOf(j).queue) == QueueBag(s) + multiset(p.queue)
  {
    QueuesReplaced(s, j, p);
  }

  lemma QueuesReplaced(s: State, j: int, p: Pool)
    requires 0 <= j <= 3
    ensures QueueBag(s.WithPool(j, p)) + multiset(s.PoolOf(j).queue) == QueueBag(s) + multiset(p.queue)
  {
  }

  /** A claim is the only step that adds to the flow, and it claims a URL its pool has not seen. */
  lemma ClaimKeeps(s: State, k: int, j: int, ui: UrlInfo)
    requires Inv(s, k) && 0 <= k <= 3 && 0 <= j <= 3 && ui.url !in s.PoolOf(j).urls
    ensures Inv(AfterClaim(s, j, ui), k)
  {
    var u := ui.(kind := j);
    var s' := AfterClaim(s, j, ui);
    ClaimShape(s, j, ui, u, s', k);
    ClaimBag(s, s', u);
    GrowKeeps(s, s', u, k);
  }

  /** What a claim leaves alone. */
  lemma ClaimShape(s: State, j: int, ui: UrlInfo, u: UrlInfo, s': State, k: int)
    requires 0 <= j <= 3 && 0 <= k <= 3 && u == ui.(kind := j) && s' == AfterClaim(s, j, ui) && WellFormed(s)
    ensures WellFormed(s') && QueueBag(s') == QueueBag(s)
    ensures s'.pending == s.pending + [u] && s'.lists == s.lists && s'.handed == s.handed
    ensures s'.PoolOf(k).urls == if j == k then s.PoolOf(k).urls + {u.url} else s.PoolOf(k).urls
  {
    PoolReplaced(s, j, Pool(s.PoolOf(j).queue, s.PoolOf(j).urls + {ui.url}), k);
  }

  lemma ClaimBag(s: State, s': State, u: UrlInfo)
    requires QueueBag(s') == QueueBag(s) && s'.pending == s.pending + [u]
             && s'.lists == s.lists && s'.handed == s.handed
    ensures FlowBag(s') == FlowBag(s) + multiset{u}
  {
  }

  lemma GrowKeeps(s: State, s': State, u: UrlInfo, k: int)
    requires Unique(s, k) && FlowBag(s') == FlowBag(s) + multiset{u}
    requires u.kind == k ==> u.url !in s.PoolOf(k).urls
    requires s'.PoolOf(k).urls == if u.kind == k then s.PoolOf(k).urls + {u.url} else s.PoolOf(k).urls
    ensures Unique(s', k)
  {
    FlowIsBag(s);
    FlowIsBag(s');
    forall url
      ensures Copies(Flow(s'), k, url) <= if url in s'.PoolOf(k).urls then 1 else 0
    {
      GrownCopies(Flow(s), Flow(s'), u, k, url);
      assert Copies(Flow(s), k, url) <= if url in s.PoolOf(k).urls then 1 else 0;
    }
  }

  lemma GrownCopies(f: seq<UrlInfo>, f': seq<UrlInfo>, u: UrlInfo, k: int, url: string)
    requires multiset(f') == multiset(f) + multiset{u}
    ensures Copies(f', k, url) <= Copies(f, k, url) + if u.kind == k && u.url == url then 1 else 0
  {
    CopiesMonotone(f', f + [u], k, url);
    CopiesConcat(f, [u], k, url);
  }

  lemma EnqueueKeeps(s: State, j: nat, k: int)
    requires Inv(s, k) && 0 <= k <= 3 && j < |s.pending|
    ensures Inv(AfterEnqueue(s, j), k)
  {
    var s' := AfterEnqueue(s, j);
    EnqueueShape(s, j, s.pending[j], s', k);
    EnqueueBag(s, s', j);
    ShrinkKeeps(s, s', k);
  }

  lemma EnqueueShape(s: State, j: nat, u: UrlInfo, s': State, k: int)
    requires j < |s.pending| && u == s.pending[j] && s' == AfterEnqueue(s, j) && WellFormed(s) && 0 <= k <= 3
    ensures WellFormed(s') && s'.PoolOf(k).urls == s.PoolOf(k).urls && QueueBag(s') == QueueBag(s) + multiset{u}
  {
    var p := s.PoolOf(u.kind);
    PoolReplaced(s, u.kind, Pool(p.queue + [u], p.urls), k);
    AddedOne(QueueBag(s'), QueueBag(s), multiset(p.queue), u);
  }

  lemma AddedOne<T>(after: multiset<T>, before: multiset<T>, q: multiset<T>, u: T)
    requires after + q == before + (q + multiset{u})
    ensures after == before + multiset{u}
  {
    assert (after + q) - q == after && ((before + multiset{u}) + q) - q == before + multiset{u};
  }

  lemma EnqueueBag(s: State, s': State, j: nat)
    requires j < |s.pending| && s'.pending == s.pending[..j] + s.pending[j + 1..]
    requires QueueBag(s') == QueueBag(s) + multiset{s.pending[j]} && s'.lists == s.lists && s'.handed == s.handed
    ensures FlowBag(s') == FlowBag(s)
  {
    assert s.pending == s.pending[..j] + [s.pending[j]] + s.pending[j + 1..];
  }

  /** Selection moves every queued URL to a list or loses it with its domain; what is stuck stays stuck. */
  lemma SelectKeeps(s: State, r: RoundIn, l: Lists, l': Lists, k: int)
    requires Inv(s, k) && 0 <= k <= 3 && r.Valid()
    requires r.cpq == s.cpq.queue && r.ipq == s.ipq.queue && r.ioq == s.ioq.queue && r.coq == s.coq.queue
    requires l == RunRound(r, s.lists, map[], map[]).lists
    requires multiset(l'.buffer) == multiset(l.buffer) && l'.backO == l.backO && l'.backP == l.backP
    ensures Inv(AfterSelect(s, l'), k)
  {
    AllIsQueues(s, r);
    RoundLive(r, s.lists, l);
    SameLive(l, l');
    FewerLive(s, l', k);
  }

  lemma SameLive(l: Lists, l': Lists)
    requires multiset(l'.buffer) == multiset(l.buffer) && l'.backO == l.backO && l'.backP == l.backP
    ensures LiveLists(l') == LiveLists(l)
  {
  }

  lemma FewerLive(s: State, l: Lists, k: int)
    requires Inv(s, k) && 0 <= k <= 3 && LiveLists(l) <= QueueBag(s) + LiveLists(s.lists)
    ensures Inv(AfterSelect(s, l), k)
  {
    SelectBag(s, l);
    ShrinkKeeps(s, AfterSelect(s, l), k);
  }

  lemma RoundLive(r: RoundIn, lists: Lists, l: Lists)
    requires r.Valid() && l == RunRound(r, lists, map[], map[]).lists
    ensures LiveLists(l) <= multiset(r.All()) + LiveLists(lists)
  {
    RoundConserves(r, lists, map[], map[]);
    RoundKeepsStuck(r, lists, l);
    LiveFromHeld(lists, l, multiset(Lost(r)), multiset(r.All()));
  }

  lemma LiveFromHeld(lists: Lists, l: Lists, lost: multiset<UrlInfo>, all: multiset<UrlInfo>)
    requires Held(l) + lost == Held(lists) + all && StuckLists(lists) <= StuckLists(l)
    ensures LiveLists(l) <= all + LiveLists(lists)
  {
    ListsPartition(lists);
    ListsPartition(l);
    CancelStuck(LiveLists(l), StuckLists(l), lost, LiveLists(lists), StuckLists(lists), all);
  }

  lemma RoundKeepsStuck(r: RoundIn, lists: Lists, l: Lists)
    requires r.Valid() && l == RunRound(r, lists, map[], map[]).lists
    ensures StuckLists(lists) <= StuckLists(l)
  {
    var o, p := Min(|lists.backO|, BACK_RESERVE), Min(|lists.backP|, BACK_RESERVE);
    RoundKeepsReserve(r, lists, o, p);
    StuckStays(lists.backO, l.backO, 1, 0, o);
    StuckStays(lists.backP, l.backP, 3, 2, p);
  }

  lemma CancelStuck<T>(live': multiset<T>, stuck': multiset<T>, lost: multiset<T>,
                       live: multiset<T>, stuck: multiset<T>, q: multiset<T>)
    requires live' + stuck' + lost == live + stuck + q && stuck <= stuck'
    ensures live' <= q + live
  {
    forall x
      ensures live'[x] <= (q + live)[x]
    {
      assert (live' + stuck' + lost)[x] == (live + stuck + q)[x];
    }
  }

  lemma AllIsQueues(s: State, r: RoundIn)
    requires WellFormed(s)
    requires r.cpq == s.cpq.queue && r.ipq == s.ipq.queue && r.ioq == s.ioq.queue && r.coq == s.coq.queue
    ensures multiset(r.All()) == QueueBag(s)
  {
    RetagTagged(s.cpq.queue, 3);
    RetagTagged(s.ipq.queue, 2);
    RetagTagged(s.ioq.queue, 0);
    RetagTagged(s.coq.queue, 1);
  }

  lemma SelectBag(s: State, l: Lists)
    requires LiveLists(l) <= QueueBag(s) + LiveLists(s.lists)
    ensures FlowBag(AfterSelect(s, l)) <= FlowBag(s)
  {
    assert QueueBag(AfterSelect(s, l)) == multiset{};
    SubBag(multiset(s.pending), LiveLists(l), multiset(s.handed), QueueBag(s), LiveLists(s.lists));
  }

  lemma SubBag<T>(p: multiset<T>, l': multiset<T>, h: multiset<T>, q: multiset<T>, l: multiset<T>)
    requires l' <= q + l
    ensures p + multiset{} + l' + h <= p + q + l + h
  {
    assert p + q + l + h == p + (q + l) + h;
  }

  lemma {:induction false} OfKindTagged(v: seq<UrlInfo>, k: int, n: nat)
    requires n <= |v|
    ensures Tagged(OfKind(v, k, n), k)
    decreases n
  {
    if n > 0 {
      OfKindTagged(v, k, n - 1);
    }
  }

  /** Each leftover of its own class goes back to the pool it was drained from, the others are dropped. */
  lemma ReturnKeeps(s: State, k: int)
    requires Inv(s, k) && 0 <= k <= 3
    ensures Inv(AfterReturn(s), k)
  {
    var o, p := s.lists.backO, s.lists.backP;
    OfKindTagged(o, 1, |o|);
    OfKindTagged(o, 0, |o|);
    OfKindTagged(p, 3, |p|);
    OfKindTagged(p, 2, |p|);
    OwnIsLive(o, 1, 0, |o|);
    OwnIsLive(p, 3, 2, |p|);
    ReturnBag(s, AfterReturn(s), OfKind(p, 3, |p|), OfKind(p, 2, |p|), OfKind(o, 1, |o|), OfKind(o, 0, |o|));
    ShrinkKeeps(s, AfterReturn(s), k);
  }

  lemma ReturnBag(s: State, s': State, p3: seq<UrlInfo>, p2: seq<UrlInfo>, o1: seq<UrlInfo>, o0: seq<UrlInfo>)
    requires s'.cpq.queue == s.cpq.queue + p3 && s'.ipq.queue == s.ipq.queue + p2
    requires s'.coq.queue == s.coq.queue + o1 && s'.ioq.queue == s.ioq.queue + o0
    requires multiset(p3) + multiset(p2) <= multiset(LiveBack(s.lists.backP, 3, 2, |s.lists.backP|))
    requires multiset(o1) + multiset(o0) <= multiset(LiveBack(s.lists.backO, 1, 0, |s.lists.backO|))
    requires s'.lists == Lists(s.lists.buffer, [], []) && s'.pending == s.pending && s'.handed == s.handed
    ensures FlowBag(s') <= FlowBag(s)
  {
    assert QueueBag(s') == QueueBag(s) + ((multiset(p3) + multiset(p2)) + (multiset(o1) + multiset(o0)));
    assert LiveLists(s'.lists) == multiset(s.lists.buffer);
    BackBag(multiset(s.pending), QueueBag(s), multiset(p3) + multiset(p2), multiset(o1) + multiset(o0),
            multiset(LiveBack(s.lists.backP, 3, 2, |s.lists.backP|)),
            multiset(LiveBack(s.lists.backO, 1, 0, |s.lists.backO|)),
            multiset(s.lists.buffer), multiset(s.handed));
  }

  lemma BackBag<T>(p: multiset<T>, q: multiset<T>, x: multiset<T>, y: multiset<T>, a: multiset<T>, b: multiset<T>,
                   buffer: multiset<T>, h: multiset<T>)
    requires x <= a && y <= b
    ensures p + (q + (x + y)) + buffer + h <= p + q + (buffer + b + a) + h
  {
    assert p + q + (buffer + b + a) + h == p + (q + (a + b)) + buffer + h;
  }

  lemma HandOverKeeps(s: State, k: int)
    requires Inv(s, k) && s.lists.buffer != []
    ensures Inv(AfterHandOver(s), k)
  {
    HandOverBag(s, AfterHandOver(s), s.lists.buffer[0], s.lists.buffer[1..]);
    ShrinkKeeps(s, AfterHandOver(s), k);
  }

  lemma HandOverBag(s: State, s': State, u: UrlInfo, rest: seq<UrlInfo>)
    requires s.lists.buffer == [u] + rest && s'.lists == s.lists.(buffer := rest) && s'.handed == s.handed + [u]
    requires s'.pending == s.pending && QueueBag(s') == QueueBag(s)
    ensures FlowBag(s') == FlowBag(s)
  {
  }

  /** Clearing a queue only takes URLs away; clearing the set of another pool changes nothing here. */
  lemma ClearKeeps(s: State, j: int, k: int)
    requires Inv(s, k) && 0 <= j <= 3 && 0 <= k <= 3
    ensures Inv(AfterClearQueue(s, j), k)
    ensures j != k ==> Inv(AfterClearSet(s, j), k)
  {
    ClearShape(s, j, k);
    ShrinkKeeps(s, AfterClearQueue(s, j), k);
    if j != k {
      ShrinkKeeps(s, AfterClearSet(s, j), k);
    }
  }

  lemma ClearShape(s: State, j: int, k: int)
    requires WellFormed(s) && 0 <= j <= 3 && 0 <= k <= 3
    ensures WellFormed(AfterClearQueue(s, j)) && WellFormed(AfterClearSet(s, j))
    ensures FlowBag(AfterClearQueue(s, j)) <= FlowBag(s) && FlowBag(AfterClearSet(s, j)) <= FlowBag(s)
    ensures AfterClearQueue(s, j).PoolOf(k).urls == s.PoolOf(k).urls
    ensures j != k ==> AfterClearSet(s, j).PoolOf(k).urls == s.PoolOf(k).urls
  {
    var p := s.PoolOf(j);
    PoolReplaced(s, j, Pool([], p.urls), k);
    PoolReplaced(s, j, Pool(p.queue, {}), k);
    FewerQueued(s, AfterClearQueue(s, j));
    FewerQueued(s, AfterClearSet(s, j));
  }

  lemma FewerQueued(s: State, s': State)
    requires QueueBag(s') <= QueueBag(s)
    requires s'.pending == s.pending && s'.lists == s.lists && s'.handed == s.handed
    ensures FlowBag(s') <= FlowBag(s)
  {
  }

  /** Until the set of pool `k` is cleared again, every step of every thread keeps the invariant. */
  lemma StepKeeps(s: State, e: Step, k: int)
    requires Inv(s, k) && 0 <= k <= 3 && Enabled(s, e) && e != ClearSet(k)
    ensures Inv(Next(s, e), k)
  {
    EffectKeeps(s, e, k);
    TurnIgnored(Effect(s, e), NextTurn(s, e), NextRounds(s, e), k);
  }

  lemma TurnIgnored(s: State, turn: Turn, rounds: nat, k: int)
    requires Inv(s, k) && 0 <= k <= 3
    ensures Inv(s.(turn := turn, rounds := rounds), k)
  {
    var t := s.(turn := turn, rounds := rounds);
    assert FlowBag(t) == FlowBag(s);
    ShrinkKeeps(s, t, k);
  }

  lemma EffectKeeps(s: State, e: Step, k: int)
    requires Inv(s, k) && 0 <= k <= 3 && Enabled(s, e) && e != ClearSet(k)
    ensures Inv(Effect(s, e), k)
  {
    match e
    case Claim(j, ui) => ClaimKeeps(s, k, j, ui);
    case Enqueue(j) => EnqueueKeeps(s, j, k);
    case Select(_, _, _, shuffled) =>
      var l := RoundLists(s, e);
      SelectKeeps(s, Input(s, e), l, Lists(shuffled, l.backO, l.backP), k);
    case ReturnLeftovers => ReturnKeeps(s, k);
    case HandOver => HandOverKeeps(s, k);
    case EndTurn =>
    case ClearQueue(j) => ClearKeeps(s, j, k);
    case ClearSet(j) => ClearKeeps(s, j, k);
  }

  /** The steps up to the next time that the set of pool `k` is cleared. */
  predicate NoReset(steps: seq<Step>, k: int) {
    forall e <- steps :: e != ClearSet(k)
  }

  lemma {:induction false} RunKeeps(s: State, steps: seq<Step>, k: int)
    requires Inv(s, k) && 0 <= k <= 3 && ValidRun(s, steps) && NoReset(steps, k)
    ensures Inv(Run(s, steps), k)
    decreases |steps|
  {
    if steps != [] {
      assert steps[0] in steps && forall e <- steps[1..] :: e in steps;
      StepKeeps(s, steps[0], k);
      RunKeeps(Next(s, steps[0]), steps[1..], k);
    }
  }

  // ---------- a turn of the select thread as a run ----------

  lemma RunCons(s: State, e: Step, rest: seq<Step>)
    requires Enabled(s, e) && ValidRun(Next(s, e), rest)
    ensures ValidRun(s, [e] + rest) && Run(s, [e] + rest) == Run(Next(s, e), rest)
  {
    assert ([e] + rest)[1..] == rest;
  }

  /** The rest of a turn once the leftovers are returned. */
  function HandOvers(n: nat): seq<Step> {
    if n == 0 then [EndTurn] else [HandOver] + HandOvers(n - 1)
  }

  lemma {:induction false} HandsOverAll(s: State, n: nat)
    requires n == |s.lists.buffer| && s.turn == HandingOver
    ensures ValidRun(s, HandOvers(n))
    ensures Run(s, HandOvers(n))
         == s.(lists := s.lists.(buffer := []), handed := s.handed + s.lists.buffer, turn := Choosing)
    decreases n
  {
    if n == 0 {
      assert s.lists.buffer == [];
      assert ValidRun(Next(s, EndTurn), []);
    } else {
      var s' := AfterHandOver(s);
      assert Next(s, HandOver) == s';
      HandsOverAll(s', n - 1);
      RunCons(s, HandOver, HandOvers(n - 1));
      assert s.handed + s.lists.buffer == s'.handed + s'.lists.buffer;
    }
  }

  /** The steps of a turn that does not roll over. */
  function TurnSteps(e: Step): seq<Step>
    requires e.Select?
  {
    [e] + ([ReturnLeftovers] + HandOvers(|e.shuffled|))
  }

  /** Select, return the leftovers, and hand over the whole buffer, as the loop of `select_thread` does:
      the machine then has the pools, the lists and the hand-overs that `select_url` and `insert_url` are
      proved to produce, whatever the counters, and the select thread can choose again. */
  lemma TurnIsRun(s: State, e: Step, items: map<string, int>, cates: map<string, int>)
    requires e.Select? && Enabled(s, e) && !Rolls(s, e)
    ensures var l := RunRound(Input(s, e), s.lists, items, cates).lists;
            && multiset(e.shuffled) == multiset(l.buffer)
            && ValidRun(s, TurnSteps(e))
            && var t := Run(s, TurnSteps(e));
               && t.handed == s.handed + e.shuffled && t.lists == Lists([], [], []) && t.pending == s.pending
               && t.turn == Choosing && t.rounds == s.rounds + 1
               && t.cpq == Pool(OfKind(l.backP, 3, |l.backP|), s.cpq.urls)
               && t.ipq == Pool(OfKind(l.backP, 2, |l.backP|), s.ipq.urls)
               && t.coq == Pool(OfKind(l.backO, 1, |l.backO|), s.coq.urls)
               && t.ioq == Pool(OfKind(l.backO, 0, |l.backO|), s.ioq.urls)
  {
    RoundIgnoresCounters(Input(s, e), s.lists, items, cates);
    var s1 := Next(s, e);
    var s2 := Next(s1, ReturnLeftovers);
    HandsOverAll(s2, |e.shuffled|);
    RunCons(s1, ReturnLeftovers, HandOvers(|e.shuffled|));
    RunCons(s, e, [ReturnLeftovers] + HandOvers(|e.shuffled|));
  }
}
