/** The cache of site addresses (dns_client.cpp). A lookup holds the lock only while it reads or
    writes the map, so several threads can miss at once; a real query is an input. */
module DnsClients {
  const NO_IP := "NO_IP"

  class DnsClient {
    var ipList: map<string, string>

    constructor ()
      ensures ipList == map[]
    {
      ipList := map[];
    }

    method ClearMap()
      modifies this
      ensures ipList == map[]
    {
      ipList := map[];
    }

    /** The map keeps an entry that is already there. */
    method PutIp(site: string, ip: string)
      modifies this
      ensures ipList == if site in old(ipList) then old(ipList) else old(ipList)[site := ip]
    {
      if site !in ipList {
        ipList := ipList[site := ip];
      }
    }

    /** `get_ip` run without interference; `answer` is what a real query would yield. */
    method GetIp(site: string, answer: string) returns (ip: string)
      modifies this
      ensures ip == if site in old(ipList) then old(ipList)[site] else answer
      ensures ipList == if site in old(ipList) then old(ipList) else old(ipList)[site := answer]
    {
      if site !in ipList {
        ip := answer;
        PutIp(site, ip);
      } else {
        ip := ipList[site];
      }
    }
  }

  // ---------- any number of threads looking up at once ----------

  /** Where a thread is in `get_ip`; `Missed` is after the lock was released on a miss, `Queried`
      after the real query. */
  datatype Stage = Idle | Missed(site: string) | Queried(site: string, ip: string)

  /** The cache, the threads, every answer a real query gave, and every value `get_ip` returned. */
  datatype Shared = Shared(
    ipList: map<string, string>, stages: seq<Stage>,
    answers: set<(string, string)>, returned: set<(string, string)>)

  datatype Step = Start(t: nat, site: string) | Query(t: nat, answer: string) | Put(t: nat) | ClearMap

  predicate Enabled(s: Shared, e: Step) {
    match e
    case Start(t, _) => t < |s.stages| && s.stages[t].Idle?
    case Query(t, _) => t < |s.stages| && s.stages[t].Missed?
    case Put(t) => t < |s.stages| && s.stages[t].Queried?
    case ClearMap => true
  }

  function Next(s: Shared, e: Step): Shared
    requires Enabled(s, e)
  {
    match e
    case Start(t, site) =>
      if site in s.ipList then s.(returned := s.returned + {(site, s.ipList[site])})
      else s.(stages := s.stages[t := Missed(site)])
    case Query(t, answer) =>
      s.(stages := s.stages[t := Queried(s.stages[t].site, answer)],
         answers := s.answers + {(s.stages[t].site, answer)})
    case Put(t) =>
      var site, ip := s.stages[t].site, s.stages[t].ip;
      s.(ipList := if site in s.ipList then s.ipList else s.ipList[site := ip],
         stages := s.stages[t := Idle],
         returned := s.returned + {(site, ip)})
    case ClearMap => s.(ipList := map[])
  }

  predicate ValidRun(s: Shared, steps: seq<Step>)
    decreases |steps|
  {
    steps == [] || (Enabled(s, steps[0]) && ValidRun(Next(s, steps[0]), steps[1..]))
  }

  function Run(s: Shared, steps: seq<Step>): Shared
    requires ValidRun(s, steps)
    decreases |steps|
  {
    if steps == [] then s else Run(Next(s, steps[0]), steps[1..])
  }

  /** Everything cached, held by a thread or returned was the answer to a query for that very site. */
  ghost predicate Answered(s: Shared) {
    && (forall site :: site in s.ipList ==> (site, s.ipList[site]) in s.answers)
    && (forall st <- s.stages :: st.Queried? ==> (st.site, st.ip) in s.answers)
    && s.returned <= s.answers
  }

  lemma AnsweredStep(s: Shared, e: Step)
    requires Answered(s) && Enabled(s, e)
    ensures Answered(Next(s, e))
  {
    var s' := Next(s, e);
    forall st | st in s'.stages && st.Queried?
      ensures (st.site, st.ip) in s'.answers
    {
      var i :| 0 <= i < |s'.stages| && s'.stages[i] == st;
      if i != (if e.ClearMap? then |s'.stages| else e.t) {
        assert s.stages[i] == st && st in s.stages;
      }
    }
    if e.Put? {
      assert s.stages[e.t] in s.stages;
    }
  }

  /** In every run of any number of threads `get_ip` returns only answers to queries for its site. */
  lemma {:induction false} ReturnsOnlyAnswers(s: Shared, steps: seq<Step>)
    requires Answered(s) && ValidRun(s, steps)
    ensures Answered(Run(s, steps))
    decreases |steps|
  {
    if steps != [] {
      AnsweredStep(s, steps[0]);
      ReturnsOnlyAnswers(Next(s, steps[0]), steps[1..]);
    }
  }

  /** So from an empty cache and idle threads every value returned is the answer to a query for its site. */
  lemma ReturnsAnswersFromStart(n: nat, steps: seq<Step>)
    requires ValidRun(Fresh(n), steps)
    ensures Answered(Run(Fresh(n), steps))
  {
    ReturnsOnlyAnswers(Fresh(n), steps);
  }

  /** Between two calls of `clear_map` a cached entry never changes, even with lookups racing. */
  lemma {:induction false} EntriesAreStable(s: Shared, steps: seq<Step>, site: string)
    requires ValidRun(s, steps) && site in s.ipList
    requires forall e <- steps :: !e.ClearMap?
    ensures site in Run(s, steps).ipList && Run(s, steps).ipList[site] == s.ipList[site]
    decreases |steps|
  {
    if steps != [] {
      assert steps[0] in steps;
      EntriesAreStable(Next(s, steps[0]), steps[1..], site);
    }
  }

  // ---------- racing lookups ----------

  /** An empty cache and `n` threads that look nothing up yet. */
  function Fresh(n: nat): Shared {
    Shared(map[], seq(n, _ => Idle), {}, {})
  }

  predicate NoClear(steps: seq<Step>) {
    forall e <- steps :: !e.ClearMap?
  }

  /** Some lookups of one site returned different addresses. */
  ghost predicate Differ(s: Shared) {
    exists site, a, b :: a != b && (site, a) in s.returned && (site, b) in s.returned
  }

  /** Some run of `n` threads without `clear_map` leads to different addresses for a site. */
  ghost predicate CanDiffer(n: nat) {
    exists steps :: ValidRun(Fresh(n), steps) && NoClear(steps) && Differ(Run(Fresh(n), steps))
  }

  /** A lookup that had to query returns the address in the cache exactly when no other thread has cached
      a different one in the meantime. */
  lemma PutAgreesIff(s: Shared, t: nat)
    requires Enabled(s, Put(t))
    ensures var site, ip := s.stages[t].site, s.stages[t].ip;
            && (site, ip) in Next(s, Put(t)).returned
            && site in Next(s, Put(t)).ipList
            && (Next(s, Put(t)).ipList[site] == ip <==> site !in s.ipList || s.ipList[site] == ip)
  {
  }

  /** With a single thread everything returned is in the cache, and what it has queried is not. */
  ghost predicate Alone(s: Shared) {
    && |s.stages| <= 1
    && (forall site, ip :: (site, ip) in s.returned ==> site in s.ipList && s.ipList[site] == ip)
    && (forall st <- s.stages :: !st.Idle? ==> st.site !in s.ipList)
  }

  lemma AloneStep(s: Shared, e: Step)
    requires Alone(s) && Enabled(s, e) && !e.ClearMap?
    ensures Alone(Next(s, e))
  {
    var s' := Next(s, e);
    assert s.stages[0] in s.stages;
    forall st | st in s'.stages && !st.Idle?
      ensures st.site !in s'.ipList
    {
      assert st == s'.stages[0];
    }
  }

  lemma {:induction false} AloneRun(s: Shared, steps: seq<Step>)
    requires Alone(s) && ValidRun(s, steps) && NoClear(steps)
    ensures Alone(Run(s, steps))
    decreases |steps|
  {
    if steps != [] {
      assert steps[0] in steps;
      AloneStep(s, steps[0]);
      AloneRun(Next(s, steps[0]), steps[1..]);
    }
  }

  lemma RunCons(s: Shared, e: Step, rest: seq<Step>)
    requires Enabled(s, e) && ValidRun(Next(s, e), rest) && NoClear(rest) && !e.ClearMap?
    ensures ValidRun(s, [e] + rest) && NoClear([e] + rest) && Run(s, [e] + rest) == Run(Next(s, e), rest)
  {
    assert ([e] + rest)[1..] == rest;
  }

  /** Two threads miss, both query, and each returns its own answer. */
  lemma RacingRun(n: nat, site: string, a: string, b: string)
    requires n >= 2 && a != b
    ensures CanDiffer(n)
  {
    var s0 := Fresh(n);
    var s1 := Next(s0, Start(0, site));
    var s2 := Next(s1, Start(1, site));
    var s3 := Next(s2, Query(0, a));
    var s4 := Next(s3, Query(1, b));
    var s5 := Next(s4, Put(0));
    var s6 := Next(s5, Put(1));
    assert (site, a) in s5.returned && (site, a) in s6.returned && (site, b) in s6.returned;
    RunCons(s5, Put(1), []);
    RunCons(s4, Put(0), [Put(1)]);
    RunCons(s3, Query(1, b), [Put(0), Put(1)]);
    RunCons(s2, Query(0, a), [Query(1, b), Put(0), Put(1)]);
    RunCons(s1, Start(1, site), [Query(0, a), Query(1, b), Put(0), Put(1)]);
    RunCons(s0, Start(0, site), [Start(1, site), Query(0, a), Query(1, b), Put(0), Put(1)]);
  }

  /** Without `clear_map`, two lookups of a site never return different addresses in any run exactly when
      there is at most one thread. */
  lemma LookupsAgreeIffAlone(n: nat)
    ensures !CanDiffer(n) <==> n <= 1
  {
    if n <= 1 {
      forall steps | ValidRun(Fresh(n), steps) && NoClear(steps)
        ensures !Differ(Run(Fresh(n), steps))
      {
        AloneRun(Fresh(n), steps);
      }
    } else {
      RacingRun(n, "", "a", "b");
    }
  }
}
