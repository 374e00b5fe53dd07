# Verification model of the crawler

A Dafny model of the crawler's own logic: the select thread that drains four URL pools under quotas and
feeds a bounded queue, the crawl threads that empty that queue under per-site throttling, the URL pools with
duplicate suppression, the DNS message codec, the rule file of the URL recognizer and the list files. Sockets,
HTTP, clocks, random numbers and library calls are inputs.

Objects that the program updates in place are classes with the same fields (`UrlPool`, `SelectedQueue`,
`LevelPool`, `DnsClient`, `SpiderStatis`, `Spider`, `CrawlThread`, `UrlOutput`, `File`, `UrlRecognizer`), byte
and line buffers are arrays, and every loop of the program is a loop in a method. Each method is proved
against a function on values; what the program promises is proved about those functions. Threads are step
machines: every section guarded by a mutex is one atomic step, and the theorems about runs hold for any
number of threads and any interleaving.

`dafny verify dfyconfig.toml` checks everything.

| file | contents |
|---|---|
| `scan.dfy`, `round.dfy`, `round_laws.dfy` | the selection of one domain, of one class of domains, of one round, and the laws of a round |
| `iteration.dfy`, `report.dfy` | what one domain's iteration does, without its loops, and what the statistics report then says |
| `budget.dfy`, `overshoot.dfy` | the size of a round's selection, and exactly which settings bound it |
| `spider.dfy` | `select_url`, `insert_url` and a turn of `select_thread` on the shared objects |
| `url_pool.dfy`, `handoff.dfy`, `handoff_limits.dfy` | the URL pool, hand-off over whole runs, and exactly when it is exactly-once |
| `selected_queue.dfy`, `level_pool.dfy`, `dns_client.dfy`, `spider_statis.dfy` | the other shared objects and their run laws |
| `crawl.dfy`, `crawl_thread.dfy` | the life of a queued URL as a step machine, and one pass of `crawl_thread` as a run of it |
| `dns_query.dfy`, `dns_response.dfy` | the DNS codec against RFC 1035 |
| `lines.dfy`, `url_output.dfy` | line reading, and the round trip of list files |
| `url_recognizer.dfy`, `rule_files.dfy`, `rule_errors.dfy`, `rule_ends.dfy` | the rule parser and classifier, what loading a well-formed file gives, what a malformed section does, and when the loader returns |
| `options.dfy`, `arithmetic.dfy`, `decimals.dfy` | shared types, integer arithmetic, decimal text |

## Findings

Where a promise does not hold for all inputs, the code is kept as it is and the exact condition is proved.

- Between two clears of a pool's set, no URL of the pool is handed over twice in any run exactly when, at the
  first of them, none is under way: in a push between its two critical sections, in the pool's queue, in the
  selection buffer, or among the leftovers that go back to the pool or that a backfill can reach
  (`HandOffLimits.OnceIffNoneInFlight`). Each of these does happen: a push can be overtaken by the clear
  (`HandOffLimits.PushUnderWayRepeats`), a whole push fits between the two critical sections of `clear_urls`
  (`HandOffLimits.PushInsideClearRepeats`), and a rollover clears the pools while `select_url` keeps its three
  lists (`HandOffLimits.CarriedSelectionRepeats`). The runs behind these results keep to the order of
  `select_thread` and to settings that the configuration accepts.
- A round can select far more URLs than wanted. The backfill of priority domains is not counted in `prio_count`,
  so their part is offered to ordinary domains once more: with 1000 URLs wanted, all of them from priority
  domains and 99 categories for every item, a round with one seed domain selects 1495
  (`Budgets.SelectionCanOvershoot`). Exactly these settings let some round select more than the wanted number
  and 20 a domain: some priority domain with quotas `q`, and some ordinary domain with quotas `o` for what the
  least scan picks `m = min(q.cate, q.item)` of the first leave of the wanted number, have
  `2 * q.cate - m > 20` and `2 * q.cate + o.cate + o.item - 40` above the wanted number
  (`Overshoots.CanOvershootIff`); under all others every round stays within it, whatever was carried over
  (`Overshoots.SettingsWithinBudget`). In any case the whole selection exceeds the wanted number by at most
  20 a domain and the backfill of priority domains (`Budgets.SelectionBudget`), and that backfill is possible
  exactly when some part of the links gives a domain a quota more than 20 below its cap
  (`Budgets.CanBackfillIff`, `Scans.BackfillPossibleIff`).
- A domain comes back from its encoded name exactly when it is empty or all its labels have 1 to 63 bytes; the
  encoder stores a length modulo 256 and checks nothing (`DnsQueries.NameRoundTrip`).
- The response code of a DNS answer is never looked at: the test meant for it reads the byte behind the flags
  (`DnsResponses.ResponseCodeIgnored`).
- A normalize rule loses its replacement exactly when that is one character behind a single blank
  (`RuleFiles.ReplacementsKeptIff`, `RuleFiles.ShortReplacementIsLost`).
- The rule loader runs for ever exactly when a section that it reaches lacks, up to the end of the file, the
  mark that ends its item or its normalize list (`RuleEnds.ReturnsIffMarked`); the file `[a]`, `<item>` is one
  (`RuleEnds.UnfinishedSectionHangs`).
- Two lookups of a site may return different addresses, although the cache keeps one: from an empty cache and
  without `clear_map` this happens in no run exactly when there is at most one thread
  (`DnsClients.LookupsAgreeIffAlone`). The program always has two: there is at least one crawl thread
  (spider.cpp:1718), and the select thread looks addresses up as well (spider.cpp:822).

Two promises of the classes rest on the configuration. `CLevelPool` keeps its limit exactly when that is at least
1 (`Crawls.LimitRespectedIffPositive`), and `CSelectedQueue` is bounded exactly when its size is not negative
(`SelectedQueues.BoundedIffSizeNatural`). The loader refuses other values (spider.cpp:1563-1568, 1711-1716), so in
the program both hold (`Crawls.PermitsWithinLimit`, `SelectedQueues.BoundedRuns`).

## Model

| member | source | states |
|---|---|---|
| Scans.CutMeaning | spider.cpp:526-538 | the first scan stops with neither quota exceeded, and before the end of the vector only when one quota is met exactly |
| Scans.ScansChooseByRank | spider.cpp:526-578 | on a vector of its own class the two scans pick exactly the URLs whose rank within their kind is below the quota of the kind, in original order, and leave exactly the others in original order |
| Scans.ScansTakeQuotaOfEachKind | spider.cpp:623-673 | for each own kind the picks restricted to it are its first min(quota, count) URLs and what is left of it follows them |
| Scans.SplitConserves | spider.cpp:526-578 | for any mixture of kinds, picks and leftovers together are the vector as a multiset |
| Scans.SplitCounts | spider.cpp:544-575 | for any mixture of kinds the two counters add up to the number of picks, which is at most the sum of the quotas |
| Scans.BackfillConserves | spider.cpp:583-596 | backfilling moves URLs between the lists and loses none |
| Scans.BackfillCounts | spider.cpp:587-598 | the counters grow together by exactly the number of URLs backfilled, which is at most what was wanted; the buffer only grows at its end |
| Scans.DomainConserves | spider.cpp:623-699 | a domain's whole iteration, early `continue` and backfill included, neither loses nor duplicates a URL |
| Scans.DomainCounts | spider.cpp:544-598 | the counters a domain ends with add up to what its iteration pushed; at most both quotas, or twice the category quota for a priority domain |
| Scans.Scan | spider.cpp:526-578 | both scan loops split the vector as specified, append to buffer and leftovers, and set the counters |
| Iterations.ScansAreGreedy | spider.cpp:526-578 | for vectors of any types the two scans are one pass that takes a URL while both quotas are open and afterwards only a category or an item of the class while its own quota is; picks, leftovers and both counters agree |
| Iterations.IterationMeaning | spider.cpp:526-598 | a whole iteration pushes the picks of that pass and then, unless the first scan used up the vector or the total is at most 20 below the cap, leftovers from the end, last one first, up to the cap and leaving five |
| Iterations.CountersMeaning | spider.cpp:544-598 | for any types: of the URLs its scans pick, the category counter has those of type 3 (ordinary: 1) and the item counter all others; of the backfilled ones the item counter has those of type 0 and the category counter all others |
| Iterations.OwnKindsCounted | spider.cpp:544-575 | on a vector of its own class and without a backfill the two counters are the categories and the items pushed: of each as many as there are, up to the quota |
| Scans.FirstScan | spider.cpp:529-538 | the first loop takes exactly the prefix up to the cut and counts every other kind as an item |
| Scans.SecondScan | spider.cpp:559-578 | the second loop takes the first URLs of one kind until the quota is full and leaves all others in order |
| Scans.Backfill | spider.cpp:588-596 | the loop moves leftovers last one first, stops at five, and counts only type 0 as an item |
| Rounds.QuotaMeaning | spider.cpp:519-522 | with c the percentage of the domain's share and s the whole share, both rounded down, the quotas are c categories and s - c + 1 items, at least ten of each |
| Rounds.NoLinksQuota | spider.cpp:519-522 | without links both quotas are ten |
| Rounds.QuotaBound | spider.cpp:519-522 | the two quotas of a domain exceed its share of the wanted number by at most 20, despite two floor divisions and two minimums |
| Rounds.GatherPartitions | spider.cpp:465-508 | the vectors of distinct domains and the URLs of other domains are exactly what was drained |
| Rounds.PassConserves | spider.cpp:516-605 | a pass over the domains of a class neither loses nor duplicates a URL |
| Rounds.PassCounts | spider.cpp:544-598 | after a pass each domain's counters add up to what its own iteration pushed, and other domains' counters are untouched |
| Rounds.PassTotal | spider.cpp:614-700 | over the domains of a pass the counters add up to the growth of the buffer |
| Rounds.PassWithinShare | spider.cpp:614-700 | a pass picks at most its share plus 20 for each domain, an ordinary pass even with backfill |
| RoundLaws.LostMeaning | spider.cpp:441-450 | lost are exactly the drained URLs of unknown or shielded domains and of those neither seed nor ordinary |
| RoundLaws.NamesInOrder | spider.cpp:441-450 | the passes go over the unshielded seeds and over the unshielded ordinary domains in the order of iteration |
| RoundLaws.RoundConserves | spider.cpp:441-700 | a whole round keeps the multiset: lists after plus lost equals lists before plus drained |
| RoundLaws.RoundCounts | spider.cpp:544-598 | just before the statistics are written, the two counters of each selected domain add up to what its iteration pushed |
| RoundLaws.RoundTotal | spider.cpp:640-693 | over all selected domains the counters add up to the growth of the selection buffer |
| Reports.RoundReports | spider.cpp:544-598 | just before the statistics are written the two counters of each selected domain tell the types of exactly what its own iteration pushed |
| Reports.RoundPushes | spider.cpp:514-700 | the selection buffer is what it was before, then what each priority domain pushed, then what each ordinary domain pushed |
| Reports.ReportIsTruthful | spider.cpp:702-703 | every line of the report about a selected domain says how many categories and items its iteration pushed |
| Reports.DomainReport | spider.cpp:519-575 | with a domain's URLs in its own class's pools the scans pick min(quota, number in the pool) categories and items, and without a backfill the report says these two numbers |
| Reports.PlanMeaning | spider.cpp:456-512 | wanted numbers and links of both passes: tenths of the whole for priority domains, for ordinary ones the rest with what the first scans left of that part; links are the sizes of the class's two pools |
| Reports.VectorMeaning | spider.cpp:465-508 | a domain's vector has its priority categories, priority items, ordinary items and ordinary categories, in this order and each in the order of its pool |
| Reports.OthersUnreported | spider.cpp:516-700 | the counters of domains that no pass selects stay |
| RoundLaws.RoundIgnoresCounters | spider.cpp:516-700 | what a round selects and leaves does not depend on the counters of earlier rounds |
| RoundLaws.RoundBudget | spider.cpp:510-522 | with at most ten tenths for priority domains and URLs in their own classes' pools: the scan picks of priority domains, without their backfill, plus the growth by ordinary domains stay within the wanted number plus 20 a domain |
| RoundLaws.RoundKeepsReserve | spider.cpp:588-596 | over a round the first five leftovers of both lists stay where they are |
| Scans.IterationOutcome | spider.cpp:580-598 | an iteration either pushes what its scans pick, or one quota is met, the picks are more than 20 below the cap and the backfill stays within the cap |
| Scans.BackfillPossibleIff | spider.cpp:583-596 | a domain is backfilled for some vector and some leftovers if and only if one of its quotas is more than 20 below its cap |
| Budgets.PassPushes | spider.cpp:516-605 | a pass with its backfill pushes at most the wanted number, its category part once more, and 20 a domain |
| Budgets.SelectionBudget | spider.cpp:583-609 | a round's whole selection exceeds the wanted number by at most 20 a domain and the backfill of priority domains, and that backfill is bounded by the settings |
| Budgets.SelectionWithinBudget | spider.cpp:583-609 | when no priority domain's quotas leave room to backfill, the whole selection stays within the wanted number plus 20 a domain |
| Budgets.CanBackfillIff | spider.cpp:519-596 | under given settings some round, with URLs in their own classes' pools, backfills a priority domain if and only if some part of the links gives a domain quotas that leave room |
| Overshoots.PassAccount | spider.cpp:516-605 | a priority pass pushes no more beyond 20 a domain than what its backfilled domains, as good as a single one with all their URLs, and its scan picks account for |
| Overshoots.AddsTogether | spider.cpp:519-522 | what shares of two wanted numbers give beyond 20, floors and minimums included, some share of their sum gives as well |
| Overshoots.OvershootNeeds | spider.cpp:583-609 | a round that selects more than wanted and 20 a domain, with any domains and carried lists, has settings under which one priority and one ordinary domain do |
| Overshoots.OvershootBuilt | spider.cpp:583-609 | two such domains make a round that does |
| Overshoots.CanOvershootIff | spider.cpp:510-609 | settings let some round select more than wanted and 20 a domain if and only if some quotas of a priority domain, and of an ordinary one given what the least picks of the first leave, are so large |
| Overshoots.SettingsWithinBudget | spider.cpp:510-609 | under all other settings every round, whatever it started from, selects at most the wanted number plus 20 a domain |
| Budgets.FewCategoriesLeaveNoRoom | spider.cpp:519-522 | with at most 15 category URLs wanted from priority domains no priority domain has room to backfill |
| Budgets.SelectionCanOvershoot | spider.cpp:583-609 | under settings that the loader accepts, a round with 1000 URLs wanted and one domain that selects 1495, against 1020 |
| RoundLaws.LeftoversKeepClass | spider.cpp:567-578 | with URLs in their own classes' pools the two lists of leftovers keep to their class |
| RoundLaws.SmallDomainLeavesNothing | spider.cpp:519-538 | a domain with at most ten URLs is selected whole |
| Spiders.Drain | spider.cpp:465-475 | draining empties the pool and appends each URL, tagged with the pool's type, to the vector of its domain if that is known |
| Spiders.RandomShuffle | spider.cpp:720 | the shuffle keeps the multiset, whatever the random numbers |
| Spiders.AnyOrder | spider.cpp:720 | every order of the buffer comes out for some random numbers |
| Spiders.Spider.TopUp | spider.cpp:580-598 | the counters are recorded, read back, and the domain is backfilled unless its total is near the cap |
| Spiders.Spider.SelectDomain | spider.cpp:516-605 | one domain's iteration on the real lists and counters is the specified one and leaves the other class's leftovers alone |
| Spiders.Spider.SelectClass | spider.cpp:614-700 | the loop over the domains of a class is the specified pass |
| Spiders.Spider.CollectDomains | spider.cpp:441-450 | the two name lists are the unshielded seed and ordinary domains in iteration order, each domain gets an empty vector |
| Spiders.Spider.RunPasses | spider.cpp:427-700 | everything up to the statistics is the specified round; the pools are empty afterwards |
| Spiders.WaitForQueue | spider.cpp:712-713 | while crawl threads pop and requeue, the wait ends with at most the threshold in the queue, exactly with it when they only pop, and what was popped and then queued is what was queued and then requeued |
| Spiders.Spider.SelectUrl | spider.cpp:427-723 | lists, return code, round counter and queue after the call, and a report that tells the types of what each domain pushed; on a rollover, after more than three rounds and with fewer URLs than the threshold, the lists are kept, and what crawl threads popped during the wait and what is thrown away, at most the threshold, is what was queued and what they requeued; otherwise the buffer is shuffled |
| Spiders.Spider.InsertUrl | spider.cpp:796-849 | each leftover returns to the pool of its type, the others are dropped; the addresses are renewed; the buffer enters the selected queue in order, interleaved only with pops and with just as many as room needs: each item has its URL and last crawl time, no failures, and IOQ, IPQ or CPQ exactly for types 0, 2 and 3, COQ otherwise |
| Spiders.CarriedMayEnter | spider.cpp:826-846 | such an item may enter the life cycle of the crawl threads exactly when the queue has room |
| Spiders.Spider.SelectTurn | spider.cpp:56-92 | select and insert together: pools, queue, lost and dropped URLs make up exactly what the pools and carried lists held |
| Spiders.InsertConserves | spider.cpp:799-846 | returned, dropped and pushed URLs are exactly the three lists |
| Spiders.NothingLost | spider.cpp:441-508 | with matching types and known, unshielded domains nothing is lost or dropped |
| Spiders.RolloverSpacing | spider.cpp:706-718 | in every run the three turns before a rollover are complete select-and-insert rounds; none happens before the fourth turn |
| UrlPools.UrlPool.ClearQueue | urlpool.cpp:35-37 | the first critical section empties the queue and leaves the set |
| UrlPools.UrlPool.ClearSet | urlpool.cpp:39-41 | the second one empties the set and leaves what was queued meanwhile |
| UrlPools.UrlPool.ClearUrls | urlpool.cpp:33-43 | without interference queue and set are empty |
| UrlPools.UrlPool.PushUrl | urlpool.cpp:46-60 | the queue grows exactly by URLs of at least four characters that the set has not seen |
| UrlPools.UrlPool.Claim | urlpool.cpp:46-53 | the first critical section enters a URL in the set and tells whether it was new |
| UrlPools.UrlPool.AddToQue | urlpool.cpp:62-69 | the queue grows without a look at the set, except by short URLs |
| UrlPools.UrlPool.TryPopUrl | urlpool.cpp:71-92 | on a valid non-empty pool an iteration always removes and returns the front: the branch that returns nothing is never taken |
| HandOffs.StepKeeps | urlpool.cpp:33-69 | every step of pushing, selecting, returning, handing over and clearing, but the clear of the pool's own set, keeps: at most one copy of a URL of the pool that can still be handed over, and none that the set does not know |
| HandOffLimits.ExactlyOnce | spider.cpp:799-846 | after the set of a pool is cleared with none of its URLs under way, no interleaving hands one to the queue twice before the set is cleared again |
| HandOffLimits.OnceIffNoneInFlight | urlpool.cpp:33-60 | from every state, hand-off between two clears of a pool's set is exactly-once in every run of `select_thread` and the crawl threads, with settings the loader accepts, if and only if no URL of the pool is under way at the first |
| HandOffLimits.QuietClear | urlpool.cpp:33-43 | a clear without interference, with none of the pool's URLs in a push or in the lists, makes hand-off exactly-once |
| HandOffs.TurnIsRun | spider.cpp:66-81 | a turn of the select thread is a run of the hand-off machine: it ends with the pools, lists and hand-overs that `select_url` and `insert_url` are proved to produce |
| HandOffLimits.PushUnderWayRepeats | urlpool.cpp:50-56 | a push overtaken by the clear can make its URL be handed over twice |
| HandOffLimits.PushInsideClearRepeats | urlpool.cpp:35-41 | so can a push that runs between the two critical sections of the clear |
| HandOffLimits.CarriedSelectionRepeats | spider.cpp:706-719 | so can a selection that is carried over a rollover: selecting, rolling over and clearing the pools leads there |
| HandOffLimits.StrayRepeats | spider.cpp:588-596 | so can a leftover of another class behind the first five: new URLs of one domain are enough for a backfill that reaches it in the first selection |
| SelectedQueues.SelectedQueue.Push | selected_queue.cpp:31-44 | refused exactly when the counter equals the size, otherwise appended and counted |
| SelectedQueues.SelectedQueue.Pop | selected_queue.cpp:46-62 | the front is returned and removed, nothing from an empty queue |
| SelectedQueues.SelectedQueue.Clear | selected_queue.cpp:23-29 | queue and counter are reset |
| SelectedQueues.RunsAreFifo | selected_queue.cpp:23-62 | in every run the counter is the length, and since the last clear the popped items followed by the queue are exactly the accepted pushes |
| SelectedQueues.BoundedRuns | selected_queue.cpp:31-44 | in every run a queue of natural size, as the configuration demands, stays within it |
| SelectedQueues.BoundedIffSizeNatural | selected_queue.cpp:31-44 | the class by itself has some bound on its queue in all runs if and only if the size is not negative |
| SelectedQueues.RefusedIffFull | selected_queue.cpp:34-38 | with a natural size a push is refused if and only if the queue is full |
| SelectedQueues.NegativeSizeIsUnbounded | selected_queue.cpp:34-41 | the class with a negative size, which the configuration refuses, grows beyond every bound |
| LevelPools.LevelPool.IsCrawlEnabled | level_pool.cpp:30-65 | granted if and only if the site is unknown, or its counter is below the limit and its last grant at least the interval ago; the new pool |
| LevelPools.LevelPool.FinishCrawl | level_pool.cpp:67-84 | a known site's counter goes down by one, an unknown site is ignored |
| LevelPools.GrantsAreSpaced | level_pool.cpp:56-62 | consecutive grants for a site are at least the interval apart in every run, even if the clock steps back |
| LevelPools.GrantRate | level_pool.cpp:30-65 | any window of length w holds at most w / interval + 1 grants for a site |
| LevelPools.GrantedIff | level_pool.cpp:30-65 | in every run from an empty pool, at every clock reading: a request is granted if and only if the site had no grant before, or its grants less its releases are below the limit and its last grant is at least the interval ago |
| LevelPools.CounterIsOpenGrants | level_pool.cpp:30-84 | in every run the counter of a site is the number of its grants less the number of its releases |
| DnsClients.DnsClient.GetIp | dns_client.cpp:38-55 | a cached address is returned, otherwise the answer of a query, which is then cached |
| DnsClients.DnsClient.PutIp | dns_client.cpp:31-36 | an entry that is there is kept |
| DnsClients.ReturnsOnlyAnswers | dns_client.cpp:38-55 | with any number of racing threads it is kept that everything cached or returned was the answer to a query for that site |
| DnsClients.ReturnsAnswersFromStart | dns_client.cpp:38-55 | so it holds in every run from an empty cache |
| DnsClients.EntriesAreStable | dns_client.cpp:31-36 | between two clears an entry never changes, even when several threads miss at once |
| DnsClients.PutAgreesIff | dns_client.cpp:31-54 | a lookup that had to query returns the cached address if and only if no different one was cached in the meantime |
| DnsClients.RacingRun | dns_client.cpp:44-54 | with two threads or more there is a run, from an empty cache, in which two lookups of a site return different addresses |
| DnsClients.LookupsAgreeIffAlone | dns_client.cpp:38-55 | lookups of a site agree in every run without `clear_map` if and only if there is at most one thread |
| Statistics.SpiderStatis.SetStatisToFile | spider_statis.cpp:68-88 | the report has every domain's select counters, which are then 0; other counters stay |
| Statistics.SpiderStatis.GetDomainCateSelectNum | spider_statis.cpp:164-177 | a missing counter reads as 0 |
| Statistics.SpiderStatis.GetDomainItemSelectNum | spider_statis.cpp:179-192 | a missing counter reads as 0 |
| Statistics.SpiderStatis.SetDomainCateSelectNum | spider_statis.cpp:224-237 | the counter is set, all others stay |
| Statistics.SpiderStatis.SetDomainItemSelectNum | spider_statis.cpp:239-252 | the counter is set, all others stay |
| Crawls.RunsKeepPermits | level_pool.cpp:30-84 | in every run of any number of threads a site's counter is the number of threads holding a grant for it |
| Crawls.PermitsWithinLimit | level_pool.cpp:30-84 | under every accepted configuration, in every run a site's counter is the number of threads holding a grant for it and lies between 0 and the limit |
| Crawls.LimitRespectedIffPositive | level_pool.cpp:38-54 | for the class by itself: no run exceeds the limit on concurrent fetches if and only if that limit is at least 1 |
| Crawls.FirstGrant | level_pool.cpp:38-49 | a site's first fetch is granted whatever the limit |
| Crawls.PotentialStep | spider.cpp:189-346 | no step but an insertion raises the sum of 3^(failures left) over queued and held items; every failed lookup and every end of an attempt other than a throttle delay lowers it |
| Crawls.RunsConsumeWeight | spider.cpp:189-346 | over a run the number of such steps is bounded by the starting sum and what is inserted |
| Crawls.LifecycleIsBounded | spider.cpp:189-346 | from an empty start each inserted URL causes at most 3^(F+D+2) such steps and copies, and no item exceeds a limit by more than one, despite the double requeue |
| Crawls.MeasureStep | spider.cpp:175-420 | a natural-number measure goes down with every step that is not an insertion or a throttle delay |
| Crawls.OnlyDelaysGoOn | spider.cpp:175-420 | without insertions the number of steps is bounded but for throttle delays, in any interleaving |
| CrawlThreads.CrawlThread.CrawlOnce | spider.cpp:175-345 | a pass of the loop on the shared objects is a run of the step machine and leaves every site's counter as it was, on every path; an item with an address and a grant leaves the queue and comes back once, with one more failure, if and only if its last fetch failed other than by -404 |
| CrawlThreads.PushedMeaning | spider.cpp:189-344 | what a pass pushes, case by case: nothing for an item that failed too often or cannot be built; a copy with one more DNS failure without an address; the item itself when its site is throttled |
| CrawlThreads.FollowsToLast | spider.cpp:279-329 | the redirect loop ends at the first fetch that is no redirect, or cannot be followed, or reaches the limit, and its length decides |
| CrawlThreads.FetchedPass | spider.cpp:331-344 | with room in the queue, exactly the tail of the queue and possibly the item with one more failure remain |
| CrawlThreads.CrawlThread.Resolve | spider.cpp:233-240 | without an address the item is requeued with one more DNS failure and the pass goes on with it |
| CrawlThreads.CrawlThread.Crawl | spider.cpp:242-345 | a refused grant requeues the item; after a granted fetch the site's counter is back |
| CrawlThreads.CrawlThread.CrawlGranted | spider.cpp:265-345 | `finish_crawl` once for the granted site, also after "not found" and broken redirects; a failure other than "not found" requeues |
| CrawlThreads.CrawlThread.FetchPage | spider.cpp:266-329 | the fetch and the redirect loop end with the specified length and cache |
| DnsQueries.SetDnsQuery | udpdns.cpp:328-389 | the buffer begins with header, name, type and class, the rest of it is untouched, and the length is returned |
| DnsQueries.PutHeader | udpdns.cpp:347-352 | the six header words are written in network order |
| DnsQueries.PutName | udpdns.cpp:357-378 | the labels behind their lengths and a final zero are written |
| DnsQueries.QueryLength | udpdns.cpp:357-388 | the query is the domain's length plus 18, or plus 17 when the domain is empty or ends with a dot |
| DnsQueries.QueryWords | udpdns.cpp:334-388 | read back in network order: id 0x237F, the flags, one question, no records, and at the end type A and class IN |
| DnsQueries.JoinSplit | udpdns.cpp:360-376 | the labels joined with dots are the domain |
| DnsQueries.EndsAtZeroIff | udpdns.cpp:360-377 | the name has no zero byte before its end if and only if no emitted label has a multiple of 256 bytes |
| DnsQueries.DecodesProper | udpdns.cpp:357-377 | a decoder after section 3.1 of RFC 1035 reads back proper labels and stops where the encoder did |
| DnsQueries.NameRoundTrip | udpdns.cpp:357-388 | for every domain: decoding the name gives it back, using just its bytes, if and only if it is empty or all labels have 1 to 63 bytes |
| DnsResponses.GetDnsResponseHead | udpdns.cpp:470-501 | -1 if and only if the id is foreign, -2 if it is not and the message is no response, -3 if byte 4 has a low half, -4 without answers, otherwise the number of answers |
| DnsResponses.RefusedIff | udpdns.cpp:394-501 | a message is refused with -1 if and only if one of these four tests fails |
| DnsResponses.GetDnsResponse | udpdns.cpp:394-463 | the parser's reply for every buffer, with a read past the end as an outcome of its own |
| DnsResponses.ScanRecords | udpdns.cpp:421-449 | the record loop stops at the first A/IN record of four bytes, or after all answers |
| DnsResponses.ScanFindsFirst | udpdns.cpp:421-449 | on encoded records the scan finds the first address record, or none exactly when there is none |
| DnsResponses.ReadsFirstAddress | udpdns.cpp:394-463 | every well-formed response to the encoder's question is read without overrun: a text from which a reader of dotted numbers gets the bytes of the first A/IN record in their order, or -2 when there is none, whatever follows the records |
| DnsResponses.OctetsOfDotted | udpdns.cpp:456-462 | read from left to right, the numbers between the dots are the four bytes |
| DnsResponses.LaterBytesIgnored | udpdns.cpp:394-463 | any reply but an overrun stays the same whatever follows the message |
| DnsResponses.DottedIsFaithful | udpdns.cpp:456-462 | the printed text determines the address and has 7 to 15 characters |
| DnsResponses.ResponseCodeIgnored | udpdns.cpp:485-489 | the reply does not depend on the byte that holds the response code |
| Lines.File.Gets | spider.cpp:1210 | what `fgets` reads, where it stops, and when it meets the end of the file |
| Lines.ReadMeaning | spider.cpp:1210 | a read ends behind the first newline, at the buffer's limit or at the end of the file, whichever comes first; the end is met only in the last case |
| Lines.GetOneLine | spider.cpp:1204-1215 | the buffer holds the line cut at the first carriage return and newline, zeros behind it |
| Lines.FilterHeadTailBlank | spider.cpp:1217-1233 | blanks at the head and at the end of the window become zeros; the start of the text is returned |
| Lines.ReadLine | url_recognizer.cpp:55-56 | reading a line is taking the head of the list of remaining texts; empty at the end of the file |
| Lines.FieldsOfLines | url_recognizer.cpp:3-14 | whole plain lines are read one by one |
| Lines.PlainText | spider.cpp:1204-1233 | what is left of a plain line: all up to its trailing blanks, or up to blanks at the end of the window |
| Lines.LineMeaning | spider.cpp:1204-1233 | any line that fits the window, with blanks at both ends and with newline, carriage return and newline, or nothing behind it, is read without the blanks |
| ListFiles.UrlOutput.Append | url_output.cpp:46-64 | one line with URL and time is added to the file; a URL with a zero inside loses its rest, the time and the newline |
| ListFiles.PrintedReads | url_output.cpp:46-64 | a printed entry is the URL, a tab, the time in decimal and a newline |
| ListFiles.PrintedIsCut | url_output.cpp:46-64 | a URL with a zero inside is printed up to it, with a tab behind |
| ListFiles.LoadInputUrls | spider.cpp:1011-1026 | the loop gives the texts of the non-empty lines, cut at the first tab |
| ListFiles.LineReadsBack | spider.cpp:1013-1026 | a printed line is read as what survives of its URL |
| ListFiles.RoundTripIff | url_output.cpp:46-64 | for any trimming window, URLs printed one after another come back as the same sequence if and only if none is cut at its end |
| ListFiles.ListRoundTrip | spider.cpp:1011-1026 | with the program's window, whatever proper URLs were appended come back as the same sequence |
| UrlRecognizers.UrlRecognizer.LoadConf | url_recognizer.cpp:34-177 | outcome and rule table for every file, also where the source does not return |
| UrlRecognizers.UrlRecognizer.CollectRules | url_recognizer.cpp:94-170 | the loop over the rules of one kind, the three copies of which differ in their end mark |
| UrlRecognizers.ParseRule | url_recognizer.cpp:123-137 | the expression up to the first blank and, for normalize rules, the replacement |
| UrlRecognizers.UrlRecognizer.GetType | url_recognizer.cpp:199-247 | 1 if and only if an item rule matches, 2 if and only if none does and a category rule matches, -1 if and only if the domain is absent, 0 otherwise |
| UrlRecognizers.UrlRecognizer.NormalizeUrl | url_recognizer.cpp:249-277 | the result comes from the URL by replacing with each normalize rule's expression and replacement one after another, or is empty when there are none |
| RuleFiles.LoadsWhatIsMeant | url_recognizer.cpp:53-170 | a well-formed file loads without error; the domains are those named, and each domain's rules of each kind are the concatenation, in file order, over all sections naming it |
| RuleFiles.ReplacementsKeptIff | url_recognizer.cpp:121-137 | the loaded normalize rules are the ones written if and only if no line has a one-character replacement behind a single blank |
| RuleFiles.ShortReplacementIsLost | url_recognizer.cpp:127-134 | the line "a b" gives a rule without replacement |
| RuleFiles.LoadKeepsTidy | url_recognizer.cpp:104-163 | no list in the table is ever empty, so a missing list and a list without rules are the same |
| RuleFiles.RewritesInFileOrder | url_recognizer.cpp:267-273 | normalizing by a loaded file rewrites section by section in file order |
| RuleFiles.ClassifiesByFile | url_recognizer.cpp:199-247 | after loading, the conditions of `get_type` are conditions on the lines of the file |
| RuleErrors.MalformedFileFails | url_recognizer.cpp:53-152 | behind any well-formed sections, a header that is not closed, a missing item mark, or text behind the category mark makes the loader fail; after an open header the earlier rules stay |
| RuleErrors.RestIgnored | url_recognizer.cpp:94-104 | in an item or category line everything from the first blank on is ignored |
| RuleErrors.ItemMarkOpen | url_recognizer.cpp:83-93 | behind the mark of the items anything may stand |
| RuleErrors.NormalizeMarkOpen | url_recognizer.cpp:94 | a line that begins with the mark of the normalize list ends the items, and nothing of it is kept |
| RuleErrors.CommentSkipped | url_recognizer.cpp:58-61 | comments and empty lines between sections are skipped |
| RuleErrors.HeaderlessSection | url_recognizer.cpp:58-93 | a line that is no header takes the place of one, and the section belongs to the domain before it |
| RuleEnds.NeverStopsIff | url_recognizer.cpp:94-142 | the loop over item or normalize rules, run without any early exit, has stopped after no number of rounds if and only if its end mark is missing up to the end of the file |
| RuleEnds.HangsIffLacksMark | url_recognizer.cpp:53-170 | the parser reports a hang if and only if a section that it reaches lacks a mark |
| RuleEnds.ReturnsIffMarked | url_recognizer.cpp:53-170 | for every file the loader, run without any early exit, returns after some number of rounds if and only if no section that it reaches lacks a mark |
| RuleEnds.ReturnsAsParsed | url_recognizer.cpp:53-170 | when it returns, outcome and rules are those of the parser |
| RuleEnds.UnfinishedSectionHangs | url_recognizer.cpp:83-108 | a file on which no number of rounds is enough |

## Left out

- Sockets, HTTP, files on disk, directory moves, logging, signals, sleeping and process start: results of I/O are inputs of the model.
- The URL library, the extractor, regular expressions and their compile errors, character converters and base64: URL parts and matching are uninterpreted functions.
- Mutexes: each guarded body is one step, `push_url` is two. The pool drains of `select_url` and the size reads before them count as one step, although spider.cpp:467 locks another pool's mutex.
- Floating point and unsigned wrap-around in the quota formulas (spider.cpp:432, 519-520, 616-617): quotas are exact rationals truncated toward zero.
- The order in which the maps of the program are iterated: any enumeration of the domains is allowed.
- Configuration reload during a run: the configuration is fixed, except that every selection step of the hand-off machine may have its own.
- Spiders.Spider.InsertUrl: the keys of `m_sites` are a parameter, since the model does not follow how picks fill that map; a full queue of size 0 with URLs to push is excluded, because the program then never returns.
- Spiders.Spider.SelectUrl: crawl threads touch the queue only during the wait before a rollover, where they pop and requeue at will and in the end only pop. The counts of links for the statistics file are left out.
- Spiders.Spider.SelectTurn: outside that wait it runs the select thread without interference except for pops; interleaved pushes are the subject of `HandOffs`.
- RoundLaws.RoundBudget: it does not count the backfill of priority domains, which `Budgets.SelectionBudget` adds. Both assume URLs in their own classes' pools and at most ten tenths for priority domains; `Rounds.PassWithinShare` needs neither.
- Budgets.SelectionWithinBudget: one direction only, for a single round; the exact condition is one on settings, `Overshoots.CanOvershootIff`.
- Overshoots.CanOvershootIff: URLs are in their own classes' pools and at most ten tenths go to priority domains, since `priority_quota` counts tenths; the loader checks no upper limit.
- HandOffLimits.ExactlyOnce: `CUrlPool::load_urls`, which queues without a look at the set, takes no part; the domain settings of each selection are arbitrary.
- HandOffLimits.OnceIffNoneInFlight: URLs under way are taken to have at least four characters and to carry the kind of their pool, as every push and drain ensures.
- DnsQueries.SetDnsQuery: the word of flag bits is a parameter, as its layout is the compiler's.
- DnsResponses.GetDnsResponse: the buffer has at least the 12 header bytes; a read past its end is reported instead of performed.
- DnsResponses.ReadsFirstAddress: records with longer names than a two-byte pointer are outside the theorem, the parser assumes that form.
- Lines.FilterHeadTailBlank: on a line of blanks and zeros only, the source runs below the start of the buffer; here the text is empty. The window of 5120 characters may not be longer than the buffer of `max_url_len` + 1, so `max_url_len` is at least 5119. The shipped value 4096 (conf/spider.conf:28) is not covered: there trimming starts behind the end of the 4097-byte buffer.
- ListFiles.LoadInputUrls: the same limit on `max_url_len`. Building the URL, the push to the pools and the seed flag that follow in the loop are left out.
- UrlRecognizers.UrlRecognizer.LoadConf: where the source loops for ever adding rules, the method stops with the outcome `Hangs`; `RuleEnds` relates that to the loops without this exit.
- CrawlThreads.CrawlThread.CrawlOnce: fetch results are taken by their number in the pass, so which URL and address a fetch uses is not modelled; the page body, the size check, link extraction and the output files after a successful fetch are left out.
- `next_round`, `transfer`, `CSpider::load_conf`, `load_urls`, `insert_level_info`, `append_error`, `print_conf`, page output and the UTF-8 converter: plumbing or data only.
- The carried lists after a rollover belong to the next generation; which list file holds which kind then is not claimed.
