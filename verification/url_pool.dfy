/** The URL pool (urlpool.cpp): a queue of URLs with a set that remembers every URL
    queued through `push_url` since the last `clear_urls`. */
module UrlPools {
  import opened Options

  /** One URL. `kind` is the `type` field: 0 ordinary item, 1 ordinary category,
      2 priority item, 3 priority category. */
  datatype UrlInfo = UrlInfo(url: string, lastCrawlTime: int, domain: string, site: string, kind: int)

  const MIN_URL_LENGTH := 4

  /** The contents of a pool as a value. */
  datatype Pool = Pool(queue: seq<UrlInfo>, urls: set<string>)

  predicate LongUrls(s: seq<UrlInfo>) {
    forall u <- s :: |u.url| >= MIN_URL_LENGTH
  }

  class UrlPool {
    var queue: seq<UrlInfo>
    var urls: set<string>

    /** Every entry is long enough for `add_to_que` and `pop_url` to accept it. */
    ghost predicate Valid()
      reads this
    {
      LongUrls(queue)
    }

    ghost function Value(): Pool
      reads this
    {
      Pool(queue, urls)
    }

    constructor ()
      ensures Valid() && Value() == Pool([], {})
    {
      queue, urls := [], {};
    }

    /** The first critical section of `clear_urls`; the set still remembers. */
    method ClearQueue()
      modifies this`queue
      ensures Valid() && queue == []
    {
      queue := [];
    }

    /** The second critical section of `clear_urls`; what was queued since the first one stays. */
    method ClearSet()
      modifies this`urls
      ensures urls == {} && queue == old(queue)
    {
      urls := {};
    }

    /** `clear_urls` run without interference. */
    method ClearUrls()
      modifies this
      ensures Valid() && Value() == Pool([], {})
    {
      ClearQueue();
      ClearSet();
    }

    /** The first critical section of `push_url`: remember the URL if it is long enough and new. */
    method Claim(ui: UrlInfo) returns (added: bool)
      modifies this`urls
      ensures added <==> |ui.url| >= 4 && ui.url !in old(urls)
      ensures urls == if added then old(urls) + {ui.url} else old(urls)
    {
      added := false;
      if |ui.url| < MIN_URL_LENGTH {
        return;
      }
      if ui.url !in urls {
        urls := urls + {ui.url};
        added := true;
      }
    }

    /** The second critical section of `push_url`, reached only after a new claim. */
    method Enqueue(ui: UrlInfo)
      modifies this`queue
      ensures queue == old(queue) + [ui]
      ensures old(Valid()) && |ui.url| >= MIN_URL_LENGTH ==> Valid()
    {
      queue := queue + [ui];
    }

    /** `push_url` run without interference: the queue grows exactly by URLs not seen since the
        last clear. */
    method PushUrl(ui: UrlInfo)
      requires Valid()
      modifies this
      ensures Valid()
      ensures if |ui.url| >= 4 && ui.url !in old(urls)
              then Value() == Pool(old(queue) + [ui], old(urls) + {ui.url})
              else Value() == old(Value())
    {
      var added := Claim(ui);
      if added {
        Enqueue(ui);
      }
    }

    /** `add_to_que`: queue without consulting the set; short URLs are dropped. */
    method AddToQue(ui: UrlInfo)
      modifies this`queue
      ensures queue == if |ui.url| >= 4 then old(queue) + [ui] else old(queue)
      ensures old(Valid()) ==> Valid()
    {
      if |ui.url| < MIN_URL_LENGTH {
        return;
      }
      queue := queue + [ui];
    }

    /** One iteration of the loop of `pop_url`; None means the loop goes round again. On a
        non-empty valid pool an iteration always removes and returns the front. */
    method TryPopUrl() returns (r: Option<UrlInfo>)
      modifies this`queue
      ensures old(queue) == [] ==> r == None && queue == []
      ensures old(queue) != [] && |old(queue)[0].url| < MIN_URL_LENGTH ==> r == None && queue == old(queue)
      ensures old(Valid()) && old(queue) != [] ==> r == Some(old(queue)[0]) && [old(queue)[0]] + queue == old(queue)
      ensures old(Valid()) ==> Valid()
    {
      if queue == [] {
        return None;
      }
      var ui := queue[0];
      if |ui.url| < MIN_URL_LENGTH {
        return None;
      }
      queue := queue[1..];
      return Some(ui);
    }
  }
}
