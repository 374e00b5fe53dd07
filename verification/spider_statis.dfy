/** The per-domain statistics (spider_statis.cpp) that the select thread writes. */
module Statistics {
  import opened Options

  /** `isShield` and `isSeed` are integers in the program and compared with 0 and 1. */
  datatype DomainAttr = DomainAttr(isShield: int, isSeed: int)

  /** One line of the statistics file: what was selected for a domain. */
  datatype Line = Line(domain: string, cateSelect: int, itemSelect: int)

  /** A missing counter reads as 0. */
  function Count(m: map<string, int>, domain: string): int {
    if domain in m then m[domain] else 0
  }

  /** The names of `m_domain` in iteration order: each key once. */
  ghost predicate Enumerates(order: seq<string>, keys: set<string>) {
    && (forall i, j :: 0 <= i < j < |order| ==> order[i] != order[j])
    && (forall d :: d in keys <==> d in order)
  }

  class SpiderStatis {
    var domains: map<string, DomainAttr>
    var cateSelect: map<string, int>
    var itemSelect: map<string, int>

    constructor ()
      ensures domains == map[] && cateSelect == map[] && itemSelect == map[]
    {
      domains, cateSelect, itemSelect := map[], map[], map[];
    }

    method GetDomainCateSelectNum(domain: string) returns (n: int)
      ensures n == Count(cateSelect, domain) == if domain in cateSelect then cateSelect[domain] else 0
    {
      if domain !in cateSelect {
        return 0;
      }
      return cateSelect[domain];
    }

    method GetDomainItemSelectNum(domain: string) returns (n: int)
      ensures n == Count(itemSelect, domain) == if domain in itemSelect then itemSelect[domain] else 0
    {
      if domain !in itemSelect {
        return 0;
      }
      return itemSelect[domain];
    }

    method SetDomainCateSelectNum(domain: string, n: int)
      modifies this`cateSelect
      ensures cateSelect == old(cateSelect)[domain := n]
    {
      cateSelect := cateSelect[domain := n];
    }

    method SetDomainItemSelectNum(domain: string, n: int)
      modifies this`itemSelect
      ensures itemSelect == old(itemSelect)[domain := n]
    {
      itemSelect := itemSelect[domain := n];
    }

    /** `set_statis_to_file`: report every domain of `m_domain`, then reset its select counters. */
    method SetStatisToFile(order: seq<string>) returns (report: seq<Line>)
      requires Enumerates(order, domains.Keys)
      modifies this`cateSelect, this`itemSelect
      ensures |report| == |order|
      ensures forall i :: 0 <= i < |order| ==>
                report[i] == Line(order[i], Count(old(cateSelect), order[i]), Count(old(itemSelect), order[i]))
      ensures forall d <- order :: Count(cateSelect, d) == 0 && Count(itemSelect, d) == 0
      ensures forall d :: d !in order ==>
                Count(cateSelect, d) == Count(old(cateSelect), d) && Count(itemSelect, d) == Count(old(itemSelect), d)
    {
      report := [];
      for k := 0 to |order|
        invariant |report| == k
        invariant forall i :: 0 <= i < k ==>
                    report[i] == Line(order[i], Count(old(cateSelect), order[i]), Count(old(itemSelect), order[i]))
        invariant forall i :: 0 <= i < k ==> Count(cateSelect, order[i]) == 0 && Count(itemSelect, order[i]) == 0
        invariant forall d :: d !in order[..k] ==>
                    Count(cateSelect, d) == Count(old(cateSelect), d)
                    && Count(itemSelect, d) == Count(old(itemSelect), d)
      {
        var c := GetDomainCateSelectNum(order[k]);
        var i := GetDomainItemSelectNum(order[k]);
        report := report + [Line(order[k], c, i)];
        SetDomainCateSelectNum(order[k], 0);
        SetDomainItemSelectNum(order[k], 0);
      }
      assert order[..|order|] == order;
    }
  }
}
