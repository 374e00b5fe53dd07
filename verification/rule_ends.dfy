/** Whether the rule loader returns. Its loops over item and normalize rules do not look for the end of the
    file, where every further read gives an empty line; here they run without the early exit that the
    model of the parser takes there. */
module RuleEnds {
  import opened Options
  import opened Lines
  import opened UrlRecognizers
  import opened RuleFiles

  // ---------- one loop ----------

  /** The state of the loop over the rules of a kind after at most `n` rounds. */
  function Rounds(rules: Rules, domain: string, kind: Kind, p: string, rest: List<string>, n: nat): (r: Parse)
    ensures Len(r.rest) <= Len(rest)
    decreases n
  {
    if n == 0 || Stops(kind, p) then Parse(Ok, rules, p, rest)
    else Rounds(Add(rules, domain, kind, RuleOf(kind, p)), domain, kind, Head(rest), Tail(rest), n - 1)
  }

  lemma {:induction false} RunsOn(rules: Rules, domain: string, kind: Kind, p: string, rest: List<string>, n: nat)
    requires kind != Category && NoneStops(kind, Cons(p, rest))
    ensures !Stops(kind, Rounds(rules, domain, kind, p, rest, n).p)
    decreases n
  {
    if n > 0 {
      RunsOn(Add(rules, domain, kind, RuleOf(kind, p)), domain, kind, Head(rest), Tail(rest), n - 1);
    }
  }

  lemma {:induction false} StopsAtMark(rules: Rules, domain: string, kind: Kind, p: string, rest: List<string>)
      returns (n: nat)
    requires !NoneStops(kind, Cons(p, rest))
    ensures Stops(kind, Rounds(rules, domain, kind, p, rest, n).p)
    decreases rest
  {
    if Stops(kind, p) {
      n := 0;
    } else {
      n := StopsAtMark(Add(rules, domain, kind, RuleOf(kind, p)), domain, kind, rest.head, rest.tail);
      n := n + 1;
    }
  }

  predicate StoppedBy(rules: Rules, domain: string, kind: Kind, p: string, rest: List<string>, n: nat) {
    Stops(kind, Rounds(rules, domain, kind, p, rest, n).p)
  }

  /** The loop over item or normalize rules never stops exactly when no line up to the end of the file is
      the mark that ends the list. */
  lemma NeverStopsIff(rules: Rules, domain: string, kind: Kind, p: string, rest: List<string>)
    requires kind != Category
    ensures (forall n :: !StoppedBy(rules, domain, kind, p, rest, n)) <==> NoneStops(kind, Cons(p, rest))
  {
    if NoneStops(kind, Cons(p, rest)) {
      forall n
        ensures !StoppedBy(rules, domain, kind, p, rest, n)
      {
        RunsOn(rules, domain, kind, p, rest, n);
      }
    } else {
      var n := StopsAtMark(rules, domain, kind, p, rest);
      assert StoppedBy(rules, domain, kind, p, rest, n);
    }
  }

  // ---------- the whole loader ----------

  /** The loop, if it stops within `n` rounds. */
  function Limited(rules: Rules, domain: string, kind: Kind, texts: List<string>, n: nat): (r: Option<Parse>)
    ensures r.Some? ==> Len(r.value.rest) <= Len(texts)
  {
    var r := Rounds(rules, domain, kind, Head(texts), Tail(texts), n);
    if Stops(kind, r.p) then Some(r) else None
  }

  function LimitedCategories(domain: string, s: Option<Parse>, n: nat): (r: Option<Parse>)
    ensures r.Some? ==> s.Some? && Len(r.value.rest) <= Len(s.value.rest)
  {
    if s.None? then None
    else if s.value.p != "<category>" then Some(s.value.(status := Bad))
    else Limited(s.value.rules, domain, Category, s.value.rest, n)
  }

  function LimitedNorms(domain: string, s: Option<Parse>, n: nat): (r: Option<Parse>)
    ensures r.Some? ==> s.Some? && Len(r.value.rest) <= Len(s.value.rest)
  {
    if s.None? then None
    else LimitedCategories(domain, Limited(s.value.rules, domain, Normalize, s.value.rest, n), n)
  }

  function LimitedBody(rules: Rules, domain: string, texts: List<string>, n: nat): (r: Option<Parse>)
    ensures r.Some? ==> Len(r.value.rest) <= Len(texts)
  {
    if !HasPrefix(Head(texts), "<item>") then Some(Parse(Bad, rules, Head(texts), Tail(texts)))
    else LimitedNorms(domain, Limited(rules, domain, Item, Tail(texts), n), n)
  }

  function LimitedSection(rules: Rules, domain: string, p: string, rest: List<string>, n: nat): (r: Option<Parse>)
    ensures r.Some? ==> Len(r.value.rest) <= Len(rest)
  {
    if IsHeader(p) && p[|p| - 1] != ']' then Some(Parse(Bad, rules, p, rest))
    else
      LimitedBody(if IsHeader(p) then Declare(rules, DomainAt(domain, p)) else rules, DomainAt(domain, p), rest, n)
  }

  /** The loader without any early exit, given up when one of its rule loops takes more than `n` rounds. */
  function LimitedLoad(rules: Rules, domain: string, texts: List<string>, n: nat): Option<Parse>
    decreases Len(texts)
  {
    if texts.Nil? then Some(Parse(Ok, rules, "", Nil))
    else if Skipped(texts.head) then LimitedLoad(rules, domain, texts.tail, n)
    else
      var s := LimitedSection(rules, domain, texts.head, texts.tail, n);
      if s.None? || s.value.status != Ok then s
      else LimitedLoad(s.value.rules, DomainAt(domain, texts.head), s.value.rest, n)
  }

  /** What a limited run gives, given what the parser with the early exit gives. */
  predicate Agrees(limited: Option<Parse>, s: Parse, enough: bool) {
    && (limited.Some? ==> s.status != Hangs && limited.value == s)
    && (enough && s.status != Hangs ==> limited.Some?)
  }

  lemma {:induction false} LoopAgrees(rules: Rules, domain: string, kind: Kind, p: string, rest: List<string>, n: nat)
    ensures var r := Rounds(rules, domain, kind, p, rest, n);
            Agrees(if Stops(kind, r.p) then Some(r) else None, Collect(rules, domain, kind, p, rest), n > Len(rest))
    decreases n
  {
    if !Stops(kind, p) {
      if rest.Nil? && kind != Category {
        RunsOn(rules, domain, kind, p, rest, n);
      } else if n > 0 {
        LoopAgrees(Add(rules, domain, kind, RuleOf(kind, p)), domain, kind, Head(rest), Tail(rest), n - 1);
        EmptyEnds(Add(rules, domain, kind, RuleOf(kind, p)), domain, n - 1);
      }
    }
  }

  lemma EmptyEnds(rules: Rules, domain: string, n: nat)
    ensures Rounds(rules, domain, Category, "", Nil, n) == Parse(Ok, rules, "", Nil)
  {
  }

  lemma LimitedAgrees(rules: Rules, domain: string, kind: Kind, texts: List<string>, n: nat)
    ensures Agrees(Limited(rules, domain, kind, texts, n), Collect(rules, domain, kind, Head(texts), Tail(texts)),
                   n > Len(texts))
  {
    LoopAgrees(rules, domain, kind, Head(texts), Tail(texts), n);
  }

  lemma BodyAgrees(rules: Rules, domain: string, texts: List<string>, n: nat)
    ensures Agrees(LimitedBody(rules, domain, texts, n), Body(rules, domain, texts), n > Len(texts))
  {
    if HasPrefix(Head(texts), "<item>") {
      var items := Tail(texts);
      LimitedAgrees(rules, domain, Item, items, n);
      BodyParts(rules, domain, texts, n);
      NormsAgree(domain, Limited(rules, domain, Item, items, n),
                 Collect(rules, domain, Item, Head(items), Tail(items)), n, n > Len(texts));
    }
  }

  lemma BodyParts(rules: Rules, domain: string, texts: List<string>, n: nat)
    requires HasPrefix(Head(texts), "<item>")
    ensures var items := Tail(texts);
            && Body(rules, domain, texts) == AfterItems(domain, Collect(rules, domain, Item, Head(items), Tail(items)))
            && LimitedBody(rules, domain, texts, n) == LimitedNorms(domain, Limited(rules, domain, Item, items, n), n)
  {
  }

  lemma NormsAgree(domain: string, limited: Option<Parse>, s: Parse, n: nat, enough: bool)
    requires Agrees(limited, s, enough) && s.status != Bad && (enough ==> n > Len(s.rest))
    ensures Agrees(LimitedNorms(domain, limited, n), AfterItems(domain, s), enough)
  {
    if limited.Some? {
      LimitedAgrees(s.rules, domain, Normalize, s.rest, n);
      CategoriesAgree(domain, Limited(s.rules, domain, Normalize, s.rest, n),
                      Collect(s.rules, domain, Normalize, Head(s.rest), Tail(s.rest)), n, enough);
    }
  }

  lemma CategoriesAgree(domain: string, limited: Option<Parse>, s: Parse, n: nat, enough: bool)
    requires Agrees(limited, s, enough) && s.status != Bad && (enough ==> n > Len(s.rest))
    ensures Agrees(LimitedCategories(domain, limited, n), AfterNormalize(domain, s), enough)
  {
    if limited.Some? && s.p == "<category>" {
      LimitedAgrees(s.rules, domain, Category, s.rest, n);
    }
  }

  lemma {:induction false} LoadAgrees(rules: Rules, domain: string, texts: List<string>, n: nat)
    ensures Agrees(LimitedLoad(rules, domain, texts, n), Load(rules, domain, texts), n > Len(texts))
    decreases Len(texts)
  {
    if texts.Cons? {
      var p := texts.head;
      if Skipped(p) {
        LoadAgrees(rules, domain, texts.tail, n);
      } else {
        var s := ReadSection(rules, domain, p, texts.tail);
        SectionAgrees(rules, domain, p, texts.tail, n);
        LoadAgrees(s.rules, DomainAt(domain, p), s.rest, n);
      }
    }
  }

  lemma SectionAgrees(rules: Rules, domain: string, p: string, rest: List<string>, n: nat)
    ensures Agrees(LimitedSection(rules, domain, p, rest, n), ReadSection(rules, domain, p, rest), n > Len(rest))
  {
    if !(IsHeader(p) && p[|p| - 1] != ']') {
      var d := DomainAt(domain, p);
      BodyAgrees(if IsHeader(p) then Declare(rules, d) else rules, d, rest, n);
    }
  }

  // ---------- the condition on the file ----------

  /** The first line that ends a list, and the lines behind it. */
  function Mark(kind: Kind, texts: List<string>): string {
    if texts.Nil? then "" else if Stops(kind, texts.head) then texts.head else Mark(kind, texts.tail)
  }

  function Behind(kind: Kind, texts: List<string>): (rest: List<string>)
    ensures Len(rest) <= Len(texts)
  {
    if texts.Nil? then Nil else if Stops(kind, texts.head) then texts.tail else Behind(kind, texts.tail)
  }

  /** The lines of a section behind its header: the marks of its item and normalize lists are looked for
      one after the other, and one is missing. */
  predicate Unmarked(texts: List<string>) {
    && HasPrefix(Head(texts), "<item>")
    && (NoneStops(Item, Tail(texts)) || NoneStops(Normalize, Behind(Item, Tail(texts))))
  }

  /** A section that is read to its end, and the lines behind it. */
  predicate Complete(texts: List<string>) {
    && HasPrefix(Head(texts), "<item>") && !Unmarked(texts)
    && Mark(Normalize, Behind(Item, Tail(texts))) == "<category>"
  }

  function Next(texts: List<string>): (rest: List<string>)
    ensures Len(rest) <= Len(texts)
  {
    Behind(Category, Behind(Normalize, Behind(Item, Tail(texts))))
  }

  /** Some section that the loader reaches lacks a mark. */
  predicate LacksMark(texts: List<string>)
    decreases Len(texts)
  {
    texts.Cons? &&
    if Skipped(texts.head) then LacksMark(texts.tail)
    else if IsHeader(texts.head) && texts.head[|texts.head| - 1] != ']' then false
    else Unmarked(texts.tail) || (Complete(texts.tail) && LacksMark(Next(texts.tail)))
  }

  lemma {:induction false} CollectMeaning(rules: Rules, domain: string, kind: Kind, p: string, rest: List<string>)
    ensures var r := Collect(rules, domain, kind, p, rest); var texts := Cons(p, rest);
            && (r.status == Hangs <==> kind != Category && NoneStops(kind, texts))
            && r.status != Bad
            && (r.status == Ok ==> r.p == Mark(kind, texts) && r.rest == Behind(kind, texts))
    decreases Len(rest), |p|
  {
    if !Stops(kind, p) && !(rest.Nil? && kind != Category) {
      CollectMeaning(Add(rules, domain, kind, RuleOf(kind, p)), domain, kind, Head(rest), Tail(rest));
    }
  }

  lemma CollectEnds(rules: Rules, domain: string, kind: Kind, texts: List<string>)
    ensures var r := Collect(rules, domain, kind, Head(texts), Tail(texts));
            && (r.status == Hangs <==> kind != Category && NoneStops(kind, texts))
            && r.status != Bad
            && (r.status == Ok ==> r.p == Mark(kind, texts) && r.rest == Behind(kind, texts))
  {
    CollectMeaning(rules, domain, kind, Head(texts), Tail(texts));
  }

  lemma BodyEnds(rules: Rules, domain: string, texts: List<string>)
    ensures var r := Body(rules, domain, texts);
            && (r.status == Hangs <==> Unmarked(texts))
            && (r.status == Ok <==> Complete(texts))
            && (r.status == Ok ==> r.rest == Next(texts))
  {
    if HasPrefix(Head(texts), "<item>") {
      CollectEnds(rules, domain, Item, Tail(texts));
      var s := Collect(rules, domain, Item, Head(Tail(texts)), Tail(Tail(texts)));
      if s.status == Ok {
        CollectEnds(s.rules, domain, Normalize, s.rest);
        var t := Collect(s.rules, domain, Normalize, Head(s.rest), Tail(s.rest));
        CollectEnds(t.rules, domain, Category, t.rest);
      }
    }
  }

  lemma {:induction false} HangsIffLacksMark(rules: Rules, domain: string, texts: List<string>)
    ensures Load(rules, domain, texts).status == Hangs <==> LacksMark(texts)
    decreases Len(texts)
  {
    if texts.Cons? {
      var p := texts.head;
      if Skipped(p) {
        HangsIffLacksMark(rules, domain, texts.tail);
      } else if !(IsHeader(p) && p[|p| - 1] != ']') {
        var d := DomainAt(domain, p);
        var s := ReadSection(rules, domain, p, texts.tail);
        BodyEnds(if IsHeader(p) then Declare(rules, d) else rules, d, texts.tail);
        HangsIffLacksMark(s.rules, d, s.rest);
      }
    }
  }

  // ---------- the results ----------

  /** The loader returns with no rule loop taking more than `n` rounds. */
  predicate ReturnsWithin(texts: List<string>, n: nat) {
    LimitedLoad(map[], "", texts, n).Some?
  }

  /** For every file: the loader returns, after some number of rounds of its loops, exactly when no section
      that it reaches lacks the mark that ends its item or its normalize list. */
  lemma ReturnsIffMarked(content: string)
    ensures (exists n :: ReturnsWithin(TextsOf(content), n)) <==> !LacksMark(TextsOf(content))
  {
    var texts := TextsOf(content);
    HangsIffLacksMark(map[], "", texts);
    if LacksMark(texts) {
      forall n
        ensures !ReturnsWithin(texts, n)
      {
        LoadAgrees(map[], "", texts, n);
      }
    } else {
      LoadAgrees(map[], "", texts, Len(texts) + 1);
      assert ReturnsWithin(texts, Len(texts) + 1);
    }
  }

  /** When the loader returns, the model of the parser gives the same outcome and rules. */
  lemma ReturnsAsParsed(texts: List<string>, n: nat)
    requires ReturnsWithin(texts, n)
    ensures LimitedLoad(map[], "", texts, n).value == Load(map[], "", texts)
  {
    LoadAgrees(map[], "", texts, n);
  }

  const UNFINISHED := Cons("[a]", Cons("<item>", Nil))

  lemma UnfinishedLines()
    ensures AllNeat(UNFINISHED) && Append(UNFINISHED, Cons("", Nil)) == Cons("[a]", Cons("<item>", Cons("", Nil)))
    ensures WholeLines(UNFINISHED) == "[a]\n<item>\n"
  {
  }

  lemma UnfinishedLacksMark()
    ensures LacksMark(Cons("[a]", Cons("<item>", Cons("", Nil))))
  {
    assert HasPrefix("<item>", "<item>") && !HasPrefix("", "<normalize>");
    assert Unmarked(Cons("<item>", Cons("", Nil)));
  }

  /** A file on which the loader runs for ever: a section that ends behind its first mark. */
  lemma UnfinishedSectionHangs(content: string, n: nat)
    requires content == "[a]\n<item>\n"
    ensures !ReturnsWithin(TextsOf(content), n)
  {
    UnfinishedLines();
    UnfinishedLacksMark();
    ReadsNeatLines(UNFINISHED);
    ReturnsIffMarked(content);
  }
}
