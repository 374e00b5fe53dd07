/** What the rule loader does with lines that are not as the file format has them (url_recognizer.cpp:53-170):
    text behind marks and expressions is ignored, and a malformed section ends the loading. */
module RuleErrors {
  import opened Options
  import opened Lines
  import opened UrlRecognizers
  import opened RuleFiles

  // ---------- text that is ignored ----------

  /** In an item or category line everything from the first blank on is ignored. */
  lemma RestIgnored(kind: Kind, regex: string, more: string)
    requires kind != Normalize && IsWord(regex) && (more != "" ==> more[0] == ' ' || more[0] == '\t')
    ensures RuleOf(kind, regex + more) == Rule(regex, "")
  {
    var p := regex + more;
    forall j | 0 <= j < |regex|
      ensures !Separates(p[j])
    {
      assert p[j] == regex[j] && regex[j] in regex;
    }
    TokenIs(p, |regex|);
    assert p[..|regex|] == regex;
  }

  /** Comments and empty lines between sections are skipped. */
  lemma CommentSkipped(rules: Rules, domain: string, text: string, rest: List<string>)
    ensures Load(rules, domain, Cons("#" + text, rest)) == Load(rules, domain, rest)
    ensures Load(rules, domain, Cons("", rest)) == Load(rules, domain, rest)
  {
    assert ("#" + text)[0] == '#';
  }

  /** Behind the mark of the items anything may stand. */
  lemma ItemMarkOpen(rules: Rules, domain: string, text: string, rest: List<string>)
    ensures Body(rules, domain, Cons("<item>" + text, rest)) == Body(rules, domain, Cons("<item>", rest))
  {
    assert ("<item>" + text)[..6] == "<item>";
  }

  /** The list of items ends at any line that begins with the mark of the next list, and nothing of that line
      is kept. */
  lemma NormalizeMarkOpen(rules: Rules, domain: string, text: string, rest: List<string>)
    ensures var r := Collect(rules, domain, Item, "<normalize>" + text, rest);
            r.status == Ok && r.rules == rules && r.rest == rest
  {
    assert ("<normalize>" + text)[..11] == "<normalize>";
  }

  // ---------- sections behind well-formed ones ----------

  /** The rules after some well-formed sections, whatever follows them, and the domain of the last. */
  ghost predicate Reached(
      rules: Rules, domain: string, sections: List<Section>, rest: List<string>, after: Rules, last: string,
      d: string, k: Kind)
  {
    && Load(rules, domain, FileLines(sections, rest)) == Load(after, last, rest)
    && Of(after, d, k) == Of(rules, d, k) + Meant(sections, d, k, false)
    && (d in after <==> d in rules || IsNamed(sections, d))
  }

  lemma {:induction false} SectionsLoad(
      rules: Rules, domain: string, sections: List<Section>, rest: List<string>, d: string, k: Kind)
      returns (after: Rules, last: string)
    requires GoodFile(sections)
    ensures Reached(rules, domain, sections, rest, after, last, d, k)
    decreases sections
  {
    match sections {
      case Nil =>
        after, last := rules, domain;
      case Cons(s, more) =>
        var mid := SectionLoads(rules, domain, s, FileLines(more, rest), d, k);
        after, last := SectionsLoad(mid, s.domain, more, rest, d, k);
        ReachedOneMore(rules, domain, mid, s, more, rest, after, last, d, k);
    }
  }

  lemma ReachedOneMore(
      rules: Rules, domain: string, mid: Rules, s: Section, more: List<Section>, rest: List<string>,
      after: Rules, last: string, d: string, k: Kind)
    requires Load(rules, domain, SectionLines(s, FileLines(more, rest))) == Load(mid, s.domain, FileLines(more, rest))
    requires Of(mid, d, k) == Of(rules, d, k) + if d == s.domain then RulesOf(s, k, false) else []
    requires d in mid <==> d in rules || d == s.domain
    requires Reached(mid, s.domain, more, rest, after, last, d, k)
    ensures Reached(rules, domain, Cons(s, more), rest, after, last, d, k)
  {
    var mine := if d == s.domain then RulesOf(s, k, false) else [];
    ThreeParts(Of(rules, d, k), mine, Meant(more, d, k, false));
    assert Meant(Cons(s, more), d, k, false) == mine + Meant(more, d, k, false);
  }

  // ---------- malformed sections ----------

  /** The lines of a section that the loader does not accept: its header is not closed, its first line is no
      mark of items, or the mark of its categories has text behind it. */
  datatype Malformed =
    | OpenHeader(text: string, rest: List<string>)
    | NoItemMark(domain: string, line: string, rest: List<string>)
    | LongCategoryMark(domain: string, items: List<string>, norms: List<NormLine>, text: string, rest: List<string>)
  {
    predicate Valid() {
      match this
      case OpenHeader(text, _) => text == "" || text[|text| - 1] != ']'
      case NoItemMark(_, line, _) => |line| < 6 || line[..6] != "<item>"
      case LongCategoryMark(_, items, norms, text, _) =>
        text != "" && NoneStops(Item, items) && NoneStops(Normalize, NormTexts(norms))
    }

    function Lines(): List<string> {
      match this
      case OpenHeader(text, rest) => Cons("[" + text, rest)
      case NoItemMark(domain, line, rest) => Cons("[" + domain + "]", Cons(line, rest))
      case LongCategoryMark(domain, items, norms, text, rest) =>
        Cons("[" + domain + "]", Cons("<item>",
          Append(items, Cons("<normalize>", Append(NormTexts(norms), Cons("<category>" + text, rest))))))
    }
  }

  lemma HeaderIs(rules: Rules, domain: string, name: string, texts: List<string>)
    ensures ReadSection(rules, domain, "[" + name + "]", texts) == Body(Declare(rules, name), name, texts)
    ensures !Skipped("[" + name + "]")
  {
    var header := "[" + name + "]";
    assert header[0] == '[' && header[|header| - 1] == ']' && header[1..|header| - 1] == name;
  }

  lemma LongMarkFails(rules: Rules, m: Malformed)
    requires m.LongCategoryMark? && m.Valid()
    ensures Body(rules, m.domain, m.Lines().tail).status == Bad
  {
    var mark := "<category>" + m.text;
    var norms := Append(NormTexts(m.norms), Cons(mark, m.rest));
    var items := Append(m.items, Cons("<normalize>", norms));
    assert mark[..10] == "<category>";
    CollectsLines(rules, m.domain, Item, m.items, "<normalize>", norms, "", Item);
    var s1 := Collect(rules, m.domain, Item, items.head, items.tail);
    CollectsLines(s1.rules, m.domain, Normalize, NormTexts(m.norms), mark, m.rest, "", Item);
    BodyStart(rules, m.domain, items);
  }

  /** Such a section, at the start of what is left of the file, ends the loading. */
  lemma MalformedFails(rules: Rules, domain: string, m: Malformed)
    requires m.Valid()
    ensures Load(rules, domain, m.Lines()).status == Bad
  {
    match m {
      case OpenHeader(text, _) =>
        var p := "[" + text;
        assert p[0] == '[' && p[|p| - 1] == if text == "" then '[' else text[|text| - 1];
      case NoItemMark(name, _, _) =>
        HeaderIs(rules, domain, name, m.Lines().tail);
      case LongCategoryMark(name, _, _, _, _) =>
        HeaderIs(rules, domain, name, m.Lines().tail);
        LongMarkFails(Declare(rules, name), m);
    }
  }

  /** Whatever well-formed sections come first, a malformed one makes the loader fail; when the header is not
      closed, the rules of the sections before it stay in the table. */
  lemma MalformedFileFails(sections: List<Section>, m: Malformed, d: string, k: Kind)
    requires GoodFile(sections) && m.Valid()
    ensures var r := Load(map[], "", FileLines(sections, m.Lines()));
            && r.status == Bad
            && (m.OpenHeader? ==> Of(r.rules, d, k) == Meant(sections, d, k, false)
                                  && (d in r.rules <==> IsNamed(sections, d)))
  {
    var after, last := SectionsLoad(map[], "", sections, m.Lines(), d, k);
    MalformedFails(after, last, m);
  }

  /** A line that is neither skipped nor a header takes the place of one: what follows belongs to the domain
      before it. */
  lemma HeaderlessSection(rules: Rules, s: Section, p: string, rest: List<string>, d: string, k: Kind)
      returns (after: Rules)
    requires GoodSection(s) && !Skipped(p) && !IsHeader(p)
    ensures Load(rules, s.domain, Cons(p, Cons("<item>", BodyLines(s, rest)))) == Load(after, s.domain, rest)
    ensures Of(after, d, k) == Of(rules, d, k) + if d == s.domain then RulesOf(s, k, false) else []
  {
    var r := BodyLoads(rules, s, rest, d, k);
    after := r.rules;
  }
}
