/** What loading a rule file promises: for a well-formed file the rules of every domain are those of its
    sections in file order, and classification follows them. */
module RuleFiles {
  import opened Options
  import opened Lines
  import opened UrlRecognizers

  // ---------- well-formed files ----------

  /** A normalize line: the expression, the blanks behind it and the replacement. */
  datatype NormLine = NormLine(regex: string, gap: string, replacement: string)

  /** A section, and the comments and empty lines before it. */
  datatype Section = Section(
    comments: List<string>, domain: string, items: List<string>, norms: List<NormLine>, categories: List<string>)

  function NormText(n: NormLine): string {
    n.regex + n.gap + n.replacement
  }

  function NormTexts(norms: List<NormLine>): List<string> {
    match norms
    case Nil => Nil
    case Cons(n, rest) => Cons(NormText(n), NormTexts(rest))
  }

  function Append(a: List<string>, b: List<string>): List<string> {
    match a
    case Nil => b
    case Cons(h, t) => Cons(h, Append(t, b))
  }

  /** The lines of a section before other lines. */
  function SectionLines(s: Section, rest: List<string>): List<string> {
    Append(s.comments, Cons("[" + s.domain + "]", Cons("<item>", BodyLines(s, rest))))
  }

  function BodyLines(s: Section, rest: List<string>): List<string> {
    Append(s.items, Cons("<normalize>", Append(NormTexts(s.norms), Cons("<category>",
           Append(s.categories, Cons("", rest))))))
  }

  function FileLines(sections: List<Section>, rest: List<string>): List<string> {
    match sections
    case Nil => rest
    case Cons(s, more) => SectionLines(s, FileLines(more, rest))
  }

  predicate AllSkipped(comments: List<string>) {
    comments.Cons? ==> Skipped(comments.head) && AllSkipped(comments.tail)
  }

  predicate NoneStops(kind: Kind, lines: List<string>) {
    lines.Cons? ==> !Stops(kind, lines.head) && NoneStops(kind, lines.tail)
  }

  predicate IsWord(p: string) {
    forall c <- p :: !Separates(c)
  }

  predicate AllWords(lines: List<string>) {
    lines.Cons? ==> IsWord(lines.head) && AllWords(lines.tail)
  }

  predicate IsGap(p: string) {
    forall c <- p :: c == ' ' || c == '\t'
  }

  /** The gap is there with a replacement only, and the replacement does not begin with a blank. */
  predicate GoodNorm(n: NormLine) {
    && IsWord(n.regex) && IsGap(n.gap)
    && (n.replacement == "" <==> n.gap == "")
    && (n.replacement != "" ==> n.replacement[0] != ' ' && n.replacement[0] != '\t')
  }

  predicate GoodNorms(norms: List<NormLine>) {
    norms.Cons? ==> GoodNorm(norms.head) && GoodNorms(norms.tail)
  }

  /** No rule line can be taken for the mark that ends its list. */
  predicate GoodSection(s: Section) {
    && AllSkipped(s.comments)
    && NoneStops(Item, s.items) && AllWords(s.items)
    && NoneStops(Normalize, NormTexts(s.norms)) && GoodNorms(s.norms)
    && NoneStops(Category, s.categories) && AllWords(s.categories)
  }

  predicate GoodFile(sections: List<Section>) {
    sections.Cons? ==> GoodSection(sections.head) && GoodFile(sections.tail)
  }

  /** Every line fits the buffer and has no blank at either end. */
  predicate Neat(line: string) {
    Plain(line, LINE_LEN) && (line != "" ==> !IsBlank(line[0]) && !IsBlank(line[|line| - 1]))
  }

  predicate AllNeat(lines: List<string>) {
    lines.Cons? ==> Neat(lines.head) && AllNeat(lines.tail)
  }

  // ---------- the rules that a file means ----------

  function Words(lines: List<string>): seq<Rule> {
    match lines
    case Nil => []
    case Cons(word, rest) => [Rule(word, "")] + Words(rest)
  }

  /** The rules of normalize lines; `all` tells whether a replacement of one character behind one blank
      counts, which the loader drops. */
  function Norms(norms: List<NormLine>, all: bool): seq<Rule> {
    match norms
    case Nil => []
    case Cons(n, rest) =>
      [Rule(n.regex, if all || |n.gap| + |n.replacement| > 2 then n.replacement else "")] + Norms(rest, all)
  }

  function RulesOf(s: Section, kind: Kind, all: bool): seq<Rule> {
    match kind
    case Item => Words(s.items)
    case Normalize => Norms(s.norms, all)
    case Category => Words(s.categories)
  }

  predicate IsNamed(sections: List<Section>, domain: string) {
    sections.Cons? && (sections.head.domain == domain || IsNamed(sections.tail, domain))
  }

  /** The concatenation, in file order, over all sections that name the domain. */
  function Meant(sections: List<Section>, domain: string, kind: Kind, all: bool): seq<Rule> {
    match sections
    case Nil => []
    case Cons(s, rest) =>
      (if s.domain == domain then RulesOf(s, kind, all) else []) + Meant(rest, domain, kind, all)
  }

  // ---------- the loops on well-formed lists ----------

  /** The rules that the lines of a list become. */
  function Parsed(kind: Kind, lines: List<string>): seq<Rule> {
    match lines
    case Nil => []
    case Cons(line, rest) => [RuleOf(kind, line)] + Parsed(kind, rest)
  }

  /** For the rules of domain `d` and kind `k`, the table grew by `more` if they are those of `domain` and
      `kind`, and not otherwise; with a first rule the domain is there. */
  predicate Grown(rules: Rules, rules': Rules, domain: string, kind: Kind, more: seq<Rule>, d: string, k: Kind) {
    && (d in rules' <==> d in rules || (d == domain && more != []))
    && Of(rules', d, k) == Of(rules, d, k) + if d == domain && k == kind then more else []
  }

  lemma AddGrows(rules: Rules, domain: string, kind: Kind, rule: Rule, d: string, k: Kind)
    ensures Grown(rules, Add(rules, domain, kind, rule), domain, kind, [rule], d, k)
  {
  }

  lemma GrownTwice(a: Rules, b: Rules, c: Rules, domain: string, kind: Kind,
                   x: seq<Rule>, y: seq<Rule>, d: string, k: Kind)
    requires Grown(a, b, domain, kind, x, d, k) && Grown(b, c, domain, kind, y, d, k)
    ensures Grown(a, c, domain, kind, x + y, d, k)
  {
  }

  lemma CollectStep(rules: Rules, domain: string, kind: Kind, p: string, rest: List<string>)
    requires !Stops(kind, p) && rest.Cons?
    ensures Collect(rules, domain, kind, p, rest)
         == Collect(Add(rules, domain, kind, RuleOf(kind, p)), domain, kind, rest.head, rest.tail)
  {
  }

  /** The loop took a list of lines and stopped at the mark. */
  ghost predicate Took(rules: Rules, r: Parse, domain: string, kind: Kind, list: seq<Rule>,
                       mark: string, rest: List<string>, d: string, k: Kind) {
    r.status == Ok && r.p == mark && r.rest == rest && Grown(rules, r.rules, domain, kind, list, d, k)
  }

  lemma {:induction false} CollectsLines(
      rules: Rules, domain: string, kind: Kind, lines: List<string>, mark: string, rest: List<string>,
      d: string, k: Kind)
    requires NoneStops(kind, lines) && Stops(kind, mark)
    ensures var texts := Append(lines, Cons(mark, rest));
            Took(rules, Collect(rules, domain, kind, texts.head, texts.tail),
                 domain, kind, Parsed(kind, lines), mark, rest, d, k)
    decreases lines
  {
    if lines.Cons? {
      var x := RuleOf(kind, lines.head);
      var added := Add(rules, domain, kind, x);
      var texts := Append(lines.tail, Cons(mark, rest));
      AddGrows(rules, domain, kind, x, d, k);
      CollectsLines(added, domain, kind, lines.tail, mark, rest, d, k);
      CollectStep(rules, domain, kind, lines.head, texts);
      var r := Collect(added, domain, kind, texts.head, texts.tail);
      GrownTwice(rules, added, r.rules, domain, kind, [x], Parsed(kind, lines.tail), d, k);
    }
  }

  // ---------- single lines ----------

  lemma WordRule(kind: Kind, word: string)
    requires IsWord(word) && kind != Normalize
    ensures RuleOf(kind, word) == Rule(word, "")
  {
    forall j | 0 <= j < |word|
      ensures !Separates(word[j])
    {
      assert word[j] in word;
    }
    TokenIs(word, |word|);
    assert word[..|word|] == word;
  }

  lemma {:induction false} ParsedWords(kind: Kind, lines: List<string>)
    requires AllWords(lines) && kind != Normalize
    ensures Parsed(kind, lines) == Words(lines)
  {
    if lines.Cons? {
      WordRule(kind, lines.head);
      ParsedWords(kind, lines.tail);
    }
  }

  lemma NormRule(n: NormLine)
    requires GoodNorm(n)
    ensures RuleOf(Normalize, NormText(n)) == Rule(n.regex, if |n.gap| + |n.replacement| > 2 then n.replacement else "")
  {
    var p, g, r := NormText(n), |n.gap|, |n.regex|;
    forall j | 0 <= j < r
      ensures !Separates(p[j])
    {
      assert p[j] == n.regex[j] && n.regex[j] in n.regex;
    }
    if g > 0 {
      assert p[r] == n.gap[0] && n.gap[0] in n.gap;
    }
    TokenIs(p, r);
    assert p[..r] == n.regex;
    if g > 0 {
      forall j | r <= j < r + g
        ensures p[j] == ' ' || p[j] == '\t'
      {
        assert p[j] == n.gap[j - r] && n.gap[j - r] in n.gap;
      }
      assert p[r + g] == n.replacement[0];
      SkipIs(p, r + 1, r + g);
      assert p[r + g..] == n.replacement;
    }
  }

  lemma TokenIs(p: string, k: nat)
    requires k <= |p| && (k < |p| ==> Separates(p[k])) && forall j :: 0 <= j < k ==> !Separates(p[j])
    ensures TokenEnd(p, 0) == k
  {
  }

  lemma SkipIs(p: string, i: nat, k: nat)
    requires i <= k < |p| && p[k] != ' ' && p[k] != '\t' && forall j :: i <= j < k ==> p[j] == ' ' || p[j] == '\t'
    ensures SkipBlanks(p, i) == k
  {
  }

  lemma {:induction false} ParsedNorms(norms: List<NormLine>)
    requires GoodNorms(norms)
    ensures Parsed(Normalize, NormTexts(norms)) == Norms(norms, false)
  {
    if norms.Cons? {
      NormRule(norms.head);
      ParsedNorms(norms.tail);
    }
  }

  // ---------- sections and files ----------

  lemma CategoriesLoad(domain: string, s: Parse, categories: List<string>, rest: List<string>, d: string, k: Kind)
    requires s.status == Ok && s.p == "<category>" && s.rest == Append(categories, Cons("", rest))
    requires NoneStops(Category, categories) && AllWords(categories)
    ensures Took(s.rules, AfterNormalize(domain, s), domain, Category, Words(categories), "", rest, d, k)
  {
    CollectsLines(s.rules, domain, Category, categories, "", rest, d, k);
    ParsedWords(Category, categories);
  }

  function FromNorms(s: Section, rest: List<string>): List<string> {
    Append(NormTexts(s.norms), Cons("<category>", Append(s.categories, Cons("", rest))))
  }

  lemma NormsLoad(s1: Parse, s: Section, rest: List<string>, d: string, k: Kind) returns (r: Parse)
    requires s1.status == Ok && s1.rest == FromNorms(s, rest) && GoodSection(s)
    ensures r == AfterItems(s.domain, s1) && r.status == Ok && r.rest == rest
    ensures Of(r.rules, d, k) == Of(s1.rules, d, k) + if d == s.domain && k != Item then RulesOf(s, k, false) else []
    ensures d in s1.rules || d != s.domain ==> (d in r.rules <==> d in s1.rules)
  {
    var after := Append(s.categories, Cons("", rest));
    CollectsLines(s1.rules, s.domain, Normalize, NormTexts(s.norms), "<category>", after, d, k);
    ParsedNorms(s.norms);
    var s2 := Collect(s1.rules, s.domain, Normalize, s1.rest.head, s1.rest.tail);
    CategoriesLoad(s.domain, s2, s.categories, rest, d, k);
    r := AfterNormalize(s.domain, s2);
    TwoLists(s1.rules, s2.rules, r.rules, s, d, k);
  }

  lemma TwoLists(a: Rules, b: Rules, c: Rules, s: Section, d: string, k: Kind)
    requires Grown(a, b, s.domain, Normalize, Norms(s.norms, false), d, k)
    requires Grown(b, c, s.domain, Category, Words(s.categories), d, k)
    ensures Of(c, d, k) == Of(a, d, k) + if d == s.domain && k != Item then RulesOf(s, k, false) else []
    ensures d in a || d != s.domain ==> (d in c <==> d in a)
  {
  }

  lemma ItemsLoad(rules: Rules, s: Section, rest: List<string>, d: string, k: Kind) returns (s1: Parse)
    requires GoodSection(s)
    ensures Body(rules, s.domain, Cons("<item>", BodyLines(s, rest))) == AfterItems(s.domain, s1)
    ensures s1.status == Ok && s1.rest == FromNorms(s, rest)
    ensures Grown(rules, s1.rules, s.domain, Item, Words(s.items), d, k)
  {
    var texts := Append(s.items, Cons("<normalize>", FromNorms(s, rest)));
    CollectsLines(rules, s.domain, Item, s.items, "<normalize>", FromNorms(s, rest), d, k);
    ParsedWords(Item, s.items);
    s1 := Collect(rules, s.domain, Item, texts.head, texts.tail);
    BodyStart(rules, s.domain, texts);
  }

  lemma BodyStart(rules: Rules, domain: string, texts: List<string>)
    requires texts.Cons?
    ensures Body(rules, domain, Cons("<item>", texts))
         == AfterItems(domain, Collect(rules, domain, Item, texts.head, texts.tail))
  {
  }

  /** After its header, a section adds its rules to its domain and touches nothing else. */
  lemma BodyLoads(rules: Rules, s: Section, rest: List<string>, d: string, k: Kind) returns (r: Parse)
    requires GoodSection(s)
    ensures r == Body(rules, s.domain, Cons("<item>", BodyLines(s, rest)))
    ensures r.status == Ok && r.rest == rest
    ensures Of(r.rules, d, k) == Of(rules, d, k) + if d == s.domain then RulesOf(s, k, false) else []
    ensures d in rules || d != s.domain ==> (d in r.rules <==> d in rules)
  {
    var s1 := ItemsLoad(rules, s, rest, d, k);
    r := NormsLoad(s1, s, rest, d, k);
    AllLists(rules, s1.rules, r.rules, s, d, k);
  }

  lemma AllLists(a: Rules, b: Rules, c: Rules, s: Section, d: string, k: Kind)
    requires Grown(a, b, s.domain, Item, Words(s.items), d, k)
    requires Of(c, d, k) == Of(b, d, k) + if d == s.domain && k != Item then RulesOf(s, k, false) else []
    requires d in b || d != s.domain ==> (d in c <==> d in b)
    ensures Of(c, d, k) == Of(a, d, k) + if d == s.domain then RulesOf(s, k, false) else []
    ensures d in a || d != s.domain ==> (d in c <==> d in a)
  {
  }

  lemma {:induction false} LoadSkips(rules: Rules, domain: string, comments: List<string>, rest: List<string>)
    requires AllSkipped(comments)
    ensures Load(rules, domain, Append(comments, rest)) == Load(rules, domain, rest)
  {
    if comments.Cons? {
      LoadSkips(rules, domain, comments.tail, rest);
    }
  }

  lemma HeaderLoads(rules: Rules, domain: string, name: string, texts: List<string>, r: Parse)
    requires r == Body(Declare(rules, name), name, texts) && r.status == Ok
    ensures Load(rules, domain, Cons("[" + name + "]", texts)) == Load(r.rules, name, r.rest)
  {
    var header := "[" + name + "]";
    assert header[0] == '[' && header[|header| - 1] == ']' && header[1..|header| - 1] == name;
  }

  lemma SectionLoads(rules: Rules, domain: string, s: Section, rest: List<string>, d: string, k: Kind)
      returns (after: Rules)
    requires GoodSection(s)
    ensures Load(rules, domain, SectionLines(s, rest)) == Load(after, s.domain, rest)
    ensures Of(after, d, k) == Of(rules, d, k) + if d == s.domain then RulesOf(s, k, false) else []
    ensures d in after <==> d in rules || d == s.domain
  {
    var texts := Cons("<item>", BodyLines(s, rest));
    var r := BodyLoads(Declare(rules, s.domain), s, rest, d, k);
    LoadSkips(rules, domain, s.comments, Cons("[" + s.domain + "]", texts));
    HeaderLoads(rules, domain, s.domain, texts, r);
    after := r.rules;
  }

  /** The parser ended well, with the rules that the sections mean added to what was there. */
  ghost predicate LoadedAll(rules: Rules, r: Parse, sections: List<Section>, d: string, k: Kind) {
    && r.status == Ok
    && Of(r.rules, d, k) == Of(rules, d, k) + Meant(sections, d, k, false)
    && (d in r.rules <==> d in rules || IsNamed(sections, d))
  }

  lemma LoadedOneMore(rules: Rules, after: Rules, r: Parse, s: Section, more: List<Section>, d: string, k: Kind)
    requires LoadedAll(after, r, more, d, k)
    requires Of(after, d, k) == Of(rules, d, k) + if d == s.domain then RulesOf(s, k, false) else []
    requires d in after <==> d in rules || d == s.domain
    ensures LoadedAll(rules, r, Cons(s, more), d, k)
  {
    var mine := if d == s.domain then RulesOf(s, k, false) else [];
    ThreeParts(Of(rules, d, k), mine, Meant(more, d, k, false));
    assert Meant(Cons(s, more), d, k, false) == mine + Meant(more, d, k, false);
  }

  lemma ThreeParts(a: seq<Rule>, b: seq<Rule>, c: seq<Rule>)
    ensures (a + b) + c == a + (b + c)
  {
  }

  /** Loading the lines of a well-formed file. */
  lemma {:induction false} FileLoads(rules: Rules, domain: string, sections: List<Section>, d: string, k: Kind)
      returns (r: Parse)
    requires GoodFile(sections)
    ensures r == Load(rules, domain, FileLines(sections, Cons("", Nil)))
    ensures LoadedAll(rules, r, sections, d, k)
    decreases sections
  {
    match sections {
      case Nil =>
        LoadEnds(rules, domain);
        r := Parse(Ok, rules, "", Nil);
      case Cons(s, more) =>
        var after := SectionLoads(rules, domain, s, FileLines(more, Cons("", Nil)), d, k);
        r := FileLoads(after, s.domain, more, d, k);
        LoadedOneMore(rules, after, r, s, more, d, k);
    }
  }

  lemma LoadEnds(rules: Rules, domain: string)
    ensures Load(rules, domain, Cons("", Nil)) == Parse(Ok, rules, "", Nil)
  {
    assert Load(rules, domain, Nil) == Parse(Ok, rules, "", Nil);
  }

  // ---------- from the characters of the file ----------

  lemma NeatText(line: string)
    requires Neat(line)
    ensures LineText(line + "\n", LINE_LEN, LINE_LEN) == line
  {
    if line == "" {
      EmptyText();
    } else {
      PlainText(line, LINE_LEN, LINE_LEN);
      assert line[..|line|] == line;
    }
  }

  lemma EmptyText()
    ensures LineText("" + "\n", LINE_LEN, LINE_LEN) == ""
  {
    var z := "" + Zeros(LINE_LEN);
    PlainBuffer("", LINE_LEN);
    TailIs(z, LINE_LEN, 0);
  }

  /** Neat lines are read as they are. */
  lemma {:induction false} NeatTexts(lines: List<string>)
    requires AllNeat(lines)
    ensures AllPlain(lines, LINE_LEN) && Texts(lines, LINE_LEN, LINE_LEN) == Append(lines, Cons("", Nil))
  {
    if lines.Cons? {
      NeatText(lines.head);
      NeatTexts(lines.tail);
    }
  }

  lemma {:induction false} AppendAppend(a: List<string>, b: List<string>, c: List<string>)
    ensures Append(Append(a, b), c) == Append(a, Append(b, c))
  {
    if a.Cons? {
      AppendAppend(a.tail, b, c);
    }
  }

  lemma BodyAppend(s: Section, rest: List<string>, more: List<string>)
    ensures Append(BodyLines(s, rest), more) == BodyLines(s, Append(rest, more))
  {
    var c := Append(s.categories, Cons("", rest));
    var n := Append(NormTexts(s.norms), Cons("<category>", c));
    AppendAppend(s.categories, Cons("", rest), more);
    AppendAppend(NormTexts(s.norms), Cons("<category>", c), more);
    AppendAppend(s.items, Cons("<normalize>", n), more);
  }

  lemma {:induction false} FileLinesAppend(sections: List<Section>, more: List<string>)
    ensures Append(FileLines(sections, Nil), more) == FileLines(sections, more)
    decreases sections
  {
    if sections.Cons? {
      var s, rest := sections.head, FileLines(sections.tail, Nil);
      FileLinesAppend(sections.tail, more);
      BodyAppend(s, rest, more);
      AppendAppend(s.comments, Cons("[" + s.domain + "]", Cons("<item>", BodyLines(s, rest))), more);
    }
  }

  /** The characters of a rule file, and the texts that the loader reads from it. */
  function Characters(sections: List<Section>): string {
    WholeLines(FileLines(sections, Nil))
  }

  ghost function TextsOf(content: string): List<string> {
    Fields(content, 0, false, LINE_LEN, LINE_LEN)
  }

  /** Neat lines are the texts that the loader reads from their file. */
  lemma ReadsNeatLines(lines: List<string>)
    requires AllNeat(lines)
    ensures TextsOf(WholeLines(lines)) == Append(lines, Cons("", Nil))
  {
    NeatTexts(lines);
    FieldsOfLines("", lines, LINE_LEN, LINE_LEN);
    assert "" + WholeLines(lines) == WholeLines(lines);
  }

  /** For every well-formed file the loader ends well. It then knows exactly the domains that some section
      names, and for each domain and kind the rules are the concatenation, in file order, over all the
      sections that name it. */
  lemma LoadsWhatIsMeant(sections: List<Section>, d: string, k: Kind)
    requires GoodFile(sections) && AllNeat(FileLines(sections, Nil))
    ensures var r := Load(map[], "", TextsOf(Characters(sections)));
            && r.status == Ok
            && Of(r.rules, d, k) == Meant(sections, d, k, false)
            && (d in r.rules <==> IsNamed(sections, d))
  {
    ReadsNeatLines(FileLines(sections, Nil));
    FileLinesAppend(sections, Cons("", Nil));
    var _ := FileLoads(map[], "", sections, d, k);
  }

  // ---------- what the loader drops ----------

  /** No normalize line has a replacement of one character behind a single blank. */
  predicate NoneShort(norms: List<NormLine>) {
    norms.Cons? ==>
      (|norms.head.gap| + |norms.head.replacement| > 2 || norms.head.replacement == "") && NoneShort(norms.tail)
  }

  predicate NoneShortIn(sections: List<Section>) {
    sections.Cons? ==> NoneShort(sections.head.norms) && NoneShortIn(sections.tail)
  }

  predicate NoneShortFor(sections: List<Section>, d: string) {
    sections.Cons? ==> (sections.head.domain == d ==> NoneShort(sections.head.norms)) && NoneShortFor(sections.tail, d)
  }

  lemma {:induction false} NormsKeepIff(norms: List<NormLine>)
    ensures |Norms(norms, false)| == |Norms(norms, true)|
    ensures Norms(norms, false) == Norms(norms, true) <==> NoneShort(norms)
  {
    if norms.Cons? {
      NormsKeepIff(norms.tail);
      SameParts([Norms(norms, false)[0]], [Norms(norms, true)[0]], Norms(norms.tail, false), Norms(norms.tail, true));
    }
  }

  lemma SameParts(a: seq<Rule>, b: seq<Rule>, x: seq<Rule>, y: seq<Rule>)
    requires |a| == |b|
    ensures a + x == b + y <==> a == b && x == y
  {
    if a + x == b + y {
      assert (a + x)[..|a|] == a && (b + y)[..|b|] == b;
      assert (a + x)[|a|..] == x && (b + y)[|b|..] == y;
    }
  }

  lemma {:induction false} MeantKeepsIff(sections: List<Section>, d: string)
    ensures |Meant(sections, d, Normalize, false)| == |Meant(sections, d, Normalize, true)|
    ensures Meant(sections, d, Normalize, false) == Meant(sections, d, Normalize, true) <==> NoneShortFor(sections, d)
    decreases sections
  {
    if sections.Cons? {
      var s, more := sections.head, sections.tail;
      var mine := if s.domain == d then Norms(s.norms, false) else [];
      var given := if s.domain == d then Norms(s.norms, true) else [];
      NormsKeepIff(s.norms);
      MeantKeepsIff(more, d);
      SameParts(mine, given, Meant(more, d, Normalize, false), Meant(more, d, Normalize, true));
      assert Meant(sections, d, Normalize, false) == mine + Meant(more, d, Normalize, false);
      assert Meant(sections, d, Normalize, true) == given + Meant(more, d, Normalize, true);
    }
  }

  lemma {:induction false} ShortNowhere(sections: List<Section>, d: string)
    requires NoneShortIn(sections)
    ensures NoneShortFor(sections, d)
    decreases sections
  {
    if sections.Cons? {
      ShortNowhere(sections.tail, d);
    }
  }

  lemma {:induction false} ShortSomewhere(sections: List<Section>) returns (d: string)
    requires !NoneShortIn(sections)
    ensures !NoneShortFor(sections, d)
    decreases sections
  {
    if NoneShort(sections.head.norms) {
      d := ShortSomewhere(sections.tail);
    } else {
      d := sections.head.domain;
    }
  }

  lemma KeptIff(sections: List<Section>, rules: Rules)
    requires forall d :: Of(rules, d, Normalize) == Meant(sections, d, Normalize, false)
    ensures (forall d :: Of(rules, d, Normalize) == Meant(sections, d, Normalize, true)) <==> NoneShortIn(sections)
  {
    if NoneShortIn(sections) {
      forall d
        ensures Of(rules, d, Normalize) == Meant(sections, d, Normalize, true)
      {
        ShortNowhere(sections, d);
        MeantKeepsIff(sections, d);
      }
    } else {
      var d := ShortSomewhere(sections);
      MeantKeepsIff(sections, d);
      assert Of(rules, d, Normalize) == Meant(sections, d, Normalize, false);
    }
  }

  /** The loaded normalize rules of every domain are those that the file gives exactly when no normalize
      line has a replacement of one character behind a single blank: there the loader drops it. */
  lemma ReplacementsKeptIff(sections: List<Section>)
    requires GoodFile(sections) && AllNeat(FileLines(sections, Nil))
    ensures var rules := Load(map[], "", TextsOf(Characters(sections))).rules;
            (forall d :: Of(rules, d, Normalize) == Meant(sections, d, Normalize, true)) <==> NoneShortIn(sections)
  {
    var rules := Load(map[], "", TextsOf(Characters(sections))).rules;
    forall d
      ensures Of(rules, d, Normalize) == Meant(sections, d, Normalize, false)
    {
      LoadsWhatIsMeant(sections, d, Normalize);
    }
    KeptIff(sections, rules);
  }

  /** The smallest such line: the replacement is lost. */
  lemma ShortReplacementIsLost()
    ensures RuleOf(Normalize, "a b") == Rule("a", "")
  {
    NormRule(NormLine("a", " ", "b"));
    assert NormText(NormLine("a", " ", "b")) == "a b";
  }

  // ---------- rewriting by a loaded table ----------

  /** No list in the table is empty, so a list is there exactly when it has rules. */
  ghost predicate Tidy(rules: Rules) {
    forall d, k :: d in rules && k in rules[d] ==> Of(rules, d, k) != []
  }

  lemma {:induction false} CollectKeepsTidy(rules: Rules, domain: string, kind: Kind, p: string, rest: List<string>)
    requires Tidy(rules)
    ensures Tidy(Collect(rules, domain, kind, p, rest).rules)
    decreases Len(rest), |p|
  {
    if !Stops(kind, p) && !(rest.Nil? && kind != Category) {
      CollectKeepsTidy(Add(rules, domain, kind, RuleOf(kind, p)), domain, kind, Head(rest), Tail(rest));
    }
  }

  lemma BodyKeepsTidy(rules: Rules, domain: string, texts: List<string>)
    requires Tidy(rules)
    ensures Tidy(Body(rules, domain, texts).rules)
  {
    var rest := Tail(texts);
    var s1 := Collect(rules, domain, Item, Head(rest), Tail(rest));
    var s2 := Collect(s1.rules, domain, Normalize, Head(s1.rest), Tail(s1.rest));
    CollectKeepsTidy(rules, domain, Item, Head(rest), Tail(rest));
    CollectKeepsTidy(s1.rules, domain, Normalize, Head(s1.rest), Tail(s1.rest));
    CollectKeepsTidy(s2.rules, domain, Category, Head(s2.rest), Tail(s2.rest));
  }

  /** Whatever the file, loading leaves no empty list in the table. */
  lemma {:induction false} LoadKeepsTidy(rules: Rules, domain: string, texts: List<string>)
    requires Tidy(rules)
    ensures Tidy(Load(rules, domain, texts).rules)
    decreases Len(texts)
  {
    if texts.Cons? {
      var p := texts.head;
      if Skipped(p) {
        LoadKeepsTidy(rules, domain, texts.tail);
      } else {
        var s := ReadSection(rules, domain, p, texts.tail);
        SectionKeepsTidy(rules, domain, p, texts.tail);
        LoadKeepsTidy(s.rules, DomainAt(domain, p), s.rest);
      }
    }
  }

  lemma SectionKeepsTidy(rules: Rules, domain: string, p: string, rest: List<string>)
    requires Tidy(rules)
    ensures Tidy(ReadSection(rules, domain, p, rest).rules)
  {
    if !(IsHeader(p) && p[|p| - 1] != ']') {
      var d := DomainAt(domain, p);
      BodyKeepsTidy(if IsHeader(p) then Declare(rules, d) else rules, d, rest);
    }
  }

  lemma {:induction false} RewrittenAppend(
      url: string, a: seq<Rule>, b: seq<Rule>, replace: (string, string, string) -> string)
    ensures Rewritten(url, a + b, replace) == Rewritten(Rewritten(url, a, replace), b, replace)
    decreases |a|
  {
    if a == [] {
      assert a + b == b;
    } else {
      RewrittenAppend(replace(url, a[0].regex, a[0].replacement), a[1..], b, replace);
      assert (a + b)[1..] == a[1..] + b;
    }
  }

  /** Rewriting section by section. */
  function RewrittenBy(
      url: string, sections: List<Section>, domain: string, replace: (string, string, string) -> string): string
    decreases sections
  {
    match sections
    case Nil => url
    case Cons(s, more) =>
      RewrittenBy(if s.domain == domain then Rewritten(url, Norms(s.norms, false), replace) else url,
                  more, domain, replace)
  }

  lemma {:induction false} RewritesInFileOrder(
      url: string, sections: List<Section>, domain: string, replace: (string, string, string) -> string)
    ensures Rewritten(url, Meant(sections, domain, Normalize, false), replace)
            == RewrittenBy(url, sections, domain, replace)
    decreases sections
  {
    if sections.Cons? {
      var s := sections.head;
      var mine := if s.domain == domain then Norms(s.norms, false) else [];
      RewrittenAppend(url, mine, Meant(sections.tail, domain, Normalize, false), replace);
      RewritesInFileOrder(Rewritten(url, mine, replace), sections.tail, domain, replace);
      assert Meant(sections, domain, Normalize, false) == mine + Meant(sections.tail, domain, Normalize, false);
    }
  }

  // ---------- classification by a loaded file ----------

  predicate AnyWordMatches(url: string, words: List<string>, matches: (string, string) -> bool) {
    words.Cons? && (matches(url, words.head) || AnyWordMatches(url, words.tail, matches))
  }

  /** Some item or category line of a section that names the domain matches the URL. */
  predicate FileMatches(url: string, sections: List<Section>, domain: string, items: bool,
                        matches: (string, string) -> bool) {
    sections.Cons? &&
    ((sections.head.domain == domain
      && AnyWordMatches(url, if items then sections.head.items else sections.head.categories, matches))
     || FileMatches(url, sections.tail, domain, items, matches))
  }

  lemma HitsAppend(url: string, a: seq<Rule>, b: seq<Rule>, matches: (string, string) -> bool)
    ensures Hits(url, a + b, matches) <==> Hits(url, a, matches) || Hits(url, b, matches)
  {
    var c := a + b;
    if Hits(url, a, matches) {
      var i :| 0 <= i < |a| && matches(url, a[i].regex);
      assert c[i] == a[i];
    }
    if Hits(url, b, matches) {
      var i :| 0 <= i < |b| && matches(url, b[i].regex);
      assert c[|a| + i] == b[i];
    }
  }

  lemma {:induction false} HitsWords(url: string, words: List<string>, matches: (string, string) -> bool)
    ensures Hits(url, Words(words), matches) <==> AnyWordMatches(url, words, matches)
  {
    if words.Cons? {
      var first := [Rule(words.head, "")];
      HitsWords(url, words.tail, matches);
      HitsAppend(url, first, Words(words.tail), matches);
      assert Hits(url, first, matches) <==> matches(url, first[0].regex);
    }
  }

  lemma {:induction false} HitsMeant(
      url: string, sections: List<Section>, domain: string, items: bool, matches: (string, string) -> bool)
    ensures Hits(url, Meant(sections, domain, if items then Item else Category, false), matches)
       <==> FileMatches(url, sections, domain, items, matches)
    decreases sections
  {
    if sections.Cons? {
      var s, kind := sections.head, if items then Item else Category;
      HitsWords(url, if items then s.items else s.categories, matches);
      HitsMeant(url, sections.tail, domain, items, matches);
      var mine := if s.domain == domain then RulesOf(s, kind, false) else [];
      HitsAppend(url, mine, Meant(sections.tail, domain, kind, false), matches);
    }
  }

  /** After a well-formed file is loaded, the conditions that `get_type` decides by are conditions on the
      file: whether a section names the domain, and whether a line of such a section matches. */
  lemma ClassifiesByFile(sections: List<Section>, url: string, domain: string, matches: (string, string) -> bool)
    requires GoodFile(sections) && AllNeat(FileLines(sections, Nil))
    ensures var rules := Load(map[], "", TextsOf(Characters(sections))).rules;
            && (domain in rules <==> IsNamed(sections, domain))
            && (Hits(url, Of(rules, domain, Item), matches) <==> FileMatches(url, sections, domain, true, matches))
            && (Hits(url, Of(rules, domain, Category), matches) <==> FileMatches(url, sections, domain, false, matches))
  {
    LoadsWhatIsMeant(sections, domain, Item);
    LoadsWhatIsMeant(sections, domain, Category);
    HitsMeant(url, sections, domain, true, matches);
    HitsMeant(url, sections, domain, false, matches);
  }
}
