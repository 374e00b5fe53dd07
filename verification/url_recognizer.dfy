/** The rule file of the URL recognizer (url_recognizer.cpp): a line-reading loop over sections
    `[domain]`, `<item>`, `<normalize>`, `<category>`, and the classification by the loaded rules.
    Regular expressions and the domain of a URL are left abstract. */
module UrlRecognizers {
  import opened Options
  import opened Lines

  datatype Kind = Item | Normalize | Category

  /** A rule: the text of the regular expression, and what to put in its place. */
  datatype Rule = Rule(regex: string, replacement: string)

  type Rules = map<string, map<Kind, seq<Rule>>>

  const LINE_LEN := 1024

  // ---------- the rule table ----------

  function Of(rules: Rules, domain: string, kind: Kind): seq<Rule> {
    if domain in rules && kind in rules[domain] then rules[domain][kind] else []
  }

  function Declare(rules: Rules, domain: string): Rules {
    if domain in rules then rules else rules[domain := map[]]
  }

  function Add(rules: Rules, domain: string, kind: Kind, rule: Rule): Rules {
    var declared := Declare(rules, domain);
    declared[domain := declared[domain][kind := Of(rules, domain, kind) + [rule]]]
  }

  // ---------- the lines of a section ----------

  predicate HasPrefix(p: string, prefix: string) {
    |prefix| <= |p| && p[..|prefix|] == prefix
  }

  /** Where the loop over the rules of a kind stops. */
  predicate Stops(kind: Kind, p: string) {
    match kind
    case Item => HasPrefix(p, "<normalize>")
    case Normalize => HasPrefix(p, "<category>")
    case Category => p == ""
  }

  predicate Separates(c: char) {
    IsBlank(c) || c == NUL
  }

  function TokenEnd(p: string, i: nat): (k: nat)
    requires i <= |p|
    ensures i <= k <= |p| && (k < |p| ==> Separates(p[k]))
    ensures forall j :: i <= j < k ==> !Separates(p[j])
    decreases |p| - i
  {
    if i == |p| || Separates(p[i]) then i else TokenEnd(p, i + 1)
  }

  function SkipBlanks(p: string, i: nat): (k: nat)
    requires i <= |p|
    ensures i <= k <= |p| && (k < |p| ==> p[k] != ' ' && p[k] != '\t')
    ensures forall j :: i <= j < k ==> p[j] == ' ' || p[j] == '\t'
    decreases |p| - i
  {
    if i < |p| && (p[i] == ' ' || p[i] == '\t') then SkipBlanks(p, i + 1) else i
  }

  /** What follows the regular expression, when more than two characters do. */
  function Replacement(p: string): string {
    var k := TokenEnd(p, 0);
    if k + 1 < |p| - 1 then p[SkipBlanks(p, k + 1)..] else ""
  }

  function RuleOf(kind: Kind, p: string): Rule {
    Rule(p[..TokenEnd(p, 0)], if kind == Normalize then Replacement(p) else "")
  }

  // ---------- the parser, on the texts of the lines ----------

  /** `Ok` also while parsing goes on; `Hangs` when the end of file is met inside a list of item or
      normalize rules: the loop there adds rules for ever. */
  datatype Status = Ok | Bad | Hangs

  /** The state of the parser: the line it holds and the texts of the lines still to be read. */
  datatype Parse = Parse(status: Status, rules: Rules, p: string, rest: List<string>)

  /** Reading past the end gives empty lines. */
  function Head(texts: List<string>): string {
    if texts.Nil? then "" else texts.head
  }

  function Tail(texts: List<string>): List<string> {
    if texts.Nil? then Nil else texts.tail
  }

  function Len(texts: List<string>): nat {
    if texts.Nil? then 0 else 1 + Len(texts.tail)
  }

  /** The loop over the rules of one kind. */
  function Collect(rules: Rules, domain: string, kind: Kind, p: string, rest: List<string>): (r: Parse)
    ensures Len(r.rest) <= Len(rest) && r.status != Bad
    decreases Len(rest), |p|
  {
    if Stops(kind, p) then Parse(Ok, rules, p, rest)
    else if rest.Nil? && kind != Category then Parse(Hangs, rules, p, rest)
    else Collect(Add(rules, domain, kind, RuleOf(kind, p)), domain, kind, Head(rest), Tail(rest))
  }

  function AfterNormalize(domain: string, s: Parse): (r: Parse)
    ensures Len(r.rest) <= Len(s.rest)
  {
    if s.status != Ok then s
    else if s.p != "<category>" then s.(status := Bad)
    else Collect(s.rules, domain, Category, Head(s.rest), Tail(s.rest))
  }

  function AfterItems(domain: string, s: Parse): (r: Parse)
    ensures Len(r.rest) <= Len(s.rest)
  {
    if s.status != Ok then s
    else AfterNormalize(domain, Collect(s.rules, domain, Normalize, Head(s.rest), Tail(s.rest)))
  }

  /** A section behind its header. */
  function Body(rules: Rules, domain: string, texts: List<string>): (r: Parse)
    ensures Len(r.rest) <= Len(texts)
  {
    var p, rest := Head(texts), Tail(texts);
    if !HasPrefix(p, "<item>") then Parse(Bad, rules, p, rest)
    else AfterItems(domain, Collect(rules, domain, Item, Head(rest), Tail(rest)))
  }

  predicate Skipped(p: string) {
    p == "" || p[0] == '#'
  }

  predicate IsHeader(p: string) {
    p != "" && p[0] == '['
  }

  /** The domain that the rules behind the line belong to. */
  function DomainAt(domain: string, p: string): string {
    if IsHeader(p) && p[|p| - 1] == ']' then p[1..|p| - 1] else domain
  }

  /** A section from its first line on, which is a header or takes the place of one. */
  function ReadSection(rules: Rules, domain: string, p: string, rest: List<string>): (r: Parse)
    ensures Len(r.rest) <= Len(rest)
  {
    if IsHeader(p) && p[|p| - 1] != ']' then Parse(Bad, rules, p, rest)
    else Body(if IsHeader(p) then Declare(rules, DomainAt(domain, p)) else rules, DomainAt(domain, p), rest)
  }

  /** The whole file; a section without a header belongs to the domain before it. */
  function Load(rules: Rules, domain: string, texts: List<string>): Parse
    decreases Len(texts)
  {
    if texts.Nil? then Parse(Ok, rules, "", Nil)
    else
      var p := texts.head;
      if Skipped(p) then Load(rules, domain, texts.tail)
      else
        var s := ReadSection(rules, domain, p, texts.tail);
        if s.status == Ok then Load(s.rules, DomainAt(domain, p), s.rest) else s
  }

  // ---------- the recognizer ----------

  /** The text up to the first separator. */
  method Token(p: string) returns (k: nat)
    ensures k == TokenEnd(p, 0)
  {
    k := 0;
    while k < |p| && !Separates(p[k])
      invariant k <= |p| && TokenEnd(p, k) == TokenEnd(p, 0)
    {
      k := k + 1;
    }
  }

  method ParseRule(kind: Kind, p: string) returns (rule: Rule)
    ensures rule == RuleOf(kind, p)
  {
    var k := Token(p);
    rule := Rule(p[..k], "");
    if kind == Normalize && k + 1 < |p| - 1 {
      var i := k + 1;
      while i < |p| && (p[i] == ' ' || p[i] == '\t')
        invariant k + 1 <= i <= |p| && SkipBlanks(p, i) == SkipBlanks(p, k + 1)
      {
        i := i + 1;
      }
      rule := Rule(p[..k], p[i..]);
    }
  }

  class UrlRecognizer {
    var rules: Rules

    constructor ()
      ensures rules == map[]
    {
      rules := map[];
    }

    method PushRule(domain: string, kind: Kind, rule: Rule)
      modifies this
      ensures rules == Add(old(rules), domain, kind, rule)
    {
      if domain !in rules {
        rules := rules[domain := map[]];
      }
      var vector := if kind in rules[domain] then rules[domain][kind] else [];
      rules := rules[domain := rules[domain][kind := vector + [rule]]];
    }

    /** The loop over the rules of one kind; it gives up where the source would run for ever. */
    method CollectRules(file: File, line: array<char>, domain: string, kind: Kind)
        returns (status: Status, p: string)
      requires file.Valid() && line.Length == LINE_LEN
      modifies this, file, line
      ensures file.Valid() && status != Bad
      ensures var texts := old(file.Rest(LINE_LEN, LINE_LEN));
              Parse(status, rules, p, file.Rest(LINE_LEN, LINE_LEN))
              == Collect(old(rules), domain, kind, Head(texts), Tail(texts))
    {
      ghost var texts := file.Rest(LINE_LEN, LINE_LEN);
      ghost var result := Collect(rules, domain, kind, Head(texts), Tail(texts));
      p := ReadLine(file, line, LINE_LEN);
      ghost var rest := file.Rest(LINE_LEN, LINE_LEN);
      while !Stops(kind, p)
        invariant file.Valid()
        invariant rest == file.Rest(LINE_LEN, LINE_LEN) && (file.eof <==> rest.Nil?)
        invariant Collect(rules, domain, kind, p, rest) == result
        decreases Len(rest), |p|
      {
        if file.eof && kind != Category {
          return Hangs, p;
        }
        var rule := ParseRule(kind, p);
        PushRule(domain, kind, rule);
        p := ReadLine(file, line, LINE_LEN);
        rest := file.Rest(LINE_LEN, LINE_LEN);
      }
      status := Ok;
    }

    /** A section behind its header: the three lists of rules, each behind its mark. */
    method LoadBody(file: File, line: array<char>, domain: string) returns (status: Status)
      requires file.Valid() && line.Length == LINE_LEN
      modifies this, file, line
      ensures file.Valid()
      ensures var s := Body(old(rules), domain, old(file.Rest(LINE_LEN, LINE_LEN)));
              status == s.status && rules == s.rules && file.Rest(LINE_LEN, LINE_LEN) == s.rest
    {
      var p := ReadLine(file, line, LINE_LEN);
      if !HasPrefix(p, "<item>") {
        return Bad;
      }
      status, p := CollectRules(file, line, domain, Item);
      if status != Ok {
        return;
      }
      status, p := CollectRules(file, line, domain, Normalize);
      if status != Ok {
        return;
      }
      if p != "<category>" {
        return Bad;
      }
      status, p := CollectRules(file, line, domain, Category);
    }

    method LoadConf(file: File, line: array<char>) returns (status: Status)
      requires file.Valid() && line.Length == LINE_LEN
      modifies this, file, line
      ensures var s := Load(old(rules), "", old(file.Rest(LINE_LEN, LINE_LEN)));
              status == s.status && rules == s.rules
    {
      ghost var rest := file.Rest(LINE_LEN, LINE_LEN);
      ghost var result := Load(rules, "", rest);
      var domain := "";
      while !file.eof
        invariant file.Valid()
        invariant rest == file.Rest(LINE_LEN, LINE_LEN) && (file.eof <==> rest.Nil?)
        invariant Load(rules, domain, rest) == result
        decreases Len(rest)
      {
        var p := ReadLine(file, line, LINE_LEN);
        if !Skipped(p) {
          status, domain := LoadSection(file, line, domain, p);
          if status != Ok {
            return;
          }
        }
        rest := file.Rest(LINE_LEN, LINE_LEN);
      }
      status := Ok;
    }

    method LoadSection(file: File, line: array<char>, domain: string, p: string)
      returns (status: Status, domain': string)
      requires file.Valid() && line.Length == LINE_LEN
      modifies this, file, line
      ensures file.Valid() && domain' == DomainAt(domain, p)
      ensures var s := ReadSection(old(rules), domain, p, old(file.Rest(LINE_LEN, LINE_LEN)));
              status == s.status && rules == s.rules && file.Rest(LINE_LEN, LINE_LEN) == s.rest
    {
      domain' := domain;
      if IsHeader(p) {
        if p[|p| - 1] != ']' {
          return Bad, domain;
        }
        domain' := p[1..|p| - 1];
        AddDomain(domain');
      }
      status := LoadBody(file, line, domain');
    }

    method AddDomain(domain: string)
      modifies this
      ensures rules == Declare(old(rules), domain)
    {
      if domain !in rules {
        rules := rules[domain := map[]];
      }
    }

    method AnyMatches(url: string, list: seq<Rule>, matches: (string, string) -> bool) returns (found: bool)
      ensures found <==> Hits(url, list, matches)
    {
      var i := 0;
      while i < |list|
        invariant i <= |list| && forall j :: 0 <= j < i ==> !matches(url, list[j].regex)
      {
        if matches(url, list[i].regex) {
          return true;
        }
        i := i + 1;
      }
      return false;
    }

    /** The class of a URL: 1 an item, 2 a category, 0 neither, -1 when its domain has no rules. */
    method GetType(url: string, domainOf: string -> string, matches: (string, string) -> bool) returns (t: int)
      ensures t == -1 <==> domainOf(url) !in rules
      ensures t == 1 <==> Hits(url, Of(rules, domainOf(url), Item), matches)
      ensures t == 2 <==> !Hits(url, Of(rules, domainOf(url), Item), matches)
                          && Hits(url, Of(rules, domainOf(url), Category), matches)
      ensures t in {-1, 0, 1, 2}
    {
      var domain := domainOf(url);
      if domain !in rules {
        return -1;
      }
      if Item in rules[domain] {
        var found := AnyMatches(url, rules[domain][Item], matches);
        if found {
          return 1;
        }
      }
      if Category in rules[domain] {
        var found := AnyMatches(url, rules[domain][Category], matches);
        if found {
          return 2;
        }
      }
      return 0;
    }

    /** Applies the normalize rules of the domain one after another; empty when there are none. */
    method NormalizeUrl(url: string, domainOf: string -> string, replace: (string, string, string) -> string)
        returns (r: string)
      ensures r == if domainOf(url) in rules && Normalize in rules[domainOf(url)]
                   then Rewritten(url, Of(rules, domainOf(url), Normalize), replace) else ""
      ensures domainOf(url) in rules && Normalize in rules[domainOf(url)] ==>
                Leads(url, rules[domainOf(url)][Normalize], replace, r)
    {
      var domain := domainOf(url);
      if domain !in rules || Normalize !in rules[domain] {
        return "";
      }
      var list := rules[domain][Normalize];
      r := url;
      ghost var texts := [url];
      var i := 0;
      while i < |list|
        invariant i <= |list|
        invariant Rewritten(r, list[i..], replace) == Rewritten(url, list, replace)
        invariant OneByOne(url, list[..i], replace, texts) && texts[i] == r
      {
        r := replace(r, list[i].regex, list[i].replacement);
        texts := texts + [r];
        i := i + 1;
      }
      assert list[..|list|] == list;
    }
  }

  /** Some rule of the list matches the URL. */
  ghost predicate Hits(url: string, list: seq<Rule>, matches: (string, string) -> bool) {
    exists i :: 0 <= i < |list| && matches(url, list[i].regex)
  }

  /** Texts of which each comes from the one before by the next rule. */
  ghost predicate OneByOne(
      url: string, list: seq<Rule>, replace: (string, string, string) -> string, texts: seq<string>) {
    && |texts| == |list| + 1 && texts[0] == url
    && forall i, j :: 0 <= i < |list| && j == i + 1 ==>
         texts[j] == replace(texts[i], list[i].regex, list[i].replacement)
  }

  /** Applying the rules one after another ends with `r`. */
  ghost predicate Leads(
      url: string, list: seq<Rule>, replace: (string, string, string) -> string, r: string) {
    exists texts :: OneByOne(url, list, replace, texts) && texts[|list|] == r
  }

  function Rewritten(url: string, list: seq<Rule>, replace: (string, string, string) -> string): string
    decreases |list|
  {
    if list == [] then url else Rewritten(replace(url, list[0].regex, list[0].replacement), list[1..], replace)
  }
}
