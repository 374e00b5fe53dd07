/** List files: `CUrlOutput::append` prints one URL per line (url_output.cpp:46-67), and the loop of
    `load_input_urls` reads them back (spider.cpp:1011-1026). */
module ListFiles {
  import opened Options
  import opened Decimals
  import opened Lines

  datatype Entry = Entry(url: string, time: nat)

  /** The length of `m_buf`, and the default window in which the list reader trims (spider.h:89). */
  const OUT_LEN := 5120
  const TRIM_WINDOW := 5120

  // ---------- printing ----------

  /** What one `append` writes: all up to the first zero in its buffer, so a URL with a zero inside loses
      its rest, the time and the newline. */
  function Printed(e: Entry): string {
    if NUL in e.url then Text(e.url, 0) + "\t" else e.url + "\t" + Decimal(e.time) + "\n"
  }

  /** The URL, a tab, the time, a newline and a zero fit into so many characters. */
  predicate Fits(e: Entry, size: nat) {
    |e.url| + |Decimal(e.time)| + 3 <= size
  }

  function ListFile(entries: seq<Entry>): string {
    if entries == [] then [] else ListFile(entries[..|entries| - 1]) + Printed(entries[|entries| - 1])
  }

  /** `sprintf` into the buffer: the text and a zero behind it. */
  method Sprintf(buf: array<char>, at: nat, text: string)
    requires at + |text| < buf.Length
    modifies buf
    ensures forall i :: 0 <= i < buf.Length ==>
      buf[i] == if at <= i < at + |text| then text[i - at] else if i == at + |text| then NUL else old(buf[i])
  {
    forall i | at <= i < at + |text| {
      buf[i] := text[i - at];
    }
    buf[at + |text|] := NUL;
  }

  class UrlOutput {
    const buf: array<char>
    var written: string
    ghost var entries: seq<Entry>

    ghost predicate Valid()
      reads this
    {
      buf.Length == OUT_LEN && written == ListFile(entries) && forall e <- entries :: Fits(e, OUT_LEN)
    }

    constructor ()
      ensures Valid() && entries == [] && fresh(buf)
    {
      buf := new char[OUT_LEN];
      written, entries := [], [];
    }

    /** Prints into the buffer by offset and writes what `strlen` sees of it. The caller's URL must leave
        room for the tab, the time, the newline and the final zero. */
    method Append(url: string, now: nat)
      requires Valid() && Fits(Entry(url, now), OUT_LEN)
      modifies this, buf
      ensures Valid() && entries == old(entries) + [Entry(url, now)]
      ensures written == old(written) + Printed(Entry(url, now))
    {
      forall i | 0 <= i < buf.Length {
        buf[i] := NUL;
      }
      ghost var c, d := Text(url, 0), Decimal(now) + "\n";
      var shown := CString(url);
      Sprintf(buf, 0, shown + "\t");
      Sprintf(buf, |url| + 1, Decimal(now) + "\n");
      PrintedText(buf[..], url, now);
      var text := TextAt(buf, 0);
      written := written + text;
      entries := entries + [Entry(url, now)];
      assert entries[..|entries| - 1] == old(entries);
    }
  }

  method CString(s: string) returns (c: string)
    ensures c == Text(s, 0)
  {
    var i := 0;
    while i < |s| && s[i] != NUL
      invariant i <= |s| && Find(s, NUL, i) == Find(s, NUL, 0)
    {
      i := i + 1;
    }
    c := s[..i];
  }

  /** The text in the buffer after both prints. */
  lemma PrintedText(b: string, url: string, now: nat)
    requires |url| + |Decimal(now)| + 3 <= |b|
    requires var c, d := Text(url, 0), Decimal(now) + "\n"; forall i :: 0 <= i < |b| ==>
      b[i] == if |url| + 1 <= i < |url| + 1 + |d| then d[i - (|url| + 1)]
              else if i < |c| then c[i] else if i == |c| then '\t' else NUL
    ensures Text(b, 0) == Printed(Entry(url, now))
  {
    var c, d := Text(url, 0), Decimal(now) + "\n";
    if NUL in url {
      FindIs(b, NUL, 0, |c| + 1);
      assert Text(b, 0) == c + "\t";
    } else {
      FindEnd(url, NUL);
      assert c == url;
      forall i | 0 <= i < |url| + 1 + |d|
        ensures b[i] == (url + "\t" + d)[i] && b[i] != NUL
      {
        if i > |url| {
          assert i - (|url| + 1) < |Decimal(now)| ==> d[i - (|url| + 1)] in Decimal(now);
        }
      }
      FindIs(b, NUL, 0, |url| + 1 + |d|);
      assert Text(b, 0) == url + "\t" + d;
    }
  }

  // ---------- reading ----------

  function UpToTab(text: string): string {
    text[..Find(text, '\t', 0)]
  }

  /** The URLs that the reading loop takes from the texts of lines: empty lines are skipped, the others
      are cut at the first tab. */
  function Loaded(texts: List<string>): seq<string> {
    match texts
    case Nil => []
    case Cons(text, rest) => (if text == "" then [] else [UpToTab(text)]) + Loaded(rest)
  }

  method CutAtTab(text: string) returns (url: string)
    ensures url == UpToTab(text)
  {
    var k := 0;
    while k < |text| && text[k] != '\t' && text[k] != NUL
      invariant k <= |text| && Find(text, '\t', k) == Find(text, '\t', 0)
    {
      k := k + 1;
    }
    url := text[..k];
  }

  /** One round of the reading loop. */
  method LoadNext(file: File, line: array<char>, window: nat, urls: seq<string>) returns (urls': seq<string>)
    requires file.Valid() && !file.eof && line.Length > 1 && 0 < window <= line.Length
    modifies file, line
    ensures file.Valid()
    ensures urls' + Loaded(file.Rest(line.Length, window)) == urls + Loaded(old(file.Rest(line.Length, window)))
    ensures file.Rest(line.Length, window) == old(file.Rest(line.Length, window)).tail
    ensures file.eof <==> file.Rest(line.Length, window).Nil?
  {
    ghost var size := line.Length;
    ghost var rest := file.Rest(size, window);
    var text := ReadLine(file, line, window);
    assert file.Rest(size, window) == rest.tail && text == rest.head;
    urls' := urls;
    if text != "" {
      var url := CutAtTab(text);
      urls' := urls + [url];
    }
    LoadedStep(urls, rest, urls');
  }

  lemma LoadedStep(urls: seq<string>, rest: List<string>, urls': seq<string>)
    requires rest.Cons? && urls' == urls + if rest.head == "" then [] else [UpToTab(rest.head)]
    ensures urls' + Loaded(rest.tail) == urls + Loaded(rest)
  {
  }

  method LoadInputUrls(file: File, line: array<char>, window: nat) returns (urls: seq<string>)
    requires file.Valid() && line.Length > 1 && 0 < window <= line.Length
    modifies file, line
    ensures urls == Loaded(old(file.Rest(line.Length, window)))
    ensures file.Valid() && file.eof
  {
    ghost var rest := file.Rest(line.Length, window);
    ghost var all := Loaded(rest);
    urls := [];
    while !file.eof
      invariant file.Valid()
      invariant rest == file.Rest(line.Length, window) && (file.eof <==> rest.Nil?)
      invariant urls + Loaded(rest) == all
      decreases rest
    {
      urls := LoadNext(file, line, window, urls);
      rest := file.Rest(line.Length, window);
    }
  }

  // ---------- the round trip ----------

  /** A URL as the list files are meant to hold it. */
  predicate ProperUrl(url: string) {
    url != [] && !IsBlank(url[0]) && '\t' !in url && '\r' !in url && '\n' !in url && NUL !in url
  }

  /** Such a URL in a line that the buffer can hold. */
  predicate Listable(e: Entry, size: nat) {
    ProperUrl(e.url) && Fits(e, size)
  }

  function Line(e: Entry): string {
    e.url + "\t" + Decimal(e.time)
  }

  function LinesOf(entries: seq<Entry>, i: nat): List<string>
    requires i <= |entries|
    decreases |entries| - i
  {
    if i == |entries| then Nil else Cons(Line(entries[i]), LinesOf(entries, i + 1))
  }

  /** How much of a URL comes back: all of it, unless it fills the window and has a blank at the end of
      what the window holds of it. */
  function Survivor(url: string, window: nat): string {
    if |url| + 1 < window then url
    else if |url| + 1 == window then url[..TailStart(url, |url|)]
    else if window > 0 && IsBlank(url[window - 1]) then url[..TailStart(url, window)]
    else url
  }

  lemma DigitsArePlain(n: nat)
    ensures forall c <- Decimal(n) :: c != NUL && c != '\t' && c != '\r' && c != '\n' && c != ' '
  {
  }

  lemma LineIsPlain(e: Entry, size: nat)
    requires Listable(e, size)
    ensures Plain(Line(e), size)
  {
    DigitsArePlain(e.time);
  }

  lemma TailOfPrefix(a: string, b: string, n: nat)
    requires n <= |a| && n <= |b| && forall i :: 0 <= i < n ==> a[i] == b[i]
    ensures TailStart(a, n) == TailStart(b, n)
  {
  }

  lemma FindEnd(b: string, c: char)
    ensures Find(b, c, 0) == |b| || c in b || NUL in b
  {
    var k := Find(b, c, 0);
    if k < |b| {
      assert b[k] in b;
    }
  }

  lemma NoTabIn(url: string, n: nat)
    requires n <= |url| && '\t' !in url && NUL !in url
    ensures UpToTab(url[..n]) == url[..n]
  {
    FindEnd(url[..n], '\t');
  }

  lemma UpToFirstTab(line: string, url: string, time: string)
    requires line == url + "\t" + time && '\t' !in url && NUL !in url
    ensures UpToTab(line) == url
  {
    forall i | 0 <= i < |url|
      ensures line[i] != '\t' && line[i] != NUL
    {
      assert line[i] == url[i] && url[i] in url;
    }
    FindIs(line, '\t', 0, |url|);
  }

  /** A URL with a zero inside is printed up to it, with a tab behind and nothing else. */
  lemma PrintedIsCut(a: string, b: string, time: nat)
    requires NUL !in a
    ensures Printed(Entry(a + [NUL] + b, time)) == a + "\t"
  {
    var url := a + [NUL] + b;
    forall i | 0 <= i < |a|
      ensures url[i] != NUL
    {
      assert url[i] == a[i] && a[i] in a;
    }
    assert url[|a|] == NUL && url[|a|] in url;
    FindIs(url, NUL, 0, |a|);
    assert url[..|a|] == a;
  }

  /** A printed entry is one line: the URL, a tab, and the time in decimal. */
  lemma PrintedReads(e: Entry)
    requires NUL !in e.url && '\t' !in e.url
    ensures var line := Printed(e);
            var k := Find(line, '\t', 0);
            && k + 1 < |line| && line[..k] == e.url && line[k] == '\t' && line[|line| - 1] == '\n'
            && Value(line[k + 1..|line| - 1]) == e.time
  {
    var line, k, time := Printed(e), |e.url|, Decimal(e.time);
    assert line == e.url + "\t" + time + "\n";
    forall i | 0 <= i < k
      ensures line[i] != '\t' && line[i] != NUL
    {
      assert line[i] == e.url[i] && e.url[i] in e.url;
    }
    FindIs(line, '\t', 0, k);
    assert line[..k] == e.url && line[k + 1..|line| - 1] == time;
    DecimalValue(e.time);
  }

  lemma LineReadsBack(e: Entry, size: nat, window: nat)
    requires Listable(e, size) && 0 < window <= size
    ensures var text := LineText(Line(e) + "\n", size, window);
            text != "" && UpToTab(text) == Survivor(e.url, window)
  {
    var line := Line(e);
    DigitsArePlain(e.time);
    LineIsPlain(e, size);
    PlainText(line, size, window);
    assert line[0] == e.url[0] && e.url[0] in e.url;
    KeptOfLine(line, e.url, Decimal(e.time), window);
    CutLine(line, e.url, Decimal(e.time), Kept(line, window));
  }

  lemma CutLine(line: string, url: string, time: string, k: nat)
    requires line == url + "\t" + time && '\t' !in url && NUL !in url && (k == |line| || k <= |url|)
    ensures UpToTab(line[..k]) == if k == |line| then url else url[..k]
  {
    if k == |line| {
      assert line[..k] == line;
      UpToFirstTab(line, url, time);
    } else {
      assert line[..k] == url[..k];
      NoTabIn(url, k);
    }
  }

  /** A line keeps all, or as much of its URL as survives. */
  lemma KeptOfLine(line: string, url: string, time: string, window: nat)
    requires window > 0 && url != [] && time != [] && line == url + "\t" + time && !IsBlank(url[0]) && NUL !in url
    requires forall c <- time :: !IsBlank(c) && c != NUL
    ensures var k := Kept(line, window);
            k > 0 && (if k == |line| then Survivor(url, window) == url
                  else k <= |url| && Survivor(url, window) == url[..k])
  {
    assert line[|line| - 1] == time[|time| - 1] && time[|time| - 1] in time;
    assert line[|url|] == '\t' && line[0] == url[0];
    forall k | |url| < k < |line|
      ensures !IsBlank(line[k])
    {
      assert line[k] == time[k - |url| - 1];
    }
    if |line| > window && IsBlank(line[window - 1]) {
      var n := if window == |url| + 1 then |url| else window;
      assert TailStart(line, window) == TailStart(line, n);
      TailOfPrefix(line, url, n);
      assert url[0] in url;
    } else if |line| > window && window <= |url| {
      assert line[window - 1] == url[window - 1];
    }
  }

  /** In every list file of such URLs, the reading loop gives back what survives of each, in order. */
  lemma {:induction false} ReadsSurvivors(entries: seq<Entry>, i: nat, size: nat, window: nat)
    requires i <= |entries| && 0 < window <= size && AllListable(entries, size)
    ensures AllPlain(LinesOf(entries, i), size)
    ensures Loaded(Texts(LinesOf(entries, i), size, window)) == Survivors(entries, i, window)
    decreases |entries| - i
  {
    if i < |entries| {
      LineIsPlain(entries[i], size);
      LineReadsBack(entries[i], size, window);
      ReadsSurvivors(entries, i + 1, size, window);
    } else {
      assert Loaded(Cons("", Nil)) == [];
    }
  }

  ghost predicate AllListable(entries: seq<Entry>, size: nat) {
    forall e <- entries :: Listable(e, size)
  }

  function Survivors(entries: seq<Entry>, i: nat, window: nat): seq<string>
    requires i <= |entries|
    decreases |entries| - i
  {
    if i == |entries| then [] else [Survivor(entries[i].url, window)] + Survivors(entries, i + 1, window)
  }

  function Urls(entries: seq<Entry>): seq<string> {
    seq(|entries|, i requires 0 <= i < |entries| => entries[i].url)
  }

  lemma {:induction false} SurvivorsCount(entries: seq<Entry>, i: nat, window: nat)
    requires i <= |entries|
    ensures |Survivors(entries, i, window)| == |entries| - i
    decreases |entries| - i
  {
    if i < |entries| {
      SurvivorsCount(entries, i + 1, window);
    }
  }

  lemma {:induction false} SurvivorAt(entries: seq<Entry>, i: nat, k: nat, window: nat)
    requires i + k < |entries|
    ensures k < |Survivors(entries, i, window)|
    ensures Survivors(entries, i, window)[k] == Survivor(entries[i + k].url, window)
    decreases k
  {
    var rest := Survivors(entries, i + 1, window);
    assert Survivors(entries, i, window) == [Survivor(entries[i].url, window)] + rest;
    if k > 0 {
      var j := k - 1;
      SurvivorAt(entries, i + 1, j, window);
      assert Survivors(entries, i, window)[k] == rest[j];
    }
  }

  lemma {:induction false} WholeLinesAppend(entries: seq<Entry>, e: Entry, i: nat)
    requires i <= |entries|
    ensures WholeLines(LinesOf(entries + [e], i)) == WholeLines(LinesOf(entries, i)) + (Line(e) + "\n")
    decreases |entries| - i
  {
    var all := entries + [e];
    if i < |entries| {
      WholeLinesAppend(entries, e, i + 1);
      assert all[i] == entries[i];
    } else {
      assert all[i] == e;
      assert LinesOf(all, i) == Cons(Line(e), LinesOf(all, i + 1));
    }
  }

  lemma {:induction false} FileIsLines(entries: seq<Entry>, size: nat)
    requires AllListable(entries, size)
    ensures ListFile(entries) == WholeLines(LinesOf(entries, 0))
    decreases |entries|
  {
    if entries != [] {
      var before, e := entries[..|entries| - 1], entries[|entries| - 1];
      assert entries == before + [e];
      assert e in entries;
      FileIsLines(before, size);
      WholeLinesAppend(before, e, 0);
    }
  }

  /** No URL fills the window and has a blank at the end of what the window holds of it. */
  predicate NoneCut(entries: seq<Entry>, window: nat)
    requires window > 0
  {
    forall i :: 0 <= i < |entries| ==> NotCut(entries[i].url, window)
  }

  predicate NotCut(url: string, window: nat)
    requires window > 0
  {
    && (|url| + 1 == window && url != [] ==> !IsBlank(url[|url| - 1]))
    && (|url| >= window ==> !IsBlank(url[window - 1]))
  }

  lemma SurvivesIff(e: Entry, size: nat, window: nat)
    requires Listable(e, size) && window > 0
    ensures Survivor(e.url, window) == e.url <==> NotCut(e.url, window)
  {
    assert NUL !in e.url;
    if |e.url| + 1 == window {
      assert e.url[|e.url| - 1] in e.url;
      assert e.url[..|e.url|] == e.url;
    }
  }

  lemma AllSurviveIff(entries: seq<Entry>, size: nat, window: nat)
    requires AllListable(entries, size) && window > 0
    ensures Survivors(entries, 0, window) == Urls(entries) <==> NoneCut(entries, window)
  {
    var got, want := Survivors(entries, 0, window), Urls(entries);
    SurvivorsCount(entries, 0, window);
    forall i | 0 <= i < |entries|
      ensures got[i] == want[i] <==> NotCut(entries[i].url, window)
    {
      SurvivorAt(entries, 0, i, window);
      SurvivesIff(entries[i], size, window);
    }
    assert NoneCut(entries, window) ==> got == want;
  }

  /** Whatever was printed, the loop reads back what survives of each URL, in order. */
  lemma ListReadsBack(entries: seq<Entry>, size: nat, window: nat)
    requires AllListable(entries, size) && size > 1 && 0 < window <= size
    ensures Loaded(Fields(ListFile(entries), 0, false, size, window)) == Survivors(entries, 0, window)
  {
    FileIsLines(entries, size);
    ReadsSurvivors(entries, 0, size, window);
    FieldsOfLines("", LinesOf(entries, 0), size, window);
    assert "" + ListFile(entries) == ListFile(entries);
  }

  /** Printed one after another and read back through a buffer that holds each line, the URLs come back
      as the same sequence exactly when none of them is cut at the end of the trimming window. */
  lemma RoundTripIff(entries: seq<Entry>, size: nat, window: nat)
    requires AllListable(entries, size) && size > 1 && 0 < window <= size
    ensures Loaded(Fields(ListFile(entries), 0, false, size, window)) == Urls(entries) <==> NoneCut(entries, window)
  {
    ListReadsBack(entries, size, window);
    AllSurviveIff(entries, size, window);
  }

  /** With the program's own window nothing that fits the output buffer is cut: whatever proper URLs were
      appended, the reading loop gives back the same sequence. */
  lemma ListRoundTrip(out: UrlOutput, size: nat)
    requires out.Valid() && (forall e <- out.entries :: ProperUrl(e.url)) && size >= TRIM_WINDOW
    ensures Loaded(Fields(out.written, 0, false, size, TRIM_WINDOW)) == Urls(out.entries)
  {
    forall i | 0 <= i < |out.entries|
      ensures NotCut(out.entries[i].url, TRIM_WINDOW)
    {
      assert out.entries[i] in out.entries;
    }
    RoundTripIff(out.entries, size, TRIM_WINDOW);
  }
}
