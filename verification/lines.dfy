/** Reading lines: `feof`, `fgets` and the two helpers that the list reader and the rule parser share
    (spider.cpp:1204-1233, url_recognizer.cpp:3-32). A line buffer is an array of characters in which
    zero ends the text. */
module Lines {
  import opened Options

  const NUL := '\0'

  predicate IsBlank(c: char) {
    c == ' ' || c == '\t' || c == '\n'
  }

  // ---------- the file ----------

  /** Where `fgets` stops that may read `max` characters from `pos` on. */
  function ChunkEnd(content: string, pos: nat, max: nat): (end: nat)
    requires pos <= |content|
    ensures pos <= end <= |content| && end - pos <= max
    ensures max > 0 && pos < |content| ==> end > pos
    decreases max
  {
    if max == 0 || pos == |content| then pos
    else if content[pos] == '\n' then pos + 1
    else ChunkEnd(content, pos + 1, max - 1)
  }

  /** Whether it runs into the end of the file there. */
  function AtEnd(content: string, pos: nat, max: nat): bool
    requires pos <= |content|
    decreases max
  {
    if max == 0 then false
    else if pos == |content| then true
    else if content[pos] == '\n' then false
    else AtEnd(content, pos + 1, max - 1)
  }

  class File {
    const content: string
    var pos: nat
    var eof: bool

    ghost predicate Valid()
      reads this
    {
      pos <= |content| && (eof ==> pos == |content|)
    }

    /** The texts of the lines still to be read, through a buffer of `size` characters. */
    ghost function Rest(size: nat, window: nat): List<string>
      requires Valid() && size > 1 && 0 < window <= size
      reads this
    {
      Fields(content, pos, eof, size, window)
    }

    constructor (content: string)
      ensures Valid() && this.content == content && pos == 0 && !eof
    {
      this.content, pos, eof := content, 0, false;
    }

    method Gets(max: nat) returns (chunk: string)
      requires Valid() && max > 0
      modifies this
      ensures Valid() && pos == ChunkEnd(content, old(pos), max)
      ensures chunk == content[old(pos)..pos]
      ensures eof == (old(eof) || AtEnd(content, old(pos), max))
    {
      var left: nat := max;
      ghost var end, hit := ChunkEnd(content, pos, max), AtEnd(content, pos, max);
      ghost var start := pos;
      chunk := [];
      while left != 0
        invariant Valid() && start <= pos && left <= max
        invariant ChunkEnd(content, pos, left) == end && AtEnd(content, pos, left) == hit
        invariant chunk == content[start..pos] && eof == old(eof)
        decreases left
      {
        if pos == |content| {
          eof := true;
          return;
        }
        var c := content[pos];
        chunk := chunk + [c];
        pos := pos + 1;
        if c == '\n' {
          return;
        }
        left := left - 1;
      }
    }
  }

  // ---------- the text in a buffer ----------

  /** The position of the first `c` or zero at or after `i`, or the length. */
  function Find(b: string, c: char, i: nat): (k: nat)
    requires i <= |b|
    ensures i <= k <= |b|
    ensures k < |b| ==> b[k] == c || b[k] == NUL
    ensures forall j :: i <= j < k ==> b[j] != c && b[j] != NUL
    decreases |b| - i
  {
    if i == |b| || b[i] == c || b[i] == NUL then i else Find(b, c, i + 1)
  }

  /** The text that starts at `p`. */
  function Text(b: string, p: nat): string
    requires p <= |b|
  {
    b[p..Find(b, NUL, p)]
  }

  /** The first `c` of the text replaced by its end. */
  function CutAt(b: string, c: char): (r: string)
    ensures |r| == |b|
  {
    var k := Find(b, c, 0);
    if k < |b| && b[k] == c then b[k := NUL] else b
  }

  function Zeros(n: nat): (z: string)
    ensures |z| == n && forall i :: 0 <= i < n ==> z[i] == NUL
  {
    seq(n, _ => NUL)
  }

  /** The buffer after `get_one_line` has read the chunk. */
  function LineBuffer(chunk: string, size: nat): (b: string)
    requires |chunk| < size
    ensures |b| == size && b[size - 1] == NUL
  {
    CutAt(CutAt(chunk + Zeros(size - |chunk|), '\r'), '\n')
  }

  // ---------- trimming ----------

  /** The first character that is not blank at or after `i`. */
  function HeadEnd(b: string, i: nat): (p: nat)
    requires i < |b| && b[|b| - 1] == NUL
    ensures i <= p < |b| && !IsBlank(b[p])
    ensures forall j :: i <= j < p ==> IsBlank(b[j])
    decreases |b| - i
  {
    if IsBlank(b[i]) then HeadEnd(b, i + 1) else i
  }

  /** How much of the first `n` characters is left without the blanks and zeros at their end. */
  function TailStart(b: string, n: nat): (e: nat)
    requires n <= |b|
    ensures e <= n && (e > 0 ==> !IsBlank(b[e - 1]) && b[e - 1] != NUL)
    ensures forall j :: e <= j < n ==> IsBlank(b[j]) || b[j] == NUL
  {
    if n > 0 && (IsBlank(b[n - 1]) || b[n - 1] == NUL) then TailStart(b, n - 1) else n
  }

  function Zeroed(b: string, from: nat, to: nat): (r: string)
    requires from <= to <= |b|
    ensures |r| == |b|
    ensures forall i :: 0 <= i < |b| ==> r[i] == if from <= i < to then NUL else b[i]
  {
    seq(|b|, i requires 0 <= i < |b| => if from <= i < to then NUL else b[i])
  }

  /** The buffer after `filter_headtail_blank`, which looks for the tail in the first `window` places. */
  function Trimmed(b: string, window: nat): (r: string)
    requires 0 < window <= |b| && b[|b| - 1] == NUL
    ensures |r| == |b|
  {
    var h := Zeroed(b, 0, HeadEnd(b, 0));
    Zeroed(h, TailStart(h, window), window)
  }

  /** The text that a caller of the two helpers works on. */
  function LineText(chunk: string, size: nat, window: nat): string
    requires |chunk| < size && 0 < window <= size
  {
    var b := LineBuffer(chunk, size);
    Text(Trimmed(b, window), HeadEnd(b, 0))
  }

  // ---------- the helpers ----------

  /** `strchr`, and the zero written where it found the character. */
  method Cut(line: array<char>, c: char)
    modifies line
    ensures line[..] == CutAt(old(line[..]), c)
  {
    var i := 0;
    while i < line.Length && line[i] != c && line[i] != NUL
      invariant i <= line.Length
      invariant Find(line[..], c, i) == Find(line[..], c, 0)
    {
      i := i + 1;
    }
    if i < line.Length && line[i] == c {
      line[i] := NUL;
    }
  }

  /** What `fgets` leaves in a cleared buffer. */
  method Fill(line: array<char>, chunk: string)
    requires |chunk| < line.Length
    modifies line
    ensures line[..] == chunk + Zeros(line.Length - |chunk|)
  {
    forall i | 0 <= i < line.Length {
      line[i] := if i < |chunk| then chunk[i] else NUL;
    }
  }

  method StoreLine(line: array<char>, chunk: string)
    requires |chunk| < line.Length
    modifies line
    ensures line[..] == LineBuffer(chunk, line.Length)
  {
    Fill(line, chunk);
    Cut(line, '\r');
    Cut(line, '\n');
  }

  /** At the end of the file the buffer is only cleared. */
  method GetOneLine(file: File, line: array<char>)
    requires file.Valid() && line.Length > 1
    modifies file, line
    ensures file.Valid() && file.pos == ChunkEnd(file.content, old(file.pos), line.Length - 1)
    ensures file.eof == (old(file.eof) || AtEnd(file.content, old(file.pos), line.Length - 1))
    ensures line[..] == LineBuffer(file.content[old(file.pos)..file.pos], line.Length)
  {
    var chunk := [];
    if !file.eof {
      chunk := file.Gets(line.Length - 1);
    }
    StoreLine(line, chunk);
  }

  /** Clears the blanks at the head; returns where the text starts. */
  method ClearHead(line: array<char>) returns (p: nat)
    requires line.Length > 0 && line[line.Length - 1] == NUL
    modifies line
    ensures p == HeadEnd(old(line[..]), 0) && line[..] == Zeroed(old(line[..]), 0, p)
  {
    ghost var b := line[..];
    p := 0;
    while IsBlank(line[p])
      invariant p < line.Length && HeadEnd(b, p) == HeadEnd(b, 0)
      invariant forall i :: 0 <= i < line.Length ==> line[i] == if i < p then NUL else b[i]
      decreases line.Length - p
    {
      line[p] := NUL;
      p := p + 1;
    }
    assert line[..] == Zeroed(b, 0, p);
  }

  /** Clears the blanks at the tail of the window; stops at the start of the buffer. */
  method ClearTail(line: array<char>, window: nat)
    requires window <= line.Length
    modifies line
    ensures line[..] == Zeroed(old(line[..]), TailStart(old(line[..]), window), window)
  {
    ghost var b := line[..];
    var q: nat := window;
    while q != 0 && (IsBlank(line[q - 1]) || line[q - 1] == NUL)
      invariant q <= window && TailStart(b, q) == TailStart(b, window)
      invariant forall i :: 0 <= i < line.Length ==> line[i] == if q <= i < window then NUL else b[i]
    {
      line[q - 1] := NUL;
      q := q - 1;
    }
    assert line[..] == Zeroed(b, q, window);
  }

  method FilterHeadTailBlank(line: array<char>, window: nat) returns (p: nat)
    requires 0 < window <= line.Length && line[line.Length - 1] == NUL
    modifies line
    ensures p == HeadEnd(old(line[..]), 0) && line[..] == Trimmed(old(line[..]), window)
  {
    p := ClearHead(line);
    ClearTail(line, window);
  }

  /** The characters of the text that starts at `p`. */
  method TextAt(line: array<char>, p: nat) returns (text: string)
    requires p <= line.Length
    ensures text == Text(line[..], p)
  {
    var i := p;
    while i < line.Length && line[i] != NUL
      invariant p <= i <= line.Length
      invariant Find(line[..], NUL, i) == Find(line[..], NUL, p)
    {
      i := i + 1;
    }
    text := line[p..i];
  }

  /** One line as the callers read it: both helpers, one after the other. */
  method ReadLine(file: File, line: array<char>, window: nat) returns (text: string)
    requires file.Valid() && line.Length > 1 && 0 < window <= line.Length
    modifies file, line
    ensures file.Valid()
    ensures var rest := old(file.Rest(line.Length, window));
            && text == (if rest.Nil? then "" else rest.head)
            && file.Rest(line.Length, window) == if rest.Nil? then Nil else rest.tail
    ensures file.eof <==> file.Rest(line.Length, window).Nil?
  {
    ghost var p0 := file.pos;
    GetOneLine(file, line);
    if file.pos == p0 {
      NoText(line.Length, window);
    }
    assert line[line.Length - 1] == line[..][line.Length - 1];
    var p := FilterHeadTailBlank(line, window);
    text := TextAt(line, p);
  }

  /** Nothing read is the empty text. */
  lemma NoText(size: nat, window: nat)
    requires 0 < window <= size
    ensures LineText([], size, window) == []
  {
    var z := [] + Zeros(size);
    assert Find(z, '\r', 0) == 0 && Find(z, '\n', 0) == 0;
    assert LineBuffer([], size) == z;
    TailIs(z, window, 0);
    assert HeadEnd(z, 0) == 0 && Zeroed(z, 0, 0) == z && Zeroed(z, 0, window) == z;
    assert Trimmed(z, window) == z;
  }

  // ---------- the lines of a file ----------

  /** The texts of the lines from `pos` on: one for every call of the helpers up to the end of file. */
  ghost function Fields(content: string, pos: nat, eof: bool, size: nat, window: nat): List<string>
    requires pos <= |content| && size > 1 && 0 < window <= size
    decreases |content| - pos, if eof then 0 else 1
  {
    if eof then Nil
    else
      var end := ChunkEnd(content, pos, size - 1);
      Cons(LineText(content[pos..end], size, window),
           Fields(content, end, AtEnd(content, pos, size - 1), size, window))
  }

  /** A file of whole lines. */
  function WholeLines(lines: List<string>): string {
    match lines
    case Nil => []
    case Cons(line, rest) => line + "\n" + WholeLines(rest)
  }

  /** A line that a buffer can hold and that has no special character in it. */
  predicate Plain(line: string, size: nat) {
    |line| + 2 <= size && NUL !in line && '\r' !in line && '\n' !in line
  }

  predicate AllPlain(lines: List<string>, size: nat) {
    lines.Cons? ==> Plain(lines.head, size) && AllPlain(lines.tail, size)
  }

  /** The texts of whole lines, and the empty one that the read at the end of file gives. */
  function Texts(lines: List<string>, size: nat, window: nat): List<string>
    requires AllPlain(lines, size) && 0 < window <= size
  {
    match lines
    case Nil => Cons("", Nil)
    case Cons(line, rest) => Cons(LineText(line + "\n", size, window), Texts(rest, size, window))
  }

  lemma {:induction false} ChunkOfLine(content: string, pos: nat, k: nat, max: nat)
    requires pos <= k < |content| && content[k] == '\n' && k + 1 - pos <= max
    requires forall i :: pos <= i < k ==> content[i] != '\n'
    ensures ChunkEnd(content, pos, max) == k + 1 && !AtEnd(content, pos, max)
    decreases k - pos
  {
    if pos < k {
      ChunkOfLine(content, pos + 1, k, max - 1);
    }
  }

  /** Whole plain lines are read one by one, wherever in a file they stand at the end. */
  lemma {:induction false} FieldsOfLines(before: string, lines: List<string>, size: nat, window: nat)
    requires AllPlain(lines, size) && size > 1 && 0 < window <= size
    ensures Fields(before + WholeLines(lines), |before|, false, size, window) == Texts(lines, size, window)
    decreases lines
  {
    match lines {
      case Nil =>
        NoText(size, window);
      case Cons(line, rest) =>
        assert before + WholeLines(lines) == (before + (line + "\n")) + WholeLines(rest);
        OneLine(before, line, WholeLines(rest), before + WholeLines(lines), |before| + |line|, size);
        FieldsOfLines(before + (line + "\n"), rest, size, window);
    }
  }

  lemma OneLine(before: string, line: string, rest: string, content: string, k: nat, size: nat)
    requires Plain(line, size) && content == before + (line + "\n") + rest && k == |before| + |line|
    ensures k < |content| && ChunkEnd(content, |before|, size - 1) == k + 1 && !AtEnd(content, |before|, size - 1)
    ensures content[|before|..k + 1] == line + "\n"
  {
    LineInside(before, line, rest, content);
    ChunkOfLine(content, |before|, k, size - 1);
  }

  lemma LineInside(before: string, line: string, rest: string, content: string)
    requires '\n' !in line && content == before + (line + "\n") + rest
    ensures |before| + |line| < |content| && content[|before| + |line|] == '\n'
    ensures forall i :: |before| <= i < |before| + |line| ==> content[i] != '\n'
    ensures content[|before|..|before| + |line| + 1] == line + "\n"
  {
    forall i | |before| <= i < |before| + |line|
      ensures content[i] != '\n'
    {
      assert content[i] == line[i - |before|] && line[i - |before|] in line;
    }
  }

  // ---------- what trimming does to a plain line ----------

  /** How much of a line is left: blanks go at its end, or at the end of the window if the line is longer
      and has a blank there. */
  function Kept(line: string, window: nat): (e: nat)
    ensures e <= |line|
  {
    if |line| <= window then TailStart(line, |line|)
    else if window > 0 && IsBlank(line[window - 1]) then TailStart(line, window)
    else |line|
  }

  lemma FindIs(b: string, c: char, i: nat, k: nat)
    requires i <= k < |b| && (b[k] == c || b[k] == NUL)
    requires forall j :: i <= j < k ==> b[j] != c && b[j] != NUL
    ensures Find(b, c, i) == k
  {
  }

  /** The newline is cut off a plain line. */
  lemma PlainBuffer(line: string, size: nat)
    requires Plain(line, size)
    ensures LineBuffer(line + "\n", size) == line + Zeros(size - |line|)
  {
    var b := (line + "\n") + Zeros(size - |line| - 1);
    FindIs(b, '\r', 0, |line| + 1);
    FindIs(b, '\n', 0, |line|);
    assert b[|line| := NUL] == line + Zeros(size - |line|);
  }

  lemma TailIs(b: string, n: nat, e: nat)
    requires e <= n <= |b| && (e > 0 ==> !IsBlank(b[e - 1]) && b[e - 1] != NUL)
    requires forall j :: e <= j < n ==> IsBlank(b[j]) || b[j] == NUL
    ensures TailStart(b, n) == e
  {
  }

  /** The first place that trimming clears behind a plain line. */
  lemma TailOfPlain(line: string, size: nat, window: nat)
    requires Plain(line, size) && 0 < window <= size
    ensures var t := TailStart(line + Zeros(size - |line|), window);
            t == if |line| > window && !IsBlank(line[window - 1]) then window else Kept(line, window)
  {
    var b, e := line + Zeros(size - |line|), Kept(line, window);
    if |line| > window && !IsBlank(line[window - 1]) {
      TailIs(b, window, window);
    } else {
      TailIs(b, window, e);
    }
  }

  /** The text of a plain line that does not begin with a blank. */
  lemma PlainText(line: string, size: nat, window: nat)
    requires Plain(line, size) && line != [] && !IsBlank(line[0]) && 0 < window <= size
    ensures LineText(line + "\n", size, window) == line[..Kept(line, window)]
  {
    PlainBuffer(line, size);
    TailOfPlain(line, size, window);
    TextOfPlain(line, line + Zeros(size - |line|), window, Kept(line, window));
  }

  lemma TextOfPlain(line: string, b: string, window: nat, e: nat)
    requires line != [] && !IsBlank(line[0]) && NUL !in line && 0 < window <= |b| && e <= |line| < |b|
    requires b == line + Zeros(|b| - |line|)
    requires e == |line| || (e == TailStart(b, window) && e < window)
    requires TailStart(b, window) == e || TailStart(b, window) == window
    ensures Text(Trimmed(b, window), HeadEnd(b, 0)) == line[..e]
  {
    assert b[0] == line[0];
    assert Zeroed(b, 0, 0) == b;
    var r := Zeroed(b, TailStart(b, window), window);
    forall j | 0 <= j < e
      ensures r[j] == line[j] && r[j] != NUL
    {
      assert b[j] == line[j] && line[j] in line;
    }
    FindIs(r, NUL, 0, e);
  }

  // ---------- what one read takes ----------

  /** A read stops behind the first newline, after `max` characters, or at the end of the file, whichever
      comes first; only in the last case, and when it asked for more, it meets the end. */
  lemma {:induction false} ReadMeaning(content: string, pos: nat, max: nat)
    requires pos <= |content|
    ensures var e := ChunkEnd(content, pos, max);
            && pos <= e <= |content| && e - pos <= max
            && (forall i :: pos <= i < e - 1 ==> content[i] != '\n')
            && (e == |content| || e - pos == max || (e > pos && content[e - 1] == '\n'))
            && (AtEnd(content, pos, max) <==>
                  e == |content| && e - pos < max && (e == pos || content[e - 1] != '\n'))
    decreases max
  {
    if max > 0 && pos < |content| && content[pos] != '\n' {
      ReadMeaning(content, pos + 1, max - 1);
    }
  }

  // ---------- what is left of any line that fits the window ----------

  predicate Blanks(s: string) {
    forall c <- s :: c == ' ' || c == '\t'
  }

  /** Not empty, nothing special in it and no blank at either end. */
  predicate Core(m: string) {
    && m != "" && !IsBlank(m[0]) && !IsBlank(m[|m| - 1])
    && NUL !in m && '\r' !in m && '\n' !in m
  }

  /** The ends of a line: of a text file of either kind, or of the last line of a file without one. */
  predicate Ending(s: string) {
    s == "\n" || s == "\r\n" || s == ""
  }

  /** The buffer begins with the text and a zero; behind these there are only zeros and newlines. */
  predicate Holds(b: string, x: string) {
    && |x| < |b| && b[..|x|] == x && b[|x|] == NUL
    && forall j :: |x| < j < |b| ==> b[j] == NUL || b[j] == '\n'
  }

  lemma LineIsHeld(x: string, ending: string, size: nat)
    requires Ending(ending) && NUL !in x && '\r' !in x && '\n' !in x && |x| + |ending| < size
    ensures Holds(LineBuffer(x + ending, size), x)
  {
    var b := (x + ending) + Zeros(size - |x + ending|);
    forall j | 0 <= j < |x|
      ensures b[j] == x[j] && b[j] != NUL && b[j] != '\r' && b[j] != '\n'
    {
      assert x[j] in x;
    }
    var n := |x|;
    if ending == "\n" {
      FindIs(b, '\r', 0, n + 1);
      FindIs(b, '\n', 0, n);
    } else {
      FindIs(b, '\r', 0, n);
      FindIs(CutAt(b, '\r'), '\n', 0, n);
    }
  }

  lemma HeadIs(b: string, i: nat, p: nat)
    requires i <= p < |b| && b[|b| - 1] == NUL && !IsBlank(b[p]) && forall j :: i <= j < p ==> IsBlank(b[j])
    ensures HeadEnd(b, i) == p
  {
  }

  /** Reading a line, with any of the endings, gives it without the blanks at both ends. */
  lemma LineMeaning(head: string, m: string, tail: string, ending: string, size: nat, window: nat)
    requires Blanks(head) && Core(m) && Blanks(tail) && Ending(ending)
    requires |head + m + tail| <= window <= size && |head + m + tail| + |ending| < size
    ensures LineText(head + m + tail + ending, size, window) == m
  {
    var x := head + m + tail;
    LineIsHeld(x, ending, size);
    TrimsBoth(LineBuffer(x + ending, size), head, m, tail, x, window);
  }

  lemma TrimsBoth(b: string, head: string, m: string, tail: string, x: string, window: nat)
    requires Blanks(head) && Core(m) && Blanks(tail) && x == head + m + tail
    requires Holds(b, x) && b[|b| - 1] == NUL && |x| <= window <= |b|
    ensures Text(Trimmed(b, window), HeadEnd(b, 0)) == m
  {
    var p, e := |head|, |head| + |m|;
    Positions(b, head, m, tail, x);
    HeadIs(b, 0, p);
    var h := Zeroed(b, 0, p);
    TailIs(h, window, e);
    var r := Zeroed(h, e, window);
    assert forall j :: p <= j < e ==> r[j] == b[j];
    FindIs(r, NUL, p, e);
    assert r[p..e] == m;
  }

  lemma Positions(b: string, head: string, m: string, tail: string, x: string)
    requires Blanks(head) && Core(m) && Blanks(tail) && x == head + m + tail && Holds(b, x)
    ensures var p, e := |head|, |head| + |m|;
            && (forall j :: 0 <= j < p ==> IsBlank(b[j]))
            && (forall j :: p <= j < e ==> b[j] == m[j - p] && b[j] != NUL)
            && (forall j :: e <= j < |b| ==> IsBlank(b[j]) || b[j] == NUL)
  {
    var p, e := |head|, |head| + |m|;
    forall j | 0 <= j < |x|
      ensures j < p ==> IsBlank(b[j])
      ensures p <= j < e ==> b[j] == m[j - p] && b[j] != NUL
      ensures e <= j ==> IsBlank(b[j])
    {
      assert b[j] == x[j];
      if j < p {
        assert head[j] in head;
      } else if j < e {
        assert m[j - p] in m;
      } else {
        assert tail[j - e] in tail;
      }
    }
  }
}
