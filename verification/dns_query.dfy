/** The query side of the DNS codec: `CUdpDns::set_dns_query` (udpdns.cpp:328-389), and the decoding of
    names as section 3.1 of RFC 1035 defines it. */
module DnsQueries {
  import opened Options

  type byte = x: int | 0 <= x < 256
  type bytes = seq<byte>

  /** The labels of a domain or of an encoded name, in order. */
  datatype Labels = NoLabel | Label(part: bytes, rest: Labels)

  const DOT: byte := 46
  const QUERY_ID := 0x237F

  // ---------- the specification ----------

  /** The position of the first dot at or after `i`, or the length. */
  function DotFrom(d: bytes, i: nat): (n: nat)
    requires i <= |d|
    ensures i <= n <= |d| && (n < |d| ==> d[n] == DOT)
    decreases |d| - i
  {
    if i == |d| || d[i] == DOT then i else DotFrom(d, i + 1)
  }

  /** The labels of a domain from position `i` on: what stands between its dots. */
  function Split(d: bytes, i: nat): (labels: Labels)
    requires i <= |d|
    ensures labels.Label?
    decreases |d| - i
  {
    var n := DotFrom(d, i);
    Label(d[i..n], if n == |d| then NoLabel else Split(d, n + 1))
  }

  /** A label behind its length, which is stored in one byte. */
  function Stored(part: bytes): bytes {
    [|part| % 256] + part
  }

  const NO_NAME := Label([], NoLabel)

  /** What the encoder emits for labels: each behind its length, then a zero. The empty label of an empty
      domain or behind a final dot is not emitted. */
  function Wire(labels: Labels): (w: bytes)
    ensures w != []
  {
    if labels.NoLabel? || labels == NO_NAME then [0] else Stored(labels.part) + Wire(labels.rest)
  }

  function QName(d: bytes): bytes {
    Wire(Split(d, 0))
  }

  function Shorts(words: seq<nat>): (r: bytes)
    ensures |r| == 2 * |words|
  {
    if words == [] then [] else Shorts(words[..|words| - 1]) + U16(words[|words| - 1])
  }

  /** A 16-bit number in network order. */
  function U16(n: nat): (r: bytes)
    ensures |r| == 2
  {
    [n / 256 % 256, n % 256]
  }

  function Header(flags: nat): bytes {
    Shorts([QUERY_ID, flags, 1, 0, 0, 0])
  }

  /** Type A, class IN. */
  const QUESTION_TAIL: bytes := [0, 1, 0, 1]

  function Query(d: bytes, flags: nat): bytes {
    Header(flags) + QName(d) + QUESTION_TAIL
  }

  // ---------- its words ----------

  function Word(high: nat, low: nat): nat {
    256 * high + low
  }

  /** The 16-bit number at a position, most significant byte first. */
  function ReadU16(m: bytes, i: nat): nat
    requires i + 2 <= |m|
  {
    Word(m[i], m[i + 1])
  }

  lemma U16Reads(n: nat)
    ensures ReadU16(U16(n), 0) == n % 0x10000
  {
  }

  lemma {:induction false} ShortsRead(words: seq<nat>, i: nat)
    requires i < |words|
    ensures ReadU16(Shorts(words), 2 * i) == words[i] % 0x10000
    decreases |words|
  {
    var before, last := words[..|words| - 1], words[|words| - 1];
    if i < |words| - 1 {
      ShortsRead(before, i);
    } else {
      U16Reads(last);
    }
  }

  lemma ReadInside(a: bytes, b: bytes, i: nat)
    requires i + 2 <= |a|
    ensures ReadU16(a + b, i) == ReadU16(a, i)
  {
  }

  /** The bytes begin with these words. */
  predicate Reads(words: seq<nat>, w: bytes) {
    |w| >= 2 * |words| && forall i :: 0 <= i < |words| ==> ReadU16(w, 2 * i) == words[i] % 0x10000
  }

  lemma ShortsReadAll(words: seq<nat>, rest: bytes)
    ensures Reads(words, Shorts(words) + rest)
  {
    forall i | 0 <= i < |words|
      ensures ReadU16(Shorts(words) + rest, 2 * i) == words[i] % 0x10000
    {
      ShortsRead(words, i);
      ReadInside(Shorts(words), rest, 2 * i);
    }
  }

  lemma WordsOf(words: seq<nat>, w: bytes, flags: nat)
    requires words == [0x237F, flags, 1, 0, 0, 0] && Reads(words, w)
    ensures |w| >= 12
    ensures ReadU16(w, 0) == 0x237F && ReadU16(w, 2) == flags % 0x10000
    ensures ReadU16(w, 4) == 1 && ReadU16(w, 6) == 0 && ReadU16(w, 8) == 0 && ReadU16(w, 10) == 0
  {
    assert words[0] == 0x237F && words[1] == flags && words[2] == 1 && words[3] == words[4] == words[5] == 0;
  }

  lemma TailWords(a: bytes, w: bytes)
    requires w == a + QUESTION_TAIL
    ensures |w| >= 4 && ReadU16(w, |w| - 4) == 1 && ReadU16(w, |w| - 2) == 1
  {
  }

  lemma QueryParts(d: bytes, flags: nat)
    ensures Query(d, flags) == Shorts([QUERY_ID, flags, 1, 0, 0, 0]) + (QName(d) + QUESTION_TAIL)
    ensures Query(d, flags) == (Header(flags) + QName(d)) + QUESTION_TAIL
  {
  }

  /** Read back in network order, the query has the fixed id, the flags, one question and no records, and it
      ends with type A and class IN. */
  lemma QueryWords(d: bytes, flags: nat, q: bytes)
    requires q == Query(d, flags)
    ensures |q| >= 12
    ensures ReadU16(q, 0) == 0x237F && ReadU16(q, 2) == flags % 0x10000
    ensures ReadU16(q, 4) == 1 && ReadU16(q, 6) == 0 && ReadU16(q, 8) == 0 && ReadU16(q, 10) == 0
    ensures ReadU16(q, |q| - 4) == 1 && ReadU16(q, |q| - 2) == 1
  {
    QueryParts(d, flags);
    ShortsReadAll([QUERY_ID, flags, 1, 0, 0, 0], QName(d) + QUESTION_TAIL);
    WordsOf([QUERY_ID, flags, 1, 0, 0, 0], q, flags);
    TailWords(Header(flags) + QName(d), q);
  }

  // ---------- labels and domains ----------

  function Join(labels: Labels): bytes {
    match labels
    case NoLabel => []
    case Label(part, rest) => if rest.NoLabel? then part else part + ([DOT] + Join(rest))
  }

  lemma CutAtDot(d: bytes, i: nat, n: nat)
    requires i <= n < |d| && d[n] == DOT
    ensures d[i..] == d[i..n] + ([DOT] + d[n + 1..])
  {
  }

  /** No dot and no zero byte. */
  predicate Clean(part: bytes) {
    0 !in part && DOT !in part
  }

  lemma {:induction false} DotIsFirst(d: bytes, i: nat)
    requires i <= |d| && 0 !in d
    ensures Clean(d[i..DotFrom(d, i)])
    decreases |d| - i
  {
    if i < |d| && d[i] != DOT {
      var n := DotFrom(d, i + 1);
      DotIsFirst(d, i + 1);
      assert d[i..n] == [d[i]] + d[i + 1..n];
      assert d[i] in d;
    }
  }

  /** The labels joined by dots are the domain. */
  lemma {:induction false} JoinSplit(d: bytes, i: nat)
    requires i <= |d|
    ensures Join(Split(d, i)) == d[i..]
    decreases |d| - i
  {
    var n := DotFrom(d, i);
    if n < |d| {
      var m := n + 1;
      JoinSplit(d, m);
      JoinFirst(d[i..n], Split(d, m));
      CutAtDot(d, i, n);
    }
  }

  lemma JoinFirst(part: bytes, rest: Labels)
    requires rest.Label?
    ensures Join(Label(part, rest)) == part + ([DOT] + Join(rest))
  {
  }

  predicate AllClean(labels: Labels) {
    labels.Label? ==> Clean(labels.part) && AllClean(labels.rest)
  }

  /** No label has a dot. */
  lemma {:induction false} SplitIsClean(d: bytes, i: nat)
    requires i <= |d| && 0 !in d
    ensures AllClean(Split(d, i))
    decreases |d| - i
  {
    var n := DotFrom(d, i);
    DotIsFirst(d, i);
    if n < |d| {
      SplitIsClean(d, n + 1);
    }
  }

  function Last(labels: Labels): bytes
    requires labels.Label?
  {
    if labels.rest.NoLabel? then labels.part else Last(labels.rest)
  }

  /** The last label is empty exactly when the domain is empty or ends with a dot. */
  lemma {:induction false} LastOfSplit(d: bytes, i: nat)
    requires i <= |d| && 0 !in d
    ensures Last(Split(d, i)) == [] <==> i == |d| || d[|d| - 1] == DOT
    decreases |d| - i
  {
    var n := DotFrom(d, i);
    if n < |d| {
      LastOfSplit(d, n + 1);
    } else if i < |d| {
      DotIsFirst(d, i);
      assert d[|d| - 1] == d[i..n][n - i - 1] && d[i..n][n - i - 1] in d[i..n];
    }
  }

  // ---------- the encoder ----------

  /** Writes the six header words in network order. */
  method PutHeader(buf: array<byte>, flags: nat)
    requires buf.Length >= 12
    modifies buf
    ensures buf[..12] == Header(flags) && buf[12..] == old(buf[12..])
  {
    var header := [QUERY_ID, flags, 1, 0, 0, 0];
    var i := 0;
    while i != 6
      invariant i <= 6
      invariant buf[..2 * i] == Shorts(header[..i])
      invariant buf[12..] == old(buf[12..])
    {
      var next := i + 1;
      buf[2 * i] := header[i] / 256 % 256;
      buf[2 * i + 1] := header[i] % 256;
      assert header[..next][..i] == header[..i];
      assert buf[..2 * next] == buf[..2 * i] + U16(header[i]);
      i := next;
    }
    assert header[..6] == header;
  }

  /** Writes one label behind its length, from `pos` on; returns the position behind it. */
  method PutLabel(buf: array<byte>, pos: nat, d: bytes, from: nat, to: nat) returns (end: nat)
    requires from <= to <= |d| && pos + 1 + (to - from) <= buf.Length
    modifies buf
    ensures end == pos + 1 + (to - from)
    ensures buf[..end] == old(buf[..pos]) + Stored(d[from..to]) && buf[end..] == old(buf[end..])
  {
    var len := to - from;
    ghost var part := d[from..to];
    end := pos + 1 + len;
    buf[pos] := len % 256;
    var i := 0;
    while i != len
      invariant i <= len
      invariant buf[..pos + 1] == old(buf[..pos]) + [len % 256] && buf[end..] == old(buf[end..])
      invariant forall j :: pos + 1 <= j < pos + 1 + i ==> buf[j] == part[j - (pos + 1)]
    {
      buf[pos + 1 + i] := d[from + i];
      i := i + 1;
    }
    assert buf[pos + 1..end] == part;
    assert buf[..end] == buf[..pos + 1] + buf[pos + 1..end];
  }

  method FindDot(d: bytes, from: nat) returns (cp2: nat)
    requires from <= |d|
    ensures cp2 == DotFrom(d, from)
  {
    cp2 := from;
    while cp2 != |d| && d[cp2] != DOT
      invariant from <= cp2 <= |d|
      invariant DotFrom(d, cp2) == DotFrom(d, from)
    {
      cp2 := cp2 + 1;
    }
  }

  /** What is still to be emitted at position `cp1`; after the last label only the zero. */
  ghost function ToGo(d: bytes, cp1: nat, done: bool): Labels
    requires cp1 <= |d|
  {
    if done then NoLabel else Split(d, cp1)
  }

  /** How the encoder's remaining work shrinks by one label. */
  lemma LabelDone(d: bytes, cp1: nat, n: nat, before: bytes)
    requires cp1 < |d| && n == DotFrom(d, cp1)
    ensures before + Wire(Split(d, cp1))
         == (before + Stored(d[cp1..n])) + Wire(if n == |d| then NoLabel else Split(d, n + 1))
  {
    var rest := if n == |d| then NoLabel else Split(d, n + 1);
    assert n == cp1 ==> rest.Label?;
    assert Split(d, cp1) == Label(d[cp1..n], rest);
    WireOneMore(d[cp1..n], rest, before);
  }

  lemma WireOneMore(part: bytes, rest: Labels, before: bytes)
    requires part == [] ==> rest.Label?
    ensures before + Wire(Label(part, rest)) == (before + Stored(part)) + Wire(rest)
  {
  }

  /** One round of the encoder's loop: the next label, and past the dot behind it. */
  method PutNext(buf: array<byte>, pos: nat, d: bytes, cp1: nat, ghost all: bytes)
      returns (pos': nat, cp1': nat, done: bool)
    requires cp1 < |d| && pos + (|d| - cp1) + 1 <= buf.Length
    requires buf[..pos] + Wire(Split(d, cp1)) == all
    modifies buf
    ensures cp1 < cp1' <= |d| && (done ==> cp1' == |d|)
    ensures pos' - pos == cp1' - cp1 + if done then 1 else 0
    ensures buf[..pos'] + Wire(ToGo(d, cp1', done)) == all && buf[pos'..] == old(buf[pos'..])
  {
    var cp2 := FindDot(d, cp1);
    LabelDone(d, cp1, cp2, buf[..pos]);
    pos' := PutLabel(buf, pos, d, cp1, cp2);
    done := cp2 == |d|;
    cp1' := if done then cp2 else cp2 + 1;
  }

  /** Writes the labels of the domain; only the zero behind them is then missing. */
  method PutLabels(buf: array<byte>, d: bytes) returns (pos: nat)
    requires buf.Length >= |d| + 14
    modifies buf
    ensures 12 <= pos <= |d| + 13 && buf[..pos] + [0] == old(buf[..12]) + QName(d)
    ensures buf[pos..] == old(buf[pos..])
  {
    ghost var all := buf[..12] + QName(d);
    pos := 12;
    var cp1 := 0;
    var done := false;
    while cp1 != |d|
      invariant cp1 <= |d| && pos == 12 + cp1 + if done then 1 else 0
      invariant done ==> cp1 == |d|
      invariant buf[..pos] + Wire(ToGo(d, cp1, done)) == all
      invariant buf[pos..] == old(buf[pos..])
    {
      ghost var was := buf[pos..];
      ghost var start := pos;
      pos, cp1, done := PutNext(buf, pos, d, cp1, all);
      assert buf[pos..] == was[pos - start..];
    }
    assert Wire(ToGo(d, cp1, done)) == [0];
  }

  /** Writes the name; returns the position behind it. */
  method PutName(buf: array<byte>, d: bytes) returns (end: nat)
    requires buf.Length >= |d| + 14
    modifies buf
    ensures end == 12 + |QName(d)| <= |d| + 14
    ensures buf[..end] == old(buf[..12]) + QName(d) && buf[end..] == old(buf[end..])
  {
    var pos := PutLabels(buf, d);
    ghost var labels, rest := buf[..pos], buf[pos..];
    buf[pos] := 0;
    end := pos + 1;
    assert buf[..end] == labels + [0];
    assert buf[end..] == rest[1..];
  }

  /** Writes the type and class of the question. */
  method PutTail(buf: array<byte>, end: nat) returns (len: nat)
    requires end + 4 <= buf.Length
    modifies buf
    ensures len == end + 4 && buf[..len] == old(buf[..end]) + QUESTION_TAIL && buf[len..] == old(buf[len..])
  {
    buf[end], buf[end + 1], buf[end + 2], buf[end + 3] := 0, 1, 0, 1;
    len := end + 4;
  }

  /** The whole query; `flags` is the second header word, whose bit layout is the compiler's. */
  method SetDnsQuery(buf: array<byte>, d: bytes, flags: nat) returns (len: nat)
    requires buf.Length >= |d| + 18
    modifies buf
    ensures len == |Query(d, flags)| <= |d| + 18
    ensures buf[..len] == Query(d, flags) && buf[len..] == old(buf[len..])
  {
    ghost var rest := buf[12..];
    PutHeader(buf, flags);
    var end := PutName(buf, d);
    assert buf[..end] == Header(flags) + QName(d) && buf[end..] == rest[end - 12..];
    len := PutTail(buf, end);
    assert len == |buf[..len]| && buf[len..] == rest[len - 12..];
  }

  // ---------- its length ----------

  lemma {:induction false} WireLength(labels: Labels)
    requires labels.Label?
    ensures |Wire(labels)| == |Join(labels)| + if Last(labels) == [] then 1 else 2
  {
    if labels.rest.Label? {
      WireLength(labels.rest);
    }
  }

  /** The query is |domain| + 18 bytes long when the domain is neither empty nor ends with a dot, and
      one byte shorter otherwise. */
  lemma QueryLength(d: bytes, flags: nat)
    requires 0 !in d
    ensures |Query(d, flags)| == |d| + if d == [] || d[|d| - 1] == DOT then 17 else 18
  {
    JoinSplit(d, 0);
    LastOfSplit(d, 0);
    WireLength(Split(d, 0));
  }

  // ---------- where the first zero byte of a name is ----------

  /** No label that is emitted has a length stored as zero. */
  predicate NoZeroLength(labels: Labels) {
    labels.NoLabel? || labels == NO_NAME || (|labels.part| % 256 != 0 && NoZeroLength(labels.rest))
  }

  /** A name that ends with its only zero byte. */
  ghost predicate EndsAtZero(q: bytes) {
    q != [] && q[|q| - 1] == 0 && 0 !in q[..|q| - 1]
  }

  lemma EndsAtZeroAppend(a: bytes, b: bytes)
    requires b != []
    ensures EndsAtZero(a + b) <==> 0 !in a && EndsAtZero(b)
  {
    assert (a + b)[..|a + b| - 1] == a + b[..|b| - 1];
  }

  lemma StoredZero(part: bytes)
    requires Clean(part)
    ensures 0 in Stored(part) <==> |part| % 256 == 0
  {
    assert Stored(part)[0] == |part| % 256;
  }

  /** The name ends at its first zero byte exactly when no emitted label has a multiple of 256 bytes. */
  lemma {:induction false} EndsAtZeroIff(labels: Labels)
    requires AllClean(labels)
    ensures EndsAtZero(Wire(labels)) <==> NoZeroLength(labels)
  {
    if labels.Label? && labels != NO_NAME {
      StoredZero(labels.part);
      EndsAtZeroAppend(Stored(labels.part), Wire(labels.rest));
      EndsAtZeroIff(labels.rest);
    }
  }

  // ---------- the round trip ----------

  /** What a decoder makes of bytes that begin with a name: the labels and the bytes behind the name. */
  datatype Name = Name(labels: Labels, rest: bytes)

  /** The decoder of section 3.1 of RFC 1035: a zero ends the name, a length is at most 63. */
  function DecodeName(m: bytes): Option<Name>
    decreases |m|
  {
    if m == [] then None
    else if m[0] == 0 then Some(Name(NoLabel, m[1..]))
    else if m[0] > 63 || 1 + m[0] > |m| then None
    else
      var more := DecodeName(m[1 + m[0]..]);
      if more.None? then None else Some(Name(Label(m[1..1 + m[0]], more.value.labels), more.value.rest))
  }

  lemma DecodeLabel(m: bytes, part: bytes, more: bytes)
    requires m == [|part|] + part + more && 1 <= |part| <= 63
    ensures DecodeName(m) == match DecodeName(more)
                             case None => None
                             case Some(r) => Some(Name(Label(part, r.labels), r.rest))
  {
    assert m[1..1 + |part|] == part;
    assert m[1 + |part|..] == more;
  }

  lemma DecodeEnd(more: bytes)
    ensures DecodeName([0] + more) == Some(Name(NoLabel, more))
  {
    assert ([0] + more)[1..] == more;
  }

  /** Every label is as section 2.3.4 of RFC 1035 wants it. */
  predicate Proper(labels: Labels) {
    labels.Label? ==> 1 <= |labels.part| <= 63 && Proper(labels.rest)
  }

  lemma WireParts(labels: Labels, tail: bytes)
    requires labels.Label? && labels != NO_NAME
    ensures Wire(labels) + tail == [|labels.part| % 256] + labels.part + (Wire(labels.rest) + tail)
  {
  }

  /** Decoding the name of proper labels gives those labels and stops where the encoder did. */
  lemma {:induction false} DecodesProper(labels: Labels, tail: bytes)
    requires Proper(labels)
    ensures DecodeName(Wire(labels) + tail) == Some(Name(labels, tail))
  {
    if labels.NoLabel? {
      DecodeEnd(tail);
    } else {
      DecodesProper(labels.rest, tail);
      WireParts(labels, tail);
      DecodeLabel(Wire(labels) + tail, labels.part, Wire(labels.rest) + tail);
    }
  }

  /** Decoding the name recovers the domain, and uses just the bytes written. */
  ghost predicate Recovers(labels: Labels, tail: bytes) {
    var r := DecodeName(Wire(labels) + tail);
    r.Some? && r.value.rest == tail && Join(r.value.labels) == Join(labels)
  }

  /** A label of 256 bytes or more, stored modulo 256, is not recovered: the decoder splits it where no
      dot is. */
  lemma LongLabelIsSplit(m: bytes, text: bytes, b: nat, more: bytes)
    requires 0 < b < |text| && b < 256 && text[b] != 0 && m == [b] + text + more
    ensures DecodeName(m).Some? ==>
      var joined := Join(DecodeName(m).value.labels);
      b < |joined| && joined[b] == DOT
  {
    if b <= 63 {
      var after := text[b..] + more;
      assert text == text[..b] + text[b..];
      DecodeLabel(m, text[..b], after);
      assert after[0] == text[b];
    }
  }

  /** A label whose length is not within 1..63 makes decoding fail, or stop early, or put a dot where
      none was. */
  lemma BadLabel(m: bytes, part: bytes, more: bytes)
    requires m == [|part| % 256] + part + more && Clean(part) && !(1 <= |part| <= 63)
    ensures DecodeName(m).Some? ==>
      || DecodeName(m).value == Name(NoLabel, part + more)
      || (var b := |part| % 256; var joined := Join(DecodeName(m).value.labels);
          b < |part| && b < |joined| && joined[b] != part[b])
  {
    var b := |part| % 256;
    if b == 0 {
      assert m == [0] + (part + more);
      DecodeEnd(part + more);
    } else if b < |part| {
      assert part[b] in part;
      LongLabelIsSplit(m, part, b, more);
    } else {
      assert m[0] == |part|;
    }
  }

  lemma {:induction false} RecoversOnlyProper(labels: Labels, tail: bytes)
    requires labels.Label? && labels != NO_NAME && Recovers(labels, tail) && AllClean(labels)
    ensures Proper(labels)
  {
    var part, rest := labels.part, labels.rest;
    var m := Wire(labels) + tail;
    var more := Wire(rest) + tail;
    WireParts(labels, tail);
    if !(1 <= |part| <= 63) {
      BadLabel(m, part, more);
      assert false;
    }
    DecodeLabel(m, part, more);
    var r := DecodeName(more).value;
    if rest.Label? {
      assert Join(labels) == part + ([DOT] + Join(rest));
      assert r.labels.Label?;
      SameTail(part, [DOT] + Join(r.labels), [DOT] + Join(rest));
      SameTail([DOT], Join(r.labels), Join(rest));
      if rest == NO_NAME {
        DecodeEnd(tail);
        assert false;
      }
      RecoversOnlyProper(rest, tail);
    }
  }

  lemma SameTail(a: bytes, b: bytes, c: bytes)
    ensures a + b == a + c ==> b == c
  {
    assert (a + b)[|a|..] == b && (a + c)[|a|..] == c;
  }

  /** For every domain the name in the query decodes back to it, using just the bytes the encoder wrote,
      exactly when the domain is empty or all its labels have 1 to 63 bytes. */
  lemma NameRoundTrip(d: bytes, flags: nat, tail: bytes)
    requires 0 !in d
    ensures var r := DecodeName((Query(d, flags) + tail)[12..]);
            && (r.Some? && r.value.rest == QUESTION_TAIL + tail && Join(r.value.labels) == d
                <==> d == [] || Proper(Split(d, 0)))
            && (Proper(Split(d, 0)) ==> r == Some(Name(Split(d, 0), QUESTION_TAIL + tail)))
  {
    var after := QUESTION_TAIL + tail;
    var labels := Split(d, 0);
    assert (Query(d, flags) + tail)[12..] == QName(d) + after;
    assert d[0..] == d;
    JoinSplit(d, 0);
    SplitIsClean(d, 0);
    if d == [] {
      DecodeEnd(after);
    } else if Proper(labels) {
      DecodesProper(labels, after);
    } else if Recovers(labels, after) {
      assert labels != NO_NAME;
      RecoversOnlyProper(labels, after);
    }
  }
}
