/** The answer side of the DNS codec: `get_dns_resonse_head` and `get_dns_response`
    (udpdns.cpp:394-501), against the message format of sections 4.1.1 to 4.1.4 of RFC 1035. */
module DnsResponses {
  import opened Options
  import opened DnsQueries
  import opened Decimals

  /** A read past the end of the buffer, which the code does not check for, is an outcome of its own. */
  datatype Reply = Address(text: string) | Failed(code: int) | Overrun

  // ---------- what the parser computes ----------

  /** The number of answers, or a negative code. The third test looks at the byte behind the flags. */
  function Head(m: bytes): int
    requires |m| >= 12
  {
    if ReadU16(m, 0) != QUERY_ID then -1
    else if m[2] < 128 then -2
    else if m[4] % 16 != 0 then -3
    else if ReadU16(m, 6) == 0 then -4
    else ReadU16(m, 6)
  }

  function ZeroFrom(m: bytes, i: nat): (z: nat)
    requires i <= |m|
    ensures i <= z <= |m| && (z < |m| ==> m[z] == 0)
    decreases |m| - i
  {
    if i == |m| || m[i] == 0 then i else ZeroFrom(m, i + 1)
  }

  function Drop(m: bytes, n: nat): bytes {
    if n <= |m| then m[n..] else []
  }

  /** What the record at the front of `s` tells: its length, when it is not an address, the address, or
      that the buffer ends within it. */
  datatype Seen = Other(len: nat) | Found(ip: bytes) | CutOff

  function Look(s: bytes): (seen: Seen)
    ensures seen.Found? ==> |seen.ip| == 4
  {
    if |s| < 12 then CutOff
    else if ReadU16(s, 2) == 1 && ReadU16(s, 4) == 1 && ReadU16(s, 10) == 4 then
      if |s| < 16 then CutOff else Found(s[12..16])
    else Other(12 + ReadU16(s, 10))
  }

  /** What the scan of at most `count` records ends with; `Other` when none is an address. */
  function Scan(s: bytes, count: nat): (seen: Seen)
    ensures seen.Found? ==> |seen.ip| == 4
    decreases count
  {
    if count == 0 then Other(0)
    else
      match Look(s)
      case Other(len) => Scan(Drop(s, len), count - 1)
      case seen => seen
  }

  lemma ScanStep(s: bytes, count: nat)
    requires count > 0
    ensures Scan(s, count) == if Look(s).Other? then Scan(Drop(s, Look(s).len), count - 1) else Look(s)
  {
  }

  function ToReply(seen: Seen): Reply
    requires seen.Found? ==> |seen.ip| == 4
  {
    match seen
    case Other(_) => Failed(-2)
    case Found(ip) => Address(Dotted(ip))
    case CutOff => Overrun
  }

  function Parse(m: bytes): Reply
    requires |m| >= 12
  {
    if Head(m) < 0 then Failed(-1) else ToReply(Body(m, Head(m)))
  }

  /** What follows the header: the question is skipped, the records are scanned. */
  function Body(m: bytes, answers: nat): (seen: Seen)
    requires |m| >= 12
    ensures seen.Found? ==> |seen.ip| == 4
  {
    var z := ZeroFrom(m, 12);
    if z == |m| then CutOff else Scan(Drop(m, z + 5), answers)
  }

  function Dotted(a: bytes): string
    requires |a| == 4
  {
    Decimal(a[0]) + "." + (Decimal(a[1]) + "." + (Decimal(a[2]) + "." + Decimal(a[3])))
  }

  // ---------- the parser ----------

  method GetDnsResponseHead(msg: array<byte>) returns (count: int)
    requires msg.Length >= 12
    ensures count == Head(msg[..])
    ensures count == -1 <==> !(msg[0] == 0x23 && msg[1] == 0x7F)
    ensures count == -2 <==> msg[0] == 0x23 && msg[1] == 0x7F && msg[2] < 128
    ensures count == -3 <==> msg[0] == 0x23 && msg[1] == 0x7F && msg[2] >= 128 && msg[4] % 16 != 0
    ensures count == -4 <==> msg[0] == 0x23 && msg[1] == 0x7F && msg[2] >= 128 && msg[4] % 16 == 0
                             && msg[6] == 0 && msg[7] == 0
    ensures count >= -4 && (count >= 0 ==> count == Word(msg[6], msg[7]) > 0)
  {
    if Word(msg[0], msg[1]) != QUERY_ID {
      return -1;
    }
    if msg[2] < 128 {
      return -2;
    }
    if msg[4] % 16 != 0 {
      return -3;
    }
    count := Word(msg[6], msg[7]);
    if count <= 0 {
      return -4;
    }
  }

  lemma DropDrop(m: bytes, a: nat, b: nat)
    ensures Drop(Drop(m, a), b) == Drop(m, a + b)
  {
  }

  /** The body of the loop over the records. */
  method LookAt(msg: array<byte>, cp: nat) returns (seen: Seen)
    ensures seen == Look(Drop(msg[..], cp))
  {
    if cp + 12 > msg.Length {
      return CutOff;
    }
    var qtype := Word(msg[cp + 2], msg[cp + 3]);
    var qclass := Word(msg[cp + 4], msg[cp + 5]);
    var len := Word(msg[cp + 10], msg[cp + 11]);
    if qtype == 1 && qclass == 1 && len == 4 {
      if cp + 16 > msg.Length {
        return CutOff;
      }
      assert Drop(msg[..], cp)[12..16] == msg[cp + 12..cp + 16];
      return Found(msg[cp + 12..cp + 16]);
    }
    return Other(12 + len);
  }

  /** The loop over the records, from `start` on. */
  method ScanRecords(msg: array<byte>, start: nat, answers: nat) returns (seen: Seen)
    ensures seen == Scan(Drop(msg[..], start), answers)
  {
    ghost var result := Scan(Drop(msg[..], start), answers);
    var cp: nat := start;
    var count := 0;
    while count != answers
      invariant count <= answers
      invariant Scan(Drop(msg[..], cp), answers - count) == result
    {
      ScanStep(Drop(msg[..], cp), answers - count);
      seen := LookAt(msg, cp);
      if !seen.Other? {
        return;
      }
      DropDrop(msg[..], cp, seen.len);
      cp := cp + seen.len;
      count := count + 1;
    }
    return Other(0);
  }

  /** The loop that skips the question's name. */
  method FindZero(msg: array<byte>, from: nat) returns (cp: nat)
    requires from <= msg.Length
    ensures cp == ZeroFrom(msg[..], from)
  {
    cp := from;
    while cp < msg.Length && msg[cp] != 0
      invariant from <= cp <= msg.Length
      invariant ZeroFrom(msg[..], cp) == ZeroFrom(msg[..], from)
    {
      cp := cp + 1;
    }
  }

  method GetAnswer(msg: array<byte>, answers: nat) returns (seen: Seen)
    requires msg.Length >= 12
    ensures seen == Body(msg[..], answers)
  {
    var cp := FindZero(msg, 12);
    if cp == msg.Length {
      return CutOff;
    }
    seen := ScanRecords(msg, cp + 5, answers);
  }

  method GetDnsResponse(msg: array<byte>) returns (r: Reply)
    requires msg.Length >= 12
    ensures r == Parse(msg[..])
  {
    var answers := GetDnsResponseHead(msg);
    if answers < 0 {
      return Failed(-1);
    }
    var seen := GetAnswer(msg, answers);
    match seen {
      case Other(_) => r := Failed(-2);
      case Found(ip) => r := Address(Dotted(ip));
      case CutOff => r := Overrun;
    }
  }

  // ---------- well-formed responses ----------

  /** A resource record whose name is a two-byte pointer; `ttl` and `name` are carried as they are. */
  datatype Record = Record(name: bytes, qtype: nat, qclass: nat, ttl: bytes, data: bytes)
  {
    predicate Valid() {
      |name| == 2 && |ttl| == 4 && qtype < 0x10000 && qclass < 0x10000 && |data| < 0x10000
    }

    predicate IsAddress() {
      qtype == 1 && qclass == 1 && |data| == 4
    }
  }

  function RecordHead(r: Record): bytes {
    r.name + U16(r.qtype) + U16(r.qclass) + r.ttl + U16(|r.data|)
  }

  function WireRecords(rs: seq<Record>): bytes {
    if rs == [] then [] else RecordHead(rs[0]) + rs[0].data + WireRecords(rs[1..])
  }

  /** The index of the first address record, or their number. */
  function FirstAddress(rs: seq<Record>): (i: nat)
    ensures i <= |rs| && (i < |rs| ==> rs[i].IsAddress())
    ensures forall k :: 0 <= k < i ==> !rs[k].IsAddress()
  {
    if rs == [] || rs[0].IsAddress() then 0 else 1 + FirstAddress(rs[1..])
  }

  /** The header of a response: both flag bytes and the last two counts are free. */
  function ResponseHead(flags: bytes, answers: nat, counts: bytes): bytes
    requires |flags| == 2 && |counts| == 4
  {
    U16(QUERY_ID) + flags + U16(1) + U16(answers) + counts
  }

  function Response(flags: bytes, counts: bytes, d: bytes, rs: seq<Record>, tail: bytes): bytes
    requires |flags| == 2 && |counts| == 4
  {
    ResponseHead(flags, |rs|, counts) + QName(d) + QUESTION_TAIL + WireRecords(rs) + tail
  }

  // ---------- the main result ----------

  lemma RecordHeadFields(r: Record, more: bytes)
    requires r.Valid()
    ensures var s := RecordHead(r) + more;
            && |s| == 12 + |more|
            && ReadU16(s, 2) == r.qtype && ReadU16(s, 4) == r.qclass && ReadU16(s, 10) == |r.data|
  {
  }

  lemma {:induction false} ScanFindsFirst(rs: seq<Record>, tail: bytes)
    requires forall r <- rs :: r.Valid()
    ensures Scan(WireRecords(rs) + tail, |rs|)
         == if FirstAddress(rs) == |rs| then Other(0) else Found(rs[FirstAddress(rs)].data)
    decreases |rs|
  {
    if rs != [] {
      var r, rest := rs[0], rs[1..];
      assert r in rs;
      ScanFindsFirst(rest, tail);
      FirstRecordApart(RecordHead(r) + r.data, WireRecords(rest), tail);
      ScanRecord(r, WireRecords(rest) + tail, |rest|, |rs|);
      assert rs == [r] + rest;
    }
  }

  lemma FirstRecordApart(a: bytes, b: bytes, c: bytes)
    ensures a + b + c == a + (b + c)
  {
  }

  lemma ScanRecord(r: Record, more: bytes, left: nat, count: nat)
    requires r.Valid() && count == left + 1
    ensures Scan(RecordHead(r) + r.data + more, count) == if r.IsAddress() then Found(r.data) else Scan(more, left)
  {
    LookSees(r, more);
    ScanStep(RecordHead(r) + r.data + more, count);
  }

  lemma LookSees(r: Record, more: bytes)
    requires r.Valid()
    ensures var s := RecordHead(r) + r.data + more;
            && Look(s) == (if r.IsAddress() then Found(r.data) else Other(12 + |r.data|))
            && Drop(s, 12 + |r.data|) == more
  {
    var s := RecordHead(r) + r.data + more;
    assert s == RecordHead(r) + (r.data + more);
    RecordHeadFields(r, r.data + more);
    assert s[12..12 + |r.data|] == r.data && s[12 + |r.data|..] == more;
  }

  lemma {:induction false} ZeroAfter(m: bytes, i: nat, z: nat)
    requires i <= z < |m| && m[z] == 0 && forall k :: i <= k < z ==> m[k] != 0
    ensures ZeroFrom(m, i) == z
    decreases z - i
  {
    if i < z {
      ZeroAfter(m, i + 1, z);
    }
  }

  lemma ZeroOfName(head: bytes, q: bytes, rest: bytes)
    requires EndsAtZero(q)
    ensures ZeroFrom(head + q + rest, |head|) == |head| + |q| - 1
  {
    var m := head + q + rest;
    forall k | |head| <= k < |head| + |q| - 1
      ensures m[k] != 0
    {
      assert m[k] == q[..|q| - 1][k - |head|];
    }
    ZeroAfter(m, |head|, |head| + |q| - 1);
  }

  lemma HeadFields(flags: bytes, answers: nat, counts: bytes, rest: bytes)
    requires |flags| == 2 && |counts| == 4 && flags[0] >= 128 && 0 < answers < 0x10000
    ensures |ResponseHead(flags, answers, counts)| == 12
    ensures Head(ResponseHead(flags, answers, counts) + rest) == answers
  {
  }

  /** Any response to the encoder's own question, with any records with two-byte names and anything
      behind them, is read without an overrun: the result is the text of the first A/IN record of four
      bytes, or the code -2 when there is none. */
  lemma ReadsFirstAddress(flags: bytes, counts: bytes, d: bytes, rs: seq<Record>, tail: bytes)
    requires |flags| == 2 && |counts| == 4 && flags[0] >= 128 && 0 < |rs| < 0x10000
    requires 0 !in d && NoZeroLength(Split(d, 0))
    requires forall r <- rs :: r.Valid()
    ensures var reply, i := Parse(Response(flags, counts, d, rs, tail)), FirstAddress(rs);
            if i == |rs| then reply == Failed(-2)
            else reply == Address(Dotted(rs[i].data)) && Octets(reply.text) == rs[i].data
  {
    var m := Response(flags, counts, d, rs, tail);
    if FirstAddress(rs) < |rs| {
      OctetsOfDotted(rs[FirstAddress(rs)].data);
    }
    var z := ReachesRecords(flags, counts, d, rs, tail, m);
    ScanFindsFirst(rs, tail);
    ParsesFrom(m, |rs|, z, WireRecords(rs) + tail);
  }

  /** The header of a response is accepted, and behind the name of the question come the records. */
  lemma ReachesRecords(flags: bytes, counts: bytes, d: bytes, rs: seq<Record>, tail: bytes, m: bytes) returns (z: nat)
    requires |flags| == 2 && |counts| == 4 && flags[0] >= 128 && 0 < |rs| < 0x10000
    requires 0 !in d && NoZeroLength(Split(d, 0)) && m == Response(flags, counts, d, rs, tail)
    ensures |m| >= 12 && Head(m) == |rs|
    ensures z == ZeroFrom(m, 12) && z < |m| && Drop(m, z + 5) == WireRecords(rs) + tail
  {
    var head, q, records := ResponseHead(flags, |rs|, counts), QName(d), WireRecords(rs);
    SplitIsClean(d, 0);
    EndsAtZeroIff(Split(d, 0));
    HeadFields(flags, |rs|, counts, q + QUESTION_TAIL + records + tail);
    SkipsQuestion(head, q, records, tail);
    z := ZeroFrom(m, 12);
  }

  lemma ParsesFrom(m: bytes, answers: nat, z: nat, body: bytes)
    requires |m| >= 12 && Head(m) == answers && answers > 0
    requires z == ZeroFrom(m, 12) && z < |m| && Drop(m, z + 5) == body
    ensures Parse(m) == ToReply(Scan(body, answers))
  {
    ScansBody(m, answers, z, body);
  }

  lemma ScansBody(m: bytes, answers: nat, z: nat, body: bytes)
    requires |m| >= 12 && z == ZeroFrom(m, 12) && z < |m| && Drop(m, z + 5) == body
    ensures Body(m, answers) == Scan(body, answers)
  {
  }

  /** The parser gets past the question to the first record. */
  lemma SkipsQuestion(head: bytes, q: bytes, records: bytes, tail: bytes)
    requires |head| == 12 && EndsAtZero(q)
    ensures var m := head + q + QUESTION_TAIL + records + tail; var z := ZeroFrom(m, 12);
            && m == head + (q + QUESTION_TAIL + records + tail)
            && z < |m| && Drop(m, z + 5) == records + tail
  {
    var rest := QUESTION_TAIL + records + tail;
    assert head + q + QUESTION_TAIL + records + tail == head + q + rest;
    ZeroOfName(head, q, rest);
  }

  // ---------- the header, and what lies behind the end ----------

  /** A message is refused by its header exactly when it has a foreign id, is no response, has something in
      the low half of byte 4, or announces no answers. */
  lemma RefusedIff(m: bytes)
    requires |m| >= 12
    ensures Parse(m) == Failed(-1) <==>
              || m[0] != 0x23 || m[1] != 0x7F
              || m[2] < 128
              || m[4] % 16 != 0
              || (m[6] == 0 && m[7] == 0)
  {
  }

  /** The scans of two buffers end the same, unless the first one meets its end. */
  ghost predicate Alike(s: bytes, w: bytes, count: nat) {
    Scan(s, count).CutOff? || Scan(w, count) == Scan(s, count)
  }

  lemma {:induction false} ScanIgnoresMore(s: bytes, more: bytes, count: nat)
    ensures Alike(s, s + more, count)
    decreases count, 0
  {
    if count > 0 {
      var left := count - 1;
      if !Look(s).CutOff? {
        LookIgnoresMore(s, more);
      }
      if Look(s).Other? {
        AlikeBehind(s, more, Look(s).len, left);
      }
      AlikeStep(s, s + more, left, count);
    }
  }

  lemma {:induction false} AlikeBehind(s: bytes, more: bytes, len: nat, left: nat)
    ensures Alike(Drop(s, len), Drop(s + more, len), left)
    decreases left, 1
  {
    if len <= |s| {
      DropMore(s, more, len);
      ScanIgnoresMore(Drop(s, len), more, left);
    } else {
      ScanNothing(left);
    }
  }

  lemma AlikeStep(s: bytes, w: bytes, left: nat, count: nat)
    requires count == left + 1
    requires Look(s).CutOff? || Look(w) == Look(s)
    requires Look(s).Other? ==> Alike(Drop(s, Look(s).len), Drop(w, Look(s).len), left)
    ensures Alike(s, w, count)
  {
    ScanStep(s, count);
    ScanStep(w, count);
  }

  lemma ScanNothing(count: nat)
    ensures Scan([], count).CutOff? <==> count > 0
  {
  }

  lemma DropMore(s: bytes, more: bytes, n: nat)
    requires n <= |s|
    ensures Drop(s + more, n) == Drop(s, n) + more
  {
  }

  lemma LookIgnoresMore(s: bytes, more: bytes)
    requires !Look(s).CutOff?
    ensures Look(s + more) == Look(s)
  {
    if |s| >= 16 {
      assert (s + more)[12..16] == s[12..16];
    }
  }

  /** A question that does not end within the message is cut off. */
  lemma QuestionCutOff(m: bytes, n: nat, z: nat)
    requires |m| >= 12 && n > 0 && z == ZeroFrom(m, 12)
    ensures z + 5 > |m| ==> Body(m, n).CutOff?
  {
    ScanNothing(n);
  }

  lemma ZeroStays(m: bytes, more: bytes, z: nat)
    requires 12 <= |m| && z == ZeroFrom(m, 12) < |m|
    ensures ZeroFrom(m + more, 12) == z
  {
    ZeroIsFirst(m, 12);
    ZeroAfter(m + more, 12, z);
  }

  /** A reply that was found without a read past the end stays the same whatever follows the message. */
  lemma LaterBytesIgnored(m: bytes, more: bytes)
    requires |m| >= 12 && Parse(m) != Overrun
    ensures Parse(m + more) == Parse(m)
  {
    if Head(m) >= 0 {
      var z, n := ZeroFrom(m, 12), Head(m);
      QuestionCutOff(m, n, z);
      var body := Drop(m, z + 5);
      ParsesFrom(m, n, z, body);
      MoreParsesFrom(m, more, n, z, body);
      ScanIgnoresMore(body, more, n);
      AlikeReplies(body, body + more, n);
    }
  }

  lemma MoreParsesFrom(m: bytes, more: bytes, n: nat, z: nat, body: bytes)
    requires |m| >= 12 && Head(m) == n && n > 0
    requires z == ZeroFrom(m, 12) && z + 5 <= |m| && body == Drop(m, z + 5)
    ensures Parse(m + more) == ToReply(Scan(body + more, n))
  {
    ZeroStays(m, more, z);
    DropMore(m, more, z + 5);
    ParsesFrom(m + more, n, z, body + more);
  }

  lemma AlikeReplies(s: bytes, w: bytes, n: nat)
    requires Alike(s, w, n) && ToReply(Scan(s, n)) != Overrun
    ensures ToReply(Scan(w, n)) == ToReply(Scan(s, n))
  {
  }

  lemma {:induction false} ZeroIsFirst(m: bytes, i: nat)
    requires i <= |m|
    ensures forall k :: i <= k < ZeroFrom(m, i) ==> m[k] != 0
    decreases |m| - i
  {
    if i < |m| && m[i] != 0 {
      ZeroIsFirst(m, i + 1);
    }
  }

  // ---------- the text of an address ----------

  /** The first dot at or after `i`, or the end. */
  function DotAt(s: string, i: nat): (k: nat)
    requires i <= |s|
    ensures i <= k <= |s|
    decreases |s| - i
  {
    if i == |s| || s[i] == '.' then i else DotAt(s, i + 1)
  }

  /** A reader of dotted text: the numbers between the dots, from left to right. */
  function Octets(s: string): seq<int>
    decreases |s|
  {
    var k := DotAt(s, 0);
    if k == |s| then [Value(s)] else [Value(s[..k])] + Octets(s[k + 1..])
  }

  lemma {:induction false} DotIsAt(s: string, i: nat, k: nat)
    requires i <= k <= |s| && (k < |s| ==> s[k] == '.') && forall j :: i <= j < k ==> s[j] != '.'
    ensures DotAt(s, i) == k
    decreases k - i
  {
    if i < k {
      DotIsAt(s, i + 1, k);
    }
  }

  lemma OneOctet(n: nat, rest: string)
    ensures Octets(Decimal(n)) == [n]
    ensures Octets(Decimal(n) + "." + rest) == [n] + Octets(rest)
  {
    var s := Decimal(n) + "." + rest;
    DecimalValue(n);
    forall j | 0 <= j < |Decimal(n)|
      ensures Decimal(n)[j] != '.' && s[j] != '.'
    {
      assert Decimal(n)[j] in Decimal(n);
    }
    DotIsAt(Decimal(n), 0, |Decimal(n)|);
    DotIsAt(s, 0, |Decimal(n)|);
    assert s[..|Decimal(n)|] == Decimal(n) && s[|Decimal(n)| + 1..] == rest;
  }

  /** Numbers in decimal with dots between them. */
  function Dots(a: bytes): string
    requires a != []
  {
    if |a| == 1 then Decimal(a[0]) else Decimal(a[0]) + "." + Dots(a[1..])
  }

  lemma {:induction false} OctetsOfDots(a: bytes)
    requires a != []
    ensures Octets(Dots(a)) == a
    decreases |a|
  {
    assert a == [a[0]] + a[1..];
    if |a| == 1 {
      OneOctet(a[0], "");
    } else {
      OctetsOfDots(a[1..]);
      OctetBefore(a[0], Dots(a[1..]), a[1..]);
    }
  }

  lemma DottedIsDots(a: bytes)
    requires |a| == 4
    ensures Dotted(a) == Dots(a)
  {
    assert a[1..][1..] == a[2..] && a[2..][1..] == a[3..];
    assert Dots(a[3..]) == Decimal(a[3]);
    assert Dots(a[2..]) == Decimal(a[2]) + "." + Dots(a[3..]);
    assert Dots(a[1..]) == Decimal(a[1]) + "." + Dots(a[2..]);
  }

  /** Read back, the text gives the four bytes of the address in their order. */
  lemma OctetsOfDotted(a: bytes)
    requires |a| == 4
    ensures Octets(Dotted(a)) == a
  {
    DottedIsDots(a);
    OctetsOfDots(a);
  }

  lemma OctetBefore(n: nat, rest: string, octets: seq<int>)
    requires Octets(rest) == octets
    ensures Octets(Decimal(n) + "." + rest) == [n] + octets
  {
    OneOctet(n, rest);
  }

  lemma DotsDiffer(a: string, b: string, x: string, y: string)
    requires '.' !in b && |a| < |b|
    ensures a + "." + x != b + "." + y
  {
    assert (a + "." + x)[|a|] == '.' && (b + "." + y)[|a|] == b[|a|];
  }

  lemma FirstDot(a: string, b: string, x: string, y: string)
    requires '.' !in a && '.' !in b && a + "." + x == b + "." + y
    ensures a == b && x == y
  {
    if |a| < |b| {
      DotsDiffer(a, b, x, y);
    } else if |b| < |a| {
      DotsDiffer(b, a, y, x);
    } else {
      assert (a + "." + x)[..|a|] == a && (b + "." + y)[..|b|] == b;
      assert (a + "." + x)[|a| + 1..] == x && (b + "." + y)[|b| + 1..] == y;
    }
  }

  lemma SameNumber(m: nat, n: nat)
    requires Decimal(m) == Decimal(n)
    ensures m == n
  {
    DecimalValue(m);
    DecimalValue(n);
  }

  /** The text determines the address, and its length is between 7 and 15. */
  lemma DottedIsFaithful(a: bytes, b: bytes)
    requires |a| == 4 && |b| == 4
    ensures Dotted(a) == Dotted(b) <==> a == b
    ensures 7 <= |Dotted(a)| <= 15
  {
    forall i | 0 <= i < 4
      ensures '.' !in Decimal(a[i]) && '.' !in Decimal(b[i]) && 1 <= |Decimal(a[i])| <= 3
    {
      DecimalValue(a[i]);
      DecimalValue(b[i]);
    }
    if Dotted(a) == Dotted(b) {
      var a3, b3 := Decimal(a[2]) + "." + Decimal(a[3]), Decimal(b[2]) + "." + Decimal(b[3]);
      FirstDot(Decimal(a[0]), Decimal(b[0]), Decimal(a[1]) + "." + a3, Decimal(b[1]) + "." + b3);
      FirstDot(Decimal(a[1]), Decimal(b[1]), a3, b3);
      FirstDot(Decimal(a[2]), Decimal(b[2]), Decimal(a[3]), Decimal(b[3]));
      SameNumber(a[0], b[0]);
      SameNumber(a[1], b[1]);
      SameNumber(a[2], b[2]);
      SameNumber(a[3], b[3]);
      assert a == [a[0], a[1], a[2], a[3]] && b == [b[0], b[1], b[2], b[3]];
    }
  }

  // ---------- the test that should look at the response code ----------

  /** The response code of section 4.1.1 of RFC 1035 plays no part: the answer is the same whatever
      byte 3 holds. */
  lemma ResponseCodeIgnored(m: bytes, b: byte)
    requires |m| >= 12
    ensures Parse(m[3 := b]) == Parse(m)
  {
    var m' := m[3 := b];
    SameZero(m, m', 12);
    assert forall n :: 12 <= n ==> Drop(m', n) == Drop(m, n);
  }

  lemma {:induction false} SameZero(m: bytes, m': bytes, i: nat)
    requires |m| == |m'| && i <= |m| && forall k :: i <= k < |m| ==> m[k] == m'[k]
    ensures ZeroFrom(m, i) == ZeroFrom(m', i)
    decreases |m| - i
  {
    if i < |m| {
      SameZero(m, m', i + 1);
    }
  }
}
