/**
  Finding the server name in a TLS ClientHello: section 5.1 and section 4.1.2 of RFC 8446 for
  the record and the hello, section 3 of RFC 6066 for the server_name extension.
 */
module Sni {
  import opened Base

  const MAX_INSPECT_BYTES := 8192
  const MAX_RECORD := 16384

  type Bytes = seq<byte>

  function U16(s: Bytes): int
    requires |s| >= 2
  {
    s[0] as int * 256 + s[1] as int
  }

  function U24(s: Bytes): int
    requires |s| >= 3
  {
    s[0] as int * 65536 + s[1] as int * 256 + s[2] as int
  }

  // ---- What the parsers compute, on the bytes that are left ------------------------------

  function NameIn(d: Bytes): Bytes {
    if |d| < 5 then []
    else
      var end := if 2 + U16(d) > |d| then |d| else 2 + U16(d);
      var n := U16(d[3..]);
      if end < 5 || d[2] != 0 || n == 0 || 5 + n > end then [] else d[5..5 + n]
  }

  function NameInExtensions(s: Bytes): Bytes {
    if |s| < 4 then []
    else
      var n := U16(s[2..]);
      if 4 + n > |s| then []
      else if U16(s) == 0 then NameIn(s[4..4 + n])
      else NameInExtensions(s[4 + n..])
  }

  function NameInBlock(d: Bytes): Bytes
    requires |d| >= 2
  {
    NameInExtensions(d[2..if 2 + U16(d) > |d| then |d| else 2 + U16(d)])
  }

  function NameAfterCompression(c: Bytes): Bytes {
    if c == [] || |c| < 1 + c[0] as int + 2 then [] else NameInBlock(c[1 + c[0] as int..])
  }

  function NameAfterSuites(b: Bytes): Bytes
    requires |b| >= 2
  {
    if |b| <= 2 + U16(b) then [] else NameAfterCompression(b[2 + U16(b)..])
  }

  function NameAfterRandom(a: Bytes): Bytes {
    if a == [] || |a| < 1 + a[0] as int + 2 then [] else NameAfterSuites(a[1 + a[0] as int..])
  }

  function NameInRecord(r: Bytes): Bytes {
    if |r| < 4 || r[0] != 1 || |r| - 4 < U24(r[1..]) || U24(r[1..]) < 34 then [] else NameAfterRandom(r[38..])
  }

  /** Whether a record can start here. */
  predicate IsHeader(s: Bytes)
    requires |s| >= 5
  {
    s[0] == 0x16 && U16(s[1..]) >= 0x0301 && 0 < U16(s[3..]) <= MAX_RECORD
  }

  function NameInStream(s: Bytes): Bytes {
    if |s| < 5 then []
    else if !IsHeader(s) then NameInStream(s[1..])
    else
      var end := 5 + U16(s[3..]);
      if end > |s| then []
      else if NameInRecord(s[5..end]) != [] then NameInRecord(s[5..end])
      else NameInStream(s[end..])
  }

  // ---- The parsers: total on every input -------------------------------------------------

  method ParseSNIExtension(data: Bytes) returns (name: Bytes)
    ensures name == NameIn(data)
  {
    if |data| < 5 { return []; }
    var listLen := U16(data[..2]);
    var pos := 2;
    var end := pos + listLen;
    if end > |data| { end := |data|; }
    if pos + 3 > end { return []; }
    var nameType := data[pos];
    var nameLen := U16(data[pos + 1..pos + 3]);
    pos := pos + 3;
    if nameType == 0 && nameLen > 0 && pos + nameLen <= end { return data[pos..pos + nameLen]; }
    return [];
  }

  lemma SliceOfSlice(s: Bytes, from: nat, to: nat, a: nat, b: nat)
    requires from <= to <= |s| && a <= b <= to - from
    ensures s[from..to][a..b] == s[from + a..from + b]
  {
    assert forall i :: 0 <= i < b - a ==> s[from..to][a..b][i] == s[from + a..from + b][i];
  }

  /** One extension of the block `record[pos..end]`, by position. */
  lemma NextExtension(record: Bytes, pos: nat, end: nat)
    requires pos + 4 <= end <= |record|
    ensures var n := U16(record[pos + 2..pos + 4]);
            NameInExtensions(record[pos..end]) ==
            if pos + 4 + n > end then []
            else if U16(record[pos..pos + 2]) == 0 then NameIn(record[pos + 4..pos + 4 + n])
            else NameInExtensions(record[pos + 4 + n..end])
  {
    hide NameIn;
    var left, n := record[pos..end], U16(record[pos + 2..pos + 4]);
    assert U16(left) == U16(record[pos..pos + 2]) && U16(left[2..]) == n;
    if pos + 4 + n <= end {
      SliceOfSlice(record, pos, end, 4, 4 + n);
      SliceOfSlice(record, pos, end, 4 + n, |left|);
      assert left[4 + n..|left|] == left[4 + n..];
    }
  }

  method ParseExtensions(record: Bytes, start: nat, end: nat) returns (name: Bytes)
    requires start <= end <= |record|
    ensures name == NameInExtensions(record[start..end])
  {
    hide NameIn, U16;
    var pos := start;
    while pos + 4 <= end
      invariant start <= pos <= end
      invariant NameInExtensions(record[start..end]) == NameInExtensions(record[pos..end])
      decreases end - pos
    {
      NextExtension(record, pos, end);
      var extType := U16(record[pos..pos + 2]);
      var extDataLen := U16(record[pos + 2..pos + 4]);
      U16IsNatural(record[pos + 2..pos + 4]);
      pos := pos + 4;
      if pos + extDataLen > end { return []; }
      if extType == 0 {
        name := ParseSNIExtension(record[pos..pos + extDataLen]);
        return;
      }
      pos := pos + extDataLen;
    }
    return [];
  }

  lemma U16IsNatural(s: Bytes)
    requires |s| >= 2
    ensures U16(s) >= 0
  {
  }

  method ParseClientHelloRecord(record: Bytes) returns (name: Bytes)
    ensures name == NameInRecord(record)
  {
    hide NameAfterRandom;
    if |record| < 4 || record[0] != 1 { return []; }
    var hsLen := U24(record[1..4]);
    if |record| - 4 < hsLen { return []; }
    var pos := 4;
    if pos + 34 > 4 + hsLen { return []; }
    pos := pos + 34;
    if pos >= |record| {
      assert record[38..] == [];
      NothingAfterRandom();
      return [];
    }
    name := ParseAfterRandom(record, pos);
  }

  lemma NothingAfterRandom()
    ensures NameAfterRandom([]) == []
  {
  }

  /** Session id and cipher suites. */
  method ParseAfterRandom(record: Bytes, start: nat) returns (name: Bytes)
    requires start < |record|
    ensures name == NameAfterRandom(record[start..])
  {
    hide NameAfterCompression;
    var pos := start;
    var sidLen := record[pos] as int;
    pos := pos + 1 + sidLen;
    if pos + 2 > |record| { return []; }
    ghost var b := record[start..][1 + sidLen..];
    assert b == record[pos..];
    var csLen := U16(record[pos..pos + 2]);
    pos := pos + 2 + csLen;
    if pos >= |record| { return []; }
    assert b[2 + csLen..] == record[pos..];
    name := ParseAfterCompression(record, pos);
  }

  /** Compression methods and the extension block. */
  method ParseAfterCompression(record: Bytes, start: nat) returns (name: Bytes)
    requires start < |record|
    ensures name == NameAfterCompression(record[start..])
  {
    hide NameInExtensions;
    var pos := start;
    var compLen := record[pos] as int;
    pos := pos + 1 + compLen;
    if pos + 2 > |record| { return []; }
    ghost var d := record[start..][1 + compLen..];
    assert d == record[pos..];
    var extLen := U16(record[pos..pos + 2]);
    pos := pos + 2;
    var end := pos + extLen;
    if end > |record| { end := |record|; }
    assert record[pos..end] == d[2..if 2 + extLen > |d| then |d| else 2 + extLen];
    name := ParseExtensions(record, pos, end);
  }

  method ParseTLSClientHelloSNI(buffer: Bytes) returns (name: Bytes)
    ensures name == NameInStream(buffer)
  {
    hide NameInRecord;
    var offset := 0;
    while offset + 5 <= |buffer|
      invariant 0 <= offset <= |buffer|
      invariant NameInStream(buffer) == NameInStream(buffer[offset..])
      decreases |buffer| - offset
    {
      ghost var left := buffer[offset..];
      if buffer[offset] != 0x16 {
        offset := offset + 1;
        assert left[1..] == buffer[offset..];
        continue;
      }
      var version := U16(buffer[offset + 1..offset + 3]);
      if version < 0x0301 {
        offset := offset + 1;
        assert left[1..] == buffer[offset..];
        continue;
      }
      var recordLen := U16(buffer[offset + 3..offset + 5]);
      if recordLen <= 0 || recordLen > MAX_RECORD {
        offset := offset + 1;
        assert left[1..] == buffer[offset..];
        continue;
      }
      assert IsHeader(left) && recordLen == U16(left[3..]);
      if offset + 5 + recordLen > |buffer| { return []; }
      assert buffer[offset + 5..offset + 5 + recordLen] == left[5..5 + recordLen];
      name := ParseClientHelloRecord(buffer[offset + 5..offset + 5 + recordLen]);
      if name != [] { return; }
      offset := offset + 5 + recordLen;
      assert left[5 + recordLen..] == buffer[offset..];
    }
    return [];
  }

  // ---- Well-formed hellos ----------------------------------------------------------------

  datatype Extension = Extension(kind: int, data: Bytes)

  /** `others` are further entries of the server name list, `after` the extensions behind it. */
  datatype Hello = Hello(recordVersion: int, version: Bytes, random: Bytes, session: Bytes, suites: Bytes, compression: Bytes,
                         before: seq<Extension>, host: Bytes, others: Bytes, after: Bytes)

  function P8(n: int): Bytes
    requires 0 <= n < 256
  {
    [n as byte]
  }

  function P16(n: int): (s: Bytes)
    requires 0 <= n < 65536
    ensures |s| == 2 && U16(s) == n
  {
    [(n / 256) as byte, (n % 256) as byte]
  }

  function P24(n: int): (s: Bytes)
    requires 0 <= n < 16777216
    ensures |s| == 3 && U24(s) == n
  {
    [(n / 65536) as byte, (n / 256 % 256) as byte, (n % 256) as byte]
  }

  predicate ExtensionOk(e: Extension) { 0 < e.kind < 65536 && |e.data| < 65536 }

  function PrintExtensions(es: seq<Extension>): Bytes
    requires forall i :: 0 <= i < |es| ==> ExtensionOk(es[i])
  {
    if es == [] then []
    else
      assert ExtensionOk(es[0]);
      P16(es[0].kind) + P16(|es[0].data|) + es[0].data + PrintExtensions(es[1..])
  }

  predicate NameOk(h: Hello) { 0 < |h.host| && 8 + |h.host| + |h.others| < 65536 }

  function PrintName(h: Hello): Bytes
    requires NameOk(h)
  {
    P16(3 + |h.host| + |h.others|) + [0] + P16(|h.host|) + h.host + h.others
  }

  predicate ExtensionsOk(h: Hello) { NameOk(h) && forall i :: 0 <= i < |h.before| ==> ExtensionOk(h.before[i]) }

  function PrintAll(h: Hello): Bytes
    requires ExtensionsOk(h)
  {
    PrintExtensions(h.before) + (P16(0) + P16(|PrintName(h)|) + PrintName(h) + h.after)
  }

  predicate HelloOk(h: Hello) {
    && |h.version| == 2 && |h.random| == 32 && |h.session| < 256 && |h.suites| < 65536 && |h.compression| < 256
    && ExtensionsOk(h) && |PrintAll(h)| < 65536
  }

  function PrintTail(h: Hello): Bytes
    requires HelloOk(h)
  {
    P8(|h.session|) + h.session + (P16(|h.suites|) + h.suites + (P8(|h.compression|) + h.compression + (P16(|PrintAll(h)|) + PrintAll(h))))
  }

  function PrintBody(h: Hello): Bytes
    requires HelloOk(h)
  {
    h.version + h.random + PrintTail(h)
  }

  predicate WellFormed(h: Hello) { HelloOk(h) && 0x0301 <= h.recordVersion < 65536 && 4 + |PrintBody(h)| <= 16384 }

  /** The record on the wire. */
  function Print(h: Hello): Bytes
    requires WellFormed(h)
  {
    [0x16] + P16(h.recordVersion) + P16(4 + |PrintBody(h)|) + ([1] + P24(|PrintBody(h)|) + PrintBody(h))
  }

  // ---- Round trip ------------------------------------------------------------------------

  lemma NameRoundTrip(h: Hello)
    requires NameOk(h)
    ensures NameIn(PrintName(h)) == h.host
  {
    var d := PrintName(h);
    assert d[..2] == P16(3 + |h.host| + |h.others|) && d[2] == 0;
    assert d[3..][..2] == P16(|h.host|);
    assert d[5..5 + |h.host|] == h.host;
  }

  lemma {:induction false} ExtensionsRoundTrip(es: seq<Extension>, rest: Bytes)
    requires forall i :: 0 <= i < |es| ==> ExtensionOk(es[i])
    ensures NameInExtensions(PrintExtensions(es) + rest) == NameInExtensions(rest)
    decreases |es|
  {
    if es == [] {
      assert PrintExtensions(es) + rest == rest;
    } else {
      var e, tail := es[0], PrintExtensions(es[1..]) + rest;
      var s := PrintExtensions(es) + rest;
      assert s == P16(e.kind) + P16(|e.data|) + e.data + tail;
      assert s[..2] == P16(e.kind) && s[2..][..2] == P16(|e.data|);
      assert s[4 + |e.data|..] == tail;
      ExtensionsRoundTrip(es[1..], rest);
    }
  }

  lemma AllRoundTrip(h: Hello)
    requires ExtensionsOk(h)
    ensures NameInExtensions(PrintAll(h)) == h.host
  {
    hide PrintName, NameIn;
    var d := PrintName(h);
    NameLength(h);
    var rest := P16(0) + P16(|d|) + d + h.after;
    ExtensionsRoundTrip(h.before, rest);
    assert rest[..2] == P16(0) && rest[2..][..2] == P16(|d|) && rest[4..4 + |d|] == d;
    NameRoundTrip(h);
  }

  lemma NameLength(h: Hello)
    requires NameOk(h)
    ensures |PrintName(h)| == 5 + |h.host| + |h.others|
  {
  }

  lemma BlockRoundTrip(extensions: Bytes)
    requires |extensions| < 65536
    ensures NameInBlock(P16(|extensions|) + extensions) == NameInExtensions(extensions)
  {
    hide NameInExtensions, P16;
    var d := P16(|extensions|) + extensions;
    Behind(P16(|extensions|), extensions);
    assert U16(d) == |extensions|;
    assert d[2..|d|] == d[2..];
  }

  lemma CompressionRoundTrip(compression: Bytes, rest: Bytes)
    requires |compression| < 256 && |rest| >= 2
    ensures NameAfterCompression(P8(|compression|) + compression + rest) == NameInBlock(rest)
  {
    hide NameInBlock;
    var c := P8(|compression|) + compression + rest;
    Behind(P8(|compression|) + compression, rest);
    assert c[0] as int == |compression|;
  }

  lemma SuitesRoundTrip(suites: Bytes, rest: Bytes)
    requires |suites| < 65536 && rest != []
    ensures NameAfterSuites(P16(|suites|) + suites + rest) == NameAfterCompression(rest)
  {
    hide NameAfterCompression, P16;
    var b := P16(|suites|) + suites + rest;
    Behind(P16(|suites|) + suites, rest);
    assert U16(b) == |suites|;
  }

  lemma SessionRoundTrip(session: Bytes, rest: Bytes)
    requires |session| < 256 && |rest| >= 2
    ensures NameAfterRandom(P8(|session|) + session + rest) == NameAfterSuites(rest)
  {
    hide NameAfterSuites;
    var a := P8(|session|) + session + rest;
    Behind(P8(|session|) + session, rest);
    assert a[0] as int == |session|;
  }

  lemma TailRoundTrip(h: Hello)
    requires HelloOk(h)
    ensures NameAfterRandom(PrintTail(h)) == h.host
  {
    hide PrintAll, NameInExtensions, NameInBlock, NameAfterCompression, NameAfterSuites, NameAfterRandom;
    AllRoundTrip(h);
    BlockRoundTrip(PrintAll(h));
    var d := P16(|PrintAll(h)|) + PrintAll(h);
    var c := P8(|h.compression|) + h.compression + d;
    CompressionRoundTrip(h.compression, d);
    SuitesRoundTrip(h.suites, c);
    SessionRoundTrip(h.session, P16(|h.suites|) + h.suites + c);
  }

  lemma Behind(front: Bytes, rest: Bytes)
    ensures (front + rest)[|front|..] == rest
    ensures forall i :: 0 <= i < |front| ==> (front + rest)[i] == front[i]
  {
  }

  lemma RecordRoundTrip(h: Hello)
    requires WellFormed(h)
    ensures NameInRecord([1] + P24(|PrintBody(h)|) + PrintBody(h)) == h.host
  {
    hide PrintTail, NameAfterRandom;
    TailRoundTrip(h);
    var r := [1] + P24(|PrintBody(h)|) + PrintBody(h);
    assert r[1..][..3] == P24(|PrintBody(h)|);
    assert r[38..] == PrintTail(h);
  }

  lemma HeaderOf(h: Hello, s: Bytes)
    requires WellFormed(h) && s <= Print(h) && |s| >= 5
    ensures IsHeader(s) && 5 + U16(s[3..]) == |Print(h)|
  {
    hide PrintBody;
    var p := Print(h);
    assert p[1..3] == P16(h.recordVersion) && p[3..5] == P16(4 + |PrintBody(h)|);
    assert s[1..3] == p[1..3] && s[3..5] == p[3..5];
  }

  /** The parser inverts the printer. */
  lemma PrintedNameIsFound(h: Hello)
    requires WellFormed(h)
    ensures NameInStream(Print(h)) == h.host
  {
    hide PrintBody, NameInRecord;
    var p := Print(h);
    HeaderOf(h, p);
    assert p[5..|p|] == [1] + P24(|PrintBody(h)|) + PrintBody(h);
    RecordRoundTrip(h);
  }

  /** Nothing is found in an unfinished record. */
  lemma PrefixHasNoName(h: Hello, s: Bytes)
    requires WellFormed(h) && s < Print(h)
    ensures NameInStream(s) == []
  {
    hide Print, IsHeader;
    if |s| >= 5 { HeaderOf(h, s); }
  }

  // ---- Reassembly ------------------------------------------------------------------------

  /** The part of a flow's state that collects the record. */
  class Flow {
    var tlsBuffer: Bytes

    method FeedTLSClientHello(data: Bytes) returns (name: Bytes)
      modifies this
      ensures (tlsBuffer, name) == Feed(old(tlsBuffer), data)
    {
      if |data| == 0 { return []; }
      if |tlsBuffer| == 0 && data[0] != 0x16 { return []; }
      if |tlsBuffer| + |data| > MAX_INSPECT_BYTES {
        tlsBuffer := [];
        return [];
      }
      tlsBuffer := tlsBuffer + data;
      name := ParseTLSClientHelloSNI(tlsBuffer);
      if name != [] { tlsBuffer := []; }
    }
  }

  function Feed(buffer: Bytes, data: Bytes): (Bytes, Bytes) {
    if data == [] || (buffer == [] && data[0] != 0x16) then (buffer, [])
    else if |buffer| + |data| > MAX_INSPECT_BYTES then ([], [])
    else
      var name := NameInStream(buffer + data);
      (if name != [] then [] else buffer + data, name)
  }

  /** What each segment of a flow returns, in order, starting from `buffer`. */
  function FeedAll(buffer: Bytes, segments: seq<Bytes>): seq<Bytes>
    decreases |segments|
  {
    if segments == [] then [] else [Feed(buffer, segments[0]).1] + FeedAll(Feed(buffer, segments[0]).0, segments[1..])
  }

  function Joined(segments: seq<Bytes>): Bytes {
    if segments == [] then [] else segments[0] + Joined(segments[1..])
  }

  predicate NonEmpty(segments: seq<Bytes>) { forall i :: 0 <= i < |segments| ==> segments[i] != [] }

  lemma {:induction false} JoinedIsLonger(segments: seq<Bytes>)
    requires NonEmpty(segments) && segments != []
    ensures Joined(segments) != []
  {
  }

  lemma {:induction false} RestIsFound(h: Hello, buffer: Bytes, segments: seq<Bytes>)
    requires WellFormed(h) && |Print(h)| <= 8192
    requires segments != [] && NonEmpty(segments) && buffer + Joined(segments) == Print(h)
    ensures FeedAll(buffer, segments) == seq(|segments| - 1, i => []) + [h.host]
    decreases |segments|
  {
    hide Print, NameInStream;
    var data := segments[0];
    var next := buffer + data;
    assert buffer + Joined(segments) == next + Joined(segments[1..]);
    StartsRecord(h, buffer, data, Joined(segments[1..]));
    if |segments| == 1 {
      assert Joined(segments[1..]) == [];
      assert next == Print(h);
      PrintedNameIsFound(h);
      HostIsThere(h);
      assert FeedAll(buffer, segments) == [h.host] + FeedAll([], segments[1..]);
      assert seq(|segments| - 1, i => []) + [h.host] == [h.host];
    } else {
      JoinedIsLonger(segments[1..]);
      PrefixHasNoName(h, next);
      RestIsFound(h, next, segments[1..]);
      assert FeedAll(buffer, segments) == [[]] + FeedAll(next, segments[1..]);
      assert [[]] + (seq(|segments[1..]| - 1, i => []) + [h.host]) == seq(|segments| - 1, i => []) + [h.host];
    }
  }

  lemma StartsRecord(h: Hello, buffer: Bytes, data: Bytes, rest: Bytes)
    requires WellFormed(h) && data != [] && (buffer + data) + rest == Print(h)
    ensures buffer == [] ==> data[0] == 0x16
    ensures |buffer| + |data| <= |Print(h)|
  {
    assert ((buffer + data) + rest)[0] == 0x16;
  }

  lemma HostIsThere(h: Hello)
    requires WellFormed(h)
    ensures h.host != []
  {
  }

  /**
    However a hello of at most 8192 bytes is cut into non-empty segments, every segment but the
    last returns nothing and the last returns exactly its host name.
   */
  lemma SegmentationIsIrrelevant(h: Hello, segments: seq<Bytes>)
    requires WellFormed(h) && |Print(h)| <= 8192 && NonEmpty(segments) && Joined(segments) == Print(h)
    ensures segments != [] && |FeedAll([], segments)| == |segments|
    ensures forall i :: 0 <= i < |segments| - 1 ==> FeedAll([], segments)[i] == []
    ensures FeedAll([], segments)[|segments| - 1] == h.host
  {
    hide FeedAll;
    assert Print(h)[0] == 0x16;
    assert [] + Joined(segments) == Print(h);
    RestIsFound(h, [], segments);
  }

  // ---- Flows with more than one hello ----------------------------------------------------

  /** The buffer after the segments. */
  function BufferAfter(buffer: Bytes, segments: seq<Bytes>): Bytes
    decreases |segments|
  {
    if segments == [] then buffer else BufferAfter(Feed(buffer, segments[0]).0, segments[1..])
  }

  lemma {:induction false} FeedAppends(buffer: Bytes, a: seq<Bytes>, b: seq<Bytes>)
    ensures FeedAll(buffer, a + b) == FeedAll(buffer, a) + FeedAll(BufferAfter(buffer, a), b)
    ensures BufferAfter(buffer, a + b) == BufferAfter(BufferAfter(buffer, a), b)
    decreases |a|
  {
    hide Feed;
    if a == [] {
      assert a + b == b;
    } else {
      assert (a + b)[1..] == a[1..] + b;
      FeedAppends(Feed(buffer, a[0]).0, a[1..], b);
    }
  }

  /** A hit leaves the buffer empty. */
  lemma {:induction false} HitEmptiesBuffer(h: Hello, buffer: Bytes, segments: seq<Bytes>)
    requires WellFormed(h) && |Print(h)| <= 8192
    requires segments != [] && NonEmpty(segments) && buffer + Joined(segments) == Print(h)
    ensures BufferAfter(buffer, segments) == []
    decreases |segments|
  {
    hide Print, NameInStream;
    var data := segments[0];
    var next := buffer + data;
    assert buffer + Joined(segments) == next + Joined(segments[1..]);
    StartsRecord(h, buffer, data, Joined(segments[1..]));
    if |segments| == 1 {
      assert Joined(segments[1..]) == [];
      assert next == Print(h);
      PrintedNameIsFound(h);
      HostIsThere(h);
      assert BufferAfter([], segments[1..]) == [];
    } else {
      JoinedIsLonger(segments[1..]);
      PrefixHasNoName(h, next);
      HitEmptiesBuffer(h, next, segments[1..]);
    }
  }

  /** A hello and how it is cut. */
  datatype Cut = Cut(hello: Hello, segments: seq<Bytes>)

  ghost predicate CutOk(c: Cut) {
    && WellFormed(c.hello) && |Print(c.hello)| <= 8192
    && NonEmpty(c.segments) && Joined(c.segments) == Print(c.hello)
  }

  function Segments(cuts: seq<Cut>): seq<Bytes> {
    if cuts == [] then [] else cuts[0].segments + Segments(cuts[1..])
  }

  /** Nothing for every segment of a hello but the last, and its host for that. */
  function Expected(cuts: seq<Cut>): seq<Bytes> {
    if cuts == [] then []
    else seq(if cuts[0].segments == [] then 0 else |cuts[0].segments| - 1, i => []) + [cuts[0].hello.host] + Expected(cuts[1..])
  }

  lemma OneCut(c: Cut)
    requires CutOk(c)
    ensures c.segments != [] && BufferAfter([], c.segments) == []
    ensures FeedAll([], c.segments) == seq(|c.segments| - 1, i => []) + [c.hello.host]
  {
    hide Feed;
    assert Print(c.hello)[0] == 0x16;
    assert [] + Joined(c.segments) == Print(c.hello);
    RestIsFound(c.hello, [], c.segments);
    HitEmptiesBuffer(c.hello, [], c.segments);
  }

  /** One hello after the other in the same flow, each cut in its own way: every name is found, with the last segment of its hello. */
  lemma {:induction false} EveryHelloIsFound(cuts: seq<Cut>)
    requires forall i :: 0 <= i < |cuts| ==> CutOk(cuts[i])
    ensures FeedAll([], Segments(cuts)) == Expected(cuts) && BufferAfter([], Segments(cuts)) == []
    decreases |cuts|
  {
    hide CutOk, Feed;
    if cuts != [] {
      OneCut(cuts[0]);
      FeedAppends([], cuts[0].segments, Segments(cuts[1..]));
      EveryHelloIsFound(cuts[1..]);
    }
  }

  /** A flow that overflows is given up, and a hello that follows is found all the same. */
  lemma FoundAfterOverflow(buffer: Bytes, data: Bytes, c: Cut)
    requires CutOk(c) && |buffer| + |data| > 8192 && data != [] && (buffer == [] ==> data[0] == 0x16)
    ensures FeedAll(buffer, [data] + c.segments) == [[]] + (seq(|c.segments| - 1, i => []) + [c.hello.host])
  {
    hide CutOk;
    OneCut(c);
    assert ([data] + c.segments)[1..] == c.segments;
  }

  /** Whatever arrives, the buffer stays within its limit, starts like a record, and holds no name that was not returned. */
  lemma {:induction false} BufferStaysSmall(buffer: Bytes, segments: seq<Bytes>)
    requires |buffer| <= 8192 && (buffer != [] ==> buffer[0] == 0x16) && NameInStream(buffer) == []
    ensures var b := BufferAfter(buffer, segments);
            |b| <= 8192 && (b != [] ==> b[0] == 0x16) && NameInStream(b) == []
    decreases |segments|
  {
    hide NameInStream;
    NothingInNothing();
    if segments != [] { BufferStaysSmall(Feed(buffer, segments[0]).0, segments[1..]); }
  }

  lemma NothingInNothing()
    ensures NameInStream([]) == []
  {
  }

  // ---- Names inside a longer stream ------------------------------------------------------

  /** A complete handshake record starts at `k` and the parser finds the name in it. */
  ghost predicate NamedAt(s: Bytes, k: nat, name: Bytes) {
    && k + 5 <= |s| && s[k] == 0x16 && U16(s[k + 1..]) >= 0x0301
    && var n := U16(s[k + 3..]);
       0 < n <= 16384 && k + 5 + n <= |s| && NameInRecord(s[k + 5..k + 5 + n]) == name
  }

  /** Only a whole ClientHello of at least 34 bytes has a name. */
  lemma NamedRecordIsHello(r: Bytes)
    requires NameInRecord(r) != []
    ensures |r| >= 4 && r[0] == 1 && 34 <= U24(r[1..]) <= |r| - 4
  {
  }

  /**
    A server_name extension yields a name exactly if its first entry is a host name of that
    length, not empty, complete, and within the length the list declares.
   */
  lemma NameIsHostEntry(d: Bytes, name: Bytes)
    requires name != []
    ensures NameIn(d) == name <==>
            && 5 + |name| <= |d| && 3 + |name| <= U16(d) && d[2] == 0 && U16(d[3..]) == |name| && d[5..5 + |name|] == name
  {
  }

  /** A name that is returned was read from a complete ClientHello record of the stream. */
  lemma {:induction false} FoundNameIsThere(s: Bytes) returns (k: nat)
    requires NameInStream(s) != []
    ensures NamedAt(s, k, NameInStream(s))
    decreases |s|
  {
    hide NameInRecord;
    if !IsHeader(s) {
      k := FoundNameIsThere(s[1..]);
      ShiftNamed(s, 1, k, NameInStream(s));
      k := k + 1;
    } else {
      var end := 5 + U16(s[3..]);
      if NameInRecord(s[5..end]) != [] {
        k := 0;
      } else {
        k := FoundNameIsThere(s[end..]);
        ShiftNamed(s, end, k, NameInStream(s));
        k := k + end;
      }
    }
  }

  lemma ShiftNamed(s: Bytes, d: nat, k: nat, name: Bytes)
    requires d <= |s| && NamedAt(s[d..], k, name)
    ensures NamedAt(s, d + k, name)
  {
    hide NameInRecord, U16;
    assert s[d..][k + 1..] == s[d + k + 1..] && s[d..][k + 3..] == s[d + k + 3..];
    var n := U16(s[d + k + 3..]);
    U16IsNatural(s[d + k + 3..]);
    assert s[d..][k + 5..k + 5 + n] == s[d + k + 5..d + k + 5 + n];
  }

  /** Bytes that start no record are skipped, and so is a complete record without a name: the hello behind them is found. */
  lemma {:induction false} FoundBehindNoise(noise: Bytes, h: Hello)
    requires WellFormed(h) && forall i :: 0 <= i < |noise| ==> noise[i] != 0x16
    ensures NameInStream(noise + Print(h)) == h.host
    decreases |noise|
  {
    hide Print, NameInRecord;
    var s := noise + Print(h);
    if noise == [] {
      assert s == Print(h);
      PrintedNameIsFound(h);
    } else {
      PrintIsLong(h);
      assert s[1..] == noise[1..] + Print(h) && s[0] == noise[0];
      FoundBehindNoise(noise[1..], h);
    }
  }

  lemma PrintIsLong(h: Hello)
    requires WellFormed(h)
    ensures |Print(h)| >= 5
  {
  }

  lemma FoundBehindRecord(record: Bytes, h: Hello)
    requires WellFormed(h) && |record| >= 5 && IsHeader(record) && |record| == 5 + U16(record[3..]) && NameInRecord(record[5..]) == []
    ensures NameInStream(record + Print(h)) == h.host
  {
    hide Print, NameInRecord;
    var s := record + Print(h);
    assert s[..5] == record[..5] && IsHeader(s) && U16(s[3..]) == U16(record[3..]);
    assert s[5..|record|] == record[5..] && s[|record|..] == Print(h);
    PrintedNameIsFound(h);
  }
}
