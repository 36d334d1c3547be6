/** The last bytes of a builder's stderr: a byte ring, and a cut that respects UTF-8 (RFC 3629). */
module StderrTail {
  import opened Bytes

  // ---- UTF-8, section 4 of RFC 3629 ---------------------------------------------------------------

  /** A continuation byte; every other byte starts a character (or is no UTF-8 at all). */
  predicate Cont(b: Byte) { 0x80 <= b <= 0xBF }

  /** May the second byte of a three- or four-byte character follow this lead? */
  predicate Second(lead: Byte, b: Byte) {
    && (if lead == 0xE0 then 0xA0 <= b else if lead == 0xF0 then 0x90 <= b else 0x80 <= b)
    && (if lead == 0xED then b <= 0x9F else if lead == 0xF4 then b <= 0x8F else b <= 0xBF)
  }

  /** The length of the character at the front, 0 if there is none. */
  function CharLen(s: seq<Byte>): (n: nat)
    ensures n <= 4 && n <= |s| && (n > 0 ==> !Cont(s[0]) && forall i | 1 <= i < n :: Cont(s[i]))
  {
    if s == [] then 0
    else if s[0] <= 0x7F then 1
    else if 0xC2 <= s[0] <= 0xDF then (if |s| > 1 && Cont(s[1]) then 2 else 0)
    else if 0xE0 <= s[0] <= 0xEF then (if |s| > 2 && Second(s[0], s[1]) && Cont(s[2]) then 3 else 0)
    else if 0xF0 <= s[0] <= 0xF4 then (if |s| > 3 && Second(s[0], s[1]) && Cont(s[2]) && Cont(s[3]) then 4 else 0)
    else 0
  }

  /** A Unicode scalar value. */
  predicate Scalar(c: int) { 0 <= c <= 0x10FFFF && !(0xD800 <= c <= 0xDFFF) }

  function Trail(bits: int): (b: Byte)
    ensures b as int == 0x80 + bits % 64
  {
    (0x80 + bits % 64) as Byte
  }

  /** Its encoding: six bits in each byte after the first, most significant first. */
  function Encoding(c: int): seq<Byte>
    requires Scalar(c)
  {
    if c < 0x80 then [c as Byte]
    else if c < 0x800 then [(0xC0 + c / 64) as Byte, Trail(c)]
    else if c < 0x1_0000 then [(0xE0 + c / 64 / 64) as Byte, Trail(c / 64), Trail(c)]
    else [(0xF0 + c / 64 / 64 / 64) as Byte, Trail(c / 64 / 64), Trail(c / 64), Trail(c)]
  }

  /** Every encoding is a character of its length ... */
  lemma EncodingIsChar(c: int, rest: seq<Byte>)
    requires Scalar(c)
    ensures CharLen(Encoding(c) + rest) == |Encoding(c)|
  {
    var e := Encoding(c);
    assert forall i | 0 <= i < |e| :: (e + rest)[i] == e[i];
  }

  /** The bits of a byte after the first, appended to those before. */
  function More(bits: int, b: Byte): int { 64 * bits + (b as int - 0x80) }

  lemma MoreSplits(bits: int, b: Byte)
    requires Cont(b)
    ensures More(bits, b) / 64 == bits && Trail(More(bits, b)) == b
  {}

  function CodePoint(s: seq<Byte>): int
    requires CharLen(s) > 0
  {
    match CharLen(s)
    case 1 => s[0] as int
    case 2 => More(s[0] as int - 0xC0, s[1])
    case 3 => More(More(s[0] as int - 0xE0, s[1]), s[2])
    case _ => More(More(More(s[0] as int - 0xF0, s[1]), s[2]), s[3])
  }

  /** ... and every character is the encoding of a scalar value. */
  lemma CharIsEncoding(s: seq<Byte>)
    requires CharLen(s) > 0
    ensures Scalar(CodePoint(s)) && Encoding(CodePoint(s)) == s[..CharLen(s)]
  {
    match CharLen(s)
    case 1 =>
    case 2 => TwoBytes(s);
    case 3 => ThreeBytes(s);
    case _ => FourBytes(s);
  }

  lemma TwoBytes(s: seq<Byte>)
    requires CharLen(s) == 2
    ensures Scalar(CodePoint(s)) && Encoding(CodePoint(s)) == s[..2]
  {
    MoreSplits(s[0] as int - 0xC0, s[1]);
    assert 0x80 <= CodePoint(s) < 0x800;
    hide More, Trail;
  }

  lemma ThreeBytes(s: seq<Byte>)
    requires CharLen(s) == 3
    ensures Scalar(CodePoint(s)) && Encoding(CodePoint(s)) == s[..3]
  {
    var high := More(s[0] as int - 0xE0, s[1]);
    MoreSplits(s[0] as int - 0xE0, s[1]);
    MoreSplits(high, s[2]);
    assert 0x20 <= high < 0x400 && !(0x360 <= high < 0x380);
    assert 0x800 <= CodePoint(s) < 0x1_0000 && Scalar(CodePoint(s));
    hide More, Trail;
  }

  lemma FourTop(s: seq<Byte>)
    requires CharLen(s) == 4
    ensures |s| >= 4 && 0xF0 <= s[0] <= 0xF4 && Cont(s[1]) && Cont(s[2]) && Cont(s[3])
    ensures 0x10 <= More(s[0] as int - 0xF0, s[1]) < 0x110
  {}

  lemma FourBytes(s: seq<Byte>)
    requires CharLen(s) == 4
    ensures Scalar(CodePoint(s)) && Encoding(CodePoint(s)) == s[..4]
  {
    hide CharLen, Second, Cont, More, Encoding, Scalar;
    FourTop(s);
    FourEncoded(s[0], s[1], s[2], s[3]);
    FirstFour(s);
  }

  lemma FirstFour(s: seq<Byte>)
    requires |s| >= 4
    ensures s[..4] == [s[0], s[1], s[2], s[3]]
  {}

  lemma FourEncoded(b0: Byte, b1: Byte, b2: Byte, b3: Byte)
    requires 0xF0 <= b0 <= 0xF4 && Cont(b1) && Cont(b2) && Cont(b3) && 0x10 <= More(b0 as int - 0xF0, b1) < 0x110
    ensures var c := More(More(More(b0 as int - 0xF0, b1), b2), b3); Scalar(c) && Encoding(c) == [b0, b1, b2, b3]
  {
    hide Cont, More, Trail;
    var top := More(b0 as int - 0xF0, b1);
    var high := More(top, b2);
    MoreSplits(b0 as int - 0xF0, b1);
    MoreSplits(top, b2);
    MoreSplits(high, b3);
    MoreRange(top, b2, 0x10, 0x110);
    MoreRange(high, b3, 0x400, 0x4400);
  }

  lemma MoreRange(bits: int, b: Byte, low: int, top: int)
    requires low <= bits < top && Cont(b)
    ensures 64 * low <= More(bits, b) < 64 * top
  {}

  predicate Utf8(s: seq<Byte>) {
    s == [] || (CharLen(s) > 0 && Utf8(s[CharLen(s)..]))
  }

  predicate Boundary(s: seq<Byte>, i: nat) { i == 0 || i == |s| || (i < |s| && !Cont(s[i])) }

  /** Cutting at a boundary leaves UTF-8. */
  lemma {:induction false} SuffixUtf8(s: seq<Byte>, i: nat)
    requires Utf8(s) && i <= |s| && Boundary(s, i)
    ensures Utf8(s[i..])
    decreases |s|
  {
    if 0 < i < |s| {
      var n := CharLen(s);
      assert n <= i;
      assert s[n..][i - n..] == s[i..];
      SuffixUtf8(s[n..], i - n);
    } else if i == 0 {
      assert s[i..] == s;
    }
  }

  /** A boundary is never more than three bytes away. */
  lemma {:induction false} BoundaryNear(s: seq<Byte>, i: nat) returns (j: nat)
    requires Utf8(s) && i <= |s|
    ensures i <= j <= i + 3 && j <= |s| && Boundary(s, j)
    decreases |s|
  {
    var n := CharLen(s);
    if i == 0 || i == |s| {
      j := i;
    } else if i <= n {
      j := n;
      assert n < |s| ==> CharLen(s[n..]) > 0 && s[n..][0] == s[n];
    } else {
      j := BoundaryNear(s[n..], i - n);
      j := j + n;
      assert j < |s| ==> s[n..][j - n] == s[j];
    }
  }

  // ---- tail ------------------------------------------------------------------------------------------

  function CutPoint(s: seq<Byte>, idx: nat): (j: nat)
    requires idx <= |s|
    ensures idx <= j <= |s| && Boundary(s, j) && forall i | idx <= i < j :: !Boundary(s, i)
    decreases |s| - idx
  {
    if Boundary(s, idx) then idx else CutPoint(s, idx + 1)
  }

  function Tail(s: seq<Byte>, maxBytes: nat): seq<Byte> {
    if |s| <= maxBytes then s else s[CutPoint(s, |s| - maxBytes)..]
  }

  /** `tail`. */
  method TailOf(s: seq<Byte>, maxBytes: nat) returns (r: seq<Byte>)
    ensures r == Tail(s, maxBytes)
  {
    if |s| <= maxBytes { return s; }
    var start := |s| - maxBytes;
    var idx := start;
    while idx < |s| && !Boundary(s, idx)
      invariant start <= idx <= |s| && CutPoint(s, idx) == CutPoint(s, start)
    {
      idx := idx + 1;
    }
    return s[idx..];
  }

  predicate SuffixOf(r: seq<Byte>, s: seq<Byte>) { |r| <= |s| && s[|s| - |r|..] == r }

  lemma NearCut(s: seq<Byte>, idx: nat) returns (cut: nat)
    requires Utf8(s) && idx <= |s|
    ensures cut == CutPoint(s, idx) && cut <= idx + 3 && Utf8(s[cut..])
  {
    hide Utf8, Boundary, CutPoint;
    cut := CutPoint(s, idx);
    var near := BoundaryNear(s, idx);
    SuffixUtf8(s, cut);
    assert cut <= near;
  }

  /** On UTF-8, `tail` is the longest suffix of at most maxBytes bytes that starts on a character boundary; it
      is UTF-8 again and gives up at most three bytes to get there. */
  lemma TailMeaning(s: seq<Byte>, maxBytes: nat)
    requires Utf8(s)
    ensures var r := Tail(s, maxBytes);
            && Utf8(r) && SuffixOf(r, s) && |r| <= maxBytes
            && (|s| <= maxBytes ==> r == s) && (|s| > maxBytes ==> |r| + 3 >= maxBytes)
            && (forall j | 0 <= j <= |s| && Boundary(s, j) && |s| - j <= maxBytes :: |s| - j <= |r|)
  {
    hide Utf8, Boundary, CutPoint;
    if |s| <= maxBytes {
      assert s[0..] == s;
    } else {
      var cut := NearCut(s, |s| - maxBytes);
      assert Tail(s, maxBytes) == s[cut..];
    }
  }

  // ---- the ring -------------------------------------------------------------------------------------

  function Last(s: seq<Byte>, n: nat): seq<Byte> { if |s| <= n then s else s[|s| - n..] }

  function PushByte(buf: seq<Byte>, cap: nat, b: Byte): seq<Byte> {
    (if |buf| == cap && buf != [] then buf[1..] else buf) + [b]
  }

  /** The ring after the whole stream, byte by byte. */
  function Ring(stream: seq<Byte>, cap: nat): seq<Byte> {
    if stream == [] then [] else PushByte(Ring(stream[..|stream| - 1], cap), cap, stream[|stream| - 1])
  }

  /** With room for at least one byte the ring holds exactly the last bytes of the stream ... */
  lemma {:induction false} RingIsLast(stream: seq<Byte>, cap: nat)
    requires cap >= 1
    ensures Ring(stream, cap) == Last(stream, cap)
  {
    if stream != [] {
      var init, b := stream[..|stream| - 1], stream[|stream| - 1];
      RingIsLast(init, cap);
      assert Ring(stream, cap) == PushByte(Last(init, cap), cap, b);
      hide Ring;
      LastMore(init, cap, b);
      assert init + [b] == stream;
    }
  }

  lemma LastMore(init: seq<Byte>, cap: nat, b: Byte)
    requires cap >= 1
    ensures PushByte(Last(init, cap), cap, b) == Last(init + [b], cap)
  {}

  /** ... with none it never drops anything. */
  lemma {:induction false} RingWithoutCapacity(stream: seq<Byte>)
    ensures Ring(stream, 0) == stream
  {
    if stream != [] { RingWithoutCapacity(stream[..|stream| - 1]); }
  }

  /** The ring is bounded by its capacity exactly if that is not zero. */
  lemma RingBoundedIff(cap: nat)
    ensures (forall stream :: |Ring(stream, cap)| <= cap) <==> cap >= 1
  {
    if cap >= 1 {
      forall stream ensures |Ring(stream, cap)| <= cap { RingIsLast(stream, cap); }
    } else {
      RingWithoutCapacity([NEWLINE]);
      assert |Ring([NEWLINE], cap)| > cap;
    }
  }

  /** Each line followed by a newline. */
  function Stream(lines: seq<seq<Byte>>): seq<Byte> {
    if lines == [] then [] else Stream(lines[..|lines| - 1]) + lines[|lines| - 1] + [NEWLINE]
  }

  class Tailer {
    var buf: seq<Byte>
    const cap: nat
    ghost var stream: seq<Byte>

    ghost predicate Valid()
      reads this
    {
      buf == Ring(stream, cap)
    }

    constructor (cap: nat)
      ensures Valid() && stream == [] && this.cap == cap
    {
      this.cap, buf, stream := cap, [], [];
    }

    method Push(b: Byte)
      requires Valid()
      modifies this
      ensures Valid() && stream == old(stream) + [b]
    {
      if |buf| == cap && buf != [] { buf := buf[1..]; }
      buf := buf + [b];
      assert (stream + [b])[..|stream|] == stream;
      stream := stream + [b];
    }

    /** `push_line`. */
    method PushLine(line: seq<Byte>)
      requires Valid()
      modifies this
      ensures Valid() && stream == old(stream) + line + [NEWLINE]
    {
      for i := 0 to |line|
        invariant Valid() && stream == old(stream) + line[..i]
      {
        Push(line[i]);
        assert old(stream) + line[..i] + [line[i]] == old(stream) + line[..i + 1];
      }
      Push(NEWLINE);
      assert line[..|line|] == line;
    }

    /** `snapshot`. */
    method Snapshot() returns (r: seq<Byte>)
      requires Valid()
      ensures r == Tail(Lossy(buf), cap)
    {
      var s := Lossy(buf);
      r := TailOf(s, cap);
    }
  }

  // ---- from_utf8_lossy, and what a snapshot shows -----------------------------------------------------------

  const REPLACEMENT: seq<Byte> := [0xEF, 0xBF, 0xBD]

  /** How much of a broken front is replaced by one U+FFFD: the longest start of a character, at least a byte. */
  function BrokenLen(s: seq<Byte>): (n: nat)
    requires s != [] && CharLen(s) == 0
    ensures 1 <= n <= |s|
  {
    if 0xE0 <= s[0] <= 0xF4 && |s| > 1 && Second(s[0], s[1]) then
      (if s[0] >= 0xF0 && |s| > 2 && Cont(s[2]) then 3 else 2)
    else 1
  }

  /** Some character begins with these bytes and is longer. */
  ghost predicate Begins(p: seq<Byte>) { exists more :: more != [] && CharLen(p + more) == |p| + |more| }

  /** What is replaced is the longest beginning of a character, and a single byte if there is none. */
  lemma BrokenMeaning(s: seq<Byte>)
    requires s != [] && CharLen(s) == 0
    ensures BrokenLen(s) == 1 || Begins(s[..BrokenLen(s)])
    ensures forall m | BrokenLen(s) < m <= |s| :: !Begins(s[..m])
  {
    var n := BrokenLen(s);
    if n == 3 {
      assert CharLen(s[..3] + [0x80]) == 4;
    } else if n == 2 {
      BeginsWithTwo(s[..2]);
    }
    forall m, more: seq<Byte> | n < m <= |s| && more != [] ensures CharLen(s[..m] + more) != |s[..m]| + |more| {
      LongerIsNone(s, m, more);
    }
  }

  lemma BeginsWithTwo(p: seq<Byte>)
    requires |p| == 2 && 0xE0 <= p[0] <= 0xF4 && Second(p[0], p[1])
    ensures Begins(p)
  {
    if p[0] < 0xF0 {
      assert CharLen(p + [0x80]) == 3;
    } else {
      assert CharLen(p + [0x80, 0x80]) == 4;
    }
  }

  lemma LongerIsNone(s: seq<Byte>, m: nat, more: seq<Byte>)
    requires s != [] && CharLen(s) == 0 && BrokenLen(s) < m <= |s| && more != []
    ensures CharLen(s[..m] + more) != m + |more|
  {
    var t := s[..m] + more;
    assert forall i | 0 <= i < m :: t[i] == s[i];
  }

  function Lossy(s: seq<Byte>): seq<Byte>
    decreases |s|
  {
    if s == [] then []
    else if CharLen(s) > 0 then s[..CharLen(s)] + Lossy(s[CharLen(s)..])
    else REPLACEMENT + Lossy(s[BrokenLen(s)..])
  }

  lemma {:induction false} LossyKeepsUtf8(s: seq<Byte>)
    requires Utf8(s)
    ensures Lossy(s) == s
    decreases |s|
  {
    if s != [] {
      LossyKeepsUtf8(s[CharLen(s)..]);
      assert s[..CharLen(s)] + s[CharLen(s)..] == s;
    }
  }

  lemma LossyOrphan(s: seq<Byte>)
    requires s != [] && Cont(s[0])
    ensures Lossy(s) == REPLACEMENT + Lossy(s[1..])
  {}

  /** Every orphaned continuation byte at the front becomes a replacement character. */
  lemma {:induction false} LossyOrphans(s: seq<Byte>, k: nat)
    requires k <= |s| && (forall i | 0 <= i < k :: Cont(s[i])) && Utf8(s[k..])
    ensures Lossy(s) == Replaced(k) + s[k..]
    decreases k
  {
    hide Lossy, Utf8, Cont;
    if k == 0 {
      assert s[0..] == s;
      LossyKeepsUtf8(s);
    } else {
      LossyOrphan(s);
      assert s[1..][k - 1..] == s[k..];
      LossyOrphans(s[1..], k - 1);
      assert REPLACEMENT + (Replaced(k - 1) + s[k..]) == Replaced(k) + s[k..];
    }
  }

  function Replaced(k: nat): seq<Byte> { if k == 0 then [] else REPLACEMENT + Replaced(k - 1) }

  /** Cutting k replacement characters and the rest back to the original length. */
  lemma TailOfReplaced(rest: seq<Byte>, k: nat)
    requires 1 <= k <= 3 && Utf8(rest)
    ensures Tail(Replaced(k) + rest, |rest| + k) == (if k == 3 then REPLACEMENT else []) + rest
  {
    hide Utf8, CutPoint, Replaced, Cont;
    var front, s := Replaced(k), Replaced(k) + rest;
    ReplacedAt(k);
    CutOfReplaced(rest, k);
    if k == 3 {
      LastReplacement();
      DropFront(front, rest, 6);
    } else {
      DropFront(front, rest, 3 * k);
      assert front[3 * k..] == [];
    }
  }

  lemma DropFront(front: seq<Byte>, rest: seq<Byte>, n: nat)
    requires n <= |front|
    ensures (front + rest)[n..] == front[n..] + rest
  {}

  lemma CutOfReplaced(rest: seq<Byte>, k: nat)
    requires 1 <= k <= 3 && Utf8(rest)
    ensures 3 * k <= |Replaced(k) + rest| && CutPoint(Replaced(k) + rest, 2 * k) == if k == 3 then 6 else 3 * k
  {
    hide Replaced;
    var s := Replaced(k) + rest;
    ReplacedAt(k);
    assert forall i | 0 <= i < 3 * k :: s[i] == Replaced(k)[i];
    assert rest != [] ==> s[3 * k] == rest[0] && !Cont(rest[0]);
    if k == 1 {
      assert !Boundary(s, 2) && Boundary(s, 3);
    } else if k == 2 {
      assert !Boundary(s, 4) && !Boundary(s, 5) && Boundary(s, 6);
      assert CutPoint(s, 5) == 6;
    } else {
      assert Boundary(s, 6);
    }
  }

  lemma NoneReplaced(rest: seq<Byte>)
    ensures Replaced(0) + rest == rest == [] + rest && Tail(rest, |rest|) == rest
  {}

  lemma LastReplacement()
    ensures Replaced(3)[6..] == REPLACEMENT
  {
    assert Replaced(1) == REPLACEMENT;
  }

  lemma ReplacedAt(k: nat)
    requires k <= 3
    ensures |Replaced(k)| == 3 * k && forall i | 0 <= i < 3 * k :: Cont(Replaced(k)[i]) <==> i % 3 != 0
  {
    if k > 0 { ReplacedAt(k - 1); }
  }

  /** What a snapshot of a UTF-8 stream shows: the longest suffix that fits and starts on a character, except
      that when exactly three bytes of a four-byte character are left at the front of the ring, a replacement
      character stands in for them. */
  lemma SnapshotMeaning(stream: seq<Byte>, cap: nat)
    requires Utf8(stream) && cap >= 1
    ensures var orphans := |Last(stream, cap)| - |Tail(stream, cap)|;
            && 0 <= orphans <= 3
            && Tail(Lossy(Ring(stream, cap)), cap) == (if orphans == 3 then REPLACEMENT else []) + Tail(stream, cap)
  {
    hide Lossy, Ring, Utf8, CutPoint, Cont;
    RingIsLast(stream, cap);
    if |stream| <= cap {
      LossyKeepsUtf8(stream);
      assert [] + stream == stream;
    } else {
      hide Last, Tail;
      var k := OrphansInFront(stream, cap);
      SnapshotOf(Last(stream, cap), k);
    }
  }

  lemma SnapshotOf(buf: seq<Byte>, k: nat)
    requires k <= 3 && k <= |buf| && (forall i | 0 <= i < k :: Cont(buf[i])) && Utf8(buf[k..])
    ensures Tail(Lossy(buf), |buf|) == (if k == 3 then REPLACEMENT else []) + buf[k..]
  {
    hide Lossy, Utf8, CutPoint, Tail, Replaced, Cont;
    var rest := buf[k..];
    LossyOrphans(buf, k);
    if k == 0 { NoneReplaced(rest); } else { TailOfReplaced(rest, k); }
  }

  /** The ring of a longer stream: the orphans in front, then the suffix `tail` would take. */
  lemma OrphansInFront(stream: seq<Byte>, cap: nat) returns (k: nat)
    requires Utf8(stream) && |stream| > cap
    ensures var buf, suffix := Last(stream, cap), Tail(stream, cap);
            && k <= 3 && |buf| == cap && |suffix| == cap - k
            && (forall i | 0 <= i < k :: Cont(buf[i])) && buf[k..] == suffix && Utf8(suffix)
  {
    hide Utf8, CutPoint, Boundary, Cont;
    var start := |stream| - cap;
    var cut := NearCut(stream, start);
    k := cut - start;
    DropTwice(stream, start, k);
    OrphansContinue(stream, start);
  }

  lemma OrphansContinue(s: seq<Byte>, idx: nat)
    requires idx <= |s|
    ensures forall i | 0 <= i < CutPoint(s, idx) - idx :: Cont(s[idx..][i])
  {
    hide CutPoint;
    forall i | 0 <= i < CutPoint(s, idx) - idx ensures Cont(s[idx..][i]) {
      assert !Boundary(s, idx + i);
      assert s[idx..][i] == s[idx + i];
    }
  }

  lemma DropTwice(s: seq<Byte>, n: nat, k: nat)
    requires n + k <= |s|
    ensures s[n..][k..] == s[n + k..]
  {}

  lemma {:induction false} Utf8Join(a: seq<Byte>, b: seq<Byte>)
    requires Utf8(a) && Utf8(b)
    ensures Utf8(a + b)
    decreases |a|
  {
    if a == [] {
      assert a + b == b;
    } else {
      var n := CharLen(a);
      assert CharLen(a + b) == n && (a + b)[n..] == a[n..] + b;
      Utf8Join(a[n..], b);
    }
  }

  /** The stream of any lines of text is UTF-8. */
  lemma {:induction false} StreamUtf8(lines: seq<seq<Byte>>)
    requires forall i | 0 <= i < |lines| :: Utf8(lines[i])
    ensures Utf8(Stream(lines))
  {
    if lines != [] {
      StreamUtf8(lines[..|lines| - 1]);
      Utf8Join(Stream(lines[..|lines| - 1]), lines[|lines| - 1]);
      assert Utf8([NEWLINE]) by { assert [NEWLINE][1..] == []; }
      Utf8Join(Stream(lines[..|lines| - 1]) + lines[|lines| - 1], [NEWLINE]);
    }
  }
}
