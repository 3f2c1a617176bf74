/** The frames of the binary stream protocol as byte sequences (backend/dfs/streaming/protocol.go and
    stream.go, backend/dfs/client/master_client.go). */
module StreamFrames {
  import opened Basics
  import opened Uuids

  const HEADER_SIZE := 64
  const DOWNLOAD_REQUEST_SIZE := 65
  const RESPONSE_SIZE := 321
  const MAGIC_UPLOAD: byte := 1
  const MAGIC_DOWNLOAD: byte := 2

  type Int64 = x: int | -0x8000_0000_0000_0000 <= x < 0x8000_0000_0000_0000
  type Int32 = x: int | -0x8000_0000 <= x < 0x8000_0000

  datatype Result<T> = Ok(value: T) | Err

  /** Go strings are byte sequences. */
  datatype StreamHeader = StreamHeader(magic: byte, sessionID: seq<byte>, fileSize: Int64, chunkSize: Int32)

  function Zeros(n: nat): (z: seq<byte>)
    ensures |z| == n && forall i | 0 <= i < n :: z[i] == 0
  {
    seq(n, i => 0)
  }

  /** What `copy` leaves in a zeroed field of `n` bytes. */
  function Field(s: seq<byte>, n: nat): (f: seq<byte>)
    ensures |f| == n
  {
    s[..Min(n, |s|)] + Zeros(n - Min(n, |s|))
  }

  function TrimNull(b: seq<byte>): seq<byte> {
    if b == [] || b[|b| - 1] != 0 then b else TrimNull(b[..|b| - 1])
  }

  predicate EndsInNull(s: seq<byte>) {
    s != [] && s[|s| - 1] == 0
  }

  // ----- numbers -----

  function Pow256(n: nat): (p: nat)
    ensures p > 0
  {
    if n == 0 then 1 else 256 * Pow256(n - 1)
  }

  /** The low `n` bytes of `v`, most significant first. */
  function BigEndian(v: nat, n: nat): (b: seq<byte>)
    ensures |b| == n
  {
    if n == 0 then [] else BigEndian(v / 256, n - 1) + [(v % 256) as byte]
  }

  function FromBigEndian(b: seq<byte>): nat {
    if b == [] then 0 else FromBigEndian(b[..|b| - 1]) * 256 + b[|b| - 1] as int
  }

  /** The conversions between signed and unsigned integers of `m` values. */
  function Unsigned(x: int, m: int): (u: nat)
    requires m > 0 && -m <= x < m
    ensures u < m
  {
    if x < 0 then x + m else x
  }

  function Signed(u: nat, m: int): int {
    if 2 * u >= m then u - m else u
  }

  const TWO64 := 0x1_0000_0000_0000_0000
  const TWO32 := 0x1_0000_0000

  // ----- frames -----

  function HeaderBytes(h: StreamHeader): (frame: seq<byte>)
    ensures |frame| == HEADER_SIZE
  {
    [h.magic] + Field(h.sessionID, 36) + BigEndian(Unsigned(h.fileSize, TWO64), 8)
    + BigEndian(Unsigned(h.chunkSize, TWO32), 4) + Zeros(15)
  }

  lemma {:induction false} FromBigEndianBound(b: seq<byte>)
    ensures FromBigEndian(b) < Pow256(|b|)
  {
    if b != [] {
      FromBigEndianBound(b[..|b| - 1]);
    }
  }

  lemma Pow256Values()
    ensures Pow256(4) == TWO32 && Pow256(8) == TWO64
  {
    assert Pow256(2) == 256 * 256;
    assert Pow256(4) == 256 * 256 * Pow256(2);
    assert Pow256(6) == 256 * 256 * Pow256(4);
    assert Pow256(8) == 256 * 256 * Pow256(6);
  }

  function Int64At(frame: seq<byte>): (x: Int64)
    requires |frame| == 8
  {
    FromBigEndianBound(frame);
    Pow256Values();
    Signed(FromBigEndian(frame), TWO64)
  }

  function Int32At(frame: seq<byte>): (x: Int32)
    requires |frame| == 4
  {
    FromBigEndianBound(frame);
    Pow256Values();
    Signed(FromBigEndian(frame), TWO32)
  }

  function HeaderOf(frame: seq<byte>): StreamHeader
    requires |frame| == HEADER_SIZE
  {
    StreamHeader(frame[0], TrimNull(frame[1..37]), Int64At(frame[37..45]), Int32At(frame[45..49]))
  }

  /** What DecodeHeader makes of what the reader delivers before its end. */
  function DecodeHeader(input: seq<byte>): Result<StreamHeader> {
    if |input| < HEADER_SIZE then Err
    else
      var h := HeaderOf(input[..HEADER_SIZE]);
      if h.magic != MAGIC_UPLOAD && h.magic != MAGIC_DOWNLOAD then Err else Ok(h)
  }

  function DownloadRequestBytes(hash: seq<byte>): (frame: seq<byte>)
    ensures |frame| == DOWNLOAD_REQUEST_SIZE
  {
    [MAGIC_DOWNLOAD] + Field(hash, 64)
  }

  function DecodeDownloadRequest(input: seq<byte>): Result<seq<byte>> {
    if |input| < DOWNLOAD_REQUEST_SIZE || input[0] != MAGIC_DOWNLOAD then Err
    else Ok(TrimNull(input[1..65]))
  }

  datatype UploadResponse = Stored(hash: seq<byte>) | Failed(message: seq<byte>)

  function ResponseBytes(r: UploadResponse): (frame: seq<byte>)
    ensures |frame| == RESPONSE_SIZE
  {
    match r
    case Stored(hash) => [1] + Field(hash, 64) + Zeros(256)
    case Failed(message) => [0] + Zeros(64) + Field(message, 256)
  }

  /** How the client reads a response. */
  function ResponseOf(frame: seq<byte>): UploadResponse
    requires |frame| == RESPONSE_SIZE
  {
    if frame[0] != 1 then Failed(TrimNull(frame[65..321])) else Stored(TrimNull(frame[1..65]))
  }

  // ----- fields -----

  lemma {:induction false} TrimZeros(s: seq<byte>, k: nat)
    requires !EndsInNull(s)
    ensures TrimNull(s + Zeros(k)) == s
  {
    if k == 0 {
      assert s + Zeros(0) == s;
    } else {
      var b := s + Zeros(k);
      assert b[..|b| - 1] == s + Zeros(k - 1);
      TrimZeros(s, k - 1);
    }
  }

  lemma {:induction false} TrimShape(b: seq<byte>)
    ensures var t := TrimNull(b);
            |t| <= |b| && !EndsInNull(t) && b == t + Zeros(|b| - |t|)
  {
    if EndsInNull(b) {
      TrimShape(b[..|b| - 1]);
      assert b == b[..|b| - 1] + [0];
      assert Zeros(|b| - |TrimNull(b)|) == Zeros(|b| - 1 - |TrimNull(b)|) + [0];
    } else {
      assert b + Zeros(0) == b;
    }
  }

  /** A field gives back what was put in exactly when that fits and does not end in NUL. */
  lemma FieldRoundTrip(s: seq<byte>, n: nat)
    ensures TrimNull(Field(s, n)) == s <==> |s| <= n && !EndsInNull(s)
  {
    TrimShape(Field(s, n));
    if |s| <= n && !EndsInNull(s) {
      assert Field(s, n) == s + Zeros(n - |s|);
      TrimZeros(s, n - |s|);
    }
  }

  lemma FieldOfTrimmed(b: seq<byte>)
    ensures Field(TrimNull(b), |b|) == b
  {
    var t := TrimNull(b);
    TrimShape(b);
    FieldShort(t, |b|);
  }

  lemma FieldShort(s: seq<byte>, n: nat)
    requires |s| <= n
    ensures Field(s, n) == s + Zeros(n - |s|)
  {
    assert s[..|s|] == s;
  }

  // ----- numbers round trip -----

  lemma {:induction false} BigEndianRoundTrip(v: nat, n: nat)
    requires v < Pow256(n)
    ensures FromBigEndian(BigEndian(v, n)) == v
  {
    if n > 0 {
      var b := BigEndian(v, n);
      assert b[..|b| - 1] == BigEndian(v / 256, n - 1);
      BigEndianRoundTrip(v / 256, n - 1);
    }
  }

  lemma {:induction false} FromBigEndianRoundTrip(b: seq<byte>)
    ensures BigEndian(FromBigEndian(b), |b|) == b
  {
    if b != [] {
      var front, last := b[..|b| - 1], b[|b| - 1] as int;
      FromBigEndianRoundTrip(front);
      var v := FromBigEndian(b);
      assert v == FromBigEndian(front) * 256 + last;
      assert v / 256 == FromBigEndian(front) && v % 256 == last;
      assert b == front + [b[|b| - 1]];
    }
  }

  // ----- where the parts of the other frames stand -----

  /** Status at 0, hash at 1 to 64, error at 65 to 320. */
  lemma ResponseParts(hash: seq<byte>, message: seq<byte>)
    ensures var f := ResponseBytes(Stored(hash)); f[0] == 1 && f[1..65] == Field(hash, 64) && f[65..321] == Zeros(256)
    ensures var f := ResponseBytes(Failed(message));
            f[0] == 0 && f[1..65] == Zeros(64) && f[65..321] == Field(message, 256)
  {
  }

  /** Magic at 0, hash at 1 to 64. */
  lemma DownloadRequestParts(hash: seq<byte>)
    ensures var f := DownloadRequestBytes(hash); |f| == 65 && f[0] == MAGIC_DOWNLOAD && f[1..65] == Field(hash, 64)
  {
  }

  /** A field holds the text, cut off or filled up with NUL. */
  lemma FieldMeans(s: seq<byte>, n: nat)
    ensures |Field(s, n)| == n && forall i | 0 <= i < n :: Field(s, n)[i] == if i < |s| then s[i] else 0
  {
  }

  // ----- the header -----

  predicate ValidHeader(h: StreamHeader) {
    && (h.magic == MAGIC_UPLOAD || h.magic == MAGIC_DOWNLOAD)
    && |h.sessionID| <= 36 && !EndsInNull(h.sessionID)
  }

  lemma HeaderParts(h: StreamHeader)
    ensures var f := HeaderBytes(h);
            && f[0] == h.magic && f[1..37] == Field(h.sessionID, 36)
            && f[37..45] == BigEndian(Unsigned(h.fileSize, TWO64), 8)
            && f[45..49] == BigEndian(Unsigned(h.chunkSize, TWO32), 4)
            && f[..HEADER_SIZE] == f
  {
  }

  lemma NumbersRoundTrip(x: Int64, y: Int32)
    ensures Int64At(BigEndian(Unsigned(x, TWO64), 8)) == x
    ensures Int32At(BigEndian(Unsigned(y, TWO32), 4)) == y
  {
    Pow256Values();
    BigEndianRoundTrip(Unsigned(x, TWO64), 8);
    BigEndianRoundTrip(Unsigned(y, TWO32), 4);
  }

  /** Decoding an encoded header gives it back exactly for a known magic byte and a session id of at most
      36 bytes that does not end in NUL; any sizes will do, -1 included. */
  lemma HeaderRoundTrip(h: StreamHeader, rest: seq<byte>)
    ensures DecodeHeader(HeaderBytes(h) + rest) == Ok(h) <==> ValidHeader(h)
  {
    HeaderParts(h);
    FieldRoundTrip(h.sessionID, 36);
    NumbersRoundTrip(h.fileSize, h.chunkSize);
    assert (HeaderBytes(h) + rest)[..HEADER_SIZE] == HeaderBytes(h);
  }

  lemma FrameParts(frame: seq<byte>)
    requires |frame| == HEADER_SIZE
    ensures frame == [frame[0]] + frame[1..37] + frame[37..45] + frame[45..49] + frame[49..]
  {
  }

  lemma FrameNumbers(frame: seq<byte>)
    requires |frame| == HEADER_SIZE
    ensures BigEndian(Unsigned(Int64At(frame[37..45]), TWO64), 8) == frame[37..45]
    ensures BigEndian(Unsigned(Int32At(frame[45..49]), TWO32), 4) == frame[45..49]
  {
    Pow256Values();
    FromBigEndianBound(frame[37..45]);
    FromBigEndianBound(frame[45..49]);
    FromBigEndianRoundTrip(frame[37..45]);
    FromBigEndianRoundTrip(frame[45..49]);
  }

  /** Encoding a decoded frame gives it back exactly when its padding is zero. */
  lemma FrameRoundTrip(frame: seq<byte>)
    requires |frame| == HEADER_SIZE && DecodeHeader(frame).Ok?
    ensures HeaderBytes(DecodeHeader(frame).value) == frame <==> frame[49..] == Zeros(15)
    ensures ValidHeader(DecodeHeader(frame).value)
  {
    var h := HeaderOf(frame);
    assert frame[..HEADER_SIZE] == frame;
    FrameParts(frame);
    FrameNumbers(frame);
    FieldOfTrimmed(frame[1..37]);
    TrimShape(frame[1..37]);
    var f := HeaderBytes(h);
    assert f == [frame[0]] + frame[1..37] + frame[37..45] + frame[45..49] + Zeros(15);
    assert f[49..] == Zeros(15);
  }

  lemma DownloadRoundTrip(hash: seq<byte>)
    ensures DecodeDownloadRequest(DownloadRequestBytes(hash)) == Ok(hash) <==> |hash| <= 64 && !EndsInNull(hash)
  {
    assert DownloadRequestBytes(hash)[1..65] == Field(hash, 64);
    FieldRoundTrip(hash, 64);
  }

  /** The client reads what the storage node said; a long error message loses its end. */
  lemma ResponseRoundTrip(r: UploadResponse)
    ensures ResponseOf(ResponseBytes(r)) == r
            <==> match r case Stored(hash) => |hash| <= 64 && !EndsInNull(hash)
                         case Failed(message) => |message| <= 256 && !EndsInNull(message)
  {
    var f := ResponseBytes(r);
    match r
    case Stored(hash) =>
      assert f[1..65] == Field(hash, 64);
      FieldRoundTrip(hash, 64);
    case Failed(message) =>
      assert f[65..321] == Field(message, 256);
      FieldRoundTrip(message, 256);
  }
}

/** Go's shifts and or on unsigned integers, and the parse of handleUpload with them. */
module ShiftOr {
  import opened Uuids
  import opened StreamFrames

  function Pow2(n: nat): (p: nat)
    ensures p > 0
  {
    if n == 0 then 1 else 2 * Pow2(n - 1)
  }

  /** `a | b`, bit by bit. */
  function Or(a: nat, b: nat): nat {
    if a == 0 && b == 0 then 0
    else 2 * Or(a / 2, b / 2) + if a % 2 == 1 || b % 2 == 1 then 1 else 0
  }

  /** `x << k` in `width` bits. */
  function Shift(x: nat, k: nat, width: nat): nat {
    x * Pow2(k) % Pow2(width)
  }

  lemma {:induction false} OrZero(a: nat)
    ensures Or(a, 0) == a
  {
    if a > 0 {
      OrZero(a / 2);
    }
  }

  /** Or adds what does not overlap. */
  lemma {:induction false} OrDisjoint(a: nat, b: nat, k: nat)
    requires b < Pow2(k)
    ensures Or(a * Pow2(k), b) == a * Pow2(k) + b
    decreases k
  {
    if k == 0 {
      OrZero(a);
      assert b == 0 && a * Pow2(0) == a;
    } else {
      var x := a * Pow2(k);
      Halves(a, Pow2(k - 1));
      assert x / 2 == a * Pow2(k - 1) && x % 2 == 0;
      OrDisjoint(a, b / 2, k - 1);
      if x == 0 && b == 0 {
      } else {
        assert Or(x, b) == 2 * Or(x / 2, b / 2) + b % 2;
      }
    }
  }

  lemma Halves(a: nat, p: nat)
    ensures a * (2 * p) / 2 == a * p && a * (2 * p) % 2 == 0
  {
    assert a * (2 * p) == 2 * (a * p);
  }

  lemma Pow2Plus8(n: nat)
    ensures Pow2(n + 8) == 256 * Pow2(n)
  {
    assert Pow2(n + 2) == 4 * Pow2(n);
    assert Pow2(n + 4) == 4 * Pow2(n + 2);
    assert Pow2(n + 6) == 4 * Pow2(n + 4);
    assert Pow2(n + 8) == 4 * Pow2(n + 6);
  }

  /** The expressions of handleUpload. */
  function Uint64Of(b: seq<byte>): nat
    requires |b| == 8
  {
    Or(Or(Or(Or(Or(Or(Or(Shift(b[0] as int, 56, 64), Shift(b[1] as int, 48, 64)), Shift(b[2] as int, 40, 64)),
                   Shift(b[3] as int, 32, 64)), Shift(b[4] as int, 24, 64)), Shift(b[5] as int, 16, 64)),
          Shift(b[6] as int, 8, 64)), b[7] as int)
  }

  function Uint32Of(b: seq<byte>): nat
    requires |b| == 4
  {
    Or(Or(Or(Shift(b[0] as int, 24, 32), Shift(b[1] as int, 16, 32)), Shift(b[2] as int, 8, 32)), b[3] as int)
  }

  lemma Pow2Monotone(m: nat, n: nat)
    requires m <= n
    ensures Pow2(m) <= Pow2(n)
  {
  }

  lemma Scale(x: nat, y: nat, p: nat)
    requires x < y && p > 0
    ensures x * p < y * p
  {
  }

  lemma ModSmall(a: nat, m: nat)
    requires a < m
    ensures a % m == a
  {
  }

  /** A byte shifted within the width loses nothing. */
  lemma ShiftByte(x: byte, k: nat, width: nat)
    requires k + 8 <= width
    ensures Shift(x as int, k, width) == x as int * Pow2(k) < Pow2(k + 8) == 256 * Pow2(k)
  {
    Pow2Plus8(k);
    Scale(x as int, 256, Pow2(k));
    Pow2Monotone(k + 8, width);
    ModSmall(x as int * Pow2(k), Pow2(width));
  }

  /** One more byte of the number, below the ones so far. */
  lemma OrByte(acc: nat, x: byte, k: nat, width: nat)
    requires k + 8 <= width
    ensures Or(acc * Pow2(k + 8), Shift(x as int, k, width)) == (acc * 256 + x as int) * Pow2(k)
  {
    ShiftByte(x, k, width);
    OrDisjoint(acc, x as int * Pow2(k), k + 8);
    Factor(acc, x as int, Pow2(k));
  }

  lemma Factor(a: nat, x: nat, p: nat)
    ensures a * (256 * p) + x * p == (a * 256 + x) * p
  {
  }

  /** The number that the first `i` bytes make, in its place. */
  function Partial(b: seq<byte>, i: nat, width: nat): nat
    requires i <= |b| && 8 * i <= width
  {
    FromBigEndian(b[..i]) * Pow2(width - 8 * i)
  }

  lemma PartialStep(b: seq<byte>, i: nat, width: nat)
    requires i < |b| && 8 * (i + 1) <= width
    ensures Or(Partial(b, i, width), Shift(b[i] as int, width - 8 * (i + 1), width)) == Partial(b, i + 1, width)
  {
    OrByte(FromBigEndian(b[..i]), b[i], width - 8 * (i + 1), width);
    assert b[..i + 1][..i] == b[..i];
  }

  lemma PartialFirst(b: seq<byte>, width: nat)
    requires b != [] && 8 <= width
    ensures Shift(b[0] as int, width - 8, width) == Partial(b, 1, width)
  {
    ShiftByte(b[0], width - 8, width);
    assert b[..1][..0] == [];
    assert FromBigEndian(b[..1]) == b[0] as int;
  }

  lemma PartialLast(b: seq<byte>, width: nat)
    requires b != [] && width == 8 * |b|
    ensures Or(Partial(b, |b| - 1, width), b[|b| - 1] as int) == FromBigEndian(b)
  {
    PartialStep(b, |b| - 1, width);
    ShiftByte(b[|b| - 1], 0, width);
    assert b[..|b|] == b;
  }

  /** The bytes from the top, two, two and four. */
  lemma TopBytes(b: seq<byte>)
    requires |b| == 8
    ensures Or(Shift(b[0] as int, 56, 64), Shift(b[1] as int, 48, 64)) == Partial(b, 2, 64)
  {
    PartialFirst(b, 64);
    PartialStep(b, 1, 64);
  }

  lemma MiddleBytes(b: seq<byte>, top: nat)
    requires |b| == 8 && top == Partial(b, 2, 64)
    ensures Or(Or(top, Shift(b[2] as int, 40, 64)), Shift(b[3] as int, 32, 64)) == Partial(b, 4, 64)
  {
    PartialStep(b, 2, 64);
    PartialStep(b, 3, 64);
  }

  lemma LowerBytes(b: seq<byte>, upper: nat)
    requires |b| == 8 && upper == Partial(b, 4, 64)
    ensures Or(Or(Or(Or(upper, Shift(b[4] as int, 24, 64)), Shift(b[5] as int, 16, 64)), Shift(b[6] as int, 8, 64)),
               b[7] as int) == FromBigEndian(b)
  {
    PartialStep(b, 4, 64);
    PartialStep(b, 5, 64);
    PartialStep(b, 6, 64);
    PartialLast(b, 64);
  }

  /** Shifts and ors read the same number as the library call. */
  lemma Uint64IsBigEndian(b: seq<byte>)
    requires |b| == 8
    ensures Uint64Of(b) == FromBigEndian(b)
  {
    TopBytes(b);
    MiddleBytes(b, Partial(b, 2, 64));
    LowerBytes(b, Partial(b, 4, 64));
  }

  lemma Uint32IsBigEndian(b: seq<byte>)
    requires |b| == 4
    ensures Uint32Of(b) == FromBigEndian(b)
  {
    PartialFirst(b, 32);
    PartialStep(b, 1, 32);
    PartialStep(b, 2, 32);
    PartialLast(b, 32);
  }
}

/** The code that fills and reads the buffers. */
module StreamProtocol {
  import opened Basics
  import opened Uuids
  import opened StreamFrames
  import opened ShiftOr

  /** What is in a zeroed field after the bytes of `src` that fit were written. */
  lemma FieldFilled(field: seq<byte>, src: seq<byte>)
    requires forall k | 0 <= k < |field| :: field[k] == if k < |src| then src[k] else 0
    ensures field == Field(src, |field|)
  {
    var n, f := Min(|field|, |src|), Field(src, |field|);
    forall k | 0 <= k < |field|
      ensures field[k] == f[k]
    {
      assert k >= n ==> f[k] == Zeros(|field| - n)[k - n];
    }
  }

  /** Go's `copy(buf[lo:hi], src)` into a zeroed field. */
  method Copy(buf: array<byte>, lo: nat, hi: nat, src: seq<byte>)
    requires lo <= hi <= buf.Length && buf[lo..hi] == Zeros(hi - lo)
    modifies buf
    ensures buf[..lo] == old(buf[..lo]) && buf[hi..] == old(buf[hi..])
    ensures buf[lo..hi] == Field(src, hi - lo)
  {
    var n := if |src| < hi - lo then |src| else hi - lo;
    forall k | lo <= k < hi
      ensures buf[k] == 0
    {
      assert buf[k] == buf[lo..hi][k - lo];
    }
    for i := 0 to n
      invariant forall k | 0 <= k < buf.Length && !(lo <= k < hi) :: buf[k] == old(buf[k])
      invariant forall k | lo <= k < hi :: buf[k] == if k < lo + i then src[k - lo] else 0
    {
      buf[lo + i] := src[i];
    }
    FieldFilled(buf[lo..hi], src);
  }

  /** binary.BigEndian.PutUint64 and PutUint32, the low byte last. */
  method PutUint(buf: array<byte>, lo: nat, n: nat, v: nat)
    requires lo + n <= buf.Length
    modifies buf
    ensures buf[..lo] == old(buf[..lo]) && buf[lo + n..] == old(buf[lo + n..])
    ensures buf[lo..lo + n] == BigEndian(v, n)
  {
    var rest, k := v, n;
    ghost var tail := [];
    while k > 0
      invariant 0 <= k <= n
      invariant buf[..lo] == old(buf[..lo]) && buf[lo + n..] == old(buf[lo + n..])
      invariant buf[lo + k..lo + n] == tail && BigEndian(v, n) == BigEndian(rest, k) + tail
    {
      k := k - 1;
      buf[lo + k] := (rest % 256) as byte;
      assert buf[lo + k..lo + n] == [buf[lo + k]] + buf[lo + k + 1..lo + n];
      tail := [(rest % 256) as byte] + tail;
      rest := rest / 256;
    }
  }

  /** The three writes of EncodeHeader into a zeroed buffer. */
  lemma HeaderWritten(h: StreamHeader, s1: seq<byte>, s2: seq<byte>, s3: seq<byte>)
    requires |s1| == |s2| == |s3| == HEADER_SIZE
    requires s1[0] == h.magic && s1[1..37] == Field(h.sessionID, 36) && s1[37..] == Zeros(27)
    requires s2[..37] == s1[..37] && s2[37..45] == BigEndian(Unsigned(h.fileSize, TWO64), 8) && s2[45..] == s1[45..]
    requires s3[..45] == s2[..45] && s3[45..49] == BigEndian(Unsigned(h.chunkSize, TWO32), 4) && s3[49..] == s2[49..]
    ensures s3 == HeaderBytes(h)
  {
    FrameParts(s3);
    assert s3[0] == s3[..45][0] && s2[0] == s2[..37][0] && s1[0] == s1[..37][0];
    assert s3[1..37] == s3[..45][1..37] && s2[1..37] == s2[..45][1..37] == s2[..37][1..37]
        && s1[1..37] == s1[..37][1..37];
    assert s3[37..45] == s3[..45][37..45] && s2[37..45] == s2[..45][37..45];
    assert s2[49..] == s2[45..][4..] && s1[49..] == s1[45..][4..] && s1[45..] == s1[37..][8..];
  }

  method EncodeHeader(h: StreamHeader) returns (written: seq<byte>)
    ensures written == HeaderBytes(h)
  {
    var buf := new byte[HEADER_SIZE](_ => 0);
    buf[0] := h.magic;
    var sessionBytes := h.sessionID;
    if |sessionBytes| > 36 {
      sessionBytes := sessionBytes[..36];
    }
    ghost var s0 := buf[..];
    Copy(buf, 1, 37, sessionBytes);
    ghost var s1 := buf[..];
    assert s1[0] == s1[..1][0] == s0[..1][0];
    PutUint(buf, 37, 8, Unsigned(h.fileSize, TWO64));
    ghost var s2 := buf[..];
    PutUint(buf, 45, 4, Unsigned(h.chunkSize, TWO32));
    HeaderWritten(h, s1, s2, buf[..]);
    return buf[..];
  }

  method Trim(b: seq<byte>) returns (r: seq<byte>)
    ensures r == TrimNull(b)
  {
    var i := |b| - 1;
    assert b[..|b|] == b;
    while i >= 0
      invariant -1 <= i < |b| && TrimNull(b) == TrimNull(b[..i + 1])
    {
      if b[i] != 0 {
        return b[..i + 1];
      }
      assert b[..i + 1][..i] == b[..i];
      i := i - 1;
    }
    return b[..0];
  }

  /** DecodeHeader on a reader that delivers `input` and then ends. */
  method ReadHeader(input: seq<byte>) returns (r: Result<StreamHeader>)
    ensures r == DecodeHeader(input)
  {
    if |input| < HEADER_SIZE {
      return Err;
    }
    var buf := input[..HEADER_SIZE];
    var sessionID := Trim(buf[1..37]);
    var header := StreamHeader(buf[0], sessionID, Int64At(buf[37..45]), Int32At(buf[45..49]));
    if header.magic != MAGIC_UPLOAD && header.magic != MAGIC_DOWNLOAD {
      return Err;
    }
    return Ok(header);
  }

  lemma RestCopied(firstByte: byte, input: seq<byte>, s0: seq<byte>, full: seq<byte>)
    requires |s0| == |full| == HEADER_SIZE && |input| >= HEADER_SIZE - 1 && s0[0] == firstByte
    requires full[..1] == s0[..1] && full[1..HEADER_SIZE] == Field(input[..HEADER_SIZE - 1], HEADER_SIZE - 1)
    ensures full == ([firstByte] + input)[..HEADER_SIZE]
  {
    assert full[0] == full[..1][0] == s0[..1][0];
    assert full[1..] == full[1..HEADER_SIZE] == input[..HEADER_SIZE - 1];
    assert full == [full[0]] + full[1..];
  }

  /** handleUpload has the magic byte already; its own parse of the rest agrees with DecodeHeader. */
  method ParseUpload(firstByte: byte, input: seq<byte>) returns (r: Result<StreamHeader>)
    requires firstByte == MAGIC_UPLOAD
    ensures r == DecodeHeader([firstByte] + input)
  {
    if |input| < HEADER_SIZE - 1 {
      return Err;
    }
    var restBuf := input[..HEADER_SIZE - 1];
    var fullBuf := new byte[HEADER_SIZE](_ => 0);
    fullBuf[0] := firstByte;
    ghost var s0 := fullBuf[..];
    assert fullBuf[1..HEADER_SIZE] == Zeros(HEADER_SIZE - 1);
    Copy(fullBuf, 1, HEADER_SIZE, restBuf);
    var full := fullBuf[..];
    RestCopied(firstByte, input, s0, full);
    var sessionID := Trim(full[1..37]);
    var size, chunk := full[37..45], full[45..49];
    Uint64IsBigEndian(size);
    Uint32IsBigEndian(chunk);
    var fileSize := SignedOf64(Uint64Of(size), size);
    var chunkSize := SignedOf32(Uint32Of(chunk), chunk);
    return Ok(StreamHeader(full[0], sessionID, fileSize, chunkSize));
  }

  /** The conversions int64 and int32 of what the shifts gave. */
  function SignedOf64(u: nat, b: seq<byte>): (x: Int64)
    requires |b| == 8 && u == FromBigEndian(b)
    ensures x == Int64At(b)
  {
    FromBigEndianBound(b);
    Pow256Values();
    Signed(u, TWO64)
  }

  function SignedOf32(u: nat, b: seq<byte>): (x: Int32)
    requires |b| == 4 && u == FromBigEndian(b)
    ensures x == Int32At(b)
  {
    FromBigEndianBound(b);
    Pow256Values();
    Signed(u, TWO32)
  }

  method EncodeDownloadRequest(hash: seq<byte>) returns (written: seq<byte>)
    ensures written == DownloadRequestBytes(hash)
  {
    var buf := new byte[DOWNLOAD_REQUEST_SIZE](_ => 0);
    buf[0] := MAGIC_DOWNLOAD;
    ghost var s0 := buf[..];
    Copy(buf, 1, 65, hash);
    assert buf[..][0] == buf[..1][0] == s0[..1][0];
    assert buf[..] == [buf[0]] + buf[1..65];
    return buf[..];
  }

  method SendUploadResponse(success: bool, hash: seq<byte>, errMsg: seq<byte>) returns (written: seq<byte>)
    ensures written == ResponseBytes(if success then Stored(hash) else Failed(errMsg))
  {
    var resp := new byte[RESPONSE_SIZE](_ => 0);
    if success {
      resp[0] := 1;
      ghost var s0 := resp[..];
      Copy(resp, 1, 65, hash);
      assert resp[..][0] == resp[..1][0] == s0[..1][0];
      assert resp[..] == [resp[0]] + resp[1..65] + resp[65..];
    } else {
      resp[0] := 0;
      ghost var s0 := resp[..];
      Copy(resp, 65, 321, errMsg);
      assert resp[..][..65] == resp[..65] == s0[..65] == [0] + Zeros(64);
      assert resp[..] == resp[..65] + resp[65..321];
    }
    return resp[..];
  }
}
