/**
 * The wire format of the COLO checkpoint control channel (migration/colo.c):
 * the closed set of control tags, the 64-bit big-endian encoding in which
 * every control word travels, and the frames the model exchanges.
 */
module Wire {
  import opened Wrappers

  newtype byte = x: int | 0 <= x < 256

  const WORD_LIMIT: nat := 0x1_0000_0000_0000_0000

  /** A uint64_t, as written by one qemu_put_be64 call. */
  type Word = x: nat | x < WORD_LIMIT

  /** A device-state snapshot small enough for its length to travel as one Word. */
  type Snapshot = s: seq<byte> | |s| < WORD_LIMIT

  /** Least spacing, in ms, between two checkpoints (CHECKPOINT_MIN_PERIOD). */
  const CHECKPOINT_MIN_PERIOD: int := 100

  /** Default forced-checkpoint period, in ms (CHECKPOINT_MAX_PEROID). */
  const CHECKPOINT_MAX_PERIOD: int := 10000

  /** Pending dirty memory, in bytes, above which RAM is pushed between checkpoints. */
  const THRESHOLD_PENDING_SIZE: nat := 10 * 1024 * 1024

  /** The idle sleep of the primary loop, in ms (g_usleep(100000)). */
  const IDLE_SLEEP: nat := 100

  /** The secondary's grace period, in ms, before it gives up on a failover request. */
  const GRACE_SLEEP: nat := 2000

  /** The control tags. READY is 0x46 and the others follow it in declaration order. */
  datatype Command =
    | Ready
    | New
    | Suspended
    | Send
    | Received
    | Loaded
    | GuestShutdown
    | RamLiveMigrate

  function Code(c: Command): Word
  {
    match c
    case Ready => 0x46
    case New => 0x47
    case Suspended => 0x48
    case Send => 0x49
    case Received => 0x4a
    case Loaded => 0x4b
    case GuestShutdown => 0x4c
    case RamLiveMigrate => 0x4d
  }

  /** The tag a received word names, if it names one. */
  function Decode(w: Word): (r: Option<Command>)
    ensures r.Some? <==> 0x46 <= w <= 0x4d
  {
    if w == 0x46 then Some(Ready)
    else if w == 0x47 then Some(New)
    else if w == 0x48 then Some(Suspended)
    else if w == 0x49 then Some(Send)
    else if w == 0x4a then Some(Received)
    else if w == 0x4b then Some(Loaded)
    else if w == 0x4c then Some(GuestShutdown)
    else if w == 0x4d then Some(RamLiveMigrate)
    else None
  }

  /** Decoding inverts encoding, so no two tags share a wire value. */
  lemma DecodeCode(c: Command)
    ensures Decode(Code(c)) == Some(c)
  {
  }

  /** Encoding inverts decoding on every word that names a tag. */
  lemma CodeDecode(w: Word)
    requires Decode(w).Some?
    ensures Code(Decode(w).value) == w
  {
  }

  lemma CodeInjective(c: Command, d: Command)
    requires Code(c) == Code(d)
    ensures c == d
  {
    DecodeCode(c);
    DecodeCode(d);
  }

  /** The control frame carrying tag c. */
  function Tag(c: Command): Frame
  {
    Ctl(Code(c))
  }

  // ---------------------------------------------------------------
  // Big-endian encoding of control words (qemu_put_be64 / qemu_get_be64)
  // ---------------------------------------------------------------

  function Pow256(n: nat): (r: nat)
    ensures r > 0
  {
    if n == 0 then 1 else 256 * Pow256(n - 1)
  }

  lemma Pow256Eight()
    ensures Pow256(8) == WORD_LIMIT
  {
  }

  lemma DivBound(v: nat, n: nat)
    requires n > 0 && v < Pow256(n)
    ensures v / 256 < Pow256(n - 1)
  {
    var p := Pow256(n - 1);
    assert v < 256 * p;
  }

  /** The n-byte big-endian representation of v, most significant byte first. */
  function EncodeBe(v: nat, n: nat): (r: seq<byte>)
    requires v < Pow256(n)
    ensures |r| == n
  {
    if n == 0 then []
    else
      DivBound(v, n);
      EncodeBe(v / 256, n - 1) + [(v % 256) as byte]
  }

  /** The number whose big-endian representation is b. */
  function DecodeBe(b: seq<byte>): (r: nat)
    ensures r < Pow256(|b|)
  {
    if b == [] then 0
    else
      var hi := DecodeBe(b[..|b| - 1]);
      assert hi * 256 + 255 < Pow256(|b| - 1) * 256 by {
        assert hi + 1 <= Pow256(|b| - 1);
      }
      hi * 256 + b[|b| - 1] as nat
  }

  lemma {:induction false} DecodeEncode(v: nat, n: nat)
    requires v < Pow256(n)
    ensures DecodeBe(EncodeBe(v, n)) == v
  {
    if n > 0 {
      var e := EncodeBe(v, n);
      var q, r := v / 256, v % 256;
      DivBound(v, n);
      assert e[..n - 1] == EncodeBe(q, n - 1);
      assert e[n - 1] == r as byte;
      DecodeEncode(q, n - 1);
      assert DecodeBe(e) == DecodeBe(e[..n - 1]) * 256 + e[n - 1] as nat;
    }
  }

  lemma {:induction false} EncodeDecode(b: seq<byte>)
    ensures EncodeBe(DecodeBe(b), |b|) == b
  {
    if b != [] {
      var p := b[..|b| - 1];
      var d := DecodeBe(b);
      assert d / 256 == DecodeBe(p);
      assert d % 256 == b[|b| - 1] as nat;
      EncodeDecode(p);
      assert b == p + [b[|b| - 1]];
    }
  }

  /** The eight bytes qemu_put_be64 writes for w. */
  function PutBe64(w: Word): (r: seq<byte>)
    ensures |r| == 8
  {
    Pow256Eight();
    EncodeBe(w, 8)
  }

  /** The word qemu_get_be64 reads from eight bytes. */
  function GetBe64(b: seq<byte>): (w: Word)
    requires |b| == 8
  {
    Pow256Eight();
    DecodeBe(b)
  }

  /** Every control word survives the trip over the wire. */
  lemma Be64RoundTrip(w: Word)
    ensures GetBe64(PutBe64(w)) == w
  {
    Pow256Eight();
    DecodeEncode(w, 8);
  }

  /** Every eight bytes read as a word are the encoding of that word. */
  lemma Be64Canonical(b: seq<byte>)
    requires |b| == 8
    ensures PutBe64(GetBe64(b)) == b
  {
    Pow256Eight();
    EncodeDecode(b);
  }

  // ---------------------------------------------------------------
  // Frames
  // ---------------------------------------------------------------

  /**
   * One unit written to a QEMUFile by the core: a control word
   * (colo_ctl_put) or a run of raw bytes (qsb_put_buffer).
   */
  datatype Frame = Ctl(word: Word) | Bytes(data: seq<byte>)

  /** The byte stream a sequence of frames puts on the wire. */
  function Serialize(fs: seq<Frame>): (r: seq<byte>)
  {
    if fs == [] then []
    else
      (match fs[0]
       case Ctl(w) => PutBe64(w)
       case Bytes(d) => d) + Serialize(fs[1..])
  }

  /** A reader that takes eight bytes off a stream that starts with a control frame gets that frame's word, and the rest of the stream is the rest of the frames. */
  lemma ReadControlWord(w: Word, rest: seq<Frame>)
    ensures |Serialize([Ctl(w)] + rest)| >= 8
    ensures GetBe64(Serialize([Ctl(w)] + rest)[..8]) == w
    ensures Serialize([Ctl(w)] + rest)[8..] == Serialize(rest)
  {
    var fs := [Ctl(w)] + rest;
    assert fs[1..] == rest;
    assert Serialize(fs) == PutBe64(w) + Serialize(rest);
    assert Serialize(fs)[..8] == PutBe64(w);
    Be64RoundTrip(w);
  }
}
