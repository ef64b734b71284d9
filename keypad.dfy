/** The keypad reader of simple-shutdown.py: one Linux input-event record
    (`struct input_event`, unpacked with the format 'llHHI') is read from the
    event device and reduced to a key code, 0 meaning "no key".

    The native layout of 'llHHI' depends on the platform; this model fixes the
    64-bit little-endian one: two signed 8-byte longs (tv_sec, tv_usec), two
    unsigned 2-byte shorts (type, code) and an unsigned 4-byte int (value),
    24 bytes with no padding. */
module Keypad {
  import opened Wrappers

  type Byte = x: int | 0 <= x < 256

  /** The number of values an n-byte field can hold. */
  function Pow256(n: nat): (r: nat)
    ensures r >= 1
    ensures n > 0 ==> r % 2 == 0
  {
    if n == 0 then 1 else 256 * Pow256(n - 1)
  }

  lemma Pow256Values()
    ensures Pow256(2) == 0x1_0000
    ensures Pow256(4) == 0x1_0000_0000
    ensures Pow256(8) == 0x1_0000_0000_0000_0000
  {
  }

  /** The value of a little-endian unsigned field. */
  function Unsigned(s: seq<Byte>): (r: nat)
    ensures r < Pow256(|s|)
  {
    if s == [] then 0 else s[0] + 256 * Unsigned(s[1..])
  }

  /** The value of a little-endian two's-complement field. */
  function Signed(s: seq<Byte>): (r: int)
    requires |s| > 0
    ensures -(Pow256(|s|) / 2) <= r < Pow256(|s|) / 2
    ensures r >= 0 <==> Unsigned(s) < Pow256(|s|) / 2
  {
    var u := Unsigned(s);
    if u < Pow256(|s|) / 2 then u else u - Pow256(|s|)
  }

  /** The n little-endian bytes of an unsigned value (struct.pack's encoding). */
  function EncodeUnsigned(v: nat, n: nat): (r: seq<Byte>)
    requires v < Pow256(n)
    ensures |r| == n
  {
    if n == 0 then [] else [v % 256] + EncodeUnsigned(v / 256, n - 1)
  }

  /** The n little-endian two's-complement bytes of a signed value. */
  function EncodeSigned(v: int, n: nat): (r: seq<Byte>)
    requires n > 0 && -(Pow256(n) / 2) <= v < Pow256(n) / 2
    ensures |r| == n
  {
    EncodeUnsigned(if v < 0 then v + Pow256(n) else v, n)
  }

  lemma {:induction false} UnsignedRoundTrip(v: nat, n: nat)
    requires v < Pow256(n)
    ensures Unsigned(EncodeUnsigned(v, n)) == v
  {
    if n > 0 {
      var s := EncodeUnsigned(v, n);
      assert s[1..] == EncodeUnsigned(v / 256, n - 1);
      UnsignedRoundTrip(v / 256, n - 1);
    }
  }

  lemma {:induction false} UnsignedEncodesBack(s: seq<Byte>)
    ensures EncodeUnsigned(Unsigned(s), |s|) == s
  {
    if s != [] {
      var v := Unsigned(s);
      assert v % 256 == s[0] && v / 256 == Unsigned(s[1..]);
      UnsignedEncodesBack(s[1..]);
    }
  }

  lemma SignedRoundTrip(v: int, n: nat)
    requires n > 0 && -(Pow256(n) / 2) <= v < Pow256(n) / 2
    ensures Signed(EncodeSigned(v, n)) == v
  {
    UnsignedRoundTrip(if v < 0 then v + Pow256(n) else v, n);
  }

  lemma SignedEncodesBack(s: seq<Byte>)
    requires |s| > 0
    ensures EncodeSigned(Signed(s), |s|) == s
  {
    UnsignedEncodesBack(s);
  }

  /** Size in bytes of one record, struct.calcsize('llHHI') on the fixed layout. */
  const EventSize := 24

  /** One unpacked `struct input_event`. */
  datatype InputEvent = InputEvent(tvSec: int, tvUsec: int, evType: nat, code: nat, value: nat)
  {
    /** The field values that the 'llHHI' layout can represent. */
    predicate Fits()
    {
      -0x8000_0000_0000_0000 <= tvSec < 0x8000_0000_0000_0000 &&
      -0x8000_0000_0000_0000 <= tvUsec < 0x8000_0000_0000_0000 &&
      evType < 0x1_0000 && code < 0x1_0000 && value < 0x1_0000_0000
    }

    /** A synchronisation marker between events: type, code and value all zero. */
    predicate IsSeparator()
    {
      evType == 0 && code == 0 && value == 0
    }
  }

  /** struct.unpack('llHHI', data): the record, or None where unpack raises
      because the data is not exactly one record long. */
  function Unpack(data: seq<Byte>): (r: Option<InputEvent>)
    ensures r.Some? <==> |data| == EventSize
    ensures r.Some? ==> r.value.Fits()
  {
    if |data| != EventSize then None
    else
      Pow256Values();
      Some(InputEvent(Signed(data[0..8]), Signed(data[8..16]),
                      Unsigned(data[16..18]), Unsigned(data[18..20]), Unsigned(data[20..24])))
  }

  /** struct.pack('llHHI', ...): the bytes the kernel writes for an event. */
  function Pack(e: InputEvent): (r: seq<Byte>)
    requires e.Fits()
    ensures |r| == EventSize
  {
    Pow256Values();
    EncodeSigned(e.tvSec, 8) + EncodeSigned(e.tvUsec, 8) +
    EncodeUnsigned(e.evType, 2) + EncodeUnsigned(e.code, 2) + EncodeUnsigned(e.value, 4)
  }

  lemma UnpackPack(e: InputEvent)
    requires e.Fits()
    ensures Unpack(Pack(e)) == Some(e)
  {
    Pow256Values();
    var s := Pack(e);
    assert s[0..8] == EncodeSigned(e.tvSec, 8);
    assert s[8..16] == EncodeSigned(e.tvUsec, 8);
    assert s[16..18] == EncodeUnsigned(e.evType, 2);
    assert s[18..20] == EncodeUnsigned(e.code, 2);
    assert s[20..24] == EncodeUnsigned(e.value, 4);
    SignedRoundTrip(e.tvSec, 8);
    SignedRoundTrip(e.tvUsec, 8);
    UnsignedRoundTrip(e.evType, 2);
    UnsignedRoundTrip(e.code, 2);
    UnsignedRoundTrip(e.value, 4);
  }

  lemma PackUnpack(data: seq<Byte>)
    requires |data| == EventSize
    ensures Pack(Unpack(data).value) == data
  {
    SignedEncodesBack(data[0..8]);
    SignedEncodesBack(data[8..16]);
    UnsignedEncodesBack(data[16..18]);
    UnsignedEncodesBack(data[18..20]);
    UnsignedEncodesBack(data[20..24]);
    assert data == data[0..8] + data[8..16] + data[16..18] + data[18..20] + data[20..24];
  }

  /** What one attempt to read the event device produced. */
  datatype ReadOutcome =
    | OpenFailed             // open(infile_path, "rb") raised
    | TimedOut               // the one-second SIGALRM (or any other exception) interrupted the read
    | Read(data: seq<Byte>)  // what in_file.read(EVENT_SIZE) returned, possibly short

  /** The key code readKeyPresses returns: the record's code, or 0 for a
      separator record and for every failure (the bare except swallows it). */
  function KeyCode(o: ReadOutcome): nat
  {
    match o
    case Read(data) =>
      (match Unpack(data)
       case Some(e) => if e.evType != 0 || e.code != 0 || e.value != 0 then e.code else 0
       case None => 0)
    case _ => 0
  }

  /** A key other than 0 is the code field of a complete record, so it fits in 16 bits. */
  lemma NonzeroKeyIsCode(o: ReadOutcome)
    requires KeyCode(o) != 0
    ensures o.Read? && Unpack(o.data).Some? && KeyCode(o) == Unpack(o.data).value.code
    ensures KeyCode(o) < 0x1_0000
  {
  }

  /** A separator decodes to "no key", whatever its timestamps hold. */
  lemma SeparatorIsNoKey(tvSec: int, tvUsec: int)
    requires InputEvent(tvSec, tvUsec, 0, 0, 0).Fits()
    ensures KeyCode(Read(Pack(InputEvent(tvSec, tvUsec, 0, 0, 0)))) == 0
  {
    UnpackPack(InputEvent(tvSec, tvUsec, 0, 0, 0));
  }

  /** Any other packed record decodes to exactly its code, whatever its type and value. */
  lemma PackedKeyRoundTrip(e: InputEvent)
    requires e.Fits() && !e.IsSeparator()
    ensures KeyCode(Read(Pack(e))) == e.code
  {
    UnpackPack(e);
  }

  /** Open errors, timeouts and short or long reads all yield 0, like a separator. */
  lemma FailedReadIsNoKey(o: ReadOutcome)
    requires !o.Read? || |o.data| != EventSize
    ensures KeyCode(o) == 0
  {
  }

  /** 0 comes back exactly when nothing was decoded or the code bytes (18..20) are zero. */
  lemma NoKeyIff(o: ReadOutcome)
    ensures KeyCode(o) == 0 <==> !o.Read? || |o.data| != EventSize || Unsigned(o.data[18..20]) == 0
  {
  }
}
