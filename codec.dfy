/**
 * The big-endian word codec of protocol.rs:28-52 (`words_to_protocol_value!`
 * and `protocol_value_to_words!`), and the IEEE 754 binary32 bit patterns the
 * settings registers carry.
 *
 * Every wire value is handled as its bit pattern: a natural number below
 * 2^(8 * width). For `f32` that pattern is the binary32 interchange format of
 * section 3.4 of IEEE 754-2008.
 */
module Codec {
  import opened Wrappers
  import opened Words
  import opened Errors

  /** The `ProtocolType` of a register: `f32`, `u16` or `u32`. */
  datatype WireType = F32 | U16Wire | U32Wire

  /** Byte width of the wire type (`size_of::<ProtocolType>()`). */
  function Width(t: WireType): nat
  {
    match t
    case U16Wire => 2
    case _ => 4
  }

  /** One more than the largest bit pattern of the wire type. */
  function Limit(t: WireType): nat
  {
    match t
    case U16Wire => 0x1_0000
    case _ => 0x1_0000_0000
  }

  // ---------------------------------------------------------------------------
  // Bytes

  /** `words.iter().copied().flat_map(u16::to_be_bytes)` */
  function WordsToBytes(ws: seq<Word>): (bs: seq<Byte>)
    ensures |bs| == 2 * |ws|
  {
    if ws == [] then [] else [ws[0] / 256, ws[0] % 256] + WordsToBytes(ws[1..])
  }

  /** `from_be_bytes`: the bytes read as one big-endian number. */
  function FromBeBytes(bs: seq<Byte>): nat
  {
    if bs == [] then 0 else FromBeBytes(bs[..|bs| - 1]) * 256 + bs[|bs| - 1]
  }

  /** 256 to the power `n`: one more than the largest `n`-byte value. */
  function ByteLimit(n: nat): (p: nat)
    ensures p >= 1
  {
    if n == 0 then 1 else 256 * ByteLimit(n - 1)
  }

  lemma ByteLimitOfWidth(t: WireType)
    ensures ByteLimit(Width(t)) == Limit(t)
  {
    assert ByteLimit(2) == 256 * ByteLimit(1) == 0x1_0000;
    assert ByteLimit(4) == 0x1_0000 * ByteLimit(2) by {
      assert ByteLimit(4) == 256 * ByteLimit(3) && ByteLimit(3) == 256 * ByteLimit(2);
    }
  }

  /** `to_be_bytes` of an `n`-byte value. */
  function ToBeBytes(v: nat, n: nat): (bs: seq<Byte>)
    ensures |bs| == n
  {
    if n == 0 then [] else ToBeBytes(v / 256, n - 1) + [v % 256]
  }

  /** `.chunks(2).map(u16::from_be_bytes)` */
  function BytesToWords(bs: seq<Byte>): (ws: seq<Word>)
    requires |bs| % 2 == 0
    ensures 2 * |ws| == |bs|
  {
    if bs == [] then [] else [bs[0] as int * 256 + bs[1]] + BytesToWords(bs[2..])
  }

  lemma {:induction false} FromBeBytesBound(bs: seq<Byte>)
    ensures FromBeBytes(bs) < ByteLimit(|bs|)
  {
    if bs != [] {
      var init := bs[..|bs| - 1];
      FromBeBytesBound(init);
      assert FromBeBytes(bs) == FromBeBytes(init) * 256 + bs[|bs| - 1];
      assert (FromBeBytes(init) + 1) * 256 <= ByteLimit(|init|) * 256;
    }
  }

  // ---------------------------------------------------------------------------
  // Words <-> protocol value

  /**
   * `words_to_protocol_value!` (protocol.rs:29-39): the words as big-endian
   * bytes; `WordsCountError` when they are not exactly the type's width.
   */
  function WordsToValue(t: WireType, ws: seq<Word>): (r: Result<nat, ProtocolError>)
    ensures r.Failure? <==> 2 * |ws| != Width(t)
    ensures r.Failure? ==> r.error == WordsCountError
    ensures r.Success? ==> r.value < Limit(t)
  {
    var bytes := WordsToBytes(ws);
    if |bytes| != Width(t) then
      Failure(WordsCountError)
    else
      FromBeBytesBound(bytes);
      ByteLimitOfWidth(t);
      Success(FromBeBytes(bytes))
  }

  /** `protocol_value_to_words!` (protocol.rs:42-52). */
  function ValueToWords(t: WireType, v: nat): (ws: seq<Word>)
    requires v < Limit(t)
    ensures 2 * |ws| == Width(t)
  {
    BytesToWords(ToBeBytes(v, Width(t)))
  }

  /** One more byte at the end shifts the number up by a byte. */
  lemma FromBeBytesSnoc(bs: seq<Byte>, x: Byte)
    ensures FromBeBytes(bs + [x]) == FromBeBytes(bs) * 256 + x
  {
    assert (bs + [x])[..|bs + [x]| - 1] == bs;
  }

  lemma WordToBytes(w: Word)
    ensures FromBeBytes([w / 256, w % 256]) == w
  {
    var hi: Byte, lo: Byte := w / 256, w % 256;
    assert [hi] == [] + [hi];
    FromBeBytesSnoc([], hi);
    assert [hi, lo] == [hi] + [lo];
    FromBeBytesSnoc([hi], lo);
  }

  /** Decoding reads the words most significant first. */
  lemma {:induction false} WordsToValueBigEndian(t: WireType, ws: seq<Word>)
    requires 2 * |ws| == Width(t)
    ensures |ws| == 1 ==> WordsToValue(t, ws) == Success(ws[0])
    ensures |ws| == 2 ==> WordsToValue(t, ws) == Success(ws[0] as int * 0x1_0000 + ws[1])
  {
    var bs := WordsToBytes(ws);
    if |ws| == 1 {
      assert bs == [ws[0] / 256, ws[0] % 256];
      WordToBytes(ws[0]);
    } else {
      var a: Byte, b: Byte, c: Byte, d: Byte := ws[0] / 256, ws[0] % 256, ws[1] / 256, ws[1] % 256;
      assert ws[1..][1..] == [];
      assert WordsToBytes(ws[1..]) == [c, d] + WordsToBytes([]);
      assert bs == [a, b, c] + [d];
      FromBeBytesSnoc([a, b, c], d);
      assert [a, b, c] == [a, b] + [c];
      FromBeBytesSnoc([a, b], c);
      WordToBytes(ws[0]);
      assert FromBeBytes(bs) == (ws[0] as int * 256 + c) * 256 + d;
    }
  }

  /** Encoding writes the most significant word first. */
  lemma ValueToWordsBigEndian(t: WireType, v: nat)
    requires v < Limit(t)
    ensures t == U16Wire ==> ValueToWords(t, v) == [v]
    ensures t != U16Wire ==> ValueToWords(t, v) == [v / 0x1_0000, v % 0x1_0000]
  {
    if t == U16Wire {
      var bs := ToBeBytes(v, 2);
      assert ToBeBytes(v / 256, 1) == [(v / 256) % 256];
      assert bs == [(v / 256) % 256, v % 256];
      assert BytesToWords(bs) == [((v / 256) % 256) * 256 + v % 256];
    } else {
      var bs := ToBeBytes(v, 4);
      var hi, lo := v / 0x1_0000, v % 0x1_0000;
      assert v == hi * 0x1_0000 + lo;
      assert v / 256 == hi * 256 + lo / 256;
      assert (v / 256) / 256 == hi;
      assert ((v / 256) / 256) / 256 == hi / 256;
      assert ToBeBytes(v / 256 / 256 / 256, 1) == [(hi / 256) % 256];
      assert ToBeBytes(v / 256 / 256, 2) == [(hi / 256) % 256, hi % 256];
      assert ToBeBytes(v / 256, 3) == [(hi / 256) % 256, hi % 256, (lo / 256) % 256];
      assert bs == [(hi / 256) % 256, hi % 256, (lo / 256) % 256, lo % 256];
      assert bs[2..][2..] == [];
      assert BytesToWords(bs) == [((hi / 256) % 256) * 256 + hi % 256, ((lo / 256) % 256) * 256 + lo % 256];
    }
  }

  /** Every encoded value decodes back to itself. */
  lemma ValueRoundTrip(t: WireType, v: nat)
    requires v < Limit(t)
    ensures WordsToValue(t, ValueToWords(t, v)) == Success(v)
  {
    ValueToWordsBigEndian(t, v);
    WordsToValueBigEndian(t, ValueToWords(t, v));
  }

  /** Re-encoding a decoded value reproduces the words bit for bit. */
  lemma WordsRoundTrip(t: WireType, ws: seq<Word>)
    requires WordsToValue(t, ws).Success?
    ensures ValueToWords(t, WordsToValue(t, ws).value) == ws
  {
    WordsToValueBigEndian(t, ws);
    var v := WordsToValue(t, ws).value;
    ValueToWordsBigEndian(t, v);
    if t != U16Wire {
      var hi: int, lo: int := ws[0], ws[1];
      assert v == hi * 0x1_0000 + lo;
      assert v / 0x1_0000 == hi && v % 0x1_0000 == lo;
    }
  }
}
