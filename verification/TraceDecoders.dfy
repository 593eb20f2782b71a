/** The ABI decoders behind trace correlation, each with the encoding it inverts. */
module TraceDecoders {
  import opened Common

  type byte = n: int | 0 <= n < 256

  const TWO_24: int := 0x100_0000
  const TWO_128: int := 0x1_0000_0000_0000_0000_0000_0000_0000_0000
  const TWO_160: int := 0x1_0000_0000_0000_0000_0000_0000_0000_0000_0000_0000
  const TWO_256: int := 0x1_0000_0000_0000_0000_0000_0000_0000_0000_0000_0000_0000_0000_0000_0000_0000_0000

  predicate IsWord(w: int) {
    0 <= w < TWO_256
  }

  // ---------------------------------------------------------------- signed integers

  /** A sign-extended integer of which `half` is half the range; None if it is not canonical. */
  function Sint(word: int, half: int): Option<int> {
    if word < half then Some(word)
    else if word < TWO_256 - half || word >= TWO_256 then None
    else Some(word - TWO_256)
  }

  function EncodeSint(value: int): int {
    if value < 0 then value + TWO_256 else value
  }

  /** Decoding accepts exactly the sign-extended words, each as the value it encodes. */
  lemma SintRoundTrip(word: int, value: int, half: int)
    requires IsWord(word) && 0 < half <= TWO_256 / 2
    ensures Sint(word, half) == Some(value) <==> word == EncodeSint(value) && -half <= value < half
  {
  }

  /** Two signed 128-bit halves of one word. */
  function DecodeBalanceDelta(word: int): (int, int) {
    var high, low := (word / TWO_128) % TWO_128, word % TWO_128;
    (if high >= TWO_128 / 2 then high - TWO_128 else high, if low >= TWO_128 / 2 then low - TWO_128 else low)
  }

  function EncodeBalanceDelta(high: int, low: int): int {
    (high % TWO_128) * TWO_128 + low % TWO_128
  }

  predicate IsInt128(v: int) {
    -(TWO_128 / 2) <= v < TWO_128 / 2
  }

  lemma BalanceDeltaRoundTrip(word: int)
    requires IsWord(word)
    ensures
      var (high, low) := DecodeBalanceDelta(word);
      IsInt128(high) && IsInt128(low) && EncodeBalanceDelta(high, low) == word
  {
    var (high, low) := DecodeBalanceDelta(word);
    assert 0 <= word / TWO_128 < TWO_128;
    ModShift((word / TWO_128) % TWO_128);
    ModShift(word % TWO_128);
  }

  lemma ModShift(x: int)
    requires 0 <= x < TWO_128
    ensures x % TWO_128 == x && (x - TWO_128) % TWO_128 == x
  {
  }

  lemma DeltaBalanceRoundTrip(high: int, low: int)
    requires IsInt128(high) && IsInt128(low)
    ensures DecodeBalanceDelta(EncodeBalanceDelta(high, low)) == (high, low) && IsWord(EncodeBalanceDelta(high, low))
  {
    var h, l := high % TWO_128, low % TWO_128;
    var word := h * TWO_128 + l;
    assert word / TWO_128 == h && word % TWO_128 == l;
    Halves(high);
    Halves(low);
  }

  lemma Halves(v: int)
    requires IsInt128(v)
    ensures v % TWO_128 == if v < 0 then v + TWO_128 else v
  {
    if v < 0 {
      ModShift(v + TWO_128);
    } else {
      ModShift(v);
    }
  }

  // ---------------------------------------------------------------- words

  function FromBytes(b: seq<byte>): nat {
    if |b| == 0 then 0 else FromBytes(b[..|b| - 1]) * 256 + b[|b| - 1]
  }

  function ToBytes(w: nat, n: nat): (b: seq<byte>)
    ensures |b| == n
  {
    if n == 0 then [] else ToBytes(w / 256, n - 1) + [w % 256]
  }

  function Pow256(n: nat): nat {
    if n == 0 then 1 else 256 * Pow256(n - 1)
  }

  lemma {:induction false} BytesRoundTrip(b: seq<byte>)
    ensures ToBytes(FromBytes(b), |b|) == b && FromBytes(b) < Pow256(|b|)
  {
    if |b| > 0 {
      BytesRoundTrip(b[..|b| - 1]);
      var high := FromBytes(b[..|b| - 1]);
      assert (high * 256 + b[|b| - 1]) / 256 == high && (high * 256 + b[|b| - 1]) % 256 == b[|b| - 1];
    }
  }

  lemma {:induction false} WordRoundTrip(w: nat, n: nat)
    requires w < Pow256(n)
    ensures FromBytes(ToBytes(w, n)) == w
  {
    if n > 0 {
      WordRoundTrip(w / 256, n - 1);
      assert ToBytes(w, n)[..n - 1] == ToBytes(w / 256, n - 1);
    }
  }

  lemma Pow256Of32()
    ensures Pow256(32) == TWO_256
  {
    assert Pow256(8) == 0x1_0000_0000_0000_0000;
    assert Pow256(16) == 0x1_0000_0000_0000_0000 * 0x1_0000_0000_0000_0000 by {
      assert Pow256(12) == 0x1_0000_0000 * 0x1_0000_0000_0000_0000;
    }
    assert Pow256(24) == 0x1_0000_0000_0000_0000 * 0x1_0000_0000_0000_0000 * 0x1_0000_0000_0000_0000 by {
      assert Pow256(20) == 0x1_0000_0000 * (0x1_0000_0000_0000_0000 * 0x1_0000_0000_0000_0000);
    }
    assert Pow256(28) == 0x1_0000_0000 * (0x1_0000_0000_0000_0000 * 0x1_0000_0000_0000_0000 * 0x1_0000_0000_0000_0000);
  }

  function WordAt(args: seq<byte>, i: nat): nat
    requires 32 * i + 32 <= |args|
  {
    FromBytes(args[32 * i..32 * i + 32])
  }

  lemma WordAtIsWord(args: seq<byte>, i: nat)
    requires 32 * i + 32 <= |args|
    ensures IsWord(WordAt(args, i)) && ToBytes(WordAt(args, i), 32) == args[32 * i..32 * i + 32]
  {
    BytesRoundTrip(args[32 * i..32 * i + 32]);
    Pow256Of32();
  }

  // ---------------------------------------------------------------- modifyLiquidity calldata

  /** The static arguments of a modifyLiquidity call. */
  datatype ModifyCall = ModifyCall(
    token0: nat, token1: nat, fee: nat, spacing: int, hook: nat, lower: int, upper: int, delta: int, salt: nat)

  /** Arguments that fit their ABI types. */
  predicate InRange(c: ModifyCall) {
    && c.token0 < TWO_160 && c.token1 < TWO_160 && c.fee < TWO_24 && c.hook < TWO_160 && c.salt < TWO_256
    && -(TWO_24 / 2) <= c.spacing < TWO_24 / 2 && -(TWO_24 / 2) <= c.lower < TWO_24 / 2
    && -(TWO_24 / 2) <= c.upper < TWO_24 / 2 && -(TWO_256 / 2) <= c.delta < TWO_256 / 2
  }

  function Words(c: ModifyCall, size: nat): seq<nat>
    requires InRange(c)
  {
    [c.token0, c.token1, c.fee, EncodeSint(c.spacing), c.hook,
     EncodeSint(c.lower), EncodeSint(c.upper), EncodeSint(c.delta), c.salt, 320, size]
  }

  function Concat(words: seq<nat>): (b: seq<byte>)
    ensures |b| == 32 * |words|
  {
    if |words| == 0 then [] else Concat(words[..|words| - 1]) + ToBytes(words[|words| - 1], 32)
  }

  function Padded(size: nat): nat {
    (size + 31) / 32 * 32
  }

  function Zeros(n: nat): seq<byte> {
    seq(n, _ => 0)
  }

  /** The canonical ABI encoding of the arguments with some hook data. */
  function EncodeArgs(c: ModifyCall, hookData: seq<byte>): seq<byte>
    requires InRange(c)
  {
    Concat(Words(c, |hookData|)) + hookData + Zeros(Padded(|hookData|) - |hookData|)
  }

  /** The decoder's checks on the nine static words, in its order. */
  function DecodeStatic(w: seq<nat>): Option<ModifyCall>
    requires |w| == 11
  {
    var spacing, lower, upper := Sint(w[3], TWO_24 / 2), Sint(w[5], TWO_24 / 2), Sint(w[6], TWO_24 / 2);
    var delta := Sint(w[7], TWO_256 / 2);
    if w[0] < TWO_160 && w[1] < TWO_160 && w[2] < TWO_24 && spacing.Some? && w[4] < TWO_160
       && lower.Some? && upper.Some? && delta.Some?
    then Some(ModifyCall(w[0], w[1], w[2], spacing.value, w[4], lower.value, upper.value, delta.value, w[8]))
    else None
  }

  predicate AllZero(b: seq<byte>) {
    forall i :: 0 <= i < |b| ==> b[i] == 0
  }

  function DecodeArgs(args: seq<byte>): Option<ModifyCall> {
    if |args| < 352 || |args| % 32 != 0 then None
    else
      var w := StaticWords(args);
      var call := DecodeStatic(w);
      var size := w[10];
      if call.None? || w[9] != 320 || |args| != 320 + 32 + Padded(size) || !AllZero(args[352 + size..]) then None
      else call
  }

  lemma {:induction false} ConcatAt(words: seq<nat>, tail: seq<byte>, i: nat)
    requires i < |words| && forall j :: 0 <= j < |words| ==> words[j] < TWO_256
    ensures WordAt(Concat(words) + tail, i) == words[i]
    decreases |words|
  {
    var init, last := words[..|words| - 1], words[|words| - 1];
    var all := Concat(words) + tail;
    if i == |words| - 1 {
      assert all[32 * i..32 * i + 32] == ToBytes(last, 32);
      Pow256Of32();
      WordRoundTrip(last, 32);
    } else {
      assert all == Concat(init) + (ToBytes(last, 32) + tail);
      ConcatAt(init, ToBytes(last, 32) + tail, i);
    }
  }

  lemma {:induction false} ConcatIs(args: seq<byte>, words: seq<nat>)
    requires 32 * |words| <= |args| && forall i | 0 <= i < |words| :: words[i] == WordAt(args, i)
    ensures Concat(words) == args[..32 * |words|]
    decreases |words|
  {
    if |words| > 0 {
      var n := |words| - 1;
      ConcatIs(args, words[..n]);
      WordAtIsWord(args, n);
      assert args[..32 * n] + args[32 * n..32 * n + 32] == args[..32 * |words|];
    }
  }

  lemma StaticRoundTrip(w: seq<nat>, c: ModifyCall)
    requires |w| == 11 && forall i :: 0 <= i < 11 ==> IsWord(w[i])
    ensures DecodeStatic(w) == Some(c) && w[9] == 320 <==> InRange(c) && w == Words(c, w[10])
  {
    SintRoundTrip(w[3], c.spacing, TWO_24 / 2);
    SintRoundTrip(w[5], c.lower, TWO_24 / 2);
    SintRoundTrip(w[6], c.upper, TWO_24 / 2);
    SintRoundTrip(w[7], c.delta, TWO_256 / 2);
    hide Sint, EncodeSint;
    if DecodeStatic(w) == Some(c) && w[9] == 320 {
      assert w == Words(c, w[10]);
    }
  }

  function StaticWords(args: seq<byte>): seq<nat>
    requires |args| >= 352
  {
    seq(11, i requires 0 <= i < 11 => WordAt(args, i))
  }

  lemma EncodedWords(c: ModifyCall, hookData: seq<byte>)
    requires InRange(c) && |hookData| < TWO_256
    ensures |EncodeArgs(c, hookData)| == 352 + Padded(|hookData|)
    ensures StaticWords(EncodeArgs(c, hookData)) == Words(c, |hookData|)
    ensures forall i | 0 <= i < 11 :: IsWord(Words(c, |hookData|)[i])
    ensures EncodeArgs(c, hookData)[352 + |hookData|..] == Zeros(Padded(|hookData|) - |hookData|)
  {
    var args, words := EncodeArgs(c, hookData), Words(c, |hookData|);
    var tail := hookData + Zeros(Padded(|hookData|) - |hookData|);
    assert args == Concat(words) + tail;
    assert forall i | 0 <= i < |words| :: words[i] < TWO_256;
    hide Words, Concat, EncodeArgs, WordAt;
    forall i | 0 <= i < 11
      ensures StaticWords(args)[i] == words[i]
    {
      ConcatAt(words, tail, i);
    }
  }

  /** Decoding inverts encoding, whatever the hook data. */
  lemma DecodeEncoded(c: ModifyCall, hookData: seq<byte>)
    requires InRange(c) && |hookData| < TWO_256
    ensures DecodeArgs(EncodeArgs(c, hookData)) == Some(c)
  {
    EncodedWords(c, hookData);
    LastWords(c, |hookData|);
    hide Words, EncodeArgs, WordAt, DecodeStatic, InRange, StaticWords, Zeros, Padded, IsWord, FromBytes, ToBytes,
      Concat;
    var args := EncodeArgs(c, hookData);
    StaticRoundTrip(StaticWords(args), c);
    ZerosAreZero(Padded(|hookData|) - |hookData|);
    Packed(args, c, |hookData|);
  }

  lemma LastWords(c: ModifyCall, size: nat)
    requires InRange(c)
    ensures |Words(c, size)| == 11 && Words(c, size)[10] == size && Words(c, size)[9] == 320
    ensures Padded(size) % 32 == 0 && size <= Padded(size)
  {
  }

  lemma ZerosAreZero(n: nat)
    ensures AllZero(Zeros(n))
  {
  }

  lemma Packed(args: seq<byte>, c: ModifyCall, size: nat)
    requires |args| == 352 + Padded(size) && Padded(size) % 32 == 0
    requires
      var w := StaticWords(args);
      DecodeStatic(w) == Some(c) && w[9] == 320 && w[10] == size
    requires size <= Padded(size) && AllZero(args[352 + size..])
    ensures DecodeArgs(args) == Some(c)
  {
    hide DecodeStatic, WordAt, StaticWords, Padded, AllZero;
  }

  lemma DecodedWords(args: seq<byte>)
    requires |args| >= 352
    ensures forall i | 0 <= i < 11 :: IsWord(StaticWords(args)[i])
    ensures Concat(StaticWords(args)) == args[..352]
  {
    hide WordAt, Concat;
    forall i | 0 <= i < 11
      ensures IsWord(StaticWords(args)[i])
    {
      WordAtIsWord(args, i);
    }
    ConcatIs(args, StaticWords(args));
  }

  lemma PaddingIsZeros(args: seq<byte>, size: nat)
    requires |args| == 352 + Padded(size) && AllZero(args[352 + size..])
    ensures args == args[..352] + args[352..352 + size] + Zeros(Padded(size) - size)
  {
    assert args[352 + size..] == Zeros(Padded(size) - size);
  }

  lemma Unpacked(args: seq<byte>, c: ModifyCall)
    requires DecodeArgs(args) == Some(c)
    ensures |args| >= 352
    ensures
      var w := StaticWords(args);
      && DecodeStatic(w) == Some(c) && w[9] == 320
      && |args| == 352 + Padded(w[10]) && AllZero(args[352 + w[10]..])
  {
    hide DecodeStatic, WordAt;
  }

  lemma Repacked(args: seq<byte>, c: ModifyCall, hookData: seq<byte>)
    requires |args| >= 352 && InRange(c) && Concat(Words(c, |hookData|)) == args[..352]
    requires args == args[..352] + hookData + Zeros(Padded(|hookData|) - |hookData|)
    ensures args == EncodeArgs(c, hookData)
  {
    hide Words, Concat, InRange, Zeros;
  }

  lemma DecodedStatic(args: seq<byte>, c: ModifyCall) returns (size: nat)
    requires DecodeArgs(args) == Some(c)
    ensures InRange(c) && size < TWO_256 && |args| == 352 + Padded(size) && AllZero(args[352 + size..])
    ensures Concat(Words(c, size)) == args[..352]
  {
    Unpacked(args, c);
    DecodedWords(args);
    hide WordAt, DecodeStatic, DecodeArgs, InRange, Words, Concat, StaticWords, AllZero, Padded;
    var w := StaticWords(args);
    StaticRoundTrip(w, c);
    size := w[10];
    assert IsWord(w[10]);
  }

  /** Only canonical encodings decode: the calldata is determined by the result and the hook data. */
  lemma OnlyEncodedDecodes(args: seq<byte>, c: ModifyCall) returns (hookData: seq<byte>)
    requires DecodeArgs(args) == Some(c)
    ensures InRange(c) && |hookData| < TWO_256 && args == EncodeArgs(c, hookData)
  {
    var size := DecodedStatic(args, c);
    hide DecodeArgs, InRange, Words, Concat, AllZero, Zeros, EncodeArgs;
    PaddingIsZeros(args, size);
    hookData := args[352..352 + size];
    Repacked(args, c, hookData);
  }
}
