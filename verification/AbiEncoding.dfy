/** The Solidity Contract ABI Specification, section "Formal Specification of the Encoding",
    for tuples of 32-byte static values and `bytes`. It is independent of the hand-written
    encoders: heads first, then tails, each dynamic head holding the byte offset of its tail. */
module AbiEncoding {
  import opened Text
  import opened Numerals

  /** Hex payloads are lower-case digits without a prefix. */
  datatype AbiValue =
    | Uint(n: nat)
    | Bytes32(hex: string)
    | Address(hex: string)
    | Bytes(hex: string)

  /** The number is an unsigned 256-bit integer. */
  predicate FitsWord(n: nat) {
    n < Pow(Hex, 64)
  }

  /** One 32-byte big-endian word. */
  function Word(n: nat): (w: string)
    ensures FitsWord(n) ==> |w| == 64 && AllDigits(w, Hex) && IsLower(w) && Value(w, Hex) == n
  {
    if FitsWord(n) then assert PadZeros(Numeral(n, Hex), 64) == Padded(n, 64, Hex);
      PadZeros(Numeral(n, Hex), 64)
    else PadZeros(Numeral(n, Hex), 64)
  }

  /** Zero digits that complete a text to whole words. */
  function Padding(length: nat): (p: nat)
    ensures p < 64 && (length + p) % 64 == 0
  {
    (64 - length % 64) % 64
  }

  function Tail(v: AbiValue): string {
    match v
    case Bytes(hex) => Word(|hex| / 2) + hex + Zeros(Padding(|hex|))
    case _ => ""
  }

  function Head(v: AbiValue, offset: nat): string {
    match v
    case Uint(n) => Word(n)
    case Bytes32(hex) => hex
    case Address(hex) => PadZeros(hex, 64)
    case Bytes(_) => Word(offset)
  }

  /** Bytes taken by the tails of a list of values. */
  function TailBytes(vs: seq<AbiValue>): nat {
    if vs == [] then 0 else TailBytes(vs[..|vs| - 1]) + |Tail(vs[|vs| - 1])| / 2
  }

  /** head(X(i)): a dynamic head holds the bytes of all heads and of the tails before it. */
  function HeadWords(vs: seq<AbiValue>): (r: seq<string>)
    ensures |r| == |vs|
  {
    seq(|vs|, i requires 0 <= i < |vs| => Head(vs[i], 32 * |vs| + TailBytes(vs[..i])))
  }

  function TailParts(vs: seq<AbiValue>): (r: seq<string>)
    ensures |r| == |vs|
  {
    seq(|vs|, i requires 0 <= i < |vs| => Tail(vs[i]))
  }

  /** enc(X) for the tuple X = (vs[0], ..., vs[n - 1]). */
  function AbiEncode(vs: seq<AbiValue>): string {
    Concat(HeadWords(vs)) + Concat(TailParts(vs))
  }

  lemma {:induction false} StaticTails(vs: seq<AbiValue>)
    requires forall i :: 0 <= i < |vs| ==> !vs[i].Bytes?
    ensures Concat(TailParts(vs)) == "" && TailBytes(vs) == 0
  {
    ConcatEmpty(TailParts(vs));
    if vs != [] {
      StaticTails(vs[..|vs| - 1]);
    }
  }

  lemma {:induction false} OneDynamicTail(vs: seq<AbiValue>)
    requires vs != [] && forall i :: 0 < i < |vs| ==> !vs[i].Bytes?
    ensures TailBytes(vs) == |Tail(vs[0])| / 2
  {
    if |vs| == 1 {
      assert vs[..0] == [];
    } else {
      OneDynamicTail(vs[..|vs| - 1]);
    }
  }
}
