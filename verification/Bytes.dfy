// Big-endian words (packages/crypto/src/bytes.ts) and the plaintext of a receipt
// (packages/crypto/src/receipt.ts).
module Bytes {
  import opened Wrappers
  import opened Pool
  import opened Field

  type Byte = x: nat | x < 256

  function Power256(n: nat): nat {
    if n == 0 then 1 else 256 * Power256(n - 1)
  }

  // The number a byte string denotes.
  function Number(bytes: seq<Byte>): nat {
    if bytes == [] then 0 else Number(bytes[..|bytes| - 1]) * 256 + bytes[|bytes| - 1]
  }

  // The last n bytes of a number.
  function Word(value: nat, n: nat): (r: seq<Byte>)
    ensures |r| == n
  {
    if n == 0 then [] else Word(value / 256, n - 1) + [value % 256]
  }

  lemma {:induction false} NumberOfWord(value: nat, n: nat)
    requires value < Power256(n)
    ensures Number(Word(value, n)) == value
  {
    if n > 0 { NumberOfWord(value / 256, n - 1); }
  }

  lemma {:induction false} WordOfNumber(bytes: seq<Byte>)
    ensures Word(Number(bytes), |bytes|) == bytes && Number(bytes) < Power256(|bytes|)
  {
    if bytes != [] { WordOfNumber(bytes[..|bytes| - 1]); }
  }

  lemma {:induction false} NumberFront(first: Byte, rest: seq<Byte>)
    ensures Number([first] + rest) == first * Power256(|rest|) + Number(rest)
  {
    if rest == [] {
      assert [first] + rest == [first];
      assert [first][..0] == [];
    } else {
      var n := |rest| - 1;
      NumberFront(first, rest[..n]);
      assert ([first] + rest)[..|rest|] == [first] + rest[..n];
    }
  }

  lemma WordLimitIsPower()
    ensures Power256(32) == WORD_LIMIT
  {
    assert Power256(8) == 0x1_00000000_00000000;
    assert Power256(16) == 0x1_00000000_00000000_00000000_00000000;
    assert Power256(24) == 0x1_00000000_00000000_00000000_00000000_00000000_00000000;
  }

  // word(value): fills the buffer from its last byte; None where it throws.
  method MakeWord(value: int) returns (r: Option<seq<Byte>>)
    ensures r.Some? <==> 0 <= value < WORD_LIMIT
    ensures r.Some? ==> r.value == Word(value, 32)
  {
    if value < 0 || value >= WORD_LIMIT { return None; }
    var bytes := new Byte[32];
    var rest: nat := value;
    var i := 31;
    WordLimitIsPower();
    while i >= 0
      invariant -1 <= i <= 31
      invariant Word(value, 32) == Word(rest, i + 1) + bytes[i + 1..]
    {
      bytes[i] := rest % 256;
      assert bytes[i..] == [bytes[i]] + bytes[i + 1..];
      rest := rest / 256;
      i := i - 1;
    }
    assert bytes[0..] == bytes[..];
    r := Some(bytes[..]);
  }

  // bytesToBigInt
  method ReadNumber(bytes: seq<Byte>) returns (n: nat)
    ensures n == Number(bytes)
  {
    n := 0;
    for i := 0 to |bytes|
      invariant n == Number(bytes[..i])
    {
      assert bytes[..i + 1][..i] == bytes[..i];
      n := n * 256 + bytes[i];
    }
    assert bytes[..|bytes|] == bytes;
  }

  // ----- Receipt plaintexts -----

  predicate ValidOpening(o: Opening) {
    1 <= o.amount <= M && o.blinding < Q
  }

  // encodeOpening; None where it throws.
  function EncodeOpening(o: Opening): Option<seq<Byte>> {
    if !ValidOpening(o) then None else Some(Word(o.amount, 32) + Word(o.blinding, 32))
  }

  // decodeOpening; None where it throws.
  function DecodeOpening(plaintext: seq<Byte>): Option<Opening> {
    if |plaintext| != 64 then None
    else
      var amount, blinding := Number(plaintext[..32]), Number(plaintext[32..]);
      if amount < 1 || amount > M || blinding >= Q then None else Some(Opening(amount, blinding))
  }

  // Decoding undoes encoding.
  lemma OpeningRoundTrip(o: Opening)
    requires ValidOpening(o)
    ensures EncodeOpening(o).Some? && DecodeOpening(EncodeOpening(o).value) == Some(o)
  {
    WordLimitIsPower();
    NumberOfWord(o.amount, 32);
    NumberOfWord(o.blinding, 32);
    var plaintext := EncodeOpening(o).value;
    assert plaintext[..32] == Word(o.amount, 32) && plaintext[32..] == Word(o.blinding, 32);
  }

  // A plaintext is accepted exactly when it is the encoding of a valid opening.
  lemma DecodesOnlyEncodings(plaintext: seq<Byte>)
    ensures DecodeOpening(plaintext).Some? <==> exists o :: ValidOpening(o) && EncodeOpening(o) == Some(plaintext)
    ensures DecodeOpening(plaintext).Some? ==> EncodeOpening(DecodeOpening(plaintext).value) == Some(plaintext)
  {
    if DecodeOpening(plaintext).Some? {
      WordOfNumber(plaintext[..32]);
      WordOfNumber(plaintext[32..]);
      assert plaintext == plaintext[..32] + plaintext[32..];
      assert ValidOpening(DecodeOpening(plaintext).value);
    }
    if o :| ValidOpening(o) && EncodeOpening(o) == Some(plaintext) {
      OpeningRoundTrip(o);
    }
  }
}
