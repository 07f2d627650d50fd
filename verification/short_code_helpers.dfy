/** The short-code generator of api/helpers/ShortCodeHelpers.go: a fixed
    62-symbol alphabet and a generator that maps random bytes onto it.
    The entropy source is a parameter: `source` is the stream of bytes the
    random reader can deliver. The reader either fills the whole buffer or
    reports an error, so a read fails exactly when the stream is shorter
    than the buffer. */
module ShortCodeHelpers {

  import opened Wrappers

  /** A Go `byte`. */
  newtype byte = x: int | 0 <= x < 256

  /** The alphabet of every generated short code. */
  const Charset: string := "abcdefghijklmnopqrstuvwxyzABCDEFGHIJKLMNOPQRSTUVWXYZ0123456789"

  // The three runs that make up the alphabet, used only to prove its shape.
  const LowerRun: string := "abcdefghijklmnopqrstuvwxyz"
  const UpperRun: string := "ABCDEFGHIJKLMNOPQRSTUVWXYZ"
  const DigitRun: string := "0123456789"

  /** The two ways the generator can fail. */
  datatype GenError = InvalidLength | EntropyFailure

  predicate IsAlphanumeric(c: char) {
    ('a' <= c <= 'z') || ('A' <= c <= 'Z') || ('0' <= c <= '9')
  }

  /** The i-th symbol of the alphabet, computed from its three ranges. */
  function SymbolAt(i: int): (c: char)
    requires 0 <= i < 62
    ensures IsAlphanumeric(c)
  {
    if i < 26 then (97 + i) as char
    else if i < 52 then (65 + (i - 26)) as char
    else (48 + (i - 52)) as char
  }

  lemma CharsetIsThreeRuns()
    ensures Charset == LowerRun + UpperRun + DigitRun
  {
  }

  lemma RunsAreConsecutive()
    ensures forall i :: 0 <= i < 26 ==> LowerRun[i] as int == 97 + i
    ensures forall i :: 0 <= i < 26 ==> UpperRun[i] as int == 65 + i
    ensures forall i :: 0 <= i < 10 ==> DigitRun[i] as int == 48 + i
  {
  }

  /** Position i of the alphabet holds SymbolAt(i). */
  lemma CharsetSymbols()
    ensures |Charset| == 62
    ensures forall i :: 0 <= i < 62 ==> Charset[i] == SymbolAt(i)
  {
    CharsetIsThreeRuns();
    RunsAreConsecutive();
    forall i | 0 <= i < 62 ensures Charset[i] == SymbolAt(i) {
      if i < 26 {
        assert Charset[i] == LowerRun[i];
      } else if i < 52 {
        assert Charset[i] == UpperRun[i - 26];
      } else {
        assert Charset[i] == DigitRun[i - 52];
      }
    }
  }

  /** The alphabet is 62 distinct symbols, exactly the ASCII letters and
      digits. */
  lemma CharsetAlphabet()
    ensures |Charset| == 62
    ensures forall i, j :: 0 <= i < j < |Charset| ==> Charset[i] != Charset[j]
    ensures forall c :: c in Charset <==> IsAlphanumeric(c)
  {
    CharsetSymbols();
    forall c | IsAlphanumeric(c) ensures c in Charset {
      var i := if 'a' <= c <= 'z' then c as int - 97
               else if 'A' <= c <= 'Z' then c as int - 65 + 26
               else c as int - 48 + 52;
      assert Charset[i] == c;
    }
  }

  /** The symbol a random byte is mapped to: the byte value modulo the
      alphabet size (a byte is never negative, so the remainder agrees
      with Go's). */
  function SymbolIndex(b: byte): (k: int)
    ensures 0 <= k < |Charset|
  {
    b as int % |Charset|
  }

  function Symbol(b: byte): (c: char)
    ensures c in Charset
  {
    Charset[SymbolIndex(b)]
  }

  /** The code spelled by a sequence of random bytes, one symbol per byte. */
  function Encode(bytes: seq<byte>): (s: string)
    ensures |s| == |bytes|
  {
    if bytes == [] then [] else [Symbol(bytes[0])] + Encode(bytes[1..])
  }

  lemma {:induction false} EncodeAt(bytes: seq<byte>, i: int)
    requires 0 <= i < |bytes|
    ensures Encode(bytes)[i] == Charset[bytes[i] as int % 62]
  {
    if i > 0 {
      EncodeAt(bytes[1..], i - 1);
    }
  }

  /** What GenerateShortCode returns for a requested length and an entropy
      stream: a code and, as in Go, an error that is absent on success. */
  function Generate(length: int, source: seq<byte>): (string, Option<GenError>)
  {
    if length <= 0 then ("", Some(InvalidLength))
    else if |source| < length then ("", Some(EntropyFailure))
    else (Encode(source[..length]), None)
  }

  /** The generator's promises: non-positive lengths and a failing entropy
      source give an error and no code; otherwise the code has exactly
      `length` symbols of the alphabet, and symbol i is determined by
      random byte i alone. */
  lemma GenerateProperties(length: int, source: seq<byte>)
    ensures length <= 0 ==> Generate(length, source) == ("", Some(InvalidLength))
    ensures length > 0 && |source| < length ==> Generate(length, source) == ("", Some(EntropyFailure))
    ensures Generate(length, source).1.None? <==> length > 0 && |source| >= length
    ensures Generate(length, source).1.None? ==>
              |Generate(length, source).0| == length &&
              forall i :: 0 <= i < length ==> Generate(length, source).0[i] == Charset[source[i] as int % 62]
    ensures forall c :: c in Generate(length, source).0 ==> IsAlphanumeric(c)
  {
    CharsetAlphabet();
    if length > 0 && |source| >= length {
      forall i | 0 <= i < length
        ensures Generate(length, source).0[i] == Charset[source[i] as int % 62]
      {
        EncodeAt(source[..length], i);
      }
    }
  }

  /** GenerateShortCode: reads `length` random bytes into a buffer that is
      only read afterwards, and writes the mapped symbols into a separate
      result buffer. */
  method GenerateShortCode(length: int, source: seq<byte>) returns (code: string, err: Option<GenError>)
    ensures (code, err) == Generate(length, source)
  {
    if length <= 0 {
      return "", Some(InvalidLength);
    }
    var b := new byte[length];
    if |source| < length {
      return "", Some(EntropyFailure);
    }
    forall i | 0 <= i < length {
      b[i] := source[i];
    }
    var result := new char[length];
    for i := 0 to length
      invariant b[..] == source[..length]
      invariant forall j :: 0 <= j < i ==> result[j] == Charset[b[j] as int % 62]
    {
      result[i] := Charset[b[i] as int % |Charset|];
    }
    forall i | 0 <= i < length ensures result[i] == Encode(source[..length])[i] {
      EncodeAt(source[..length], i);
    }
    assert result[..] == Encode(source[..length]);
    code, err := result[..], None;
  }

  /** The byte values that the generator maps to alphabet index k. */
  function Preimage(k: int): set<byte>
  {
    set b: byte | SymbolIndex(b) == k
  }

  /** The modulo bias: 256 = 4 * 62 + 8, so each of the first 8 symbols is
      the image of 5 byte values and each of the other 54 of only 4. */
  lemma ModuloBias(k: int)
    requires 0 <= k < 62
    ensures |Preimage(k)| == if k < 8 then 5 else 4
  {
    var four: set<byte> := {k as byte, (k + 62) as byte, (k + 124) as byte, (k + 186) as byte};
    forall b: byte | SymbolIndex(b) == k ensures b in four || (k < 8 && b as int == k + 248) {
      var q := b as int / 62;
      assert b as int == 62 * q + k;
      assert 0 <= q <= 4;
    }
    if k < 8 {
      assert Preimage(k) == four + {(k + 248) as byte};
    } else {
      assert Preimage(k) == four;
    }
  }
}
