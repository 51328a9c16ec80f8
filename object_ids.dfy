/**
 * Twelve-byte document identifiers and their 24-digit hexadecimal text form,
 * as the Mongo driver's `primitive.ObjectIDFromHex` and `ObjectID.Hex` treat them:
 * parsing accepts exactly 24 hexadecimal digits in either case, rendering
 * always writes lower case.
 */
module ObjectIds {
  import opened Basics

  newtype byte = x: int | 0 <= x < 256

  /** `primitive.ObjectID` is a `[12]byte`; two ids are equal when their bytes are. */
  type ObjectId = b: seq<byte> | |b| == 12 witness [0, 0, 0, 0, 0, 0, 0, 0, 0, 0, 0, 0]

  /** The zero value of `primitive.ObjectID` (`NilObjectID`). */
  const NilObjectId: ObjectId := [0, 0, 0, 0, 0, 0, 0, 0, 0, 0, 0, 0]

  predicate IsHexDigit(c: char) {
    '0' <= c <= '9' || 'a' <= c <= 'f' || 'A' <= c <= 'F'
  }

  predicate IsLowerHexDigit(c: char) {
    '0' <= c <= '9' || 'a' <= c <= 'f'
  }

  predicate AllHex(s: string) {
    forall i | 0 <= i < |s| :: IsHexDigit(s[i])
  }

  /** The text `ObjectIDFromHex` accepts: exactly 24 hexadecimal digits. */
  predicate IsObjectIdHex(s: string) {
    |s| == 24 && AllHex(s)
  }

  function DigitValue(c: char): (v: byte)
    requires IsHexDigit(c)
    ensures v < 16
    ensures IsLowerHexDigit(c) ==> (v < 10 <==> c <= '9')
  {
    if '0' <= c <= '9' then (c as int - '0' as int) as byte
    else if 'a' <= c <= 'f' then (c as int - 'a' as int + 10) as byte
    else (c as int - 'A' as int + 10) as byte
  }

  /** The lower-case digit for a value below 16, as `encoding/hex` writes it. */
  function HexDigit(v: byte): (c: char)
    requires v < 16
    ensures IsLowerHexDigit(c) && DigitValue(c) == v
  {
    if v < 10 then ('0' as int + v as int) as char else ('a' as int + v as int - 10) as char
  }

  /** Folds an upper-case hexadecimal letter to lower case; other characters are kept. */
  function LowerHex(c: char): char {
    if 'A' <= c <= 'F' then (c as int - 'A' as int + 'a' as int) as char else c
  }

  function LowerAll(s: string): (t: string)
    ensures |t| == |s|
  {
    if s == [] then [] else [LowerHex(s[0])] + LowerAll(s[1..])
  }

  /** `hex.Decode`: two digits per byte, high digit first. */
  function DecodeHex(s: string): (b: seq<byte>)
    requires |s| % 2 == 0 && AllHex(s)
    ensures |b| == |s| / 2
  {
    if s == [] then []
    else [(DigitValue(s[0]) as int * 16 + DigitValue(s[1]) as int) as byte] + DecodeHex(s[2..])
  }

  /** `hex.EncodeToString`: two lower-case digits per byte. */
  function EncodeHex(b: seq<byte>): (s: string)
    ensures |s| == 2 * |b|
    ensures forall i | 0 <= i < |s| :: IsLowerHexDigit(s[i])
  {
    if b == [] then [] else [HexDigit(b[0] / 16), HexDigit(b[0] % 16)] + EncodeHex(b[1..])
  }

  /** `primitive.ObjectIDFromHex`: a length check, then a hexadecimal decode. */
  function ObjectIdFromHex(s: string): (r: Option<ObjectId>)
    ensures r.Some? <==> IsObjectIdHex(s)
  {
    if |s| != 24 then None
    else if !AllHex(s) then None
    else Some(DecodeHex(s))
  }

  /** `ObjectID.Hex`: the 24-digit lower-case rendering. */
  function Hex(id: ObjectId): (s: string)
    ensures IsObjectIdHex(s)
    ensures forall i | 0 <= i < |s| :: IsLowerHexDigit(s[i])
  {
    EncodeHex(id)
  }

  lemma {:induction false} DecodeEncode(b: seq<byte>)
    ensures AllHex(EncodeHex(b)) && DecodeHex(EncodeHex(b)) == b
  {
    if b != [] {
      var s := EncodeHex(b);
      DecodeEncode(b[1..]);
      assert s[2..] == EncodeHex(b[1..]);
      assert DigitValue(s[0]) as int * 16 + DigitValue(s[1]) as int == b[0] as int;
    }
  }

  lemma DigitRoundTrip(c: char)
    requires IsHexDigit(c)
    ensures HexDigit(DigitValue(c)) == LowerHex(c)
  {
  }

  lemma ByteSplit(hi: byte, lo: byte)
    requires hi < 16 && lo < 16
    ensures ((hi as int * 16 + lo as int) as byte) / 16 == hi
    ensures ((hi as int * 16 + lo as int) as byte) % 16 == lo
  {
  }

  lemma EncodeCons(v: byte, rest: seq<byte>)
    ensures EncodeHex([v] + rest) == [HexDigit(v / 16), HexDigit(v % 16)] + EncodeHex(rest)
  {
    assert ([v] + rest)[1..] == rest;
  }

  lemma LowerAllTwo(s: string)
    requires |s| >= 2
    ensures LowerAll(s) == [LowerHex(s[0]), LowerHex(s[1])] + LowerAll(s[2..])
  {
    assert s[1..][1..] == s[2..];
  }

  /** Decoding two digits and encoding the byte gives the two digits in lower case. */
  lemma PairRoundTrip(c: char, d: char)
    requires IsHexDigit(c) && IsHexDigit(d)
    ensures var v := (DigitValue(c) as int * 16 + DigitValue(d) as int) as byte;
            HexDigit(v / 16) == LowerHex(c) && HexDigit(v % 16) == LowerHex(d)
  {
    ByteSplit(DigitValue(c), DigitValue(d));
    DigitRoundTrip(c);
    DigitRoundTrip(d);
  }

  lemma {:induction false} EncodeDecode(s: string)
    requires |s| % 2 == 0 && AllHex(s)
    ensures EncodeHex(DecodeHex(s)) == LowerAll(s)
  {
    if s != [] {
      var v := (DigitValue(s[0]) as int * 16 + DigitValue(s[1]) as int) as byte;
      var rest := s[2..];
      assert AllHex(rest) by {
        forall i | 0 <= i < |rest| ensures IsHexDigit(rest[i]) {
          assert rest[i] == s[i + 2];
        }
      }
      assert DecodeHex(s) == [v] + DecodeHex(rest);
      EncodeCons(v, DecodeHex(rest));
      PairRoundTrip(s[0], s[1]);
      EncodeDecode(rest);
      LowerAllTwo(s);
    }
  }

  /** Rendering an id and parsing the text back gives the same id. */
  lemma HexRoundTrip(id: ObjectId)
    ensures ObjectIdFromHex(Hex(id)) == Some(id)
  {
    DecodeEncode(id);
  }

  /** Parsing accepted text and rendering it again gives the text in lower case. */
  lemma ParsedHex(s: string)
    requires IsObjectIdHex(s)
    ensures Hex(ObjectIdFromHex(s).value) == LowerAll(s)
  {
    EncodeDecode(s);
  }

  /** Two ids with the same rendering are the same id, so `Hex` can key a map of ids. */
  lemma HexInjective(a: ObjectId, b: ObjectId)
    ensures Hex(a) == Hex(b) ==> a == b
  {
    HexRoundTrip(a);
    HexRoundTrip(b);
  }
}
