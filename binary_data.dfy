/**
 * BinaryData: a byte string with a compression level. Encoding compresses the
 * data. Decoding reads a one-character marker, '1' for a compressed payload and
 * '2' for a compressed payload written in hexadecimal, and uncompresses what
 * follows the marker. zlib itself is outside this model: it enters as the two
 * functions of a Zlib value. hex2bin is modelled in full.
 */
module Binary {
  import opened Wrappers
  import opened Store

  /**
   * gzcompress($data, $level) at a level it accepts, and gzuncompress($data);
   * None stands for PHP's false.
   */
  datatype Zlib = Zlib(compress: (Bytes, int) -> Bytes, uncompress: Bytes -> Option<Bytes>)

  /** The levels gzcompress accepts: -1 (zlib's default) to 9. */
  predicate CompressionLevel(level: int) {
    -1 <= level <= 9
  }

  /** What zlib promises: uncompressing a string compressed at an accepted level gives it back. */
  ghost predicate ZlibContract(z: Zlib) {
    forall d, level | CompressionLevel(level) :: z.uncompress(z.compress(d, level)) == Some(d)
  }

  /** The codes of the characters '0', 'a' and 'A'. */
  const Digit0: Byte := 48
  const LowerA: Byte := 97
  const UpperA: Byte := 65

  const TypeRaw: int := 1
  const TypeHex: int := 2

  /** The object's two fields, set once by the constructor. */
  datatype BinaryData = BinaryData(data: Bytes, level: int)

  /** new BinaryData($data, $level = 1); the string and int casts are the callers' types here. */
  function Make(data: Bytes, level: int := 1): (b: BinaryData)
    ensures b.data == data && b.level == level
  {
    BinaryData(data, level)
  }

  /** __toString(): the data as given. */
  function ToString(b: BinaryData): Bytes {
    b.data
  }

  /**
   * encode(): the data compressed at the object's level, with no marker in
   * front. At a level gzcompress rejects it returns false (None).
   */
  function Encode(z: Zlib, b: BinaryData): (r: Option<Bytes>)
    ensures r.Some? <==> CompressionLevel(b.level)
    ensures r.Some? && ZlibContract(z) ==> z.uncompress(r.value) == Some(b.data)
  {
    if CompressionLevel(b.level) then Some(z.compress(b.data, b.level)) else None
  }

  /**
   * `$input[0] == $type` in a switch: PHP compares a one-character string
   * with an integer numerically, so only the decimal digit of the type matches.
   */
  predicate Marks(c: Byte, typ: int) {
    Digit0 <= c <= Digit0 + 9 && (c - Digit0) as int == typ
  }

  /** The value of one hexadecimal digit, either case. */
  function HexDigit(c: Byte): (v: Option<Byte>)
    ensures v.Some? ==> v.value < 16
  {
    if Digit0 <= c <= Digit0 + 9 then Some(c - Digit0)
    else if LowerA <= c <= LowerA + 5 then Some(c - LowerA + 10)
    else if UpperA <= c <= UpperA + 5 then Some(c - UpperA + 10)
    else None
  }

  /** The lower-case digit for a value below 16. */
  function HexChar(v: Byte): Byte
    requires v < 16
  {
    if v < 10 then Digit0 + v else LowerA + (v - 10)
  }

  /** hex2bin: pairs of hexadecimal digits to bytes; false (None) for an odd length or a non-digit. */
  function HexToBin(s: Bytes): (r: Option<Bytes>)
    ensures r.Some? ==> 2 * |r.value| == |s|
    decreases |s|
  {
    if s == [] then Some([])
    else if |s| == 1 then None
    else
      match (HexDigit(s[0]), HexDigit(s[1]), HexToBin(s[2..]))
      case (Some(hi), Some(lo), Some(rest)) => Some([hi * 16 + lo] + rest)
      case _ => None
  }

  /** bin2hex: each byte as two lower-case digits. */
  function BinToHex(b: Bytes): (s: Bytes)
    ensures |s| == 2 * |b|
  {
    if b == [] then [] else [HexChar(b[0] / 16), HexChar(b[0] % 16)] + BinToHex(b[1..])
  }

  lemma HexCharDigit(v: Byte)
    requires v < 16
    ensures HexDigit(HexChar(v)) == Some(v)
  {
  }

  /** hex2bin undoes bin2hex. */
  lemma {:induction false} HexRoundTrip(b: Bytes)
    ensures HexToBin(BinToHex(b)) == Some(b)
  {
    if b != [] {
      var s := BinToHex(b);
      HexCharDigit(b[0] / 16);
      HexCharDigit(b[0] % 16);
      assert s[2..] == BinToHex(b[1..]);
      HexRoundTrip(b[1..]);
      assert (b[0] / 16) * 16 + b[0] % 16 == b[0];
      assert [b[0]] + b[1..] == b;
    }
  }

  /** What decode returns: NULL, the uncompressed string, or gzuncompress's false. */
  datatype Decoded = Null | Data(bytes: Bytes) | False

  datatype DecodeResult = Decoded(value: Decoded) | Threw(error: Throwable)

  /** gzuncompress($payload). */
  function Uncompressed(z: Zlib, payload: Bytes): Decoded {
    match z.uncompress(payload)
    case Some(d) => Data(d)
    case None => False
  }

  /**
   * BinaryData::decode($input). NULL and the empty string give NULL; then the
   * first character selects hexadecimal or raw; hex2bin's false reaches
   * gzuncompress as the empty string; any other first character raises a
   * RuntimeException.
   */
  function Decode(z: Zlib, input: Option<Bytes>): (r: DecodeResult)
    ensures input.None? || input == Some([]) ==> r == Decoded(Null)
    ensures r.Threw? <==> input.Some? && input.value != [] && !Marks(input.value[0], TypeHex) && !Marks(input.value[0], TypeRaw)
    ensures r.Threw? ==> r.error == Throwable(true, UndecodableData)
    ensures r.Decoded? && input.Some? && input.value != [] ==> r.value != Null
  {
    if input.None? || input.value == [] then Decoded(Null)
    else
      var s := input.value;
      if Marks(s[0], TypeHex) then Decoded(Uncompressed(z, HexToBin(s[1..]).GetOr([])))
      else if Marks(s[0], TypeRaw) then Decoded(Uncompressed(z, s[1..]))
      else Threw(Throwable(true, UndecodableData))
  }

  /** The characters the decoder dispatches on. */
  const RawMarker: Byte := Digit0 + 1
  const HexMarker: Byte := Digit0 + 2

  /** The decoder strips exactly the marker: a raw frame uncompresses its whole payload. */
  lemma DecodeRaw(z: Zlib, payload: Bytes)
    ensures Decode(z, Some([RawMarker] + payload)) == Decoded(Uncompressed(z, payload))
  {
    assert ([RawMarker] + payload)[1..] == payload;
  }

  /** A hexadecimal frame of bin2hex(payload) uncompresses the payload itself. */
  lemma DecodeHex(z: Zlib, payload: Bytes)
    ensures Decode(z, Some([HexMarker] + BinToHex(payload))) == Decoded(Uncompressed(z, payload))
  {
    assert ([HexMarker] + BinToHex(payload))[1..] == BinToHex(payload);
    HexRoundTrip(payload);
  }

  /** A hexadecimal frame whose payload is not well-formed hexadecimal uncompresses the empty string. */
  lemma DecodeBadHex(z: Zlib, s: Bytes)
    requires HexToBin(s).None?
    ensures Decode(z, Some([HexMarker] + s)) == Decoded(Uncompressed(z, []))
  {
    assert ([HexMarker] + s)[1..] == s;
  }

  /** Framed by hand, either way, what encode produced decodes to the original data. */
  lemma FramedRoundTrip(z: Zlib, b: BinaryData)
    requires ZlibContract(z)
    ensures Encode(z, b).Some? ==> Decode(z, Some([RawMarker] + Encode(z, b).value)) == Decoded(Data(b.data))
    ensures Encode(z, b).Some? ==> Decode(z, Some([HexMarker] + BinToHex(Encode(z, b).value))) == Decoded(Data(b.data))
  {
    if Encode(z, b).Some? {
      DecodeRaw(z, Encode(z, b).value);
      DecodeHex(z, Encode(z, b).value);
    }
  }

  /** encode writes no marker: decode reads the first compressed byte as one, and throws unless it is a digit 1 or 2. */
  lemma EncodeUnframed(z: Zlib, b: BinaryData)
    requires Encode(z, b).Some? && Encode(z, b).value != []
    requires Encode(z, b).value[0] != RawMarker && Encode(z, b).value[0] != HexMarker
    ensures Decode(z, Encode(z, b)) == Threw(Throwable(true, UndecodableData))
  {
  }

  /** __toString gives back the data the object was built with. */
  lemma ToStringMake(data: Bytes, level: int)
    ensures ToString(Make(data, level)) == data && ToString(Make(data)) == data
    ensures Make(data).level == 1
  {
  }
}
