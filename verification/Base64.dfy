/** Decoding the strict padded base64 of an image (section 4 of RFC 4648). */
module Base64 {
  import opened Bytes

  datatype Decoding = Decoded(bytes: seq<Byte>) | NotBase64 | TooLarge

  const UPPER: string := "ABCDEFGHIJKLMNOPQRSTUVWXYZ"
  const LOWER: string := "abcdefghijklmnopqrstuvwxyz"
  const DIGITS: string := "0123456789+/"

  predicate Digit(c: char) {
    'A' <= c <= 'Z' || 'a' <= c <= 'z' || '0' <= c <= '9' || c == '+' || c == '/'
  }

  /** The character of Table 1 of RFC 4648. */
  function Letter(n: nat): (c: char)
    requires n < 64
    ensures Digit(c) && IndexOf(c) == n
  {
    if n < 26 then ('A' as int + n) as char
    else if n < 52 then ('a' as int + (n - 26)) as char
    else if n < 62 then ('0' as int + (n - 52)) as char
    else if n == 62 then '+' else '/'
  }

  /** `alphabet.indexOf(c)` for a character of the alphabet (`IndexInAlphabet`). */
  function IndexOf(c: char): (n: nat)
    requires Digit(c)
    ensures n < 64
  {
    if 'A' <= c <= 'Z' then c as int - 'A' as int
    else if 'a' <= c <= 'z' then c as int - 'a' as int + 26
    else if '0' <= c <= '9' then c as int - '0' as int + 52
    else if c == '+' then 62 else 63
  }

  lemma UpperIndex(k: nat)
    requires k < 26
    ensures |UPPER| == 26 && UPPER[k] == Letter(k)
  {
  }

  lemma LowerIndex(k: nat)
    requires k < 26
    ensures |LOWER| == 26 && LOWER[k] == Letter(26 + k)
  {
  }

  lemma DigitIndex(k: nat)
    requires k < 12
    ensures |DIGITS| == 12 && DIGITS[k] == Letter(52 + k)
  {
  }

  /** The alphabet is the table of RFC 4648, so a character is first found where `IndexOf` says. */
  lemma IndexInAlphabet(k: nat)
    requires k < 64
    ensures
      var alphabet := UPPER + LOWER + DIGITS;
      |alphabet| == 64 && alphabet[k] == Letter(k) && IndexOf(alphabet[k]) == k
  {
    UpperIndex(0);
    LowerIndex(0);
    DigitIndex(0);
    if k < 26 { UpperIndex(k); } else if k < 52 { LowerIndex(k - 26); } else { DigitIndex(k - 52); }
  }

  lemma LetterOfIndex(c: char)
    requires Digit(c)
    ensures Letter(IndexOf(c)) == c
  {
  }

  // ---- the decoder ----------------------------------------------------------------------------------------------

  /** The value a character stands for in its group; padding counts as 0. */
  function Sextet(c: char): (n: nat)
    requires Digit(c) || c == '='
    ensures n < 64
  {
    if c == '=' then 0 else IndexOf(c)
  }

  predicate Plain(quad: string) {
    |quad| == 4 && Digit(quad[0]) && Digit(quad[1]) && Digit(quad[2]) && Digit(quad[3])
  }

  /** A last group with one or two padding characters. */
  predicate Padded(quad: string) {
    && |quad| == 4 && Digit(quad[0]) && Digit(quad[1]) && quad[3] == '='
    && (Digit(quad[2]) || quad[2] == '=')
  }

  /** BASE64_RE: groups of four, of which only the last may be padded. */
  predicate Matches(value: string) {
    if |value| < 4 then value == ""
    else if |value| == 4 then Plain(value) || Padded(value)
    else Plain(value[..4]) && Matches(value[4..])
  }

  /** `endsWith("==")` and `endsWith("=")`. */
  function Padding(value: string): (n: nat)
    ensures n <= 2
  {
    var n := |value|;
    if n >= 2 && value[n - 2] == '=' && value[n - 1] == '=' then 2
    else if n >= 1 && value[n - 1] == '=' then 1 else 0
  }

  /** Four sextets in 24 bits. They do not overlap, so the source's shifts and ors add up. */
  function Packed(quad: string): (n: nat)
    requires Plain(quad) || Padded(quad)
    ensures n < 0x100_0000
  {
    Sextet(quad[0]) * 0x4_0000 + Sextet(quad[1]) * 0x1000 + Sextet(quad[2]) * 0x40 + Sextet(quad[3])
  }

  function Octets(n: nat): (r: seq<Byte>)
    requires n < 0x100_0000
    ensures |r| == 3
  {
    [n / 0x1_0000, n / 0x100 % 0x100, n % 0x100]
  }

  /** The bytes a matching string stands for: three of each group, less the padding of the last. */
  function Decode(value: string): seq<Byte>
    requires Matches(value)
  {
    if value == "" then []
    else
      var quad := value[..4];
      Octets(Packed(quad))[..3 - Padding(quad)] + Decode(value[4..])
  }

  lemma {:induction false} DecodeLength(value: string)
    requires Matches(value)
    ensures |value| % 4 == 0 && (value != "" ==> |Decode(value)| == |value| / 4 * 3 - Padding(value))
  {
    if |value| > 4 {
      DecodeLength(value[4..]);
      assert Padding(value) == Padding(value[4..]);
    } else if |value| == 4 {
      assert value[..4] == value && value[4..] == "";
    }
  }

  /** What one more group adds. Only the last group holds padding. */
  lemma DecodeGroup(value: string, i: nat)
    requires i < |value| && Matches(value[i..])
    ensures i + 4 <= |value| && Matches(value[i + 4..])
    ensures Plain(value[i..i + 4]) || Padded(value[i..i + 4])
    ensures
      var taken := 3 - Padding(value[i..i + 4]);
      && Decode(value[i..]) == Octets(Packed(value[i..i + 4]))[..taken] + Decode(value[i + 4..])
      && (taken == 3 || value[i + 4..] == "")
  {
    var rest := value[i..];
    assert rest[..4] == value[i..i + 4] && rest[4..] == value[i + 4..];
  }

  /** The bytes of one group, as far as the output has room for them. */
  method WriteOctets(out: array<Byte>, offset: nat, packed: nat) returns (next: nat)
    requires offset <= out.Length && packed < 0x100_0000
    modifies out
    ensures next == if offset + 3 <= out.Length then offset + 3 else out.Length
    ensures out[..next] == old(out[..offset]) + Octets(packed)[..next - offset]
  {
    next := offset;
    if next < out.Length { out[next], next := packed / 0x1_0000 % 0x100, next + 1; }
    if next < out.Length { out[next], next := packed / 0x100 % 0x100, next + 1; }
    if next < out.Length { out[next], next := packed % 0x100, next + 1; }
  }

  /** The groups before `i` have been written. */
  ghost predicate Written(done: seq<Byte>, value: string, i: nat) {
    i <= |value| && Matches(value) && Matches(value[i..]) && done + Decode(value[i..]) == Decode(value)
  }

  lemma GroupWritten(done: seq<Byte>, value: string, i: nat, next: nat)
    requires Written(done, value, i) && i < |value|
    requires next == if |done| + 3 <= |Decode(value)| then |done| + 3 else |Decode(value)|
    ensures i + 4 <= |value| && (Plain(value[i..i + 4]) || Padded(value[i..i + 4]))
    ensures |done| <= next <= |done| + 3
    ensures Written(done + Octets(Packed(value[i..i + 4]))[..next - |done|], value, i + 4)
  {
    DecodeGroup(value, i);
    var group := Octets(Packed(value[i..i + 4]))[..3 - Padding(value[i..i + 4])];
    var rest := Decode(value[i + 4..]);
    assert done + (group + rest) == done + group + rest;
    assert |rest| == 0 || |group| == 3;
  }

  lemma AllWritten(done: seq<Byte>, value: string)
    requires Written(done, value, |value|)
    ensures done == Decode(value)
  {
    assert value[|value|..] == "";
  }

  lemma NoneWritten(value: string)
    requires Matches(value)
    ensures Written([], value, 0)
  {
    assert value[0..] == value;
  }

  /** The loop that fills the output; every write is in range. */
  method DecodeInto(out: array<Byte>, value: string)
    requires Matches(value) && out.Length == |Decode(value)|
    modifies out
    ensures out[..] == Decode(value)
  {
    var offset: nat, i: nat := 0, 0;
    NoneWritten(value);
    while i < |value|
      invariant i <= |value| && offset <= out.Length && Written(out[..offset], value, i)
    {
      GroupWritten(out[..offset], value, i, if offset + 3 <= out.Length then offset + 3 else out.Length);
      offset := WriteOctets(out, offset, Packed(value[i..i + 4]));
      i := i + 4;
    }
    AllWritten(out[..offset], value);
  }

  // ---- the encoding of section 4 of RFC 4648 --------------------------------------------------------------------

  /** The four characters of a 24-bit group. */
  function Letters(n: nat): (s: string)
    requires n < 0x100_0000
    ensures Plain(s)
  {
    [Letter(n / 0x4_0000), Letter(n / 0x1000 % 0x40), Letter(n / 0x40 % 0x40), Letter(n % 0x40)]
  }

  /** Three bytes in 24 bits. */
  function Joined(x: nat, y: nat, z: nat): (n: nat)
    requires x < 256 && y < 256 && z < 256
    ensures n < 0x100_0000
  {
    x * 0x1_0000 + y * 0x100 + z
  }

  /** A group of one, two or three bytes, filled up with zero bits and padded. */
  function EncodeGroup(group: seq<Byte>): (s: string)
    requires 1 <= |group| <= 3
    ensures |s| == 4 && (if |group| == 3 then Plain(s) else Padded(s))
  {
    if |group| == 3 then Letters(Joined(group[0], group[1], group[2]))
    else if |group| == 2 then Letters(Joined(group[0], group[1], 0))[..3] + ['=']
    else Letters(Joined(group[0], 0, 0))[..2] + ['=', '=']
  }

  function Encode(bytes: seq<Byte>): string {
    if |bytes| == 0 then ""
    else if |bytes| <= 3 then EncodeGroup(bytes)
    else EncodeGroup(bytes[..3]) + Encode(bytes[3..])
  }

  lemma Larger(p: nat, q: nat, d: nat)
    requires p < q
    ensures p * d + d <= q * d
  {
    assert q * d == p * d + (q - p) * d;
    assert (q - p - 1) * d >= 0;
  }

  /** Quotient and remainder are the only ones. */
  lemma Division(n: nat, d: nat, q: nat, r: nat)
    requires r < d && n == q * d + r
    ensures n / d == q && n % d == r
  {
    var p, m := n / d, n % d;
    assert n == p * d + m && m < d;
    if p < q { Larger(p, q, d); } else if q < p { Larger(q, p, d); }
  }

  /** Four sextets in 24 bits. */
  function Gathered(a: nat, b: nat, c: nat, d: nat): (n: nat)
    requires a < 64 && b < 64 && c < 64 && d < 64
    ensures n < 0x100_0000
  {
    a * 0x4_0000 + b * 0x1000 + c * 0x40 + d
  }

  lemma HighDigits(n: nat, a: nat, b: nat, c: nat, d: nat)
    requires a < 64 && b < 64 && c < 64 && d < 64 && n == Gathered(a, b, c, d)
    ensures n / 0x4_0000 == a && n / 0x1000 == a * 0x40 + b
  {
    Division(n, 0x4_0000, a, b * 0x1000 + c * 0x40 + d);
    Division(n, 0x1000, a * 0x40 + b, c * 0x40 + d);
  }

  lemma LowDigits(n: nat, a: nat, b: nat, c: nat, d: nat)
    requires a < 64 && b < 64 && c < 64 && d < 64 && n == Gathered(a, b, c, d)
    ensures n / 0x40 == (a * 0x40 + b) * 0x40 + c && n % 0x40 == d
  {
    Division(n, 0x40, (a * 0x40 + b) * 0x40 + c, d);
  }

  lemma LettersOf(a: nat, b: nat, c: nat, d: nat)
    requires a < 64 && b < 64 && c < 64 && d < 64
    ensures Letters(Gathered(a, b, c, d)) == [Letter(a), Letter(b), Letter(c), Letter(d)]
  {
    var n := Gathered(a, b, c, d);
    HighDigits(n, a, b, c, d);
    LowDigits(n, a, b, c, d);
    Division(a * 0x40 + b, 0x40, a, b);
    Division((a * 0x40 + b) * 0x40 + c, 0x40, a * 0x40 + b, c);
  }

  /** The sextets of three bytes. Missing bytes leave sextets of zero. */
  lemma SextetsOf(x: nat, y: nat, z: nat) returns (a: nat, b: nat, c: nat, d: nat)
    requires x < 256 && y < 256 && z < 256
    ensures a < 64 && b < 64 && c < 64 && d < 64 && Joined(x, y, z) == Gathered(a, b, c, d)
    ensures (z == 0 ==> d == 0) && (y == 0 && z == 0 ==> c == 0)
  {
    a, b, c, d := x / 4, x % 4 * 16 + y / 16, y % 16 * 4 + z / 64, z % 64;
  }

  lemma OctetsOfJoined(x: nat, y: nat, z: nat)
    requires x < 256 && y < 256 && z < 256
    ensures Octets(Joined(x, y, z)) == [x, y, z]
  {
    var n := Joined(x, y, z);
    Division(n, 0x1_0000, x, y * 0x100 + z);
    Division(n, 0x100, x * 0x100 + y, z);
    Division(x * 0x100 + y, 0x100, x, y);
  }

  lemma DecodeEncodedGroup(group: seq<Byte>)
    requires 1 <= |group| <= 3
    ensures
      var s := EncodeGroup(group);
      Padding(s) == 3 - |group| && Octets(Packed(s))[..|group|] == group
  {
    var x: Byte, y: Byte, z: Byte :=
      group[0], if |group| > 1 then group[1] else 0, if |group| > 2 then group[2] else 0;
    var a, b, c, d := SextetsOf(x, y, z);
    LettersOf(a, b, c, d);
    assert Packed(EncodeGroup(group)) == Joined(x, y, z);
    OctetsOfJoined(x, y, z);
  }

  /** Decoding undoes encoding, for every sequence of bytes. */
  lemma {:induction false} RoundTrip(bytes: seq<Byte>)
    ensures Matches(Encode(bytes)) && Decode(Encode(bytes)) == bytes
  {
    if 0 < |bytes| <= 3 {
      DecodeEncodedGroup(bytes);
      var s := Encode(bytes);
      assert s[..4] == s && s[4..] == "";
    } else if |bytes| > 3 {
      DecodeEncodedGroup(bytes[..3]);
      RoundTrip(bytes[3..]);
      var s := Encode(bytes);
      assert s[..4] == EncodeGroup(bytes[..3]) && s[4..] == Encode(bytes[3..]);
    }
  }

  // ---- main result ----------------------------------------------------------------------------------------------

  /** `decodeBase64Image`: the bytes of exactly the nonempty matching strings that fit; so every nonempty
      sequence of bytes that fits comes back from its own encoding. */
  method DecodeImage(value: string, maxBytes: int) returns (r: Decoding)
    ensures r.NotBase64? <==> value == "" || !Matches(value)
    ensures r.TooLarge? <==> value != "" && Matches(value) && |value| / 4 * 3 - Padding(value) > maxBytes
    ensures r.Decoded? ==> r.bytes == Decode(value) && |r.bytes| == |value| / 4 * 3 - Padding(value)
    ensures forall bytes: seq<Byte> :: bytes != [] && value == Encode(bytes) ==>
      r == if |bytes| <= maxBytes then Decoded(bytes) else TooLarge
  {
    forall bytes: seq<Byte> | value == Encode(bytes) ensures Matches(value) && Decode(value) == bytes {
      RoundTrip(bytes);
    }
    if Matches(value) { DecodeLength(value); }
    if |value| == 0 || |value| % 4 != 0 || !Matches(value) { return NotBase64; }
    var byteLength := |value| / 4 * 3 - Padding(value);
    if byteLength > maxBytes { return TooLarge; }
    var out := new Byte[byteLength];
    DecodeInto(out, value);
    return Decoded(out[..]);
  }

  // ---- the other way round --------------------------------------------------------------------------------------

  /** Whether the bits that padding leaves over in the last group are all zero. */
  predicate Canonical(value: string)
    requires Matches(value)
  {
    var n := |value|;
    n < 4 || (
      && (Padding(value) == 2 ==> Digit(value[n - 3]) && Sextet(value[n - 3]) % 16 == 0)
      && (Padding(value) == 1 ==> Digit(value[n - 2]) && Sextet(value[n - 2]) % 4 == 0))
  }

  /** Cutting off the low bytes clears the bits they held. */
  lemma Cut(a: nat, b: nat, c: nat, d: nat)
    requires a < 64 && b < 64 && c < 64 && d < 64
    ensures
      var o := Octets(Gathered(a, b, c, d));
      && Joined(o[0], o[1], o[2]) == Gathered(a, b, c, d)
      && (d == 0 ==> Joined(o[0], o[1], 0) == Gathered(a, b, c - c % 4, 0))
      && (c == 0 && d == 0 ==> Joined(o[0], 0, 0) == Gathered(a, b - b % 16, 0, 0))
  {
    var n := Gathered(a, b, c, d);
    Division(n, 0x1_0000, a * 4 + b / 16, b % 16 * 0x1000 + c * 0x40 + d);
    Division(n, 0x100, a * 0x400 + b * 0x10 + c / 4, c % 4 * 0x40 + d);
    Division(a * 0x400 + b * 0x10 + c / 4, 0x100, a * 4 + b / 16, b % 16 * 16 + c / 4);
  }

  lemma EncodeThree(x: Byte, y: Byte, z: Byte, a: nat, b: nat, c: nat, d: nat)
    requires a < 64 && b < 64 && c < 64 && d < 64 && Joined(x, y, z) == Gathered(a, b, c, d)
    ensures EncodeGroup([x, y, z]) == [Letter(a), Letter(b), Letter(c), Letter(d)]
  {
    LettersOf(a, b, c, d);
  }

  lemma EncodeTwo(x: Byte, y: Byte, a: nat, b: nat, c: nat)
    requires a < 64 && b < 64 && c < 64 && Joined(x, y, 0) == Gathered(a, b, c, 0)
    ensures EncodeGroup([x, y]) == [Letter(a), Letter(b), Letter(c), '=']
  {
    LettersOf(a, b, c, 0);
  }

  lemma EncodeOne(x: Byte, a: nat, b: nat)
    requires a < 64 && b < 64 && Joined(x, 0, 0) == Gathered(a, b, 0, 0)
    ensures EncodeGroup([x]) == [Letter(a), Letter(b), '=', '=']
  {
    LettersOf(a, b, 0, 0);
  }

  lemma EncodePlain(quad: string, x: Byte, y: Byte, z: Byte)
    requires Plain(quad) && Joined(x, y, z) == Packed(quad)
    ensures EncodeGroup([x, y, z]) == quad
  {
    forall k | 0 <= k < 4 ensures Letter(Sextet(quad[k])) == quad[k] { LetterOfIndex(quad[k]); }
    EncodeThree(x, y, z, Sextet(quad[0]), Sextet(quad[1]), Sextet(quad[2]), Sextet(quad[3]));
  }

  lemma EncodeDecodedPlain(quad: string)
    requires Plain(quad)
    ensures EncodeGroup(Octets(Packed(quad))) == quad
  {
    var o := Octets(Packed(quad));
    Cut(Sextet(quad[0]), Sextet(quad[1]), Sextet(quad[2]), Sextet(quad[3]));
    assert o == [o[0], o[1], o[2]];
    EncodePlain(quad, o[0], o[1], o[2]);
  }

  lemma OtherLetter(a: nat, b: nat)
    requires a < 64 && b < 64
    ensures Letter(a) == Letter(b) <==> a == b
  {
    assert IndexOf(Letter(a)) == a && IndexOf(Letter(b)) == b;
  }

  lemma EncodePadded2(quad: string, x: Byte)
    requires Padded(quad) && quad[2] == '='
    requires var b := Sextet(quad[1]); Joined(x, 0, 0) == Gathered(Sextet(quad[0]), b - b % 16, 0, 0)
    ensures EncodeGroup([x]) == quad <==> Sextet(quad[1]) % 16 == 0
  {
    var a, b := Sextet(quad[0]), Sextet(quad[1]);
    EncodeOne(x, a, b - b % 16);
    LetterOfIndex(quad[0]);
    LetterOfIndex(quad[1]);
    OtherLetter(b - b % 16, b);
    assert quad == [Letter(a), Letter(b), '=', '='];
  }

  lemma EncodePadded1(quad: string, x: Byte, y: Byte)
    requires Padded(quad) && Digit(quad[2])
    requires
      var c := Sextet(quad[2]);
      Joined(x, y, 0) == Gathered(Sextet(quad[0]), Sextet(quad[1]), c - c % 4, 0)
    ensures EncodeGroup([x, y]) == quad <==> Sextet(quad[2]) % 4 == 0
  {
    var a, b, c := Sextet(quad[0]), Sextet(quad[1]), Sextet(quad[2]);
    EncodeTwo(x, y, a, b, c - c % 4);
    LetterOfIndex(quad[0]);
    LetterOfIndex(quad[1]);
    LetterOfIndex(quad[2]);
    OtherLetter(c - c % 4, c);
    assert quad == [Letter(a), Letter(b), Letter(c), '='];
  }

  /** Encoding a decoded last group gives the group back, unless padding hid a bit that was set. */
  lemma EncodeDecodedPadded(quad: string)
    requires Padded(quad)
    ensures EncodeGroup(Octets(Packed(quad))[..3 - Padding(quad)]) == quad <==> Canonical(quad)
  {
    Cut(Sextet(quad[0]), Sextet(quad[1]), Sextet(quad[2]), 0);
    var o := Octets(Packed(quad));
    if quad[2] == '=' {
      assert o[..1] == [o[0]];
      EncodePadded2(quad, o[0]);
    } else {
      assert o[..2] == [o[0], o[1]];
      EncodePadded1(quad, o[0], o[1]);
    }
  }

  lemma EncodeDecodedLast(quad: string)
    requires Plain(quad) || Padded(quad)
    ensures Encode(Decode(quad)) == quad <==> Canonical(quad)
  {
    assert quad[..4] == quad && quad[4..] == "";
    if Plain(quad) { EncodeDecodedPlain(quad); } else { EncodeDecodedPadded(quad); }
  }

  lemma EncodeMore(three: seq<Byte>, rest: seq<Byte>)
    requires |three| == 3 && rest != []
    ensures Encode(three + rest) == EncodeGroup(three) + Encode(rest)
  {
    assert (three + rest)[..3] == three && (three + rest)[3..] == rest;
  }

  lemma DecodeMore(quad: string, rest: string, value: string)
    requires Plain(quad) && Matches(rest) && rest != "" && value == quad + rest
    ensures Matches(value) && Decode(value) == Octets(Packed(quad)) + Decode(rest)
    ensures Canonical(value) <==> Canonical(rest)
  {
    assert value[..4] == quad && value[4..] == rest;
  }

  lemma EncodeDecodedMore(quad: string, rest: string, value: string)
    requires Plain(quad) && Matches(rest) && rest != "" && value == quad + rest
    ensures Matches(value) && Encode(Decode(value)) == quad + Encode(Decode(rest))
    ensures Canonical(value) <==> Canonical(rest)
  {
    DecodeLength(rest);
    DecodeMore(quad, rest, value);
    EncodeDecodedPlain(quad);
    EncodeMore(Octets(Packed(quad)), Decode(rest));
  }

  /** A matching string is the encoding of its bytes exactly when no bit is hidden behind the padding. */
  lemma {:induction false} EncodeDecoded(value: string)
    requires Matches(value)
    ensures Encode(Decode(value)) == value <==> Canonical(value)
  {
    if |value| == 4 {
      EncodeDecodedLast(value);
    } else if |value| > 4 {
      var quad, rest := value[..4], value[4..];
      assert value == quad + rest;
      EncodeDecodedMore(quad, rest, value);
      EncodeDecoded(rest);
      assert quad + Encode(Decode(rest)) == quad + rest <==> Encode(Decode(rest)) == rest by {
        assert (quad + Encode(Decode(rest)))[4..] == Encode(Decode(rest));
      }
    }
  }

  // ---- which bits stand where -------------------------------------------------------------------------------------

  /** Section 4 of RFC 4648: the 24 bits of three bytes, from the left, are read as four groups of six. */
  lemma GroupBits(x: nat, y: nat, z: nat)
    requires x < 256 && y < 256 && z < 256
    ensures Letters(Joined(x, y, z))
         == [Letter(x / 4), Letter(x % 4 * 16 + y / 16), Letter(y % 16 * 4 + z / 64), Letter(z % 64)]
  {
    FirstSextets(x, y, z);
    LastSextets(x, y, z);
  }

  lemma FirstSextets(x: nat, y: nat, z: nat)
    requires x < 256 && y < 256 && z < 256
    ensures Joined(x, y, z) / 0x4_0000 == x / 4
    ensures Joined(x, y, z) / 0x1000 % 0x40 == x % 4 * 16 + y / 16
  {
    var n := Joined(x, y, z);
    Division(n, 0x4_0000, x / 4, x % 4 * 0x1_0000 + y * 0x100 + z);
    Division(n, 0x1000, x * 16 + y / 16, y % 16 * 0x100 + z);
    Division(x * 16 + y / 16, 0x40, x / 4, x % 4 * 16 + y / 16);
  }

  lemma LastSextets(x: nat, y: nat, z: nat)
    requires x < 256 && y < 256 && z < 256
    ensures Joined(x, y, z) / 0x40 % 0x40 == y % 16 * 4 + z / 64 && Joined(x, y, z) % 0x40 == z % 64
  {
    var n := Joined(x, y, z);
    Division(n, 0x40, x * 1024 + y * 4 + z / 64, z % 64);
    Division(x * 1024 + y * 4 + z / 64, 0x40, x * 16 + y / 16, y % 16 * 4 + z / 64);
  }

  /** And back: the bits of four sextets, from the left, are three bytes. */
  lemma QuadBits(quad: string)
    requires Plain(quad) || Padded(quad)
    ensures
      var a, b, c, d := Sextet(quad[0]), Sextet(quad[1]), Sextet(quad[2]), Sextet(quad[3]);
      Octets(Packed(quad)) == [a * 4 + b / 16, b % 16 * 16 + c / 4, c % 4 * 64 + d]
  {
    SextetOctets(Sextet(quad[0]), Sextet(quad[1]), Sextet(quad[2]), Sextet(quad[3]), Packed(quad));
  }

  lemma SextetOctets(a: nat, b: nat, c: nat, d: nat, n: nat)
    requires a < 64 && b < 64 && c < 64 && d < 64 && n == a * 0x4_0000 + b * 0x1000 + c * 0x40 + d
    ensures n / 0x1_0000 == a * 4 + b / 16
    ensures n / 0x100 % 0x100 == b % 16 * 16 + c / 4 && n % 0x100 == c % 4 * 64 + d
  {
    Division(n, 0x1_0000, a * 4 + b / 16, b % 16 * 0x1000 + c * 0x40 + d);
    Division(n, 0x100, a * 1024 + b * 16 + c / 4, c % 4 * 64 + d);
    Division(a * 1024 + b * 16 + c / 4, 0x100, a * 4 + b / 16, b % 16 * 16 + c / 4);
  }
}
