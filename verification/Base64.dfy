/** Base64 with the standard alphabet and padding (section 4 of RFC 4648),
    as stored cache entries and request signatures use it. */
module Base64 {
  import opened Basics

  type Byte = x: int | 0 <= x < 256

  type Bytes = seq<Byte>

  type Digit = x: int | 0 <= x < 64

  function ToChar(d: Digit): char {
    if d < 26 then 'A' + d as char
    else if d < 52 then 'a' + (d - 26) as char
    else if d < 62 then '0' + (d - 52) as char
    else if d == 62 then '+' else '/'
  }

  function FromChar(c: char): Option<Digit> {
    if 'A' <= c <= 'Z' then Some(c as int - 'A' as int)
    else if 'a' <= c <= 'z' then Some(c as int - 'a' as int + 26)
    else if '0' <= c <= '9' then Some(c as int - '0' as int + 52)
    else if c == '+' then Some(62)
    else if c == '/' then Some(63)
    else None
  }

  lemma CharTrip(d: Digit)
    ensures FromChar(ToChar(d)) == Some(d) && ToChar(d) != '='
  {
  }

  // Three bytes are four digits.

  function D0(a: Byte): Digit {
    a / 4
  }

  function D1(a: Byte, b: Byte): Digit {
    a % 4 * 16 + b / 16
  }

  function D2(b: Byte, c: Byte): Digit {
    b % 16 * 4 + c / 64
  }

  function D3(c: Byte): Digit {
    c % 64
  }

  function Encode(bs: Bytes): string {
    if bs == [] then ""
    else if |bs| == 1 then [ToChar(D0(bs[0])), ToChar(D1(bs[0], 0)), '=', '=']
    else if |bs| == 2 then [ToChar(D0(bs[0])), ToChar(D1(bs[0], bs[1])), ToChar(D2(bs[1], 0)), '=']
    else [ToChar(D0(bs[0])), ToChar(D1(bs[0], bs[1])), ToChar(D2(bs[1], bs[2])), ToChar(D3(bs[2]))] + Encode(bs[3..])
  }

  function First(p: Digit, q: Digit): Byte {
    p * 4 + q / 16
  }

  function Second(q: Digit, r: Digit): Byte {
    q % 16 * 16 + r / 4
  }

  function Third(r: Digit, s: Digit): Byte {
    r % 4 * 64 + s
  }

  /** Strict decoding: full quads, padding only at the end, unused bits zero. */
  function Decode(s: string): Option<Bytes> {
    if s == "" then Some([])
    else if |s| < 4 then None
    else
      var p, q, r, t := FromChar(s[0]), FromChar(s[1]), FromChar(s[2]), FromChar(s[3]);
      if p.None? || q.None? then None
      else if |s| == 4 && s[3] == '=' then
        if s[2] == '=' then (if q.value % 16 == 0 then Some([First(p.value, q.value)]) else None)
        else if r.Some? && r.value % 4 == 0 then Some([First(p.value, q.value), Second(q.value, r.value)]) else None
      else if r.None? || t.None? then None
      else
        var rest := Decode(s[4..]);
        if rest.None? then None
        else Some([First(p.value, q.value), Second(q.value, r.value), Third(r.value, t.value)] + rest.value)
  }

  lemma QuadTrip(a: Byte, b: Byte, c: Byte)
    ensures First(D0(a), D1(a, b)) == a && Second(D1(a, b), D2(b, c)) == b && Third(D2(b, c), D3(c)) == c
    ensures D1(a, 0) % 16 == 0 && D2(b, 0) % 4 == 0
  {
  }

  lemma DecodeOne(p: Digit, q: Digit)
    requires q % 16 == 0
    ensures Decode([ToChar(p), ToChar(q), '=', '=']) == Some([First(p, q)])
  {
    CharTrip(p);
    CharTrip(q);
  }

  lemma DecodeTwo(p: Digit, q: Digit, r: Digit)
    requires r % 4 == 0
    ensures Decode([ToChar(p), ToChar(q), ToChar(r), '=']) == Some([First(p, q), Second(q, r)])
  {
    CharTrip(p);
    CharTrip(q);
    CharTrip(r);
  }

  lemma {:induction false} DecodeQuad(p: Digit, q: Digit, r: Digit, t: Digit, rest: string)
    requires Decode(rest).Some?
    ensures Decode([ToChar(p), ToChar(q), ToChar(r), ToChar(t)] + rest) ==
            Some([First(p, q), Second(q, r), Third(r, t)] + Decode(rest).value)
  {
    CharTrip(p);
    CharTrip(q);
    CharTrip(r);
    CharTrip(t);
    assert ([ToChar(p), ToChar(q), ToChar(r), ToChar(t)] + rest)[4..] == rest;
  }

  lemma {:induction false} Short(bs: Bytes)
    ensures |bs| == 1 ==> bs == [bs[0]]
    ensures |bs| == 2 ==> bs == [bs[0], bs[1]]
  {
  }

  const UPPER := "ABCDEFGHIJKLM" + "NOPQRSTUVWXYZ"
  const LOWER := "abcdefghijklm" + "nopqrstuvwxyz"

  /** Table 1 of the standard. */
  const ALPHABET := UPPER + LOWER + "0123456789" + "+/"

  lemma UpperDigits(d: Digit)
    requires d < 26
    ensures |UPPER| == 26 && ToChar(d) == UPPER[d]
  {
    assert d < 13 ==> UPPER[d] == "ABCDEFGHIJKLM"[d];
    assert d >= 13 ==> UPPER[d] == "NOPQRSTUVWXYZ"[d - 13];
  }

  lemma LowerDigits(d: Digit)
    requires 26 <= d < 52
    ensures |LOWER| == 26 && ToChar(d) == LOWER[d - 26]
  {
    assert d < 39 ==> LOWER[d - 26] == "abcdefghijklm"[d - 26];
    assert d >= 39 ==> LOWER[d - 26] == "nopqrstuvwxyz"[d - 39];
  }

  lemma OtherDigits(d: Digit)
    requires 52 <= d
    ensures ToChar(d) == if d < 62 then "0123456789"[d - 52] else "+/"[d - 62]
  {
  }

  /** The digits are the characters of the standard alphabet. */
  lemma AlphabetExact(d: Digit)
    ensures |ALPHABET| == 64 && ToChar(d) == ALPHABET[d]
  {
    if d < 26 {
      UpperDigits(d);
    } else if d < 52 {
      LowerDigits(d);
    } else {
      OtherDigits(d);
    }
  }

  /** The three bytes of a full group are its four digits, read as one
      24-bit number, first byte and first digit leading. */
  lemma GroupExact(a: Byte, b: Byte, c: Byte)
    ensures ((D0(a) * 64 + D1(a, b)) * 64 + D2(b, c)) * 64 + D3(c) == (a * 256 + b) * 256 + c
  {
  }

  lemma {:induction false} StrictEnd(s: string)
    requires |s| == 4 && s[3] == '=' && Decode(s).Some?
    ensures Encode(Decode(s).value) == s
  {
    DigitBack(s[0]);
    DigitBack(s[1]);
    DigitBack(s[2]);
    var p, q, r := FromChar(s[0]).value, FromChar(s[1]).value, FromChar(s[2]);
    assert s == [s[0], s[1], s[2], s[3]];
    if s[2] == '=' {
      assert Encode([First(p, q)]) == [ToChar(D0(First(p, q))), ToChar(D1(First(p, q), 0)), '=', '='];
    } else {
      DigitsBack(p, q, r.value, 0);
    }
  }

  lemma {:induction false} EncodeGroup(a: Byte, b: Byte, c: Byte, rest: Bytes)
    ensures Encode([a, b, c] + rest) == [ToChar(D0(a)), ToChar(D1(a, b)), ToChar(D2(b, c)), ToChar(D3(c))] + Encode(rest)
  {
    assert ([a, b, c] + rest)[3..] == rest;
  }

  lemma {:induction false} StrictGroup(s: string, rest: Bytes, p: Digit, q: Digit, r: Digit, t: Digit)
    requires |s| >= 4 && s[0] == ToChar(p) && s[1] == ToChar(q) && s[2] == ToChar(r) && s[3] == ToChar(t)
    requires Encode(rest) == s[4..]
    ensures Encode([First(p, q), Second(q, r), Third(r, t)] + rest) == s
  {
    EncodeGroup(First(p, q), Second(q, r), Third(r, t), rest);
    DigitsBack(p, q, r, t);
    assert s == [s[0], s[1], s[2], s[3]] + s[4..];
  }

  /** Strict decoding accepts nothing but encodings. */
  lemma {:induction false} Strict(s: string)
    requires Decode(s).Some?
    ensures Encode(Decode(s).value) == s
    decreases |s|
  {
    if s != "" {
      if |s| == 4 && s[3] == '=' {
        StrictEnd(s);
      } else {
        Strict(s[4..]);
        DigitBack(s[0]);
        DigitBack(s[1]);
        DigitBack(s[2]);
        DigitBack(s[3]);
        StrictGroup(s, Decode(s[4..]).value, FromChar(s[0]).value, FromChar(s[1]).value, FromChar(s[2]).value, FromChar(s[3]).value);
      }
    }
  }

  lemma DigitBack(c: char)
    ensures FromChar(c).Some? ==> ToChar(FromChar(c).value) == c
  {
  }

  lemma DigitsBack(p: Digit, q: Digit, r: Digit, t: Digit)
    ensures D0(First(p, q)) == p && D1(First(p, q), Second(q, r)) == q
    ensures D2(Second(q, r), Third(r, t)) == r && D3(Third(r, t)) == t
  {
  }

  /** Decoding undoes encoding. */
  lemma {:induction false} Trip(bs: Bytes)
    ensures Decode(Encode(bs)) == Some(bs)
  {
    if |bs| == 1 {
      QuadTrip(bs[0], 0, 0);
      DecodeOne(D0(bs[0]), D1(bs[0], 0));
      Short(bs);
    } else if |bs| == 2 {
      QuadTrip(bs[0], bs[1], 0);
      DecodeTwo(D0(bs[0]), D1(bs[0], bs[1]), D2(bs[1], 0));
      Short(bs);
    } else if |bs| > 2 {
      QuadTrip(bs[0], bs[1], bs[2]);
      Trip(bs[3..]);
      DecodeQuad(D0(bs[0]), D1(bs[0], bs[1]), D2(bs[1], bs[2]), D3(bs[2]), Encode(bs[3..]));
      assert bs == [bs[0], bs[1], bs[2]] + bs[3..];
    }
  }

  /** Encoded text stays within the alphabet. */
  lemma {:induction false} EncodedChars(bs: Bytes)
    ensures forall c :: c in Encode(bs) ==> FromChar(c).Some? || c == '='
  {
    if |bs| > 2 {
      EncodedChars(bs[3..]);
    }
    forall d: Digit ensures FromChar(ToChar(d)).Some? {
      CharTrip(d);
    }
  }
}
