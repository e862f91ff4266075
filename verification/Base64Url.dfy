/** Unpadded base64url, as app/admin/audio_upload_ticket.py writes and reads it
    (sections 3.2 and 5 of RFC 4648). */
module Base64Url {
  import opened Wrappers

  type Byte = n: int | 0 <= n < 256

  function Digit(n: nat): char
    requires n < 64
  {
    if n < 26 then (n + 65) as char
    else if n < 52 then (n + 71) as char
    else if n < 62 then (n - 4) as char
    else if n == 62 then '-'
    else '_'
  }

  /** The value of a character; the decoder also takes the two characters of plain base64. */
  function Value(c: char): Option<nat> {
    var n := c as int;
    if 65 <= n <= 90 then Some(n - 65)
    else if 97 <= n <= 122 then Some(n - 71)
    else if 48 <= n <= 57 then Some(n + 4)
    else if c == '-' || c == '+' then Some(62)
    else if c == '_' || c == '/' then Some(63)
    else None
  }

  /** `base64.urlsafe_b64encode`. */
  function EncodePadded(b: seq<Byte>): string {
    if |b| == 0 then ""
    else if |b| == 1 then [Digit(b[0] / 4), Digit(b[0] % 4 * 16), '=', '=']
    else if |b| == 2 then [Digit(b[0] / 4), Digit(b[0] % 4 * 16 + b[1] / 16), Digit(b[1] % 16 * 4), '=']
    else [Digit(b[0] / 4), Digit(b[0] % 4 * 16 + b[1] / 16), Digit(b[1] % 16 * 4 + b[2] / 64), Digit(b[2] % 64)]
         + EncodePadded(b[3..])
  }

  /** `rstrip("=")`. */
  function StripPads(s: string): string {
    if s != "" && s[|s| - 1] == '=' then StripPads(s[..|s| - 1]) else s
  }

  function Encode(raw: seq<Byte>): string { StripPads(EncodePadded(raw)) }

  function Pads(n: nat): string { seq(n, _ => '=') }

  function Prepend(b: Byte, rest: Option<seq<Byte>>): Option<seq<Byte>> {
    match rest case None => None case Some(bytes) => Some([b] + bytes)
  }

  /** The lenient decoder: characters outside the alphabet are passed over, a completed pad ends
      the input, and input that ends inside a group is refused. `place` is the position in the
      group, `left` the bits not yet written, `pads` the pads since the last digit. */
  function Scan(s: string, place: nat, left: nat, pads: nat): Option<seq<Byte>>
    requires place < 4
    requires match place case 0 => left == 0 case 1 => left < 64 case 2 => left < 16 case _ => left < 4
  {
    if s == "" then (if place == 0 then Some([]) else None)
    else if s[0] == '=' then
      if place < 2 then Scan(s[1..], place, left, pads)
      else if place + pads + 1 >= 4 then Some([])
      else Scan(s[1..], place, left, pads + 1)
    else
      match Value(s[0])
      case None => Scan(s[1..], place, left, pads)
      case Some(v) =>
        if v >= 64 then None
        else if place == 0 then Scan(s[1..], 1, v, 0)
        else if place == 1 then Prepend(left * 4 + v / 16, Scan(s[1..], 2, v % 16, 0))
        else if place == 2 then Prepend(left * 16 + v / 4, Scan(s[1..], 3, v % 4, 0))
        else Prepend(left * 64 + v, Scan(s[1..], 0, 0, 0))
  }

  predicate IsAscii(s: string) {
    forall i :: 0 <= i < |s| ==> s[i] as int < 128
  }

  function Decode(value: string): Option<seq<Byte>> {
    if !IsAscii(value) then None else Scan(value + Pads(-|value| % 4), 0, 0, 0)
  }

  /** The digits without the pads. */
  function Body(b: seq<Byte>): string {
    if |b| == 0 then ""
    else if |b| == 1 then [Digit(b[0] / 4), Digit(b[0] % 4 * 16)]
    else if |b| == 2 then [Digit(b[0] / 4), Digit(b[0] % 4 * 16 + b[1] / 16), Digit(b[1] % 16 * 4)]
    else [Digit(b[0] / 4), Digit(b[0] % 4 * 16 + b[1] / 16), Digit(b[1] % 16 * 4 + b[2] / 64), Digit(b[2] % 64)] + Body(b[3..])
  }

  /** Letters, digits, `-` and `_` only. */
  predicate IsUrlDigit(c: char) {
    'A' <= c <= 'Z' || 'a' <= c <= 'z' || '0' <= c <= '9' || c == '-' || c == '_'
  }

  lemma DigitIsUrlDigit(n: nat)
    requires n < 64
    ensures IsUrlDigit(Digit(n))
  {
  }

  lemma {:induction false} PaddedIsBody(b: seq<Byte>)
    ensures EncodePadded(b) == Body(b) + Pads(-|Body(b)| % 4)
    ensures forall i :: 0 <= i < |Body(b)| ==> IsUrlDigit(Body(b)[i])
  {
    hide Digit, IsUrlDigit;
    forall n: nat | n < 64 { DigitIsUrlDigit(n); }
    if |b| >= 3 {
      var rest := Body(b[3..]);
      PaddedIsBody(b[3..]);
      FourMoreDigits(|rest|);
      var group := EncodePadded(b)[..4];
      assert Body(b) == group + rest && EncodePadded(b) == group + EncodePadded(b[3..]);
    }
  }

  lemma FourMoreDigits(n: int)
    ensures -(4 + n) % 4 == -n % 4
  {
  }

  lemma {:induction false} StripOfPads(body: string, n: nat)
    requires '=' !in body
    ensures StripPads(body + Pads(n)) == body
  {
    if n == 0 {
      assert body + Pads(0) == body;
    } else {
      StripOfPads(body, n - 1);
      assert (body + Pads(n))[..|body| + n - 1] == body + Pads(n - 1);
    }
  }

  /** The pads that were stripped are the ones that are put back, and what is left is made of
      letters, digits, `-` and `_`. */
  lemma EncodeIsBody(raw: seq<Byte>)
    ensures forall i :: 0 <= i < |Encode(raw)| ==> IsUrlDigit(Encode(raw)[i])
    ensures Encode(raw) + Pads(-|Encode(raw)| % 4) == EncodePadded(raw)
  {
    PaddedIsBody(raw);
    StripOfPads(Body(raw), -|Body(raw)| % 4);
  }

  lemma ScanDigit(n: nat, rest: string, place: nat, left: nat)
    requires n < 64 && place < 4
    requires match place case 0 => left == 0 case 1 => left < 64 case 2 => left < 16 case _ => left < 4
    ensures Scan([Digit(n)] + rest, place, left, 0) ==
            if place == 0 then Scan(rest, 1, n, 0)
            else if place == 1 then Prepend(left * 4 + n / 16, Scan(rest, 2, n % 16, 0))
            else if place == 2 then Prepend(left * 16 + n / 4, Scan(rest, 3, n % 4, 0))
            else Prepend(left * 64 + n, Scan(rest, 0, 0, 0))
  {
  }

  /** One whole group. */
  lemma ScanGroup(d0: nat, d1: nat, d2: nat, d3: nat, rest: string)
    requires d0 < 64 && d1 < 64 && d2 < 64 && d3 < 64
    ensures Scan([Digit(d0), Digit(d1), Digit(d2), Digit(d3)] + rest, 0, 0, 0) ==
            Prepend(d0 * 4 + d1 / 16, Prepend(d1 % 16 * 16 + d2 / 4, Prepend(d2 % 4 * 64 + d3, Scan(rest, 0, 0, 0))))
  {
    hide Scan, Digit;
    ScanDigit(d0, [Digit(d1), Digit(d2), Digit(d3)] + rest, 0, 0);
    ScanDigit(d1, [Digit(d2), Digit(d3)] + rest, 1, d0);
    ScanDigit(d2, [Digit(d3)] + rest, 2, d1 % 16);
    ScanDigit(d3, rest, 3, d2 % 4);
    assert [Digit(d0), Digit(d1), Digit(d2), Digit(d3)] + rest == [Digit(d0)] + ([Digit(d1), Digit(d2), Digit(d3)] + rest);
    assert [Digit(d1), Digit(d2), Digit(d3)] + rest == [Digit(d1)] + ([Digit(d2), Digit(d3)] + rest);
    assert [Digit(d2), Digit(d3)] + rest == [Digit(d2)] + ([Digit(d3)] + rest);
  }

  /** A last group of one byte: two digits and two pads. */
  lemma ScanOne(d0: nat, d1: nat)
    requires d0 < 64 && d1 < 64
    ensures Scan([Digit(d0), Digit(d1), '=', '='], 0, 0, 0) == Some([d0 * 4 + d1 / 16])
  {
    ScanDigit(d0, [Digit(d1), '=', '='], 0, 0);
    ScanDigit(d1, ['=', '='], 1, d0);
    assert [Digit(d0), Digit(d1), '=', '='] == [Digit(d0)] + [Digit(d1), '=', '='];
    assert [Digit(d1), '=', '='] == [Digit(d1)] + ['=', '='];
    assert ['=', '='][1..] == ['='];
    assert Scan(['='], 2, d1 % 16, 1) == Some([]);
    assert Scan(['=', '='], 2, d1 % 16, 0) == Some([]);
    var x: Byte := d0 * 4 + d1 / 16;
    assert [x] + [] == [x];
  }

  /** A last group of two bytes: three digits and a pad. */
  lemma ScanTwo(d0: nat, d1: nat, d2: nat)
    requires d0 < 64 && d1 < 64 && d2 < 64
    ensures Scan([Digit(d0), Digit(d1), Digit(d2), '='], 0, 0, 0) == Some([d0 * 4 + d1 / 16, d1 % 16 * 16 + d2 / 4])
  {
    ScanDigit(d0, [Digit(d1), Digit(d2), '='], 0, 0);
    ScanDigit(d1, [Digit(d2), '='], 1, d0);
    ScanDigit(d2, ['='], 2, d1 % 16);
    assert [Digit(d0), Digit(d1), Digit(d2), '='] == [Digit(d0)] + [Digit(d1), Digit(d2), '='];
    assert [Digit(d1), Digit(d2), '='] == [Digit(d1)] + [Digit(d2), '='];
    assert [Digit(d2), '='] == [Digit(d2)] + ['='];
    var x: Byte, y: Byte := d0 * 4 + d1 / 16, d1 % 16 * 16 + d2 / 4;
    assert Scan(['='], 3, d2 % 4, 0) == Some([]);
    assert [x] + ([y] + []) == [x, y];
  }

  lemma BytesComeBack(x: Byte, y: Byte, z: Byte)
    ensures var (d1, d2) := (x % 4 * 16 + y / 16, y % 16 * 4 + z / 64);
            x / 4 * 4 + d1 / 16 == x && d1 % 16 * 16 + d2 / 4 == y && d2 % 4 * 64 + z % 64 == z
  {
  }

  lemma {:induction false} ScanShort(b: seq<Byte>)
    requires |b| < 3
    ensures Scan(EncodePadded(b), 0, 0, 0) == Some(b)
  {
    hide Scan, Digit;
    if |b| == 0 {
      ScanOfNothing();
    } else if |b| == 1 {
      ScanOne(b[0] / 4, b[0] % 4 * 16);
      assert b == [b[0]];
    } else {
      ScanTwo(b[0] / 4, b[0] % 4 * 16 + b[1] / 16, b[1] % 16 * 4);
      assert b == [b[0], b[1]];
    }
  }

  lemma {:induction false} ScanLong(b: seq<Byte>)
    requires |b| >= 3
    ensures Scan(EncodePadded(b), 0, 0, 0)
         == Prepend(b[0], Prepend(b[1], Prepend(b[2], Scan(EncodePadded(b[3..]), 0, 0, 0))))
  {
    hide Scan, Digit;
    BytesComeBack(b[0], b[1], b[2]);
    ScanGroup(b[0] / 4, b[0] % 4 * 16 + b[1] / 16, b[1] % 16 * 4 + b[2] / 64, b[2] % 64, EncodePadded(b[3..]));
  }

  lemma {:induction false} ScanOfPadded(b: seq<Byte>)
    ensures Scan(EncodePadded(b), 0, 0, 0) == Some(b)
  {
    hide Scan, EncodePadded;
    if |b| < 3 {
      ScanShort(b);
    } else {
      ScanLong(b);
      ScanOfPadded(b[3..]);
      assert [b[0]] + ([b[1]] + ([b[2]] + b[3..])) == b;
    }
  }

  lemma ScanOfNothing()
    ensures Scan("", 0, 0, 0) == Some([])
  {
  }

  /** Decoding undoes encoding, for all byte strings. */
  lemma DecodeOfEncode(raw: seq<Byte>)
    ensures Decode(Encode(raw)) == Some(raw)
  {
    EncodeIsBody(raw);
    ScanOfPadded(raw);
  }
}
