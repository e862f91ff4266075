/** What the printed alphabet and groups of base64url are, and exactly which tickets are let
    through, for app/admin/audio_upload_ticket.py. */
module TicketChecks {
  import opened Wrappers
  import opened Base64Url
  import opened UploadTicket
  import Text

  /** Table 2 of RFC 4648. */
  const ALPHABET := "ABCDEFGHIJKLMNOPQRSTUVWXYZ" + "abcdefghijklmnopqrstuvwxyz" + "0123456789-_"

  lemma {:induction false} DigitsAreTheAlphabet(n: nat)
    requires n < 64
    ensures |ALPHABET| == 64 && Digit(n) == ALPHABET[n] && Value(Digit(n)) == Some(n)
  {
  }

  /** And the decoder also takes the two characters of plain base64. */
  lemma {:induction false} ValuesAreTheAlphabet(c: char, n: nat)
    ensures Value(c) == Some(n) <==>
      n < 64 && |ALPHABET| == 64 && (c == ALPHABET[n] || (c == '+' && n == 62) || (c == '/' && n == 63))
    ensures Value(c).Some? <==> IsUrlDigit(c) || c == '+' || c == '/'
  {
    if n < 64 {
      DigitsAreTheAlphabet(n);
    }
    if Value(c).Some? {
      DigitsAreTheAlphabet(Value(c).value);
    }
  }

  lemma ScanStep(c: char, rest: string, place: nat, left: nat)
    requires Value(c).Some? && Value(c).value < 64 && place < 4
    requires match place case 0 => left == 0 case 1 => left < 64 case 2 => left < 16 case _ => left < 4
    ensures var v := Value(c).value;
            Scan([c] + rest, place, left, 0) ==
            if place == 0 then Scan(rest, 1, v, 0)
            else if place == 1 then Prepend(left * 4 + v / 16, Scan(rest, 2, v % 16, 0))
            else if place == 2 then Prepend(left * 16 + v / 4, Scan(rest, 3, v % 4, 0))
            else Prepend(left * 64 + v, Scan(rest, 0, 0, 0))
  {
  }

  lemma ScanOfPads(place: nat, left: nat)
    requires place == 2 || place == 3
    requires if place == 2 then left < 16 else left < 4
    ensures place == 2 ==> Scan("==", place, left, 0) == Some([])
    ensures place == 3 ==> Scan("=", place, left, 0) == Some([])
  {
    if place == 2 {
      assert "=="[1..] == "=" && Scan("=", 2, left, 1) == Some([]);
    }
  }

  lemma ScanOfThreePads(left: nat)
    requires left < 64
    ensures Scan("===", 1, left, 0) == None
  {
    assert "==="[1..] == "==" && "=="[1..] == "=" && "="[1..] == "";
    assert Scan("", 1, left, 0) == None && Scan("=", 1, left, 0) == None && Scan("==", 1, left, 0) == None;
  }

  lemma {:induction false} ShortTextDecodes(s: string)
    requires |s| < 4 && forall k :: 0 <= k < |s| ==> IsUrlDigit(s[k])
    ensures var r := Scan(s + Pads(-|s| % 4), 0, 0, 0);
            (r.Some? <==> |s| != 1) && (r.Some? ==> |r.value| == |s| * 3 / 4)
  {
    hide Scan, Value;
    forall c | IsUrlDigit(c) ensures Value(c).Some? && Value(c).value < 64 { UrlDigitHasAValue(c); }
    if |s| == 0 {
      ScanOfNothing();
      assert s + Pads(0) == "";
    } else {
      var v0 := Value(s[0]).value;
      if |s| == 1 {
        assert s + Pads(3) == [s[0]] + "===";
        ScanStep(s[0], "===", 0, 0);
        ScanOfThreePads(v0);
      } else {
        var v1 := Value(s[1]).value;
        var rest := s[2..] + Pads(-|s| % 4);
        assert s + Pads(-|s| % 4) == [s[0]] + ([s[1]] + rest);
        ScanStep(s[0], [s[1]] + rest, 0, 0);
        ScanStep(s[1], rest, 1, v0);
        if |s| == 2 {
          assert rest == "==";
          ScanOfPads(2, v1 % 16);
        } else {
          assert rest == [s[2]] + "=";
          ScanStep(s[2], "=", 2, v1 % 16);
          ScanOfPads(3, Value(s[2]).value % 4);
        }
      }
    }
  }

  lemma UrlDigitHasAValue(c: char)
    requires IsUrlDigit(c)
    ensures Value(c).Some? && Value(c).value < 64
  {
  }

  lemma {:induction false} TextDecodes(s: string)
    requires forall k :: 0 <= k < |s| ==> IsUrlDigit(s[k])
    ensures var r := Scan(s + Pads(-|s| % 4), 0, 0, 0);
            (r.Some? <==> |s| % 4 != 1) && (r.Some? ==> |r.value| == |s| * 3 / 4)
  {
    hide Scan, Value;
    if |s| < 4 {
      ShortTextDecodes(s);
    } else {
      TextDecodes(s[4..]);
      assert -|s[4..]| % 4 == -|s| % 4;
      var rest := s[4..] + Pads(-|s| % 4);
      assert s + Pads(-|s| % 4) == [s[0]] + ([s[1]] + ([s[2]] + ([s[3]] + rest)));
      forall c | IsUrlDigit(c) ensures Value(c).Some? && Value(c).value < 64 { UrlDigitHasAValue(c); }
      ScanStep(s[0], [s[1]] + ([s[2]] + ([s[3]] + rest)), 0, 0);
      ScanStep(s[1], [s[2]] + ([s[3]] + rest), 1, Value(s[0]).value);
      ScanStep(s[2], [s[3]] + rest, 2, Value(s[1]).value % 16);
      ScanStep(s[3], rest, 3, Value(s[2]).value % 4);
    }
  }

  /** Of texts made of these digits the decoder refuses exactly those whose last group is one digit;
      the others have three bytes for every four digits. Any text that is not ASCII is refused. */
  lemma {:induction false} WhatDecodes(s: string)
    ensures (forall k :: 0 <= k < |s| ==> IsUrlDigit(s[k])) ==>
      (Decode(s).Some? <==> |s| % 4 != 1) && (Decode(s).Some? ==> |Decode(s).value| == |s| * 3 / 4)
    ensures (exists k :: 0 <= k < |s| && s[k] as int >= 128) ==> Decode(s).None?
  {
    hide Scan;
    if forall k :: 0 <= k < |s| ==> IsUrlDigit(s[k]) {
      TextDecodes(s);
      assert IsAscii(s);
    }
  }

  /** Up to four digits as one number. */
  function Number(text: string): int
    requires 2 <= |text| <= 4 && forall k :: 0 <= k < |text| ==> Value(text[k]).Some?
  {
    var (d0, d1) := (Value(text[0]).value, Value(text[1]).value);
    if |text| == 2 then d0 * 64 + d1
    else if |text| == 3 then d0 * 4096 + d1 * 64 + Value(text[2]).value
    else d0 * 0x4_0000 + d1 * 4096 + Value(text[2]).value * 64 + Value(text[3]).value
  }

  /** Read as numbers, four digits are the three bytes they stand for; a last group of one or two
      bytes is filled up with zero bits and its missing digits are left out. */
  lemma {:induction false} GroupsHaveTheirValue(b: seq<Byte>)
    requires b != []
    ensures var (text, n) := (Encode(b), |b|);
            && |text| >= (if n == 1 then 2 else if n == 2 then 3 else 4)
            && (forall k :: 0 <= k < |text| ==> Value(text[k]).Some?)
            && (n == 1 ==> |text| == 2 && Number(text) == (b[0] as int) * 16)
            && (n == 2 ==> |text| == 3 && Number(text) == (b[0] as int) * 1024 + (b[1] as int) * 4)
            && (n >= 3 ==>
                  && text[4..] == Encode(b[3..])
                  && Number(text[..4]) == (b[0] as int) * 0x1_0000 + (b[1] as int) * 256 + b[2] as int)
  {
    hide Digit, Value;
    forall m: nat | m < 64 ensures Value(Digit(m)) == Some(m) { DigitHasItsValue(m); }
    EncodedIsBody(b);
    if |b| >= 3 {
      EncodedIsBody(b[3..]);
    }
    EachHasAValue(b);
  }

  lemma DigitHasItsValue(n: nat)
    requires n < 64
    ensures Value(Digit(n)) == Some(n)
  {
  }

  lemma EncodedIsBody(b: seq<Byte>)
    ensures Encode(b) == Body(b)
  {
    PaddedIsBody(b);
    StripOfPads(Body(b), -|Body(b)| % 4);
  }

  lemma {:induction false} EachHasAValue(b: seq<Byte>)
    ensures forall k :: 0 <= k < |Body(b)| ==> Value(Body(b)[k]).Some?
  {
    hide Digit, Value;
    forall m: nat | m < 64 ensures Value(Digit(m)) == Some(m) { DigitHasItsValue(m); }
    if |b| >= 3 {
      EachHasAValue(b[3..]);
    }
  }

  /** A ticket has a blob, a dot and the signature of the blob's bytes. */
  ghost predicate IsSigned(mac: seq<Byte> -> seq<Byte>, ticket: string, blob: string, sig: string, raw: seq<Byte>) {
    ticket == blob + ['.'] + sig && '.' !in blob && Decode(blob) == Some(raw) && Decode(sig) == Some(mac(raw))
  }

  /** A ticket is let through exactly if it is signed, its bytes hold the payload, and that expires
      now or later; a signed payload that expired before is told apart, and anything else is invalid. */
  lemma {:induction false} TicketIsChecked(
    load: seq<Byte> -> Option<Payload>, mac: seq<Byte> -> seq<Byte>, ticket: string, now: int)
    ensures forall payload :: Parse(load, mac, ticket, now) == Ok(payload) <==>
      && now <= (if payload.exp.Some? then payload.exp.value else 0)
      && exists blob, sig, raw :: IsSigned(mac, ticket, blob, sig, raw) && load(raw) == Some(payload)
    ensures Parse(load, mac, ticket, now) == Err(Expired) <==>
      exists blob, sig, raw :: IsSigned(mac, ticket, blob, sig, raw) && load(raw).Some?
                               && (if load(raw).value.exp.Some? then load(raw).value.exp.value else 0) < now
  {
    hide Decode;
    if '.' in ticket {
      SplitOnceFinds(ticket, '.');
      var (blob, sig) := SplitOnce(ticket, '.').value;
      if Decode(blob).Some? && Decode(sig).Some? {
        assert mac(Decode(blob).value) == Decode(sig).value ==> IsSigned(mac, ticket, blob, sig, Decode(blob).value);
      }
    } else {
      NoDot(ticket);
    }
    forall blob, sig, raw | IsSigned(mac, ticket, blob, sig, raw)
      ensures SplitOnce(ticket, '.') == Some((blob, sig)) && Decode(blob) == Some(raw) && Decode(sig) == Some(mac(raw))
    {
      SplitOfHalves(blob, sig, '.');
    }
  }

  lemma {:induction false} NoDot(ticket: string)
    requires '.' !in ticket
    ensures SplitOnce(ticket, '.') == None
  {
    if ticket != "" {
      NoDot(ticket[1..]);
    }
  }

  /** Fifteen minutes. */
  lemma {:induction false} MintedFor900(
    dump: Payload -> seq<Byte>, load: seq<Byte> -> Option<Payload>, mac: seq<Byte> -> seq<Byte>,
    key: string, admin: string, size: int, minted: int, now: int)
    requires forall p :: load(dump(p)) == Some(p)
    ensures var ticket := Mint(dump, mac, key, admin, size, minted);
            var raw := dump(Payload(key, admin, size, Some(minted + 900)));
            && IsSigned(mac, ticket, Encode(raw), Encode(mac(raw)), raw)
            && Parse(load, mac, ticket, now) ==
               if now <= minted + 900 then Ok(Payload(key, admin, size, Some(minted + 900))) else Err(Expired)
  {
    ParseOfMint(dump, load, mac, key, admin, size, minted, now);
    var raw := dump(Payload(key, admin, size, Some(minted + 900)));
    EncodeIsBody(raw);
    DecodeOfEncode(raw);
    DecodeOfEncode(mac(raw));
  }

  /** The parameter is added with `?` to a URL that has no query, and with `&` to one that has. */
  lemma {:induction false} ParameterIsAdded(url: string, ticket: string, escape: char -> string)
    requires forall i :: 0 <= i < |ticket| ==> IsUnreserved(ticket[i])
    ensures '?' in url ==> AttachTicket(url, ticket, escape) == url + "&ticket=" + ticket
    ensures '?' !in url ==> AttachTicket(url, ticket, escape) == url + "?ticket=" + ticket
  {
    QuoteOfUnreserved(ticket, escape);
  }

  /** Quoting leaves letters, digits and `-_.~`, and replaces every other character by its own escape. */
  lemma {:induction false} QuoteIsByCharacter(a: string, c: char, b: string, escape: char -> string)
    ensures Quote("", escape) == ""
    ensures Quote(a + [c] + b, escape) == Quote(a, escape)
      + (if 'A' <= c <= 'Z' || 'a' <= c <= 'z' || '0' <= c <= '9' || c in "-_.~" then [c] else escape(c)) + Quote(b, escape)
  {
    QuoteOfParts(a + [c], b, escape);
    QuoteOfParts(a, [c], escape);
    assert [c][1..] == "" && Quote([c], escape) == QuoteOf(c, escape) + "";
  }

  lemma {:induction false} QuoteOfParts(a: string, b: string, escape: char -> string)
    ensures Quote(a + b, escape) == Quote(a, escape) + Quote(b, escape)
  {
    hide QuoteOf;
    if a == "" {
      assert a + b == b;
    } else {
      QuoteOfParts(a[1..], b, escape);
      assert (a + b)[1..] == a[1..] + b;
    }
  }
}
