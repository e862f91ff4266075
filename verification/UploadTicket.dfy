/** app/admin/audio_upload_ticket.py: a signed, short-lived ticket `blob.signature` that rides in
    a query string. JSON and HMAC are parameters: `dump` and `load` are json.dumps and json.loads
    between a payload and its UTF-8 bytes, `mac` is the digest under the server's secret. */
module UploadTicket {
  import opened Wrappers
  import opened Base64Url
  import Text

  const TICKET_TTL_SEC := 900

  /** `exp` is absent from a payload that was not minted here. */
  datatype Payload = Payload(key: string, admin: string, size: int, exp: Option<int>)

  datatype TicketError = Invalid | Expired

  function Mint(
    dump: Payload -> seq<Byte>, mac: seq<Byte> -> seq<Byte>, key: string, admin: string, size: int, now: int): string
  {
    var raw := dump(Payload(key, admin, size, Some(now + TICKET_TTL_SEC)));
    Encode(raw) + "." + Encode(mac(raw))
  }

  /** `s.split(sep, 1)`, which must give two parts. */
  function SplitOnce(s: string, sep: char): Option<(string, string)> {
    if s == "" then None
    else if s[0] == sep then Some(("", s[1..]))
    else match SplitOnce(s[1..], sep)
         case None => None
         case Some(halves) => Some(([s[0]] + halves.0, halves.1))
  }

  function Parse(
    load: seq<Byte> -> Option<Payload>, mac: seq<Byte> -> seq<Byte>, ticket: string, now: int): Result<Payload, TicketError>
  {
    match SplitOnce(ticket, '.')
    case None => Err(Invalid)
    case Some((blob, sig)) =>
      var raw, given := Decode(blob), Decode(sig);
      if raw.None? || given.None? || mac(raw.value) != given.value then Err(Invalid) else
      match load(raw.value)
      case None => Err(Invalid)
      case Some(payload) =>
        if (if payload.exp.Some? then payload.exp.value else 0) < now then Err(Expired) else Ok(payload)
  }

  /** Splitting at the first separator recovers both halves. */
  lemma {:induction false} SplitOfHalves(a: string, b: string, sep: char)
    requires sep !in a
    ensures SplitOnce(a + [sep] + b, sep) == Some((a, b))
  {
    if a == "" {
      assert a + [sep] + b == [sep] + b;
    } else {
      SplitOfHalves(a[1..], b, sep);
      assert (a + [sep] + b)[1..] == a[1..] + [sep] + b;
      assert [a[0]] + a[1..] == a;
    }
  }

  /** A minted ticket gives its payload back for 900 seconds, the last one included, and is
      refused as expired from then on. */
  lemma ParseOfMint(
    dump: Payload -> seq<Byte>, load: seq<Byte> -> Option<Payload>, mac: seq<Byte> -> seq<Byte>,
    key: string, admin: string, size: int, minted: int, now: int)
    requires forall p :: load(dump(p)) == Some(p)
    ensures Parse(load, mac, Mint(dump, mac, key, admin, size, minted), now) ==
            if now <= minted + TICKET_TTL_SEC
            then Ok(Payload(key, admin, size, Some(minted + TICKET_TTL_SEC)))
            else Err(Expired)
  {
    var payload := Payload(key, admin, size, Some(minted + TICKET_TTL_SEC));
    var raw := dump(payload);
    EncodeIsBody(raw);
    SplitOfHalves(Encode(raw), Encode(mac(raw)), '.');
    DecodeOfEncode(raw);
    DecodeOfEncode(mac(raw));
    assert load(raw) == Some(payload);
  }

  /** The unreserved characters of section 2.3 of RFC 3986. */
  predicate IsUnreserved(c: char) {
    IsUrlDigit(c) || c == '.' || c == '~'
  }

  /** `quote(s, safe="")`; `escape` gives the percent-encoding of a character. */
  function Quote(s: string, escape: char -> string): string {
    if s == "" then "" else QuoteOf(s[0], escape) + Quote(s[1..], escape)
  }

  function QuoteOf(c: char, escape: char -> string): string { if IsUnreserved(c) then [c] else escape(c) }

  lemma {:induction false} QuoteOfUnreserved(s: string, escape: char -> string)
    requires forall i :: 0 <= i < |s| ==> IsUnreserved(s[i])
    ensures Quote(s, escape) == s
  {
    if s != "" {
      QuoteOfUnreserved(s[1..], escape);
      assert s == [s[0]] + s[1..];
    }
  }

  function AttachTicket(url: string, ticket: string, escape: char -> string): string {
    url + (if '?' in url then "&" else "?") + "ticket=" + Quote(ticket, escape)
  }

  /** The parameters of a URL: what follows its first `?`, cut at every `&`. */
  function Parameters(url: string): seq<string> {
    match SplitOnce(url, '?')
    case None => []
    case Some((_, query)) => Text.Split(query, '&')
  }

  lemma {:induction false} SplitOnceFinds(s: string, sep: char)
    requires sep in s
    ensures SplitOnce(s, sep).Some?
    ensures var (a, b) := SplitOnce(s, sep).value; sep !in a && s == a + [sep] + b
  {
    if s[0] != sep {
      SplitOnceFinds(s[1..], sep);
      var (a, b) := SplitOnce(s[1..], sep).value;
      assert s == [s[0]] + s[1..];
    }
  }

  lemma {:induction false} SplitOfLast(s: string, last: string, sep: char)
    requires sep !in last
    ensures Text.Split(s + [sep] + last, sep) == Text.Split(s, sep) + [last]
  {
    var whole := s + [sep] + last;
    if s == "" {
      assert whole[1..] == last;
      Text.SplitOfPiece(last, sep);
    } else {
      SplitOfLast(s[1..], last, sep);
      assert whole[1..] == s[1..] + [sep] + last;
    }
  }

  lemma TicketIsUnreserved(
    dump: Payload -> seq<Byte>, mac: seq<Byte> -> seq<Byte>, key: string, admin: string, size: int, now: int)
    ensures var ticket := Mint(dump, mac, key, admin, size, now);
            forall i :: 0 <= i < |ticket| ==> IsUnreserved(ticket[i])
  {
    var raw := dump(Payload(key, admin, size, Some(now + TICKET_TTL_SEC)));
    EncodeIsBody(raw);
    EncodeIsBody(mac(raw));
  }

  /** Attached to any URL, a minted ticket goes through quoting unchanged and is the last query
      parameter, after the ones that were there. */
  lemma {:induction false} TicketIsAttached(
    dump: Payload -> seq<Byte>, mac: seq<Byte> -> seq<Byte>, key: string, admin: string, size: int, now: int,
    url: string, escape: char -> string)
    ensures var ticket := Mint(dump, mac, key, admin, size, now);
            Parameters(AttachTicket(url, ticket, escape)) == Parameters(url) + ["ticket=" + ticket]
  {
    hide Mint, Quote, Text.Split;
    var ticket := Mint(dump, mac, key, admin, size, now);
    TicketIsUnreserved(dump, mac, key, admin, size, now);
    QuoteOfUnreserved(ticket, escape);
    var last := "ticket=" + ticket;
    if '?' in url {
      SplitOnceFinds(url, '?');
      var (path, query) := SplitOnce(url, '?').value;
      assert AttachTicket(url, ticket, escape) == path + ['?'] + (query + ['&'] + last);
      SplitOfHalves(path, query + ['&'] + last, '?');
      SplitOfLast(query, last, '&');
    } else {
      assert AttachTicket(url, ticket, escape) == url + ['?'] + last;
      SplitOfHalves(url, last, '?');
      Text.SplitOfPiece(last, '&');
      NoQuery(url);
    }
  }

  lemma {:induction false} NoQuery(url: string)
    requires '?' !in url
    ensures SplitOnce(url, '?') == None
  {
    if url != "" {
      NoQuery(url[1..]);
    }
  }
}
