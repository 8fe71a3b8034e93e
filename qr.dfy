/** `createSignedTicketPayload` of supabase/functions/_shared/qr.ts: the
    ticket claims, joined with ':' and signed with HMAC-SHA-256 under the QR
    secret, with the MAC attached as lowercase hex. */
module Qr {
  import opened Wrappers
  import opened Bytes
  import opened Crypto
  import Hex

  datatype TicketClaims = TicketClaims(
    ticketId: string,
    attendeeId: string,
    orderId: string,
    validFrom: string,
    validTo: string)

  datatype SignedTicketPayload = SignedTicketPayload(
    ticketId: string,
    attendeeId: string,
    orderId: string,
    validFrom: string,
    validTo: string,
    checksum: string)

  /** The signed text `${ticketId}:${attendeeId}:${orderId}:${validFrom}:${validTo}`. */
  function SignedData(c: TicketClaims): string {
    c.ticketId + ":" + c.attendeeId + ":" + c.orderId + ":" + c.validFrom + ":" + c.validTo
  }

  /** The claims spread into the result with the hex MAC as `checksum`. */
  function CreateSignedTicketPayload(c: TicketClaims, secret: string, hmac: HmacSha256): (r: SignedTicketPayload)
    ensures r.ticketId == c.ticketId && r.attendeeId == c.attendeeId && r.orderId == c.orderId
    ensures r.validFrom == c.validFrom && r.validTo == c.validTo
    ensures |r.checksum| == 64
    ensures forall i :: 0 <= i < |r.checksum| ==> Hex.IsDigit(r.checksum[i])
    ensures Hex.Decode(r.checksum) == Some(hmac(Utf8Encode(secret), Utf8Encode(SignedData(c))))
  {
    var mac := hmac(Utf8Encode(secret), Utf8Encode(SignedData(c)));
    Hex.DecodeEncode(mac);
    SignedTicketPayload(c.ticketId, c.attendeeId, c.orderId, c.validFrom, c.validTo, Hex.Encode(mac))
  }

  function Claims(p: SignedTicketPayload): TicketClaims {
    TicketClaims(p.ticketId, p.attendeeId, p.orderId, p.validFrom, p.validTo)
  }

  /** A scanner's check: the checksum is the hex MAC of the claims' signed text. */
  predicate ChecksumValid(p: SignedTicketPayload, secret: string, hmac: HmacSha256) {
    p.checksum == Hex.Encode(hmac(Utf8Encode(secret), Utf8Encode(SignedData(Claims(p)))))
  }

  /** Every payload the signer produces passes the check, and the check ties
      the checksum to exactly one MAC. */
  lemma SignedPayloadVerifies(c: TicketClaims, secret: string, hmac: HmacSha256)
    ensures var p := CreateSignedTicketPayload(c, secret, hmac);
      ChecksumValid(p, secret, hmac) && Claims(p) == c
  {
    var p := CreateSignedTicketPayload(c, secret, hmac);
    Hex.EncodeDecode(p.checksum);
  }

  /** The checksum depends on the claims only through the joined text: two
      claim records with the same text get the same checksum. */
  lemma SameTextSameChecksum(c1: TicketClaims, c2: TicketClaims, secret: string, hmac: HmacSha256)
    requires SignedData(c1) == SignedData(c2)
    ensures CreateSignedTicketPayload(c1, secret, hmac).checksum == CreateSignedTicketPayload(c2, secret, hmac).checksum
  {
  }

  /** The fields are not escaped, so ':' inside a field moves the boundaries:
      these two different claim records share one signed text, hence one
      checksum, whatever the secret and the MAC. */
  lemma ColonInFieldCollides(secret: string, hmac: HmacSha256)
    ensures var c1 := TicketClaims("t", "a", "o", "09:00", "18:00");
      var c2 := TicketClaims("t:a", "o", "09", "00", "18:00");
      c1 != c2 &&
      CreateSignedTicketPayload(c1, secret, hmac).checksum == CreateSignedTicketPayload(c2, secret, hmac).checksum
  {
    var c1 := TicketClaims("t", "a", "o", "09:00", "18:00");
    var c2 := TicketClaims("t:a", "o", "09", "00", "18:00");
    assert SignedData(c1) == SignedData(c2);
  }

  /** Index of the first ':' in s, if any. */
  function FirstColon(s: string): (r: Option<nat>)
    ensures r.Some? ==> r.value < |s| && s[r.value] == ':' && ':' !in s[..r.value]
    ensures r.None? ==> ':' !in s
  {
    if s == [] then None
    else if s[0] == ':' then Some(0)
    else match FirstColon(s[1..]) {
      case None => None
      case Some(k) =>
        assert s[..k + 1] == [s[0]] + s[1..][..k];
        Some(k + 1)
    }
  }

  /** Split off the text before the first ':'. */
  function SplitField(s: string): Option<(string, string)> {
    match FirstColon(s) {
      case None => None
      case Some(k) => Some((s[..k], s[k + 1..]))
    }
  }

  lemma SplitFieldOfJoin(field: string, rest: string)
    requires ':' !in field
    ensures SplitField(field + ":" + rest) == Some((field, rest))
  {
    var s := field + ":" + rest;
    assert s[|field|] == ':';
    assert s[..|field|] == field;
    var k := FirstColon(s).value;
    assert forall i :: 0 <= i < |field| ==> s[i] == field[i];
    assert s[|field| + 1..] == rest;
  }

  /** Reading the signed text back: the three identifiers, then the rest. */
  function ParseSignedData(s: string): Option<(string, string, string, string)> {
    match SplitField(s) {
      case None => None
      case Some((t, r1)) =>
        match SplitField(r1) {
          case None => None
          case Some((a, r2)) =>
            match SplitField(r2) {
              case None => None
              case Some((o, rest)) => Some((t, a, o, rest))
            }
        }
    }
  }

  /** When the three identifiers hold no ':' (as UUIDs do), the signed text
      determines them; the two timestamps, which contain ':' themselves, are
      determined only as their joined text `validFrom:validTo`. */
  lemma SignedDataDeterminesIds(c: TicketClaims)
    requires ':' !in c.ticketId && ':' !in c.attendeeId && ':' !in c.orderId
    ensures ParseSignedData(SignedData(c)) == Some((c.ticketId, c.attendeeId, c.orderId, c.validFrom + ":" + c.validTo))
  {
    var tail := c.validFrom + ":" + c.validTo;
    var r2 := c.orderId + ":" + tail;
    var r1 := c.attendeeId + ":" + r2;
    assert SignedData(c) == c.ticketId + ":" + r1;
    SplitFieldOfJoin(c.ticketId, r1);
    SplitFieldOfJoin(c.attendeeId, r2);
    SplitFieldOfJoin(c.orderId, tail);
  }
}
