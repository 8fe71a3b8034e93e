/** `buildTicketIcs` of supabase/functions/_shared/ics.ts: a fixed sixteen-line
    iCalendar document (RFC 5545, sections 3.4 and 3.6.1) joined with CRLF,
    plus its base64 text (section 4 of RFC 4648) over the UTF-8 bytes. Values
    are inserted verbatim: no TEXT escaping (RFC 5545 section 3.3.11) and no
    line folding (RFC 5545 section 3.1). */
module Ics {
  import opened Wrappers
  import opened Bytes
  import opened Text
  import Base64

  datatype TicketIcsInput = TicketIcsInput(
    attendeeName: string,
    attendeeEmail: string,
    passName: string,
    eventStartsAt: string,
    eventEndsAt: string,
    siteUrl: string,
    timezone: string)

  /** What the serializer takes from dayjs and `crypto.randomUUID()`: the
      start and end formatted as `YYYYMMDDTHHmmss` in the event timezone,
      the current UTC time in the same format, and a fresh UID. */
  datatype IcsStamps = IcsStamps(start: string, end: string, stamp: string, uid: string)

  datatype TicketIcs = TicketIcs(raw: string, base64Content: string)

  const Crlf: string := "\r\n"

  function TicketUrl(siteUrl: string): string {
    siteUrl + "/me/ticket"
  }

  const DescriptionText: string := "DESCRIPTION:" + "Keep this ticket handy." + " View ticket: "
  const AttendeeRole: string := ";ROLE=REQ-PARTICIPANT:mailto:"

  function IcsLines(input: TicketIcsInput, k: IcsStamps): (lines: seq<string>)
    ensures |lines| == 16
  {
    [ "BEGIN:VCALENDAR",
      "VERSION:2.0",
      "PRODID:-//AFCM//Tickets//EN",
      "CALSCALE:GREGORIAN",
      "METHOD:PUBLISH",
      "BEGIN:VEVENT",
      "UID:" + k.uid,
      "SUMMARY:" + input.passName + " - AFCM",
      "DTSTART;TZID=" + input.timezone + ":" + k.start,
      "DTEND;TZID=" + input.timezone + ":" + k.end,
      "DTSTAMP:" + k.stamp + "Z",
      DescriptionText + TicketUrl(input.siteUrl),
      "URL:" + TicketUrl(input.siteUrl),
      "ATTENDEE;CN=" + input.attendeeName + AttendeeRole + input.attendeeEmail,
      "END:VEVENT",
      "END:VCALENDAR" ]
  }

  /** `lines.join('\r\n')`. */
  function JoinCrlf(lines: seq<string>): string {
    if |lines| == 0 then ""
    else if |lines| == 1 then lines[0]
    else lines[0] + Crlf + JoinCrlf(lines[1..])
  }

  function BuildTicketIcs(input: TicketIcsInput, k: IcsStamps): (r: TicketIcs)
    ensures Base64.Decode(r.base64Content) == Some(Utf8Encode(r.raw))
    ensures Utf8Decode(Utf8Encode(r.raw)) == Some(r.raw)
  {
    var raw := JoinCrlf(IcsLines(input, k));
    Base64.DecodeEncode(Utf8Encode(raw));
    Utf8RoundTrip(raw);
    TicketIcs(raw, Base64.Encode(Utf8Encode(raw)))
  }

  /** Index of the first CR in s when an LF follows it. */
  function FindCrlf(s: string): (r: Option<nat>)
    ensures r.Some? ==> r.value + 1 < |s| && s[r.value] == '\r' && s[r.value + 1] == '\n'
  {
    if |s| < 2 then None
    else if s[0] == '\r' && s[1] == '\n' then Some(0)
    else match FindCrlf(s[1..]) {
      case None => None
      case Some(j) => Some(j + 1)
    }
  }

  /** Reading a document back as CRLF-separated lines, as a client does. */
  function SplitCrlf(s: string): (lines: seq<string>)
    ensures |lines| >= 1
    decreases |s|
  {
    match FindCrlf(s) {
      case None => [s]
      case Some(k) => [s[..k]] + SplitCrlf(s[k + 2..])
    }
  }

  lemma {:induction false} FindCrlfAfterPlainLine(line: string, rest: string)
    requires '\r' !in line
    ensures FindCrlf(line + Crlf + rest) == Some(|line|)
  {
    var s := line + Crlf + rest;
    if line != [] {
      assert s[0] == line[0];
      assert s[1..] == line[1..] + Crlf + rest;
      FindCrlfAfterPlainLine(line[1..], rest);
    }
  }

  lemma {:induction false} FindCrlfNone(line: string)
    requires '\r' !in line
    ensures FindCrlf(line) == None
  {
    if |line| >= 2 {
      assert line[0] in line;
      FindCrlfNone(line[1..]);
    }
  }

  /** Splitting after a line without CR yields that line first. */
  lemma SplitAfterPlainLine(line: string, rest: string)
    requires '\r' !in line
    ensures SplitCrlf(line + Crlf + rest) == [line] + SplitCrlf(rest)
  {
    var s := line + Crlf + rest;
    FindCrlfAfterPlainLine(line, rest);
    assert s[..|line|] == line;
    assert s[|line| + 2..] == rest;
  }

  /** Splitting undoes joining when no line holds a CR. */
  lemma {:induction false} SplitJoin(lines: seq<string>)
    requires |lines| >= 1
    requires forall l :: l in lines ==> '\r' !in l
    ensures SplitCrlf(JoinCrlf(lines)) == lines
  {
    assert lines[0] in lines;
    if |lines| == 1 {
      FindCrlfNone(lines[0]);
    } else {
      SplitAfterPlainLine(lines[0], JoinCrlf(lines[1..]));
      assert forall l :: l in lines[1..] ==> l in lines;
      SplitJoin(lines[1..]);
      assert [lines[0]] + lines[1..] == lines;
    }
  }

  /** None of the inserted values holds a CR. */
  predicate NoCr(input: TicketIcsInput, k: IcsStamps) {
    && '\r' !in input.attendeeName && '\r' !in input.attendeeEmail && '\r' !in input.passName
    && '\r' !in input.siteUrl && '\r' !in input.timezone
    && '\r' !in k.start && '\r' !in k.end && '\r' !in k.stamp && '\r' !in k.uid
  }

  lemma CalendarTextHasNoCr()
    ensures '\r' !in "BEGIN:VCALENDAR" && '\r' !in "VERSION:2.0" && '\r' !in "PRODID:-//AFCM//Tickets//EN"
    ensures '\r' !in "CALSCALE:GREGORIAN" && '\r' !in "METHOD:PUBLISH" && '\r' !in "BEGIN:VEVENT"
    ensures '\r' !in "END:VEVENT" && '\r' !in "END:VCALENDAR"
  {
  }

  lemma EventTextHasNoCr()
    ensures '\r' !in "UID:" && '\r' !in "SUMMARY:" && '\r' !in " - AFCM" && '\r' !in "DTSTART;TZID="
    ensures '\r' !in ":" && '\r' !in "DTEND;TZID=" && '\r' !in "DTSTAMP:" && '\r' !in "Z" && '\r' !in "URL:"
    ensures '\r' !in "ATTENDEE;CN=" && '\r' !in "/me/ticket"
  {
  }

  lemma LinkTextHasNoCr()
    ensures '\r' !in DescriptionText && '\r' !in AttendeeRole
  {
    assert '\r' !in "DESCRIPTION:" && '\r' !in "Keep this ticket handy." && '\r' !in " View ticket: ";
  }

  lemma LinesHaveNoCr(input: TicketIcsInput, k: IcsStamps)
    requires NoCr(input, k)
    ensures forall l :: l in IcsLines(input, k) ==> '\r' !in l
  {
    CalendarTextHasNoCr();
    EventTextHasNoCr();
    LinkTextHasNoCr();
  }

  /** The layout a client reads back from `raw`: sixteen lines, the VEVENT
      (lines 6 to 15, counting from 1) nested in the VCALENDAR (lines 1 to 16),
      and the timed properties carrying the timezone. */
  lemma RawLayout(input: TicketIcsInput, k: IcsStamps)
    requires NoCr(input, k)
    ensures var ls := SplitCrlf(BuildTicketIcs(input, k).raw);
      && |ls| == 16
      && ls[0] == "BEGIN:VCALENDAR" && ls[15] == "END:VCALENDAR"
      && ls[5] == "BEGIN:VEVENT" && ls[14] == "END:VEVENT"
      && ls[6] == "UID:" + k.uid
      && ls[7] == "SUMMARY:" + input.passName + " - AFCM"
      && ls[8] == "DTSTART;TZID=" + input.timezone + ":" + k.start
      && ls[9] == "DTEND;TZID=" + input.timezone + ":" + k.end
  {
    RawLines(input, k);
    LinesLayout(input, k);
  }

  lemma LinesLayout(input: TicketIcsInput, k: IcsStamps)
    ensures var ls := IcsLines(input, k);
      && ls[0] == "BEGIN:VCALENDAR" && ls[15] == "END:VCALENDAR"
      && ls[5] == "BEGIN:VEVENT" && ls[14] == "END:VEVENT"
      && ls[6] == "UID:" + k.uid
      && ls[7] == "SUMMARY:" + input.passName + " - AFCM"
      && ls[8] == "DTSTART;TZID=" + input.timezone + ":" + k.start
      && ls[9] == "DTEND;TZID=" + input.timezone + ":" + k.end
  {
  }

  /** Both links end in the ticket page, and the attendee line carries the
      attendee's name and address. */
  lemma RawLinks(input: TicketIcsInput, k: IcsStamps)
    requires NoCr(input, k)
    ensures var ls := SplitCrlf(BuildTicketIcs(input, k).raw);
      && |ls| == 16
      && EndsWith(ls[11], input.siteUrl + "/me/ticket") && StartsWith(ls[11], "DESCRIPTION:")
      && ls[12] == "URL:" + input.siteUrl + "/me/ticket"
      && StartsWith(ls[13], "ATTENDEE;CN=" + input.attendeeName + ";")
      && EndsWith(ls[13], ":mailto:" + input.attendeeEmail)
  {
    RawLines(input, k);
    LinesLinks(input, k);
  }

  lemma LinesLinks(input: TicketIcsInput, k: IcsStamps)
    ensures var ls := IcsLines(input, k);
      && EndsWith(ls[11], input.siteUrl + "/me/ticket") && StartsWith(ls[11], "DESCRIPTION:")
      && ls[12] == "URL:" + input.siteUrl + "/me/ticket"
      && StartsWith(ls[13], "ATTENDEE;CN=" + input.attendeeName + ";")
      && EndsWith(ls[13], ":mailto:" + input.attendeeEmail)
  {
    DescriptionLine(input.siteUrl);
    AttendeeLine(input.attendeeName, input.attendeeEmail);
  }

  /** A client splitting `raw` at CRLF gets back exactly the sixteen lines. */
  lemma RawLines(input: TicketIcsInput, k: IcsStamps)
    requires NoCr(input, k)
    ensures SplitCrlf(BuildTicketIcs(input, k).raw) == IcsLines(input, k)
  {
    LinesHaveNoCr(input, k);
    SplitJoin(IcsLines(input, k));
  }

  lemma DescriptionLine(siteUrl: string)
    ensures var l := DescriptionText + TicketUrl(siteUrl);
      EndsWith(l, siteUrl + "/me/ticket") && StartsWith(l, "DESCRIPTION:")
  {
    var l := DescriptionText + TicketUrl(siteUrl);
    assert DescriptionText == "DESCRIPTION:" + DescriptionText[12..];
    assert l == "DESCRIPTION:" + (DescriptionText[12..] + TicketUrl(siteUrl));
    assert l[..12] == "DESCRIPTION:";
    assert l[|l| - |TicketUrl(siteUrl)|..] == TicketUrl(siteUrl);
  }

  lemma AttendeeLine(name: string, email: string)
    ensures var l := "ATTENDEE;CN=" + name + AttendeeRole + email;
      StartsWith(l, "ATTENDEE;CN=" + name + ";") && EndsWith(l, ":mailto:" + email)
  {
    var l := "ATTENDEE;CN=" + name + AttendeeRole + email;
    var cn := "ATTENDEE;CN=" + name + ";";
    var mail := ":mailto:" + email;
    assert AttendeeRole == ";" + "ROLE=REQ-PARTICIPANT" + ":mailto:";
    assert l == cn + "ROLE=REQ-PARTICIPANT" + mail;
    assert l[..|cn|] == cn;
    assert l[|l| - |mail|..] == mail;
  }

  lemma {:induction false} JoinFrame(lines: seq<string>)
    requires |lines| >= 2
    ensures StartsWith(JoinCrlf(lines), lines[0] + Crlf)
    ensures EndsWith(JoinCrlf(lines), Crlf + lines[|lines| - 1])
  {
    var rest := JoinCrlf(lines[1..]);
    assert JoinCrlf(lines) == lines[0] + Crlf + rest;
    assert (lines[0] + Crlf + rest)[..|lines[0] + Crlf|] == lines[0] + Crlf;
    if |lines| == 2 {
      assert rest == lines[1];
    } else {
      JoinFrame(lines[1..]);
    }
  }

  /** Whatever the values, `raw` opens with BEGIN:VCALENDAR and a CRLF and
      closes with CRLF END:VCALENDAR: there is no trailing CRLF. */
  lemma RawFrame(input: TicketIcsInput, k: IcsStamps)
    ensures var raw := BuildTicketIcs(input, k).raw;
      StartsWith(raw, "BEGIN:VCALENDAR" + Crlf) && EndsWith(raw, Crlf + "END:VCALENDAR") && !EndsWith(raw, Crlf)
  {
    var lines := IcsLines(input, k);
    var raw := JoinCrlf(lines);
    JoinFrame(lines);
    var tail := Crlf + lines[15];
    assert raw[|raw| - |tail|..] == tail;
    assert raw[|raw| - 1] == tail[|tail| - 1] == 'R';
  }

  lemma {:induction false} JoinSplitLine(pre: seq<string>, l1: string, l2: string, post: seq<string>)
    requires |post| >= 1
    ensures JoinCrlf(pre + [l1 + Crlf + l2] + post) == JoinCrlf(pre + [l1, l2] + post)
  {
    if pre == [] {
      assert [l1 + Crlf + l2] + post == [l1 + Crlf + l2] + post;
      assert ([l1, l2] + post)[1..] == [l2] + post;
    } else {
      JoinSplitLine(pre[1..], l1, l2, post);
      assert (pre + [l1 + Crlf + l2] + post)[1..] == pre[1..] + [l1 + Crlf + l2] + post;
      assert (pre + [l1, l2] + post)[1..] == pre[1..] + [l1, l2] + post;
    }
  }

  /** No escaping: a pass name holding CRLF ends the SUMMARY line early and
      its remainder becomes a line of its own, so a client reads seventeen
      lines, the injected text as the ninth line. */
  lemma PassNameInjectsLine(input: TicketIcsInput, k: IcsStamps, a: string, b: string)
    requires input.passName == a + Crlf + b && '\r' !in a && '\r' !in b
    requires NoCr(input.(passName := ""), k)
    ensures var ls := SplitCrlf(BuildTicketIcs(input, k).raw);
      |ls| == 17 && ls[7] == "SUMMARY:" + a && ls[8] == b + " - AFCM"
  {
    var lines := IcsLines(input, k);
    var l1, l2 := "SUMMARY:" + a, b + " - AFCM";
    assert lines[7] == l1 + Crlf + l2;
    assert lines == lines[..7] + [lines[7]] + lines[8..];
    JoinSplitLine(lines[..7], l1, l2, lines[8..]);
    var split := lines[..7] + [l1, l2] + lines[8..];
    SpliceHasNoCr(input, k, a, b);
    SplitJoin(split);
  }

  /** Every line of the spliced document is free of CR: all lines but the
      SUMMARY line coincide with those of the same document without a pass
      name. */
  lemma SpliceHasNoCr(input: TicketIcsInput, k: IcsStamps, a: string, b: string)
    requires '\r' !in a && '\r' !in b
    requires NoCr(input.(passName := ""), k)
    ensures var lines := IcsLines(input, k);
      forall l :: l in lines[..7] + ["SUMMARY:" + a, b + " - AFCM"] + lines[8..] ==> '\r' !in l
  {
    var lines := IcsLines(input, k);
    var plain := IcsLines(input.(passName := ""), k);
    LinesHaveNoCr(input.(passName := ""), k);
    assert lines[..7] == plain[..7] && lines[8..] == plain[8..];
    assert forall l :: l in lines[..7] ==> l in plain;
    assert forall l :: l in lines[8..] ==> l in plain;
    EventTextHasNoCr();
    assert '\r' !in "SUMMARY:" + a && '\r' !in b + " - AFCM";
  }
}
