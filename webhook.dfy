/** The Paystack webhook of supabase/functions/paystack-webhook/index.ts:
    authenticate the delivery, ask the gateway whether the payment request is
    paid, find the order by its request code, mark it paid, promote the
    attendee, issue at most one ticket and queue a notification.

    The database is a `Store` object whose tables are maps keyed by row id
    (event days and notifications are row sequences); the handler is
    `Store.HandleWebhook`, whose effect is the pure function `Deliver`. The
    gateway's verification result, the ticket serial, the fresh ticket id, the
    QR image, the formatted calendar times, the clock and the single failing
    call of a delivery (if any) are inputs. */
module Webhook {
  import opened Wrappers
  import opened Bytes
  import opened Crypto
  import Hex
  import Config
  import Qr
  import Ics

  // ---------------------------------------------------------------- rows

  datatype OrderStatus = Pending | Paid | Expired | Cancelled

  /** `verification.data` of the gateway's verify-by-code answer. */
  datatype PaymentData = PaymentData(requestCode: string, paid: bool, amount: int, currency: string)

  datatype Order = Order(
    attendeeId: string,
    passProductId: string,
    status: OrderStatus,
    requestCode: Option<string>,
    invoiceUrl: Option<string>,
    paidAt: Option<string>,
    paystackMeta: Option<PaymentData>)

  datatype AttendeeStatus = AttendeeUnpaid | AttendeePaid

  datatype Attendee = Attendee(fullName: string, email: string, status: AttendeeStatus, passProductId: Option<string>)

  datatype PassProduct = PassProduct(name: string, validStartDay: int, validEndDay: int)

  datatype EventDay = EventDay(dayNumber: int, doorsOpen: string, doorsClose: string)

  datatype EventSettings = EventSettings(timezone: string, siteUrl: string)

  datatype Ticket = Ticket(
    attendeeId: string,
    orderId: string,
    passProductId: string,
    serialNumber: string,
    qrPayload: Qr.SignedTicketPayload,
    qrChecksum: string,
    validFrom: string,
    validTo: string,
    icsBase64: string,
    qrDataUrl: string)

  /** A queued e-mail; its HTML and text bodies are not modelled. */
  datatype Notification = Notification(
    recipientEmail: string,
    subject: string,
    status: string,
    kind: string,
    orderId: string,
    attendeeId: string,
    ticketId: string)

  /** The whole database as one value. */
  datatype Tables = Tables(
    orders: map<string, Order>,
    attendees: map<string, Attendee>,
    passes: map<string, PassProduct>,
    eventDays: seq<EventDay>,
    settings: Option<EventSettings>,
    tickets: map<string, Ticket>,
    notifications: seq<Notification>)

  // ------------------------------------------------------------- request

  /** A JSON member as the handler can see it: absent, null, or a string. */
  datatype JsonField = Undefined | Null | Text(s: string)

  /** The two request-code members of the payload's `data` object. */
  datatype EventData = EventData(requestCode: JsonField, paymentRequestCode: JsonField)

  /** `JSON.parse(rawBody)`: unparseable, or an object whose `data` member
      is absent or an object. */
  datatype Body = Malformed | Parsed(data: Option<EventData>)

  datatype Request = Request(httpMethod: string, signature: Option<string>, rawBody: string, body: Body)

  datatype Response = Response(status: int, text: string)

  /** The call that fails during a delivery, if any. */
  datatype Fault =
    | NoFault
    | FailVerify | FailOrderLookup | FailAttendeeFetch | FailPassFetch | FailSettingsFetch
    | FailEventDaysFetch | FailSerial | FailSigning | FailQrImage | FailIcs
    | FailOrderUpdate | FailAttendeeUpdate | FailTicketLookup | FailTicketInsert
    | FailNotificationInsert | FailMail

  /** What one delivery obtains from outside the store. */
  datatype Delivery = Delivery(
    verification: PaymentData,
    serial: string,
    ticketId: string,
    qrDataUrl: string,
    stamps: Ics.IcsStamps,
    nowIso: string,
    fault: Fault)

  /** The configuration loaded at start-up and the two MAC functions. */
  datatype Keys = Keys(config: Config.RuntimeConfig, hmac512: HmacSha512, hmac256: HmacSha256)

  const OkResponse: Response := Response(200, "ok")
  const IgnoredResponse: Response := Response(200, "ignored")
  const ErrorResponse: Response := Response(500, "error")
  const MethodNotAllowed: Response := Response(405, "Method not allowed")
  const InvalidSignature: Response := Response(401, "Invalid signature")

  // ------------------------------------------------------ pure steps

  /** The header value a genuine delivery carries: the lowercase hex of
      HMAC-SHA-512 over the UTF-8 raw body, keyed with the secret. */
  function ExpectedSignature(body: string, secret: string, hmac: HmacSha512): (sig: string)
    ensures |sig| == 128
    ensures forall i :: 0 <= i < |sig| ==> Hex.IsDigit(sig[i])
  {
    Hex.Encode(hmac(Utf8Encode(secret), Utf8Encode(body)))
  }

  /** `verifySignature`: false for an absent or empty header, otherwise an
      exact, case-sensitive comparison with the computed hex. */
  function VerifySignature(body: string, signature: Option<string>, secret: string, hmac: HmacSha512): (ok: bool)
    ensures ok <==> signature == Some(ExpectedSignature(body, secret, hmac))
  {
    if signature.None? || signature.value == "" then false
    else ExpectedSignature(body, secret, hmac) == signature.value
  }

  /** `a ?? b`. */
  function Coalesce(a: JsonField, b: JsonField): JsonField {
    if a.Undefined? || a.Null? then b else a
  }

  /** `data?.request_code ?? data?.payment_request_code`, kept only when truthy. */
  function RequestCode(data: Option<EventData>): (code: Option<string>)
    ensures code.Some? ==> code.value != ""
    ensures data.None? ==> code.None?
    // a string request_code wins, even the empty one, which does not fall back
    ensures data.Some? && data.value.requestCode.Text? ==>
      code == (if data.value.requestCode.s == "" then None else Some(data.value.requestCode.s))
    // a null or absent request_code falls back to payment_request_code
    ensures data.Some? && !data.value.requestCode.Text? ==>
      code == (match data.value.paymentRequestCode
               case Text(s) => if s == "" then None else Some(s)
               case _ => None)
  {
    if data.None? then None
    else match Coalesce(data.value.requestCode, data.value.paymentRequestCode) {
      case Text(s) => if s == "" then None else Some(s)
      case _ => None
    }
  }

  /** An event-day record with that day number (`Array.prototype.find` over
      the rows the query returns, which come in no fixed order). */
  function FindDay(days: seq<EventDay>, n: int): (r: Option<EventDay>)
    ensures r.Some? ==> r.value in days && r.value.dayNumber == n
    ensures r.None? ==> forall d :: d in days ==> d.dayNumber != n
  {
    if days == [] then None
    else if days[0].dayNumber == n then Some(days[0])
    else FindDay(days[1..], n)
  }

  datatype Window = Window(validFrom: string, validTo: string)

  predicate HasDay(days: seq<EventDay>, n: int) {
    exists d :: d in days && d.dayNumber == n
  }

  /** `computePassWindow`: null unless both days have a record; otherwise the
      start day's doors-open and the end day's doors-close. */
  function ComputePassWindow(days: seq<EventDay>, startDay: int, endDay: int): (w: Option<Window>)
    ensures w.None? <==> !HasDay(days, startDay) || !HasDay(days, endDay)
    ensures w.Some? ==> exists s, e :: s in days && e in days && s.dayNumber == startDay && e.dayNumber == endDay
                                    && w.value == Window(s.doorsOpen, e.doorsClose)
  {
    match (FindDay(days, startDay), FindDay(days, endDay)) {
      case (Some(s), Some(e)) => Some(Window(s.doorsOpen, e.doorsClose))
      case _ => None
    }
  }

  /** Ids of the orders recorded with a request code. */
  function OrdersWithCode(orders: map<string, Order>, code: string): set<string> {
    set id | id in orders && orders[id].requestCode == Some(code)
  }

  lemma SingletonMembers(ids: set<string>)
    requires |ids| == 1
    ensures exists id :: ids == {id}
  {
    var id :| id in ids;
    assert |ids - {id}| == 0;
    assert ids == {id};
  }

  /** The outcome of a `maybeSingle()` select: no row, the row, or the error
      PostgREST reports for several rows. */
  datatype Lookup<T> = NoRow | OneRow(key: string, row: T) | ManyRows

  /** `fetchOrderByRequestCode`, with the store call succeeding. */
  function FetchOrderByRequestCode(orders: map<string, Order>, code: string): (r: Lookup<Order>)
    ensures r.NoRow? <==> OrdersWithCode(orders, code) == {}
    ensures r.OneRow? <==> |OrdersWithCode(orders, code)| == 1
    ensures r.OneRow? ==> OrdersWithCode(orders, code) == {r.key}
    ensures r.OneRow? ==> r.key in orders && r.row == orders[r.key] && r.row.requestCode == Some(code)
  {
    var ids := OrdersWithCode(orders, code);
    if |ids| == 0 then NoRow
    else if |ids| == 1 then
      SingletonMembers(ids);
      var id :| ids == {id};
      OneRow(id, orders[id])
    else
      assert forall id :: ids != {id};
      ManyRows
  }

  /** The guarded update `.update(...).eq('id', id).eq('status', 'pending')`:
      a pending row becomes paid with its payment time and gateway data; any
      other row, and a missing id, change nothing. */
  function MarkPaid(orders: map<string, Order>, id: string, nowIso: string, meta: PaymentData): map<string, Order> {
    if id in orders && orders[id].status == Pending then
      orders[id := orders[id].(status := Paid, paidAt := Some(nowIso), paystackMeta := Some(meta))]
    else orders
  }

  /** Ids of the tickets issued for an order. */
  function TicketsFor(tickets: map<string, Ticket>, orderId: string): set<string> {
    set id | id in tickets && tickets[id].orderId == orderId
  }

  /** `sendMail` does nothing without a Resend key, so it can only fail with one. */
  predicate MailEnabled(c: Config.RuntimeConfig) {
    c.mail.resendApiKey.Some? && c.mail.resendApiKey.value != ""
  }

  // ------------------------------------------------------- the handler

  /** What the read phase has gathered when the handler reaches its writes. */
  datatype Plan = Plan(
    verification: PaymentData,
    orderId: string,
    order: Order,
    attendee: Attendee,
    pass: PassProduct,
    settings: EventSettings,
    window: Window,
    payload: Qr.SignedTicketPayload,
    ics: Ics.TicketIcs)

  datatype Stage = Respond(response: Response) | Proceed(plan: Plan)

  function Claims(d: Delivery, order: Order, orderId: string, w: Window): Qr.TicketClaims {
    Qr.TicketClaims(d.ticketId, order.attendeeId, orderId, w.validFrom, w.validTo)
  }

  function IcsInput(a: Attendee, p: PassProduct, s: EventSettings, w: Window): Ics.TicketIcsInput {
    Ics.TicketIcsInput(a.fullName, a.email, p.name, w.validFrom, w.validTo, s.siteUrl, s.timezone)
  }

  /** Lines 31-98: everything between authentication and the first write.
      Each exit returns a response and leaves the store as it is. */
  function Prepare(t: Tables, body: Body, d: Delivery, k: Keys): Stage {
    if body.Malformed? then Respond(ErrorResponse)
    else match RequestCode(body.data) {
      case None => Respond(OkResponse)
      case Some(code) =>
        if d.fault == FailVerify then Respond(ErrorResponse)
        else if !d.verification.paid then Respond(IgnoredResponse)
        else if d.fault == FailOrderLookup then Respond(ErrorResponse)
        else match FetchOrderByRequestCode(t.orders, code) {
          case ManyRows => Respond(ErrorResponse)
          case NoRow => Respond(OkResponse)
          case OneRow(orderId, order) =>
            if order.status == Paid then Respond(OkResponse)
            else if d.fault == FailAttendeeFetch || order.attendeeId !in t.attendees then Respond(ErrorResponse)
            else if d.fault == FailPassFetch || order.passProductId !in t.passes then Respond(ErrorResponse)
            else if d.fault == FailSettingsFetch || t.settings.None? then Respond(ErrorResponse)
            else if d.fault == FailEventDaysFetch then Respond(ErrorResponse)
            else
              var pass := t.passes[order.passProductId];
              match ComputePassWindow(t.eventDays, pass.validStartDay, pass.validEndDay) {
                case None => Respond(ErrorResponse)
                case Some(w) =>
                  if d.fault in {FailSerial, FailSigning, FailQrImage, FailIcs} then Respond(ErrorResponse)
                  else
                    var attendee := t.attendees[order.attendeeId];
                    var payload := Qr.CreateSignedTicketPayload(Claims(d, order, orderId, w), k.config.qrSecret, k.hmac256);
                    var ics := Ics.BuildTicketIcs(IcsInput(attendee, pass, t.settings.value, w), d.stamps);
                    Proceed(Plan(d.verification, orderId, order, attendee, pass, t.settings.value, w, payload, ics))
              }
        }
    }
  }

  function NewTicket(p: Plan, d: Delivery): Ticket {
    Ticket(p.order.attendeeId, p.orderId, p.order.passProductId, d.serial, p.payload, p.payload.checksum,
           p.window.validFrom, p.window.validTo, p.ics.base64Content, d.qrDataUrl)
  }

  /** `Your AFCM ticket – <pass name>`, with an en dash. */
  function Subject(passName: string): string {
    "Your AFCM ticket – " + passName
  }

  function IssuedNotice(p: Plan, d: Delivery): Notification {
    Notification(p.attendee.email, Subject(p.pass.name), "pending", "ticket_issued", p.orderId, p.order.attendeeId, d.ticketId)
  }

  /** Lines 100-128: the order and attendee updates, then the ticket stage.
      Each failure ends the delivery with 500 and keeps the writes already
      made; the order update's row count is not checked. */
  function Commit(t: Tables, p: Plan, d: Delivery, k: Keys): (Response, Tables) {
    if d.fault == FailOrderUpdate then (ErrorResponse, t)
    else
      var t1 := t.(orders := MarkPaid(t.orders, p.orderId, d.nowIso, p.verification));
      if d.fault == FailAttendeeUpdate then (ErrorResponse, t1)
      else IssueTicket(t1.(attendees := t1.attendees[p.order.attendeeId :=
                         p.attendee.(status := AttendeePaid, passProductId := Some(p.order.passProductId))]), p, d, k)
  }

  /** Lines 130-222: a ticket unless the lookup returns exactly one for the
      order (an error or several rows read as none), then the notification,
      whose insert result is ignored, then the e-mail. */
  function IssueTicket(t: Tables, p: Plan, d: Delivery, k: Keys): (Response, Tables) {
    var existing := d.fault != FailTicketLookup && |TicketsFor(t.tickets, p.orderId)| == 1;
    if !existing && (d.fault == FailTicketInsert || d.ticketId in t.tickets) then (ErrorResponse, t)
    else
      var t1 := if existing then t else t.(tickets := t.tickets[d.ticketId := NewTicket(p, d)]);
      var t2 := if d.fault == FailNotificationInsert then t1
                else t1.(notifications := t1.notifications + [IssuedNotice(p, d)]);
      if d.fault == FailMail && MailEnabled(k.config) then (ErrorResponse, t2) else (OkResponse, t2)
  }

  /** One delivery: the response and the store afterwards. */
  function Deliver(t: Tables, req: Request, d: Delivery, k: Keys): (Response, Tables) {
    if req.httpMethod != "POST" then (MethodNotAllowed, t)
    else if !VerifySignature(req.rawBody, req.signature, k.config.paystack.secretKey, k.hmac512) then (InvalidSignature, t)
    else match Prepare(t, req.body, d, k) {
      case Respond(r) => (r, t)
      case Proceed(p) => Commit(t, p, d, k)
    }
  }

  // ---------------------------------------------------------- the store

  class Store {
    var orders: map<string, Order>
    var attendees: map<string, Attendee>
    var passes: map<string, PassProduct>
    var eventDays: seq<EventDay>
    var settings: Option<EventSettings>
    var tickets: map<string, Ticket>
    var notifications: seq<Notification>

    function Snapshot(): Tables
      reads this
    {
      Tables(orders, attendees, passes, eventDays, settings, tickets, notifications)
    }

    constructor (t: Tables)
      ensures Snapshot() == t
    {
      orders, attendees, passes := t.orders, t.attendees, t.passes;
      eventDays, settings := t.eventDays, t.settings;
      tickets, notifications := t.tickets, t.notifications;
    }

    /** The `Deno.serve` handler: authenticate, then read, then write. */
    method HandleWebhook(req: Request, d: Delivery, k: Keys) returns (resp: Response)
      modifies this
      ensures (resp, Snapshot()) == Deliver(old(Snapshot()), req, d, k)
    {
      if req.httpMethod != "POST" {
        return MethodNotAllowed;
      }
      if !VerifySignature(req.rawBody, req.signature, k.config.paystack.secretKey, k.hmac512) {
        return InvalidSignature;
      }
      var stage := ReadPhase(req.body, d, k);
      if stage.Respond? {
        return stage.response;
      }
      resp := WritePhase(stage.plan, d, k);
    }

    /** Lines 31-98, which only read the store. */
    method ReadPhase(body: Body, d: Delivery, k: Keys) returns (stage: Stage)
      ensures stage == Prepare(Snapshot(), body, d, k)
    {
      if body.Malformed? {
        return Respond(ErrorResponse);
      }
      var code := RequestCode(body.data);
      if code.None? {
        return Respond(OkResponse);
      }
      if d.fault == FailVerify {
        return Respond(ErrorResponse);
      }
      if !d.verification.paid {
        return Respond(IgnoredResponse);
      }
      if d.fault == FailOrderLookup {
        return Respond(ErrorResponse);
      }
      var found := FetchOrderByRequestCode(orders, code.value);
      if found.ManyRows? {
        return Respond(ErrorResponse);
      } else if found.NoRow? {
        return Respond(OkResponse);
      }
      var orderId, order := found.key, found.row;
      if order.status == Paid {
        return Respond(OkResponse);
      }
      if d.fault == FailAttendeeFetch || order.attendeeId !in attendees {
        return Respond(ErrorResponse);
      }
      var attendee := attendees[order.attendeeId];
      if d.fault == FailPassFetch || order.passProductId !in passes {
        return Respond(ErrorResponse);
      }
      var pass := passes[order.passProductId];
      if d.fault == FailSettingsFetch || settings.None? {
        return Respond(ErrorResponse);
      }
      var eventSettings := settings.value;
      if d.fault == FailEventDaysFetch {
        return Respond(ErrorResponse);
      }
      var window := ComputePassWindow(eventDays, pass.validStartDay, pass.validEndDay);
      if window.None? {
        return Respond(ErrorResponse);
      }
      var w := window.value;
      if d.fault == FailSerial || d.fault == FailSigning || d.fault == FailQrImage || d.fault == FailIcs {
        return Respond(ErrorResponse);
      }
      var payload := Qr.CreateSignedTicketPayload(Claims(d, order, orderId, w), k.config.qrSecret, k.hmac256);
      var ics := Ics.BuildTicketIcs(IcsInput(attendee, pass, eventSettings, w), d.stamps);
      return Proceed(Plan(d.verification, orderId, order, attendee, pass, eventSettings, w, payload, ics));
    }

    /** Lines 100-128: the order and attendee writes. */
    method WritePhase(p: Plan, d: Delivery, k: Keys) returns (resp: Response)
      modifies this
      ensures (resp, Snapshot()) == Commit(old(Snapshot()), p, d, k)
    {
      if d.fault == FailOrderUpdate {
        return ErrorResponse;
      }
      // the order row, guarded by its status
      if p.orderId in orders && orders[p.orderId].status == Pending {
        orders := orders[p.orderId := orders[p.orderId].(status := Paid, paidAt := Some(d.nowIso), paystackMeta := Some(p.verification))];
      }
      if d.fault == FailAttendeeUpdate {
        return ErrorResponse;
      }
      attendees := attendees[p.order.attendeeId := p.attendee.(status := AttendeePaid, passProductId := Some(p.order.passProductId))];
      resp := TicketPhase(p, d, k);
    }

    /** Lines 130-222: the ticket, the notification and the e-mail. */
    method TicketPhase(p: Plan, d: Delivery, k: Keys) returns (resp: Response)
      modifies this
      ensures (resp, Snapshot()) == IssueTicket(old(Snapshot()), p, d, k)
    {
      var existing := d.fault != FailTicketLookup && |TicketsFor(tickets, p.orderId)| == 1;
      if !existing {
        if d.fault == FailTicketInsert || d.ticketId in tickets {
          return ErrorResponse;
        }
        tickets := tickets[d.ticketId := NewTicket(p, d)];
      }
      if d.fault != FailNotificationInsert {
        notifications := notifications + [IssuedNotice(p, d)];
      }
      if d.fault == FailMail && MailEnabled(k.config) {
        return ErrorResponse;
      }
      return OkResponse;
    }
  }
}
