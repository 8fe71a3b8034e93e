/** What deliveries of the Paystack webhook can and cannot do to the store:
    the early exits that write nothing, the status guard on the order row,
    the existing-ticket guard, and the gaps those guards leave. */
module WebhookProperties {
  import opened Wrappers
  import opened Webhook
  import Hex
  import Qr

  /** A POST whose signature header matches the body. */
  predicate Authentic(req: Request, k: Keys) {
    req.httpMethod == "POST" && VerifySignature(req.rawBody, req.signature, k.config.paystack.secretKey, k.hmac512)
  }

  /** The delivery carries `code`, the gateway says it is paid, and the order
      lookup runs. */
  predicate PaidCode(req: Request, d: Delivery, code: string) {
    req.body.Parsed? && RequestCode(req.body.data) == Some(code)
    && d.fault != FailVerify && d.verification.paid && d.fault != FailOrderLookup
  }

  // ------------------------------------------------ the read phase

  /** What the read phase has established when it hands over to the writes. */
  lemma ProceedFacts(t: Tables, body: Body, d: Delivery, k: Keys)
    requires Prepare(t, body, d, k).Proceed?
    ensures var p := Prepare(t, body, d, k).plan;
      body.Parsed? && RequestCode(body.data).Some?
      && d.verification.paid && p.verification == d.verification
      && OrdersWithCode(t.orders, RequestCode(body.data).value) == {p.orderId}
      && p.orderId in t.orders && p.order == t.orders[p.orderId] && p.order.status != Paid
      && p.order.attendeeId in t.attendees && p.attendee == t.attendees[p.order.attendeeId]
      && p.order.passProductId in t.passes && p.pass == t.passes[p.order.passProductId]
      && p.payload == Qr.CreateSignedTicketPayload(Claims(d, p.order, p.orderId, p.window), k.config.qrSecret, k.hmac256)
      && d.fault !in {FailVerify, FailOrderLookup, FailAttendeeFetch, FailPassFetch, FailSettingsFetch,
                      FailEventDaysFetch, FailSerial, FailSigning, FailQrImage, FailIcs}
  {
  }

  lemma PrepareResponds(t: Tables, body: Body, d: Delivery, k: Keys)
    requires Prepare(t, body, d, k).Respond?
    ensures Prepare(t, body, d, k).response in {OkResponse, IgnoredResponse, ErrorResponse}
  {
  }

  /** Every answer is one of the handler's five responses. */
  lemma KnownResponses(t: Tables, req: Request, d: Delivery, k: Keys)
    ensures Deliver(t, req, d, k).0 in {MethodNotAllowed, InvalidSignature, OkResponse, IgnoredResponse, ErrorResponse}
  {
    DeliverSplit(t, req, d, k);
    if Authentic(req, k) {
      if Prepare(t, req.body, d, k).Respond? {
        PrepareResponds(t, req.body, d, k);
      } else {
        CommitResponds(t, Prepare(t, req.body, d, k).plan, d, k);
      }
    }
  }

  /** A delivery either writes what `Commit` writes for the plan the read
      phase produced, or nothing at all. */
  lemma DeliverSplit(t: Tables, req: Request, d: Delivery, k: Keys)
    ensures Authentic(req, k) && Prepare(t, req.body, d, k).Proceed? ==>
      Deliver(t, req, d, k) == Commit(t, Prepare(t, req.body, d, k).plan, d, k)
    ensures !(Authentic(req, k) && Prepare(t, req.body, d, k).Proceed?) ==> Deliver(t, req, d, k).1 == t
  {
  }

  /** The ticket stage writes only tickets and notifications. */
  lemma IssueTicketFrame(t: Tables, p: Plan, d: Delivery, k: Keys)
    ensures var t' := IssueTicket(t, p, d, k).1;
      t' == t.(tickets := t'.tickets, notifications := t'.notifications)
  {
  }

  /** The ticket stage leaves the tickets alone or adds the new one under a
      fresh id, and only when the lookup did not find exactly one. */
  lemma IssueTicketTickets(t: Tables, p: Plan, d: Delivery, k: Keys)
    ensures var t' := IssueTicket(t, p, d, k).1;
      t'.tickets == t.tickets
      || (d.ticketId !in t.tickets && t'.tickets == t.tickets[d.ticketId := NewTicket(p, d)]
          && !(d.fault != FailTicketLookup && |TicketsFor(t.tickets, p.orderId)| == 1))
  {
    if d.fault != FailTicketLookup && |TicketsFor(t.tickets, p.orderId)| == 1 {
      assert IssueTicket(t, p, d, k).1.tickets == t.tickets;
    }
  }

  /** The ticket stage inserts when the lookup finds no single ticket, the id
      is fresh and the insert does not fail. */
  lemma IssueTicketInserts(t: Tables, p: Plan, d: Delivery, k: Keys)
    requires d.fault == FailTicketLookup || |TicketsFor(t.tickets, p.orderId)| != 1
    requires d.fault != FailTicketInsert && d.ticketId !in t.tickets
    ensures IssueTicket(t, p, d, k).1.tickets == t.tickets[d.ticketId := NewTicket(p, d)]
  {
  }

  lemma CommitInserts(t: Tables, p: Plan, d: Delivery, k: Keys)
    requires d.fault == FailTicketLookup || |TicketsFor(t.tickets, p.orderId)| != 1
    requires d.fault !in {FailOrderUpdate, FailAttendeeUpdate, FailTicketInsert} && d.ticketId !in t.tickets
    ensures Commit(t, p, d, k).1.tickets == t.tickets[d.ticketId := NewTicket(p, d)]
  {
    var t1 := t.(orders := MarkPaid(t.orders, p.orderId, d.nowIso, p.verification));
    IssueTicketInserts(t1.(attendees := t1.attendees[p.order.attendeeId :=
                         p.attendee.(status := AttendeePaid, passProductId := Some(p.order.passProductId))]), p, d, k);
  }

  lemma TicketsForInsert(tickets: map<string, Ticket>, id: string, tk: Ticket)
    requires id !in tickets
    ensures TicketsFor(tickets[id := tk], tk.orderId) == TicketsFor(tickets, tk.orderId) + {id}
  {
  }

  /** The write phase, table by table. */
  lemma CommitShape(t: Tables, p: Plan, d: Delivery, k: Keys)
    ensures var t' := Commit(t, p, d, k).1;
      t'.passes == t.passes && t'.eventDays == t.eventDays && t'.settings == t.settings
      && t'.orders == (if d.fault == FailOrderUpdate then t.orders else MarkPaid(t.orders, p.orderId, d.nowIso, p.verification))
      && (t'.tickets == t.tickets
          || (d.ticketId !in t.tickets && t'.tickets == t.tickets[d.ticketId := NewTicket(p, d)]
              && !(d.fault != FailTicketLookup && |TicketsFor(t.tickets, p.orderId)| == 1)))
  {
    if d.fault != FailOrderUpdate && d.fault != FailAttendeeUpdate {
      var t1 := t.(orders := MarkPaid(t.orders, p.orderId, d.nowIso, p.verification));
      var t2 := t1.(attendees := t1.attendees[p.order.attendeeId :=
                      p.attendee.(status := AttendeePaid, passProductId := Some(p.order.passProductId))]);
      IssueTicketFrame(t2, p, d, k);
      IssueTicketTickets(t2, p, d, k);
    }
  }

  /** The ticket stage when no call fails. */
  lemma IssueTicketWithoutFault(t: Tables, p: Plan, d: Delivery, k: Keys)
    requires d.fault == NoFault
    requires |TicketsFor(t.tickets, p.orderId)| != 1 ==> d.ticketId !in t.tickets
    ensures var (r, t') := IssueTicket(t, p, d, k);
      r == OkResponse
      && t'.orders == t.orders && t'.attendees == t.attendees
      && t'.tickets == (if |TicketsFor(t.tickets, p.orderId)| == 1 then t.tickets else t.tickets[d.ticketId := NewTicket(p, d)])
      && t'.notifications == t.notifications + [IssuedNotice(p, d)]
  {
  }

  /** The write phase when no call fails. */
  lemma CommitWithoutFault(t: Tables, p: Plan, d: Delivery, k: Keys)
    requires d.fault == NoFault
    requires |TicketsFor(t.tickets, p.orderId)| != 1 ==> d.ticketId !in t.tickets
    ensures var (r, t') := Commit(t, p, d, k);
      r == OkResponse
      && t'.orders == MarkPaid(t.orders, p.orderId, d.nowIso, p.verification)
      && t'.attendees == t.attendees[p.order.attendeeId := p.attendee.(status := AttendeePaid, passProductId := Some(p.order.passProductId))]
      && t'.tickets == (if |TicketsFor(t.tickets, p.orderId)| == 1 then t.tickets else t.tickets[d.ticketId := NewTicket(p, d)])
      && t'.notifications == t.notifications + [IssuedNotice(p, d)]
  {
    var t1 := t.(orders := MarkPaid(t.orders, p.orderId, d.nowIso, p.verification));
    IssueTicketWithoutFault(t1.(attendees := t1.attendees[p.order.attendeeId :=
                              p.attendee.(status := AttendeePaid, passProductId := Some(p.order.passProductId))]), p, d, k);
  }

  /** The write phase when the attendee update or the ticket insert fails. */
  lemma CommitFailsAfterOrderUpdate(t: Tables, p: Plan, d: Delivery, k: Keys)
    requires d.fault == FailAttendeeUpdate || d.fault == FailTicketInsert
    requires |TicketsFor(t.tickets, p.orderId)| != 1
    ensures var (r, t') := Commit(t, p, d, k);
      r == ErrorResponse
      && t'.orders == MarkPaid(t.orders, p.orderId, d.nowIso, p.verification)
      && t'.tickets == t.tickets
  {
  }

  lemma CommitResponds(t: Tables, p: Plan, d: Delivery, k: Keys)
    ensures Commit(t, p, d, k).0 in {OkResponse, ErrorResponse}
  {
  }

  // --------------------------------------------------- authentication

  /** An authentic delivery is never answered 401. */
  lemma AuthenticNot401(t: Tables, req: Request, d: Delivery, k: Keys)
    requires Authentic(req, k)
    ensures Deliver(t, req, d, k).0 != InvalidSignature
  {
    DeliverSplit(t, req, d, k);
    if Prepare(t, req.body, d, k).Respond? {
      PrepareResponds(t, req.body, d, k);
    } else {
      CommitResponds(t, Prepare(t, req.body, d, k).plan, d, k);
    }
  }

  lemma Rejected(t: Tables, req: Request, d: Delivery, k: Keys)
    requires req.httpMethod == "POST"
    requires !VerifySignature(req.rawBody, req.signature, k.config.paystack.secretKey, k.hmac512)
    ensures Deliver(t, req, d, k) == (InvalidSignature, t)
  {
  }

  /** A missing or empty signature header is answered 401 and writes nothing. */
  lemma MissingSignatureRejected(t: Tables, req: Request, d: Delivery, k: Keys)
    requires req.httpMethod == "POST"
    requires req.signature == None || req.signature == Some("")
    ensures Deliver(t, req, d, k) == (InvalidSignature, t)
  {
    assert |ExpectedSignature(req.rawBody, k.config.paystack.secretKey, k.hmac512)| == 128;
    Rejected(t, req, d, k);
  }

  /** A POST is answered 401 exactly when its header differs from the
      lowercase hex of the body's HMAC-SHA-512; a 401 writes nothing. */
  lemma SignatureDecides401(t: Tables, req: Request, d: Delivery, k: Keys)
    requires req.httpMethod == "POST"
    ensures Deliver(t, req, d, k).0 == InvalidSignature
        <==> req.signature != Some(ExpectedSignature(req.rawBody, k.config.paystack.secretKey, k.hmac512))
    ensures Deliver(t, req, d, k).0 == InvalidSignature ==> Deliver(t, req, d, k).1 == t
  {
    if Authentic(req, k) {
      AuthenticNot401(t, req, d, k);
    } else {
      Rejected(t, req, d, k);
    }
  }

  /** Lowercase hex never has an uppercase letter at any position. */
  lemma UppercaseIsNotLowercaseHex(sig: string, hex: string, i: nat)
    requires forall j :: 0 <= j < |hex| ==> Hex.IsDigit(hex[j])
    requires i < |sig| && 'A' <= sig[i] <= 'F'
    ensures sig != hex
  {
    if i < |hex| {
      assert Hex.IsDigit(hex[i]);
    }
  }

  /** The comparison is case-sensitive: a header with an uppercase hex
      letter is rejected even when it spells the right MAC. */
  lemma UppercaseSignatureRejected(t: Tables, req: Request, d: Delivery, k: Keys, i: nat)
    requires req.httpMethod == "POST" && req.signature.Some?
    requires i < |req.signature.value| && 'A' <= req.signature.value[i] <= 'F'
    ensures Deliver(t, req, d, k) == (InvalidSignature, t)
  {
    UppercaseIsNotLowercaseHex(req.signature.value, ExpectedSignature(req.rawBody, k.config.paystack.secretKey, k.hmac512), i);
    Rejected(t, req, d, k);
  }

  // ------------------------------------------- exits that write nothing

  /** Without a truthy request code the delivery is acknowledged unchanged. */
  lemma NoRequestCodeAcknowledged(t: Tables, req: Request, d: Delivery, k: Keys)
    requires Authentic(req, k) && req.body.Parsed? && RequestCode(req.body.data).None?
    ensures Deliver(t, req, d, k) == (OkResponse, t)
  {
  }

  /** An empty `request_code` does not fall back to `payment_request_code`:
      `??` only skips null and undefined. */
  lemma EmptyRequestCodeDoesNotFallBack(t: Tables, req: Request, d: Delivery, k: Keys, other: JsonField)
    requires Authentic(req, k)
    requires req.body == Parsed(Some(EventData(Text(""), other)))
    ensures Deliver(t, req, d, k) == (OkResponse, t)
  {
  }

  /** A payment the gateway does not report as paid is ignored. */
  lemma UnpaidIgnored(t: Tables, req: Request, d: Delivery, k: Keys)
    requires Authentic(req, k) && req.body.Parsed? && RequestCode(req.body.data).Some?
    requires d.fault != FailVerify && !d.verification.paid
    ensures Deliver(t, req, d, k) == (IgnoredResponse, t)
  {
  }

  /** A paid code that matches no order is acknowledged unchanged. */
  lemma UnknownOrderAcknowledged(t: Tables, req: Request, d: Delivery, k: Keys, code: string)
    requires Authentic(req, k) && PaidCode(req, d, code)
    requires OrdersWithCode(t.orders, code) == {}
    ensures Deliver(t, req, d, k) == (OkResponse, t)
  {
  }

  /** An order already marked paid short-circuits: 200 and nothing written. */
  lemma PaidOrderAcknowledged(t: Tables, req: Request, d: Delivery, k: Keys, code: string, id: string)
    requires Authentic(req, k) && PaidCode(req, d, code)
    requires OrdersWithCode(t.orders, code) == {id}
    requires t.orders[id].status == Paid
    ensures Deliver(t, req, d, k) == (OkResponse, t)
  {
    assert id in OrdersWithCode(t.orders, code);
  }

  /** A pass whose start or end day has no event-day record fails the
      delivery before any write. */
  lemma MissingDayFails(t: Tables, req: Request, d: Delivery, k: Keys, code: string, id: string)
    requires Authentic(req, k) && PaidCode(req, d, code)
    requires OrdersWithCode(t.orders, code) == {id}
    requires t.orders[id].status != Paid
    requires d.fault !in {FailAttendeeFetch, FailPassFetch, FailSettingsFetch, FailEventDaysFetch}
    requires t.orders[id].attendeeId in t.attendees && t.orders[id].passProductId in t.passes && t.settings.Some?
    requires var pass := t.passes[t.orders[id].passProductId];
      !HasDay(t.eventDays, pass.validStartDay) || !HasDay(t.eventDays, pass.validEndDay)
    ensures Deliver(t, req, d, k) == (ErrorResponse, t)
  {
    assert id in OrdersWithCode(t.orders, code);
  }

  /** The store changes only once the read phase has produced a plan and the
      order update has gone through. */
  lemma WritesFollowThePlan(t: Tables, req: Request, d: Delivery, k: Keys)
    ensures Deliver(t, req, d, k).1 != t ==>
      Authentic(req, k) && Prepare(t, req.body, d, k).Proceed? && d.fault != FailOrderUpdate
  {
  }

  /** Every failure before or at the order update leaves the store as it was. */
  lemma EarlyFailureWritesNothing(t: Tables, req: Request, d: Delivery, k: Keys)
    requires d.fault in {FailVerify, FailOrderLookup, FailAttendeeFetch, FailPassFetch, FailSettingsFetch,
                         FailEventDaysFetch, FailSerial, FailSigning, FailQrImage, FailIcs, FailOrderUpdate}
    ensures Deliver(t, req, d, k).1 == t
  {
    WritesFollowThePlan(t, req, d, k);
    if Authentic(req, k) && Prepare(t, req.body, d, k).Proceed? {
      ProceedFacts(t, req.body, d, k);
    }
  }

  // ---------------------------------------------------- the order row

  /** The guarded update touches at most the row it names, and that one only
      when it is pending. */
  lemma MarkPaidChanges(orders: map<string, Order>, target: string, nowIso: string, meta: PaymentData, id: string)
    requires id in orders
    ensures var m := MarkPaid(orders, target, nowIso, meta);
      m.Keys == orders.Keys
      && (m[id] == orders[id]
          || (id == target && orders[id].status == Pending
              && m[id] == orders[id].(status := Paid, paidAt := Some(nowIso), paystackMeta := Some(meta))))
  {
  }

  lemma MarkPaidKeepsCodes(orders: map<string, Order>, id: string, nowIso: string, meta: PaymentData, code: string)
    ensures OrdersWithCode(MarkPaid(orders, id, nowIso, meta), code) == OrdersWithCode(orders, code)
  {
  }

  /** Only the order the code names changes, and only from pending to paid
      with the payment time and the gateway's data; no row appears or goes. */
  lemma OnlyPendingOrderBecomesPaid(t: Tables, req: Request, d: Delivery, k: Keys, id: string)
    requires id in t.orders
    ensures var t' := Deliver(t, req, d, k).1;
      t'.orders.Keys == t.orders.Keys
      && (t'.orders[id] == t.orders[id]
          || (t.orders[id].status == Pending
              && t'.orders[id] == t.orders[id].(status := Paid, paidAt := Some(d.nowIso), paystackMeta := Some(d.verification))
              && req.body.Parsed? && RequestCode(req.body.data).Some?
              && OrdersWithCode(t.orders, RequestCode(req.body.data).value) == {id}))
  {
    DeliverSplit(t, req, d, k);
    if Authentic(req, k) && Prepare(t, req.body, d, k).Proceed? {
      var p := Prepare(t, req.body, d, k).plan;
      ProceedFacts(t, req.body, d, k);
      CommitShape(t, p, d, k);
      MarkPaidChanges(t.orders, p.orderId, d.nowIso, p.verification, id);
    }
  }

  /** Pass products, event days and settings are only ever read. */
  lemma ReferenceTablesUnchanged(t: Tables, req: Request, d: Delivery, k: Keys)
    ensures var t' := Deliver(t, req, d, k).1;
      t'.passes == t.passes && t'.eventDays == t.eventDays && t'.settings == t.settings
  {
    DeliverSplit(t, req, d, k);
    if Authentic(req, k) && Prepare(t, req.body, d, k).Proceed? {
      CommitShape(t, Prepare(t, req.body, d, k).plan, d, k);
    }
  }

  // ------------------------------------------------------- tickets

  /** No two tickets belong to the same order. */
  ghost predicate OneTicketPerOrder(tickets: map<string, Ticket>) {
    forall a, b :: a in tickets && b in tickets && tickets[a].orderId == tickets[b].orderId ==> a == b
  }

  lemma TicketsForUnderInvariant(tickets: map<string, Ticket>, orderId: string)
    requires OneTicketPerOrder(tickets)
    ensures |TicketsFor(tickets, orderId)| != 1 ==> TicketsFor(tickets, orderId) == {}
  {
    var ids := TicketsFor(tickets, orderId);
    if ids != {} {
      var a :| a in ids;
      assert ids == {a};
    }
  }

  /** Adding a ticket for an order that has none keeps the invariant. */
  lemma AddTicketKeepsOnePerOrder(tickets: map<string, Ticket>, id: string, tk: Ticket)
    requires OneTicketPerOrder(tickets)
    requires TicketsFor(tickets, tk.orderId) == {}
    ensures OneTicketPerOrder(tickets[id := tk])
  {
    assert forall x :: x in tickets ==> tickets[x].orderId != tk.orderId by {
      forall x | x in tickets ensures tickets[x].orderId != tk.orderId {
        assert x !in TicketsFor(tickets, tk.orderId);
      }
    }
  }

  /** With the existing-ticket lookup working, a delivery never gives an
      order a second ticket. */
  lemma DeliverKeepsOneTicketPerOrder(t: Tables, req: Request, d: Delivery, k: Keys)
    requires OneTicketPerOrder(t.tickets)
    requires d.fault != FailTicketLookup
    ensures OneTicketPerOrder(Deliver(t, req, d, k).1.tickets)
  {
    DeliverSplit(t, req, d, k);
    if Authentic(req, k) && Prepare(t, req.body, d, k).Proceed? {
      var p := Prepare(t, req.body, d, k).plan;
      CommitShape(t, p, d, k);
      if Commit(t, p, d, k).1.tickets != t.tickets {
        TicketsForUnderInvariant(t.tickets, p.orderId);
        AddTicketKeepsOnePerOrder(t.tickets, d.ticketId, NewTicket(p, d));
      }
    }
  }

  /** A failed existing-ticket lookup reads as "no ticket": the order gets
      another ticket whatever it already has. */
  lemma LookupErrorIssuesAnotherTicket(t: Tables, req: Request, d: Delivery, k: Keys)
    requires Authentic(req, k) && Prepare(t, req.body, d, k).Proceed?
    requires d.fault == FailTicketLookup && d.ticketId !in t.tickets
    ensures var orderId := Prepare(t, req.body, d, k).plan.orderId;
      TicketsFor(Deliver(t, req, d, k).1.tickets, orderId) == TicketsFor(t.tickets, orderId) + {d.ticketId}
  {
    var p := Prepare(t, req.body, d, k).plan;
    DeliverSplit(t, req, d, k);
    CommitInserts(t, p, d, k);
    TicketsForInsert(t.tickets, d.ticketId, NewTicket(p, d));
  }

  /** The deliveries applied in order. */
  function DeliverAll(t: Tables, rs: seq<(Request, Delivery)>, k: Keys): Tables
    decreases |rs|
  {
    if rs == [] then t else DeliverAll(Deliver(t, rs[0].0, rs[0].1, k).1, rs[1..], k)
  }

  /** Sequential deliveries whose ticket lookups succeed keep at most one
      ticket per order. */
  lemma {:induction false} DeliverAllKeepsOneTicketPerOrder(t: Tables, rs: seq<(Request, Delivery)>, k: Keys)
    requires OneTicketPerOrder(t.tickets)
    requires forall i :: 0 <= i < |rs| ==> rs[i].1.fault != FailTicketLookup
    ensures OneTicketPerOrder(DeliverAll(t, rs, k).tickets)
    decreases |rs|
  {
    if rs != [] {
      DeliverKeepsOneTicketPerOrder(t, rs[0].0, rs[0].1, k);
      DeliverAllKeepsOneTicketPerOrder(Deliver(t, rs[0].0, rs[0].1, k).1, rs[1..], k);
    }
  }

  /** A stored ticket agrees with its signed QR payload: same id, order,
      attendee and window, `qr_checksum` equal to the payload's checksum,
      and that checksum valid for the QR secret. */
  predicate TicketSigned(id: string, tk: Ticket, k: Keys) {
    tk.qrChecksum == tk.qrPayload.checksum
    && tk.qrPayload.ticketId == id && tk.qrPayload.orderId == tk.orderId && tk.qrPayload.attendeeId == tk.attendeeId
    && tk.qrPayload.validFrom == tk.validFrom && tk.qrPayload.validTo == tk.validTo
    && Qr.ChecksumValid(tk.qrPayload, k.config.qrSecret, k.hmac256)
  }

  ghost predicate TicketsSigned(tickets: map<string, Ticket>, k: Keys) {
    forall id :: id in tickets ==> TicketSigned(id, tickets[id], k)
  }

  lemma DeliverKeepsTicketsSigned(t: Tables, req: Request, d: Delivery, k: Keys)
    requires TicketsSigned(t.tickets, k)
    ensures TicketsSigned(Deliver(t, req, d, k).1.tickets, k)
  {
    DeliverSplit(t, req, d, k);
    if Authentic(req, k) && Prepare(t, req.body, d, k).Proceed? {
      var p := Prepare(t, req.body, d, k).plan;
      ProceedFacts(t, req.body, d, k);
      CommitShape(t, p, d, k);
      Qr.SignedPayloadVerifies(Claims(d, p.order, p.orderId, p.window), k.config.qrSecret, k.hmac256);
      assert TicketSigned(d.ticketId, NewTicket(p, d), k);
    }
  }

  lemma {:induction false} DeliverAllKeepsTicketsSigned(t: Tables, rs: seq<(Request, Delivery)>, k: Keys)
    requires TicketsSigned(t.tickets, k)
    ensures TicketsSigned(DeliverAll(t, rs, k).tickets, k)
    decreases |rs|
  {
    if rs != [] {
      DeliverKeepsTicketsSigned(t, rs[0].0, rs[0].1, k);
      DeliverAllKeepsTicketsSigned(Deliver(t, rs[0].0, rs[0].1, k).1, rs[1..], k);
    }
  }

  // ------------------------------------------------ whole deliveries

  /** The first delivery for a pending order marks it paid, promotes the
      attendee and issues exactly one ticket; a redelivery of the same code
      is then acknowledged without any write. */
  lemma FirstDeliveryIssuesOneTicket(t: Tables, req: Request, d: Delivery, k: Keys, req2: Request, d2: Delivery)
    requires Authentic(req, k) && Prepare(t, req.body, d, k).Proceed?
    requires Prepare(t, req.body, d, k).plan.order.status == Pending
    requires d.fault == NoFault && d.ticketId !in t.tickets
    requires TicketsFor(t.tickets, Prepare(t, req.body, d, k).plan.orderId) == {}
    requires Authentic(req2, k) && PaidCode(req2, d2, RequestCode(req.body.data).value)
    ensures var p := Prepare(t, req.body, d, k).plan;
      var (r1, t1) := Deliver(t, req, d, k);
      r1 == OkResponse
      && p.orderId in t1.orders && t1.orders[p.orderId].status == Paid
      && p.order.attendeeId in t1.attendees && t1.attendees[p.order.attendeeId].status == AttendeePaid
      && TicketsFor(t1.tickets, p.orderId) == {d.ticketId}
      && d.ticketId in t1.tickets && t1.tickets[d.ticketId].qrChecksum == p.payload.checksum
      && Deliver(t1, req2, d2, k) == (OkResponse, t1)
  {
    var p := Prepare(t, req.body, d, k).plan;
    ProceedFacts(t, req.body, d, k);
    DeliverSplit(t, req, d, k);
    CommitWithoutFault(t, p, d, k);
    var t1 := Deliver(t, req, d, k).1;
    var code := RequestCode(req.body.data).value;
    MarkPaidKeepsCodes(t.orders, p.orderId, d.nowIso, d.verification, code);
    assert TicketsFor(t1.tickets, p.orderId) == {d.ticketId} by {
      forall id | id in t1.tickets && id != d.ticketId ensures t1.tickets[id].orderId != p.orderId {
        assert id !in TicketsFor(t.tickets, p.orderId);
      }
    }
    PaidOrderAcknowledged(t1, req2, d2, k, code, p.orderId);
  }

  /** A crash after the order update but before the ticket exists is never
      repaired: the order is already paid, so every redelivery of the code
      is acknowledged with 200 and the ticket is never issued. */
  lemma CrashAfterOrderUpdateNeverRepaired(t: Tables, req: Request, d: Delivery, k: Keys, req2: Request, d2: Delivery)
    requires Authentic(req, k) && Prepare(t, req.body, d, k).Proceed?
    requires Prepare(t, req.body, d, k).plan.order.status == Pending
    requires d.fault == FailAttendeeUpdate || d.fault == FailTicketInsert
    requires TicketsFor(t.tickets, Prepare(t, req.body, d, k).plan.orderId) == {}
    requires Authentic(req2, k) && PaidCode(req2, d2, RequestCode(req.body.data).value)
    ensures var p := Prepare(t, req.body, d, k).plan;
      var (r1, t1) := Deliver(t, req, d, k);
      r1 == ErrorResponse
      && p.orderId in t1.orders && t1.orders[p.orderId].status == Paid
      && t1.tickets == t.tickets
      && Deliver(t1, req2, d2, k) == (OkResponse, t1)
  {
    var p := Prepare(t, req.body, d, k).plan;
    ProceedFacts(t, req.body, d, k);
    DeliverSplit(t, req, d, k);
    CommitFailsAfterOrderUpdate(t, p, d, k);
    var t1 := Deliver(t, req, d, k).1;
    var code := RequestCode(req.body.data).value;
    MarkPaidKeepsCodes(t.orders, p.orderId, d.nowIso, d.verification, code);
    PaidOrderAcknowledged(t1, req2, d2, k, code, p.orderId);
  }

  /** An expired or cancelled order is not short-circuited: its row stays as
      it is (the guarded update matches nothing and is not checked), yet the
      attendee is promoted and a ticket is issued. */
  lemma UnpendingOrderStillGetsTicket(t: Tables, req: Request, d: Delivery, k: Keys)
    requires Authentic(req, k) && Prepare(t, req.body, d, k).Proceed?
    requires Prepare(t, req.body, d, k).plan.order.status in {Expired, Cancelled}
    requires d.fault == NoFault && d.ticketId !in t.tickets
    requires TicketsFor(t.tickets, Prepare(t, req.body, d, k).plan.orderId) == {}
    ensures var p := Prepare(t, req.body, d, k).plan;
      var (r, t') := Deliver(t, req, d, k);
      r == OkResponse
      && t'.orders == t.orders
      && p.order.attendeeId in t'.attendees && t'.attendees[p.order.attendeeId].status == AttendeePaid
      && d.ticketId in TicketsFor(t'.tickets, p.orderId)
  {
    var p := Prepare(t, req.body, d, k).plan;
    ProceedFacts(t, req.body, d, k);
    DeliverSplit(t, req, d, k);
    CommitWithoutFault(t, p, d, k);
  }

  /** When the order already has its ticket, nothing is inserted, yet the
      queued notification names the freshly generated id, which belongs to
      no ticket. */
  lemma NotificationNamesFreshTicketId(t: Tables, req: Request, d: Delivery, k: Keys)
    requires Authentic(req, k) && Prepare(t, req.body, d, k).Proceed?
    requires d.fault == NoFault && d.ticketId !in t.tickets
    requires |TicketsFor(t.tickets, Prepare(t, req.body, d, k).plan.orderId)| == 1
    ensures var (r, t') := Deliver(t, req, d, k);
      r == OkResponse
      && t'.tickets == t.tickets
      && |t'.notifications| == |t.notifications| + 1
      && t'.notifications[|t.notifications|].ticketId == d.ticketId
      && t'.notifications[|t.notifications|].ticketId !in t'.tickets
  {
    DeliverSplit(t, req, d, k);
    CommitWithoutFault(t, Prepare(t, req.body, d, k).plan, d, k);
  }
}
