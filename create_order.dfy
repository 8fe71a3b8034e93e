/** The order-creation endpoint of supabase/functions/create-order/index.ts:
    validate the JSON payload, find the active pass by SKU, answer with (or
    resend the invoice of) the caller's existing pending order, or else
    register a pending attendee and order, request a gateway invoice and
    record it on the order.

    The database is a `Service` object whose tables are row sequences (row
    order stands for the order in which the database returns rows that tie);
    the calls the handler makes to the registration procedure and to the
    payment gateway are appended to a call log. Every answer the database or
    the gateway gives is an input (`Outcomes`). */
module CreateOrder {
  import opened Wrappers
  import opened Text
  import Webhook

  // ------------------------------------------------------------ JSON values

  /** A JSON value as the handler sees it after `req.json()`. `Absent` is a
      property an object does not have (`undefined`); numbers are integers. */
  datatype Value =
    | Absent
    | Null
    | Bool(b: bool)
    | Num(n: int)
    | Str(s: string)
    | Arr
    | Obj(fields: map<string, Value>)

  /** JavaScript truthiness (`!v` is its negation). */
  predicate Truthy(v: Value) {
    match v
    case Absent => false
    case Null => false
    case Bool(b) => b
    case Num(n) => n != 0
    case Str(s) => s != ""
    case Arr => true
    case Obj(_) => true
  }

  /** `payload[name]`: a property of an object, `undefined` on anything else. */
  function Field(v: Value, name: string): Value {
    if v.Obj? && name in v.fields then v.fields[name] else Absent
  }

  /** The string inside a value already known to be a string. */
  function StrOf(v: Value): string {
    if v.Str? then v.s else ""
  }

  /** `v ?? null`. */
  function OrNull(v: Value): Value {
    if v.Absent? then Null else v
  }

  // ------------------------------------------------------------ validation

  /** `validatePayload`'s answer: `null`, a message, or a `TypeError` raised
      by calling `trim`/`toUpperCase` on a value that is not a string. */
  datatype Validation = Valid | Invalid(message: string) | Throws

  const RequiredFields: seq<string> := ["pass_sku", "full_name", "email", "attendee_role"]
  const AllowedRoles: seq<string> := ["investor", "buyer", "seller", "attendee"]
  const AllowedCurrencies: seq<string> := ["NGN", "USD"]

  function MissingMessage(field: string): string {
    "Missing " + field + "."
  }

  /** The field holds a string that is not blank. */
  predicate Present(p: Value, field: string) {
    Field(p, field).Str? && !IsBlank(Field(p, field).s)
  }

  /** One pass of the required-field loop: `!payload[field]` or a blank
      string is missing; a truthy non-string has no `trim`. */
  function CheckRequired(p: Value, field: string): (r: Option<Validation>)
    ensures r.None? <==> Present(p, field)
    ensures r != Some(Valid)
  {
    var v := Field(p, field);
    if !Truthy(v) then Some(Invalid(MissingMessage(field)))
    else if !v.Str? then Some(Throws)
    else if IsBlank(v.s) then Some(Invalid(MissingMessage(field)))
    else None
  }

  /** The verdict of the first field in `fields` that fails, if any. */
  function FirstRequiredFailure(p: Value, fields: seq<string>): (r: Option<Validation>)
    ensures r.None? <==> forall i :: 0 <= i < |fields| ==> Present(p, fields[i])
    ensures r != Some(Valid)
  {
    if fields == [] then None
    else match CheckRequired(p, fields[0])
      case Some(failure) => Some(failure)
      case None =>
        var rest := FirstRequiredFailure(p, fields[1..]);
        assert forall i :: 1 <= i < |fields| ==> fields[i] == fields[1..][i - 1];
        rest
  }

  /** One non-empty run of the class `[^\s@]`. */
  predicate Run(s: string) {
    |s| > 0 && forall k :: 0 <= k < |s| ==> !IsJsSpace(s[k]) && s[k] != '@'
  }

  /** `s` splits as run, '@' at i, run, '.' at j, run. */
  predicate EmailSplit(s: string, i: int, j: int) {
    0 < i && i + 1 < j && j + 1 < |s| && s[i] == '@' && s[j] == '.' &&
    Run(s[..i]) && Run(s[i + 1..j]) && Run(s[j + 1..])
  }

  /** `/^[^\s@]+@[^\s@]+\.[^\s@]+$/.test(s)`: some choice of the '@' and
      the '.' matches the whole string. */
  predicate MatchesEmailPattern(s: string) {
    exists i, j | 0 < i < j < |s| :: EmailSplit(s, i, j)
  }

  /** `(payload.currency ?? 'NGN').toUpperCase()`, `None` when the value is
      neither nullish nor a string. */
  function CurrencyOf(p: Value): (r: Option<string>)
    ensures Field(p, "currency").Absent? || Field(p, "currency").Null? ==> r == Some("NGN")
  {
    var v := Field(p, "currency");
    if v.Absent? || v.Null? then
      assert ToUpperAscii("NGN") == "NGN" by {
        assert forall k :: 0 <= k < 3 ==> UpperChar("NGN"[k]) == "NGN"[k];
      }
      Some(ToUpperAscii("NGN"))
    else if v.Str? then Some(ToUpperAscii(v.s))
    else None
  }

  /** The terms rule, skipped when `resend_invoice` is truthy. */
  function ValidateTerms(p: Value): Validation {
    if Truthy(Field(p, "resend_invoice")) then Valid
    else if !Truthy(Field(p, "accepted_terms")) then Invalid("Terms must be accepted before continuing.")
    else
      var tv := Field(p, "terms_version");
      if !Truthy(tv) then Invalid("Missing terms version.")
      else if !tv.Str? then Throws
      else if IsBlank(tv.s) then Invalid("Missing terms version.")
      else Valid
  }

  /** The rules after the required fields, in their order. */
  function ValidateValues(p: Value): Validation {
    if !MatchesEmailPattern(StrOf(Field(p, "email"))) then Invalid("Invalid email address.")
    else if StrOf(Field(p, "attendee_role")) !in AllowedRoles then Invalid("Invalid attendee role.")
    else match CurrencyOf(p)
      case None => Throws
      case Some(c) =>
        if c !in AllowedCurrencies then Invalid("Unsupported currency selection.")
        else ValidateTerms(p)
  }

  /** `validatePayload`: the first failing rule decides. */
  function Validate(p: Value): Validation {
    if !Truthy(p) then Invalid("Invalid payload.")
    else match FirstRequiredFailure(p, RequiredFields)
      case Some(failure) => failure
      case None => ValidateValues(p)
  }

  /** `validatePayload` with its loop over the required fields. */
  method ValidatePayload(p: Value) returns (r: Validation)
    ensures r == Validate(p)
  {
    if !Truthy(p) {
      return Invalid("Invalid payload.");
    }
    for n := 0 to |RequiredFields|
      invariant FirstRequiredFailure(p, RequiredFields[n..]) == FirstRequiredFailure(p, RequiredFields)
    {
      var field := RequiredFields[n];
      assert RequiredFields[n..][0] == field && RequiredFields[n..][1..] == RequiredFields[n + 1..];
      var v := Field(p, field);
      if !Truthy(v) {
        return Invalid(MissingMessage(field));
      }
      if !v.Str? {
        return Throws;
      }
      if IsBlank(v.s) {
        return Invalid(MissingMessage(field));
      }
    }
    assert RequiredFields[|RequiredFields|..] == [];
    var email := StrOf(Field(p, "email"));
    if !MatchesEmailPattern(email) {
      return Invalid("Invalid email address.");
    }
    if StrOf(Field(p, "attendee_role")) !in AllowedRoles {
      return Invalid("Invalid attendee role.");
    }
    var currency := CurrencyOf(p);
    if currency.None? {
      return Throws;
    }
    if currency.value !in AllowedCurrencies {
      return Invalid("Unsupported currency selection.");
    }
    r := ValidateTerms(p);
  }

  // ------------------------------------------------------------ rows

  datatype PassRow = PassRow(id: string, sku: string, name: string, currency: string, amountKobo: int, isActive: bool)

  datatype AttendeeRow = AttendeeRow(id: string, fullName: string, email: string, role: string, phone: Value, company: Value)

  /** The gateway's `data` for a created payment request. */
  datatype Invoice = Invoice(requestCode: string, hostedLink: string, pdfUrl: string)

  datatype OrderRow = OrderRow(
    id: string,
    attendeeId: string,
    passProductId: string,
    status: Webhook.OrderStatus,
    amountKobo: int,
    currency: string,
    createdAt: int,
    requestCode: Option<string>,
    invoiceUrl: Option<string>,
    pdfUrl: Option<string>,
    meta: Option<Invoice>)

  datatype RegistrationMetadata = RegistrationMetadata(
    role: string, email: string, name: string, passSku: string,
    currencyPreference: string, termsVersion: Value, acceptedTerms: bool)

  /** The arguments of `create_pending_registration`. */
  datatype Registration = Registration(
    passProductId: string, role: string, fullName: string, email: string,
    phone: Value, company: Value, currency: string, amountKobo: int,
    metadata: RegistrationMetadata)

  datatype PaymentMetadata = PaymentMetadata(
    orderId: string, attendeeId: string, passSku: string, role: string, currencyPreference: string)

  /** The body of `createPaymentRequest`, with its single line item. */
  datatype PaymentRequest = PaymentRequest(
    customer: string, amountKobo: int, currency: string, description: string,
    dueDate: string, metadata: PaymentMetadata,
    itemName: string, itemAmount: int, itemQuantity: int)

  datatype Call =
    | RegisterCall(registration: Registration)
    | NotifyCall(code: Option<string>)
    | CreatePaymentCall(request: PaymentRequest)

  datatype Tables = Tables(passes: seq<PassRow>, attendees: seq<AttendeeRow>, orders: seq<OrderRow>, calls: seq<Call>)

  // ------------------------------------------------------------ requests and answers

  datatype Body = Unreadable | Parsed(payload: Value)

  datatype Request = Request(httpMethod: string, body: Body)

  datatype RpcResult = RpcError | RpcNoRow | RpcRow(attendeeId: string, orderId: string)

  /** What the database and the gateway answer during one request. */
  datatype Outcomes = Outcomes(
    passFetchFails: bool,
    lookupFails: bool,
    notifyError: Option<string>,
    registration: RpcResult,
    invoice: Result<Invoice, string>,
    dueDate: string,
    createdAt: int,
    orderUpdateFails: bool)

  /** `findPendingOrderByEmail`'s record. */
  datatype ExistingPending = ExistingPending(attendeeId: string, orderId: string, requestCode: Option<string>, hostedLink: Option<string>)

  datatype ReplyData =
    | NoData
    | Existing(pending: ExistingPending)
    | Created(orderId: string, attendeeId: string, requestCode: string, hostedLink: string, pdfUrl: string)

  /** The response: the CORS preflight, a JSON body, or a 500 whose message
      is the JavaScript engine's own (a `SyntaxError` or `TypeError`). */
  datatype Reply =
    | Preflight
    | Answer(status: int, ok: bool, message: string, data: ReplyData)
    | EngineError

  function Fail(status: int, message: string): Reply {
    Answer(status, false, message, NoData)
  }

  /** The validated fields the handler goes on with. */
  datatype Input = Input(
    passSku: string, fullName: string, email: string, role: string,
    phone: Value, company: Value, resend: bool, currency: Value,
    acceptedTerms: bool, termsVersion: Value)

  function InputOf(p: Value): Input {
    Input(StrOf(Field(p, "pass_sku")), StrOf(Field(p, "full_name")), StrOf(Field(p, "email")),
          StrOf(Field(p, "attendee_role")), Field(p, "phone"), Field(p, "company"),
          Truthy(Field(p, "resend_invoice")), Field(p, "currency"),
          Truthy(Field(p, "accepted_terms")), Field(p, "terms_version"))
  }

  // ------------------------------------------------------------ queries

  datatype Lookup<T> = NoRow | OneRow(row: T) | ManyRows

  /** `.maybeSingle()`: no row, the one row, or an error for several. */
  function MaybeSingle<T>(rows: seq<T>): (r: Lookup<T>)
    ensures r.NoRow? <==> |rows| == 0
    ensures r.OneRow? <==> |rows| == 1
    ensures r.OneRow? ==> rows == [r.row]
  {
    if |rows| == 0 then NoRow else if |rows| == 1 then OneRow(rows[0]) else ManyRows
  }

  function ActivePasses(passes: seq<PassRow>, sku: string): (r: seq<PassRow>)
    ensures forall x :: x in r <==> x in passes && x.sku == sku && x.isActive
  {
    if passes == [] then []
    else
      var rest := ActivePasses(passes[1..], sku);
      assert forall x :: x in passes <==> x == passes[0] || x in passes[1..];
      if passes[0].sku == sku && passes[0].isActive then [passes[0]] + rest else rest
  }

  predicate PendingFor(o: OrderRow, attendeeId: string) {
    o.attendeeId == attendeeId && o.status == Webhook.Pending
  }

  predicate HasPending(orders: seq<OrderRow>, attendeeId: string) {
    exists o :: o in orders && PendingFor(o, attendeeId)
  }

  /** The attendees the inner join returns for `email`. */
  function PendingHolders(attendees: seq<AttendeeRow>, orders: seq<OrderRow>, email: string): (r: seq<AttendeeRow>)
    ensures forall a :: a in r <==> a in attendees && a.email == email && HasPending(orders, a.id)
  {
    if attendees == [] then []
    else
      var rest := PendingHolders(attendees[1..], orders, email);
      assert forall a :: a in attendees <==> a == attendees[0] || a in attendees[1..];
      var a := attendees[0];
      if a.email == email && HasPending(orders, a.id) then [a] + rest else rest
  }

  /** The first of the attendee's pending orders with the latest `createdAt`
      (`orders[0]` after ordering by `created_at` descending). */
  function LatestPending(orders: seq<OrderRow>, attendeeId: string): (r: Option<OrderRow>)
    ensures r.None? <==> !HasPending(orders, attendeeId)
    ensures r.Some? ==> r.value in orders && PendingFor(r.value, attendeeId)
    ensures r.Some? ==> forall o :: o in orders && PendingFor(o, attendeeId) ==> o.createdAt <= r.value.createdAt
  {
    if orders == [] then None
    else
      var rest := LatestPending(orders[1..], attendeeId);
      assert forall o :: o in orders <==> o == orders[0] || o in orders[1..];
      if PendingFor(orders[0], attendeeId) && (rest.None? || rest.value.createdAt <= orders[0].createdAt)
      then Some(orders[0])
      else rest
  }

  /** `findPendingOrderByEmail` when the query succeeds: the latest pending
      order of the one attendee with this email that has pending orders;
      `null` when there is none or several (the error code `PGRST116`). */
  function FindPendingOrderByEmail(t: Tables, email: string): (r: Option<ExistingPending>)
    ensures r.Some? <==> |PendingHolders(t.attendees, t.orders, email)| == 1
    ensures r.Some? ==> exists a, o ::
      (a in t.attendees && a.email == email && a.id == r.value.attendeeId &&
       o in t.orders && PendingFor(o, a.id) && o.id == r.value.orderId &&
       o.requestCode == r.value.requestCode && o.invoiceUrl == r.value.hostedLink &&
       forall o2 :: o2 in t.orders && PendingFor(o2, a.id) ==> o2.createdAt <= o.createdAt)
  {
    match MaybeSingle(PendingHolders(t.attendees, t.orders, email))
    case OneRow(a) =>
      assert a in PendingHolders(t.attendees, t.orders, email);
      var o := LatestPending(t.orders, a.id).value;
      Some(ExistingPending(a.id, o.id, o.requestCode, o.invoiceUrl))
    case _ => None
  }

  // ------------------------------------------------------------ writes

  /** The rows `create_pending_registration` is taken to insert: the
      attendee and a pending order for the pass, with the returned ids. */
  function Registered(t: Tables, reg: Registration, attendeeId: string, orderId: string, createdAt: int): Tables {
    t.(attendees := t.attendees + [AttendeeRow(attendeeId, reg.fullName, reg.email, reg.role, reg.phone, reg.company)],
       orders := t.orders + [OrderRow(orderId, attendeeId, reg.passProductId, Webhook.Pending, reg.amountKobo,
                                      reg.currency, createdAt, None, None, None, None)])
  }

  /** `.update({paystack_request_code, ...}).eq('id', orderId)`. */
  function RecordInvoice(orders: seq<OrderRow>, orderId: string, inv: Invoice): (r: seq<OrderRow>)
    ensures |r| == |orders|
    ensures forall i :: 0 <= i < |orders| && orders[i].id != orderId ==> r[i] == orders[i]
    ensures forall i :: 0 <= i < |orders| && orders[i].id == orderId ==>
      r[i] == orders[i].(requestCode := Some(inv.requestCode), invoiceUrl := Some(inv.hostedLink),
                         pdfUrl := Some(inv.pdfUrl), meta := Some(inv))
  {
    seq(|orders|, i requires 0 <= i < |orders| =>
      if orders[i].id == orderId
      then orders[i].(requestCode := Some(inv.requestCode), invoiceUrl := Some(inv.hostedLink),
                      pdfUrl := Some(inv.pdfUrl), meta := Some(inv))
      else orders[i])
  }

  // ------------------------------------------------------------ the handler as a function

  /** `(input.currency ?? passProduct.currency).toUpperCase()`. */
  function CurrencyPreference(i: Input, pass: PassRow): string {
    if i.currency.Absent? || i.currency.Null? then ToUpperAscii(pass.currency)
    else ToUpperAscii(StrOf(i.currency))
  }

  /** The invoice description, with the en dash as the file spells it. */
  function Description(pass: PassRow): string {
    pass.name + " \U{00E2}\U{20AC}\U{201C} AFCM 2025"
  }

  function RegistrationFor(i: Input, pass: PassRow): Registration {
    var pref := CurrencyPreference(i, pass);
    Registration(pass.id, i.role, i.fullName, i.email, OrNull(i.phone), OrNull(i.company),
                 pass.currency, pass.amountKobo,
                 RegistrationMetadata(i.role, i.email, i.fullName, i.passSku, pref, OrNull(i.termsVersion), i.acceptedTerms))
  }

  function PaymentRequestFor(i: Input, pass: PassRow, attendeeId: string, orderId: string, dueDate: string): PaymentRequest {
    var description := Description(pass);
    PaymentRequest(i.email, pass.amountKobo, pass.currency, description, dueDate,
                   PaymentMetadata(orderId, attendeeId, i.passSku, i.role, CurrencyPreference(i, pass)),
                   description, pass.amountKobo, 1)
  }

  /** Lines 96-103: resend the existing invoice. */
  function Resend(t: Tables, e: ExistingPending, x: Outcomes): (Reply, Tables) {
    var t1 := t.(calls := t.calls + [NotifyCall(e.requestCode)]);
    match x.notifyError
    case Some(m) => (Fail(500, m), t1)
    case None => (Answer(200, true, "Invoice resent successfully.", Existing(e)), t1)
  }

  /** Lines 146-202: request the invoice and record it on the new order. */
  function RequestInvoice(t: Tables, i: Input, pass: PassRow, attendeeId: string, orderId: string, x: Outcomes): (Reply, Tables) {
    var t1 := t.(calls := t.calls + [CreatePaymentCall(PaymentRequestFor(i, pass, attendeeId, orderId, x.dueDate))]);
    match x.invoice
    case Failure(m) => (Fail(500, m), t1)
    case Success(inv) =>
      if x.orderUpdateFails then (Fail(500, "Unable to persist payment data."), t1)
      else (Answer(200, true, "Invoice created successfully.",
                   Created(orderId, attendeeId, inv.requestCode, inv.hostedLink, inv.pdfUrl)),
            t1.(orders := RecordInvoice(t1.orders, orderId, inv)))
  }

  /** Lines 105-141: register a new pending attendee and order. */
  function Register(t: Tables, i: Input, pass: PassRow, x: Outcomes): (Reply, Tables) {
    var reg := RegistrationFor(i, pass);
    var t1 := t.(calls := t.calls + [RegisterCall(reg)]);
    match x.registration
    case RpcError => (Fail(500, "Unable to prepare attendee registration."), t1)
    case RpcNoRow => (Fail(500, "Registration could not be created."), t1)
    case RpcRow(attendeeId, orderId) =>
      RequestInvoice(Registered(t1, reg, attendeeId, orderId, x.createdAt), i, pass, attendeeId, orderId, x)
  }

  /** Lines 71-141 after validation. */
  function Proceed(t: Tables, i: Input, x: Outcomes): (Reply, Tables) {
    if x.passFetchFails then (Fail(500, "Unable to fetch pass details."), t)
    else match MaybeSingle(ActivePasses(t.passes, i.passSku))
      case ManyRows => (Fail(500, "Unable to fetch pass details."), t)
      case NoRow => (Fail(404, "Pass unavailable."), t)
      case OneRow(pass) =>
        if x.lookupFails then (Fail(500, "Unable to look up existing orders."), t)
        else match FindPendingOrderByEmail(t, i.email)
          case Some(e) =>
            if !i.resend then (Answer(200, true, "Existing pending order found.", Existing(e)), t)
            else Resend(t, e, x)
          case None => Register(t, i, pass, x)
  }

  /** The `Deno.serve` handler: its reply and the tables afterwards. */
  function Respond(t: Tables, req: Request, x: Outcomes): (Reply, Tables) {
    if req.httpMethod == "OPTIONS" then (Preflight, t)
    else if req.httpMethod != "POST" then (Fail(405, "Method not allowed"), t)
    else if req.body.Unreadable? then (EngineError, t)
    else
      var verdict := Validate(req.body.payload);
      if verdict.Throws? then (EngineError, t)
      else if verdict.Invalid? then (Fail(400, verdict.message), t)
      else Proceed(t, InputOf(req.body.payload), x)
  }

  // ------------------------------------------------------------ the handler

  class Service {
    var passes: seq<PassRow>
    var attendees: seq<AttendeeRow>
    var orders: seq<OrderRow>
    var calls: seq<Call>

    function Snapshot(): Tables
      reads this
    {
      Tables(passes, attendees, orders, calls)
    }

    constructor (t: Tables)
      ensures Snapshot() == t
    {
      passes, attendees, orders, calls := t.passes, t.attendees, t.orders, t.calls;
    }

    method HandleRequest(req: Request, x: Outcomes) returns (reply: Reply)
      modifies this
      ensures (reply, Snapshot()) == Respond(old(Snapshot()), req, x)
    {
      if req.httpMethod == "OPTIONS" {
        return Preflight;
      }
      if req.httpMethod != "POST" {
        return Fail(405, "Method not allowed");
      }
      if req.body.Unreadable? {
        return EngineError;
      }
      var verdict := ValidatePayload(req.body.payload);
      if verdict.Throws? {
        return EngineError;
      } else if verdict.Invalid? {
        return Fail(400, verdict.message);
      }
      reply := ProceedWith(InputOf(req.body.payload), x);
    }

    /** Lines 71-103: the pass, then the caller's pending order. */
    method ProceedWith(input: Input, x: Outcomes) returns (reply: Reply)
      modifies this
      ensures (reply, Snapshot()) == Proceed(old(Snapshot()), input, x)
    {
      if x.passFetchFails {
        return Fail(500, "Unable to fetch pass details.");
      }
      var pass := MaybeSingle(ActivePasses(passes, input.passSku));
      if pass.ManyRows? {
        return Fail(500, "Unable to fetch pass details.");
      } else if pass.NoRow? {
        return Fail(404, "Pass unavailable.");
      }
      if x.lookupFails {
        return Fail(500, "Unable to look up existing orders.");
      }
      var existing := FindPendingOrderByEmail(Snapshot(), input.email);
      if existing.Some? && !input.resend {
        return Answer(200, true, "Existing pending order found.", Existing(existing.value));
      }
      if existing.Some? {
        calls := calls + [NotifyCall(existing.value.requestCode)];
        if x.notifyError.Some? {
          return Fail(500, x.notifyError.value);
        }
        return Answer(200, true, "Invoice resent successfully.", Existing(existing.value));
      }
      reply := CreateRegistration(input, pass.row, x);
    }

    /** Lines 105-202. */
    method CreateRegistration(input: Input, pass: PassRow, x: Outcomes) returns (reply: Reply)
      modifies this
      ensures (reply, Snapshot()) == Register(old(Snapshot()), input, pass, x)
    {
      var reg := RegistrationFor(input, pass);
      calls := calls + [RegisterCall(reg)];
      if x.registration.RpcError? {
        return Fail(500, "Unable to prepare attendee registration.");
      } else if x.registration.RpcNoRow? {
        return Fail(500, "Registration could not be created.");
      }
      var attendeeId, orderId := x.registration.attendeeId, x.registration.orderId;
      attendees := attendees + [AttendeeRow(attendeeId, reg.fullName, reg.email, reg.role, reg.phone, reg.company)];
      orders := orders + [OrderRow(orderId, attendeeId, reg.passProductId, Webhook.Pending, reg.amountKobo,
                                   reg.currency, x.createdAt, None, None, None, None)];
      calls := calls + [CreatePaymentCall(PaymentRequestFor(input, pass, attendeeId, orderId, x.dueDate))];
      if x.invoice.Failure? {
        return Fail(500, x.invoice.error);
      }
      var inv := x.invoice.value;
      if x.orderUpdateFails {
        return Fail(500, "Unable to persist payment data.");
      }
      orders := RecordInvoice(orders, orderId, inv);
      reply := Answer(200, true, "Invoice created successfully.",
                      Created(orderId, attendeeId, inv.requestCode, inv.hostedLink, inv.pdfUrl));
    }
  }
}
