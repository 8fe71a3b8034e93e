/** What `validatePayload` accepts, stated rule by rule, and what the
    create-order handler does to the tables and the call log. */
module CreateOrderProperties {
  import opened Wrappers
  import opened Text
  import opened CreateOrder
  import Webhook

  // ------------------------------------------------------------ the e-mail pattern

  predicate NoSpace(s: string) {
    forall k :: 0 <= k < |s| ==> !IsJsSpace(s[k])
  }

  /** The only '@' of s is at i, and it is not the first character. */
  predicate SoleAtSign(s: string, i: int) {
    0 < i < |s| && s[i] == '@' && forall k :: 0 <= k < |s| && k != i ==> s[k] != '@'
  }

  /** Some '.' after position i has a character on each side. */
  ghost predicate DotAfter(s: string, i: int) {
    0 <= i && exists j :: i + 1 < j < |s| - 1 && s[j] == '.'
  }

  /** No white space, exactly one '@' with something before it, and a dot
      in the domain with something on each side. */
  ghost predicate EmailShape(s: string) {
    NoSpace(s) && exists i :: SoleAtSign(s, i) && DotAfter(s, i)
  }

  lemma SplitShape(s: string, i: int, j: int)
    requires EmailSplit(s, i, j)
    ensures NoSpace(s) && SoleAtSign(s, i) && DotAfter(s, i)
  {
    forall k | 0 <= k < |s|
      ensures !IsJsSpace(s[k]) && (k != i ==> s[k] != '@')
    {
      if k < i {
        assert s[k] == s[..i][k];
      } else if i < k < j {
        assert s[k] == s[i + 1..j][k - i - 1];
      } else if j < k {
        assert s[k] == s[j + 1..][k - j - 1];
      }
    }
  }

  lemma ShapeSplit(s: string, i: int, j: int)
    requires NoSpace(s) && SoleAtSign(s, i) && i + 1 < j < |s| - 1 && s[j] == '.'
    ensures EmailSplit(s, i, j)
  {
    var a, b, c := s[..i], s[i + 1..j], s[j + 1..];
    assert Run(a) by {
      forall k | 0 <= k < |a| ensures !IsJsSpace(a[k]) && a[k] != '@' {
        assert a[k] == s[k];
      }
    }
    assert Run(b) by {
      forall k | 0 <= k < |b| ensures !IsJsSpace(b[k]) && b[k] != '@' {
        assert b[k] == s[i + 1 + k];
      }
    }
    assert Run(c) by {
      forall k | 0 <= k < |c| ensures !IsJsSpace(c[k]) && c[k] != '@' {
        assert c[k] == s[j + 1 + k];
      }
    }
  }

  /** The regular expression at index.ts:229 accepts exactly the strings of
      `EmailShape`. */
  lemma EmailPatternIff(s: string)
    ensures MatchesEmailPattern(s) <==> EmailShape(s)
  {
    if MatchesEmailPattern(s) {
      var i, j :| 0 < i < j < |s| && EmailSplit(s, i, j);
      SplitShape(s, i, j);
    }
    if EmailShape(s) {
      var i :| SoleAtSign(s, i) && DotAfter(s, i);
      var j :| i + 1 < j < |s| - 1 && s[j] == '.';
      ShapeSplit(s, i, j);
    }
  }

  /** Surrounding white space passes the required-field check but not the
      pattern. */
  lemma PaddedEmailRejected(s: string)
    requires |s| > 0 && IsJsSpace(s[0])
    ensures !MatchesEmailPattern(s)
  {
    EmailPatternIff(s);
  }

  // ------------------------------------------------------------ every rule at once

  predicate CurrencyAccepted(v: Value) {
    v.Absent? || v.Null? || (v.Str? && ToUpperAscii(v.s) in AllowedCurrencies)
  }

  predicate TermsAccepted(p: Value) {
    Truthy(Field(p, "resend_invoice")) ||
    (Truthy(Field(p, "accepted_terms")) && Present(p, "terms_version"))
  }

  /** The rules of `validatePayload`, without their order. */
  ghost predicate Acceptable(p: Value) {
    Truthy(p) &&
    (forall f :: f in RequiredFields ==> Present(p, f)) &&
    EmailShape(StrOf(Field(p, "email"))) &&
    StrOf(Field(p, "attendee_role")) in AllowedRoles &&
    CurrencyAccepted(Field(p, "currency")) &&
    TermsAccepted(p)
  }

  lemma BlankEmpty()
    ensures IsBlank("")
  {
    assert TrimStart("") == "";
  }

  lemma TermsIff(p: Value)
    ensures ValidateTerms(p) == Valid <==> TermsAccepted(p)
  {
    BlankEmpty();
  }

  lemma CurrencyIff(p: Value)
    ensures (CurrencyOf(p).Some? && CurrencyOf(p).value in AllowedCurrencies) <==> CurrencyAccepted(Field(p, "currency"))
  {
  }

  lemma ValuesIff(p: Value)
    ensures ValidateValues(p) == Valid <==>
      EmailShape(StrOf(Field(p, "email"))) &&
      StrOf(Field(p, "attendee_role")) in AllowedRoles &&
      CurrencyAccepted(Field(p, "currency")) &&
      TermsAccepted(p)
  {
    EmailPatternIff(StrOf(Field(p, "email")));
    TermsIff(p);
    CurrencyIff(p);
  }

  lemma RequiredIff(p: Value)
    ensures FirstRequiredFailure(p, RequiredFields).None? <==> forall f :: f in RequiredFields ==> Present(p, f)
  {
    assert forall f :: f in RequiredFields <==> exists i :: 0 <= i < |RequiredFields| && RequiredFields[i] == f;
  }

  /** `validatePayload` returns null exactly when every rule holds. */
  lemma ValidIff(p: Value)
    ensures Validate(p) == Valid <==> Acceptable(p)
  {
    assert Validate(p) == Valid <==>
      Truthy(p) && FirstRequiredFailure(p, RequiredFields).None? && ValidateValues(p) == Valid;
    RequiredIff(p);
    ValuesIff(p);
  }

  // ------------------------------------------------------------ the first missing field

  /** A value the required-field loop reports as missing. */
  predicate Missing(v: Value) {
    !Truthy(v) || (v.Str? && IsBlank(v.s))
  }

  lemma FailsFirst(p: Value, fields: seq<string>)
    requires 0 < |fields| && !Present(p, fields[0])
    ensures FirstRequiredFailure(p, fields) == CheckRequired(p, fields[0])
  {
  }

  lemma PassesFirst(p: Value, fields: seq<string>)
    requires 0 < |fields| && Present(p, fields[0])
    ensures FirstRequiredFailure(p, fields) == FirstRequiredFailure(p, fields[1..])
  {
  }

  lemma PresentShift(p: Value, fields: seq<string>, i: nat)
    requires 0 < i < |fields|
    requires forall j :: 0 <= j < i ==> Present(p, fields[j])
    ensures forall j :: 0 <= j < i - 1 ==> Present(p, fields[1..][j])
  {
    forall j | 0 <= j < i - 1
      ensures Present(p, fields[1..][j])
    {
      assert fields[1..][j] == fields[j + 1];
    }
  }

  lemma {:induction false} FirstFailureAt(p: Value, fields: seq<string>, i: nat)
    requires i < |fields|
    requires forall j :: 0 <= j < i ==> Present(p, fields[j])
    requires !Present(p, fields[i])
    ensures FirstRequiredFailure(p, fields) == CheckRequired(p, fields[i])
  {
    if i == 0 {
      FailsFirst(p, fields);
    } else {
      PassesFirst(p, fields);
      PresentShift(p, fields, i);
      assert fields[1..][i - 1] == fields[i];
      FirstFailureAt(p, fields[1..], i - 1);
    }
  }

  /** The fields are checked in the order pass_sku, full_name, email,
      attendee_role, and the first one that is missing or blank is named;
      a truthy value that is not a string makes `trim` throw instead. */
  lemma FirstMissingReported(p: Value, i: nat)
    requires Truthy(p) && i < |RequiredFields|
    requires forall j :: 0 <= j < i ==> Present(p, RequiredFields[j])
    requires !Present(p, RequiredFields[i])
    ensures Missing(Field(p, RequiredFields[i])) ==> Validate(p) == Invalid(MissingMessage(RequiredFields[i]))
    ensures !Missing(Field(p, RequiredFields[i])) ==> Validate(p) == Throws
  {
    FirstFailureAt(p, RequiredFields, i);
  }

  // ------------------------------------------------------------ currency

  /** `payload` with one property set. */
  function With(p: Value, name: string, v: Value): (r: Value)
    requires p.Obj?
    ensures Field(r, name) == v
    ensures forall f :: f != name ==> Field(r, f) == Field(p, f)
  {
    Obj(p.fields[name := v])
  }

  lemma {:induction false} UpperIdempotent(s: string)
    ensures ToUpperAscii(ToUpperAscii(s)) == ToUpperAscii(s)
  {
    var u := ToUpperAscii(s);
    forall k | 0 <= k < |s|
      ensures ToUpperAscii(u)[k] == u[k]
    {
      assert u[k] == UpperChar(s[k]);
    }
  }

  lemma {:induction false} SameRequired(p1: Value, p2: Value, fields: seq<string>)
    requires forall i :: 0 <= i < |fields| ==> Field(p1, fields[i]) == Field(p2, fields[i])
    ensures FirstRequiredFailure(p1, fields) == FirstRequiredFailure(p2, fields)
  {
    if fields != [] {
      assert forall i :: 0 <= i < |fields| - 1 ==> fields[1..][i] == fields[i + 1];
      SameRequired(p1, p2, fields[1..]);
    }
  }

  lemma SameTerms(p1: Value, p2: Value)
    requires Field(p1, "resend_invoice") == Field(p2, "resend_invoice")
    requires Field(p1, "accepted_terms") == Field(p2, "accepted_terms")
    requires Field(p1, "terms_version") == Field(p2, "terms_version")
    ensures ValidateTerms(p1) == ValidateTerms(p2)
  {
  }

  lemma SameValues(p1: Value, p2: Value)
    requires Field(p1, "email") == Field(p2, "email")
    requires Field(p1, "attendee_role") == Field(p2, "attendee_role")
    requires CurrencyOf(p1) == CurrencyOf(p2)
    requires ValidateTerms(p1) == ValidateTerms(p2)
    ensures ValidateValues(p1) == ValidateValues(p2)
  {
  }

  /** Payloads that agree on every property but `currency`, and whose
      currencies upper-case alike, get the same verdict. */
  lemma SameVerdict(p1: Value, p2: Value)
    requires p1.Obj? && p2.Obj?
    requires forall f :: f != "currency" ==> Field(p1, f) == Field(p2, f)
    requires CurrencyOf(p1) == CurrencyOf(p2)
    ensures Validate(p1) == Validate(p2)
  {
    var names := RequiredFields + ["resend_invoice", "accepted_terms", "terms_version"];
    assert forall i :: 0 <= i < |names| ==> names[i] != "currency";
    assert forall i :: 0 <= i < |RequiredFields| ==> RequiredFields[i] == names[i];
    SameRequired(p1, p2, RequiredFields);
    assert names[2] == "email" && names[3] == "attendee_role";
    assert names[4] == "resend_invoice" && names[5] == "accepted_terms" && names[6] == "terms_version";
    SameTerms(p1, p2);
    SameValues(p1, p2);
    SameParts(p1, p2);
  }

  lemma SameParts(p1: Value, p2: Value)
    requires p1.Obj? && p2.Obj?
    requires FirstRequiredFailure(p1, RequiredFields) == FirstRequiredFailure(p2, RequiredFields)
    requires ValidateValues(p1) == ValidateValues(p2)
    ensures Validate(p1) == Validate(p2)
  {
  }

  /** The currency's letter case never changes the verdict, so "usd" is
      accepted like "USD". */
  lemma CurrencyCaseIgnored(p: Value, s: string)
    requires p.Obj?
    ensures Validate(With(p, "currency", Str(s))) == Validate(With(p, "currency", Str(ToUpperAscii(s))))
  {
    UpperIdempotent(s);
    SameVerdict(With(p, "currency", Str(s)), With(p, "currency", Str(ToUpperAscii(s))));
  }

  /** A missing or null currency is judged as "NGN". */
  lemma NullishCurrencyIsNgn(p: Value, v: Value)
    requires p.Obj? && (v.Absent? || v.Null?)
    ensures Validate(With(p, "currency", v)) == Validate(With(p, "currency", Str("NGN")))
  {
    assert ToUpperAscii("NGN") == "NGN" by {
      assert forall k :: 0 <= k < 3 ==> UpperChar("NGN"[k]) == "NGN"[k];
    }
    SameVerdict(With(p, "currency", v), With(p, "currency", Str("NGN")));
  }

  lemma LowercaseUsdAccepted()
    ensures CurrencyAccepted(Str("usd")) && !CurrencyAccepted(Str("eur"))
  {
    assert ToUpperAscii("usd") == "USD" by {
      assert forall k :: 0 <= k < 3 ==> ToUpperAscii("usd")[k] == "USD"[k];
    }
    assert ToUpperAscii("eur") == "EUR" by {
      assert forall k :: 0 <= k < 3 ==> ToUpperAscii("eur")[k] == "EUR"[k];
    }
  }

  // ------------------------------------------------------------ the handler

  /** A valid POST for which the pass lookup finds one active pass and the
      pending-order lookup succeeds. */
  predicate ReachesLookup(t: Tables, req: Request, x: Outcomes) {
    req.httpMethod == "POST" && req.body.Parsed? && Validate(req.body.payload) == Valid &&
    !x.passFetchFails && !x.lookupFails &&
    MaybeSingle(ActivePasses(t.passes, InputOf(req.body.payload).passSku)).OneRow?
  }

  function PassOf(t: Tables, req: Request, x: Outcomes): PassRow
    requires ReachesLookup(t, req, x)
  {
    MaybeSingle(ActivePasses(t.passes, InputOf(req.body.payload).passSku)).row
  }

  /** An existing pending order is answered without touching any table;
      with `resend_invoice` its invoice is resent and nothing is registered. */
  lemma ExistingPendingOrderReused(t: Tables, req: Request, x: Outcomes)
    requires ReachesLookup(t, req, x)
    requires FindPendingOrderByEmail(t, InputOf(req.body.payload).email).Some?
    ensures var e := FindPendingOrderByEmail(t, InputOf(req.body.payload).email).value;
            var r := Respond(t, req, x);
            r.1.passes == t.passes && r.1.attendees == t.attendees && r.1.orders == t.orders &&
            (!Truthy(Field(req.body.payload, "resend_invoice")) ==>
               r == (Answer(200, true, "Existing pending order found.", Existing(e)), t)) &&
            (Truthy(Field(req.body.payload, "resend_invoice")) ==>
               r.1.calls == t.calls + [NotifyCall(e.requestCode)] &&
               (x.notifyError.None? ==> r.0 == Answer(200, true, "Invoice resent successfully.", Existing(e))))
  {
    var e := FindPendingOrderByEmail(t, InputOf(req.body.payload).email).value;
    ReachesExisting(t, req, x);
  }

  /** A request that reaches the lookup and finds a pending order answers
      with it, or resends its invoice. */
  lemma ReachesExisting(t: Tables, req: Request, x: Outcomes)
    requires ReachesLookup(t, req, x)
    requires FindPendingOrderByEmail(t, InputOf(req.body.payload).email).Some?
    ensures var e := FindPendingOrderByEmail(t, InputOf(req.body.payload).email).value;
            Respond(t, req, x) ==
              if InputOf(req.body.payload).resend then Resend(t, e, x)
              else (Answer(200, true, "Existing pending order found.", Existing(e)), t)
  {
    var i := InputOf(req.body.payload);
    var e := FindPendingOrderByEmail(t, i.email).value;
    RespondProceeds(t, req, x);
    var r := if i.resend then Resend(t, e, x) else (Answer(200, true, "Existing pending order found.", Existing(e)), t);
    assert Proceed(t, i, x) == r;
  }

  /** `Respond` either answers before any lookup, leaving everything as it
      was, or hands the validated input to `Proceed`. */
  lemma RespondProceeds(t: Tables, req: Request, x: Outcomes)
    requires req.httpMethod == "POST" && req.body.Parsed? && Validate(req.body.payload) == Valid
    ensures Respond(t, req, x) == Proceed(t, InputOf(req.body.payload), x)
  {
    var r := Proceed(t, InputOf(req.body.payload), x);
    assert Respond(t, req, x) == r;
  }

  lemma RespondRejects(t: Tables, req: Request, x: Outcomes)
    requires !(req.httpMethod == "POST" && req.body.Parsed? && Validate(req.body.payload) == Valid)
    ensures var r := Respond(t, req, x);
            r.1 == t && (r.0.Preflight? || r.0.EngineError? || (r.0.Answer? && (r.0.status == 400 || r.0.status == 405)))
  {
  }

  lemma RespondSplit(t: Tables, req: Request, x: Outcomes)
    ensures var r := Respond(t, req, x);
            if req.httpMethod == "POST" && req.body.Parsed? && Validate(req.body.payload) == Valid
            then r == Proceed(t, InputOf(req.body.payload), x)
            else r.1 == t && (r.0.Preflight? || r.0.EngineError? || (r.0.Answer? && (r.0.status == 400 || r.0.status == 405)))
  {
    if req.httpMethod == "POST" && req.body.Parsed? && Validate(req.body.payload) == Valid {
      RespondProceeds(t, req, x);
    } else {
      RespondRejects(t, req, x);
    }
  }

  lemma ResendShape(t: Tables, e: ExistingPending, x: Outcomes)
    ensures var r := Resend(t, e, x);
            r.1.passes == t.passes && r.1.attendees == t.attendees && r.1.orders == t.orders &&
            t.calls <= r.1.calls && r.0.Answer? && (r.0.status == 200 || r.0.status == 500)
  {
  }

  lemma RequestInvoiceShape(t: Tables, i: Input, pass: PassRow, aid: string, oid: string, x: Outcomes)
    ensures var r := RequestInvoice(t, i, pass, aid, oid, x);
            r.1.passes == t.passes && t.calls <= r.1.calls && r.0.Answer? && (r.0.status == 200 || r.0.status == 500)
  {
  }

  lemma RegisterFailsShape(t: Tables, i: Input, pass: PassRow, x: Outcomes)
    requires !x.registration.RpcRow?
    ensures Register(t, i, pass, x) ==
            (Fail(500, if x.registration.RpcError? then "Unable to prepare attendee registration."
                       else "Registration could not be created."),
             t.(calls := t.calls + [RegisterCall(RegistrationFor(i, pass))]))
  {
  }

  lemma RegisterRowShape(t: Tables, i: Input, pass: PassRow, x: Outcomes)
    requires x.registration.RpcRow?
    ensures var reg := RegistrationFor(i, pass);
            Register(t, i, pass, x) ==
              RequestInvoice(Registered(t.(calls := t.calls + [RegisterCall(reg)]), reg,
                                        x.registration.attendeeId, x.registration.orderId, x.createdAt),
                             i, pass, x.registration.attendeeId, x.registration.orderId, x)
  {
  }

  lemma RegisterShape(t: Tables, i: Input, pass: PassRow, x: Outcomes)
    ensures var r := Register(t, i, pass, x);
            r.1.passes == t.passes && t.calls <= r.1.calls && r.0.Answer? && (r.0.status == 200 || r.0.status == 500) &&
            |r.1.calls| > |t.calls| && r.1.calls[|t.calls|] == RegisterCall(RegistrationFor(i, pass)) &&
            ((r.1.attendees != t.attendees || r.1.orders != t.orders) ==> x.registration.RpcRow?)
  {
    var reg := RegistrationFor(i, pass);
    var t1 := t.(calls := t.calls + [RegisterCall(reg)]);
    if x.registration.RpcRow? {
      var aid, oid := x.registration.attendeeId, x.registration.orderId;
      var t2 := Registered(t1, reg, aid, oid, x.createdAt);
      RegisterRowShape(t, i, pass, x);
      RequestInvoiceShape(t2, i, pass, aid, oid, x);
      assert t.calls <= t2.calls && t2.calls[|t.calls|] == RegisterCall(reg);
    } else {
      RegisterFailsShape(t, i, pass, x);
    }
  }

  lemma ProceedShape(t: Tables, i: Input, x: Outcomes)
    ensures var r := Proceed(t, i, x);
            r.1.passes == t.passes && t.calls <= r.1.calls &&
            (r.0.Answer? && r.0.status != 200 && r.0.status != 500 ==> r.1 == t) &&
            ((r.1.attendees != t.attendees || r.1.orders != t.orders) ==>
               !x.passFetchFails && !x.lookupFails &&
               MaybeSingle(ActivePasses(t.passes, i.passSku)).OneRow? &&
               FindPendingOrderByEmail(t, i.email).None? && x.registration.RpcRow?)
  {
    if !x.passFetchFails && MaybeSingle(ActivePasses(t.passes, i.passSku)).OneRow? && !x.lookupFails {
      var pass := MaybeSingle(ActivePasses(t.passes, i.passSku)).row;
      match FindPendingOrderByEmail(t, i.email)
      case Some(e) => ResendShape(t, e, x);
      case None => RegisterShape(t, i, pass, x);
    }
  }

  lemma ProceedAnswers(t: Tables, i: Input, x: Outcomes)
    ensures Proceed(t, i, x).0.Answer?
  {
    if !x.passFetchFails && MaybeSingle(ActivePasses(t.passes, i.passSku)).OneRow? && !x.lookupFails {
      var pass := MaybeSingle(ActivePasses(t.passes, i.passSku)).row;
      match FindPendingOrderByEmail(t, i.email)
      case Some(e) => ResendShape(t, e, x);
      case None => RegisterShape(t, i, pass, x);
    }
  }

  /** Every answer other than 200 and 500 (and the preflight and engine
      errors) leaves the tables and the call log as they were. */
  lemma RejectionsWriteNothing(t: Tables, req: Request, x: Outcomes)
    ensures var r := Respond(t, req, x);
            (r.0.Preflight? || r.0.EngineError? || (r.0.Answer? && r.0.status != 200 && r.0.status != 500)) ==> r.1 == t
  {
    RespondSplit(t, req, x);
    if req.httpMethod == "POST" && req.body.Parsed? && Validate(req.body.payload) == Valid {
      var i := InputOf(req.body.payload);
      ProceedShape(t, i, x);
      assert !Proceed(t, i, x).0.Preflight? && !Proceed(t, i, x).0.EngineError? by {
        ProceedAnswers(t, i, x);
      }
    }
  }

  /** Passes are never written, the call log only grows, and attendees or
      orders change only when no pending order exists and the registration
      procedure returns a row. */
  lemma WritesNeedRegistration(t: Tables, req: Request, x: Outcomes)
    ensures var r := Respond(t, req, x);
            r.1.passes == t.passes && t.calls <= r.1.calls &&
            ((r.1.attendees != t.attendees || r.1.orders != t.orders) ==>
               ReachesLookup(t, req, x) &&
               FindPendingOrderByEmail(t, InputOf(req.body.payload).email).None? &&
               x.registration.RpcRow?)
  {
    RespondSplit(t, req, x);
    if req.httpMethod == "POST" && req.body.Parsed? && Validate(req.body.payload) == Valid {
      ProceedShape(t, InputOf(req.body.payload), x);
    }
  }

  /** A request that reaches the lookup and finds no pending order
      registers one. */
  lemma ReachesRegister(t: Tables, req: Request, x: Outcomes)
    requires ReachesLookup(t, req, x)
    requires FindPendingOrderByEmail(t, InputOf(req.body.payload).email).None?
    ensures Respond(t, req, x) == Register(t, InputOf(req.body.payload), PassOf(t, req, x), x)
  {
    var i := InputOf(req.body.payload);
    RespondProceeds(t, req, x);
    var r := Register(t, i, PassOf(t, req, x), x);
    assert Proceed(t, i, x) == r;
  }

  /** A registration whose procedure and invoice succeed: the attendee and a
      pending order are added, the order carries the gateway's invoice, the
      other orders are kept, and the log records both calls. */
  lemma RegistrationSucceeds(t: Tables, i: Input, pass: PassRow, x: Outcomes)
    requires x.registration.RpcRow? && x.invoice.Success? && !x.orderUpdateFails
    ensures var aid, oid, inv := x.registration.attendeeId, x.registration.orderId, x.invoice.value;
            var r := Register(t, i, pass, x);
            r.0 == Answer(200, true, "Invoice created successfully.",
                          Created(oid, aid, inv.requestCode, inv.hostedLink, inv.pdfUrl)) &&
            r.1.passes == t.passes &&
            r.1.attendees == t.attendees + [AttendeeRow(aid, i.fullName, i.email, i.role, OrNull(i.phone), OrNull(i.company))] &&
            |r.1.orders| == |t.orders| + 1 &&
            r.1.orders[|t.orders|] ==
              OrderRow(oid, aid, pass.id, Webhook.Pending, pass.amountKobo, pass.currency, x.createdAt,
                       Some(inv.requestCode), Some(inv.hostedLink), Some(inv.pdfUrl), Some(inv)) &&
            (forall k :: 0 <= k < |t.orders| && t.orders[k].id != oid ==> r.1.orders[k] == t.orders[k]) &&
            (forall k :: 0 <= k < |t.orders| ==>
               r.1.orders[k].attendeeId == t.orders[k].attendeeId && r.1.orders[k].status == t.orders[k].status) &&
            r.1.calls == t.calls + [RegisterCall(RegistrationFor(i, pass)),
                                    CreatePaymentCall(PaymentRequestFor(i, pass, aid, oid, x.dueDate))]
  {
    var aid, oid, inv := x.registration.attendeeId, x.registration.orderId, x.invoice.value;
    var reg := RegistrationFor(i, pass);
    var t1 := Registered(t.(calls := t.calls + [RegisterCall(reg)]), reg, aid, oid, x.createdAt);
    RegisterRowShape(t, i, pass, x);
    InvoiceRecorded(t1, i, pass, aid, oid, x);
    RecordAppended(t.orders, t1.orders[|t.orders|], inv);
  }

  /** A new registration through the handler (see `RegistrationSucceeds`). */
  lemma SubmissionRegistersOrder(t: Tables, req: Request, x: Outcomes)
    requires ReachesLookup(t, req, x)
    requires FindPendingOrderByEmail(t, InputOf(req.body.payload).email).None?
    requires x.registration.RpcRow? && x.invoice.Success? && !x.orderUpdateFails
    ensures var i, pass := InputOf(req.body.payload), PassOf(t, req, x);
            var aid, oid, inv := x.registration.attendeeId, x.registration.orderId, x.invoice.value;
            var r := Respond(t, req, x);
            r.0 == Answer(200, true, "Invoice created successfully.",
                          Created(oid, aid, inv.requestCode, inv.hostedLink, inv.pdfUrl)) &&
            r.1.passes == t.passes &&
            r.1.attendees == t.attendees + [AttendeeRow(aid, i.fullName, i.email, i.role, OrNull(i.phone), OrNull(i.company))] &&
            |r.1.orders| == |t.orders| + 1 &&
            r.1.orders[|t.orders|] ==
              OrderRow(oid, aid, pass.id, Webhook.Pending, pass.amountKobo, pass.currency, x.createdAt,
                       Some(inv.requestCode), Some(inv.hostedLink), Some(inv.pdfUrl), Some(inv)) &&
            (forall k :: 0 <= k < |t.orders| && t.orders[k].id != oid ==> r.1.orders[k] == t.orders[k]) &&
            (forall k :: 0 <= k < |t.orders| ==>
               r.1.orders[k].attendeeId == t.orders[k].attendeeId && r.1.orders[k].status == t.orders[k].status) &&
            r.1.calls == t.calls + [RegisterCall(RegistrationFor(i, pass)),
                                    CreatePaymentCall(PaymentRequestFor(i, pass, aid, oid, x.dueDate))]
  {
    ReachesRegister(t, req, x);
    RegistrationSucceeds(t, InputOf(req.body.payload), PassOf(t, req, x), x);
  }

  /** Recording the invoice on a just-appended order. */
  lemma RecordAppended(orders: seq<OrderRow>, o: OrderRow, inv: Invoice)
    ensures var u := RecordInvoice(orders + [o], o.id, inv);
            |u| == |orders| + 1 &&
            u[|orders|] == o.(requestCode := Some(inv.requestCode), invoiceUrl := Some(inv.hostedLink),
                              pdfUrl := Some(inv.pdfUrl), meta := Some(inv)) &&
            (forall k :: 0 <= k < |orders| && orders[k].id != o.id ==> u[k] == orders[k]) &&
            (forall k :: 0 <= k < |orders| ==> u[k].attendeeId == orders[k].attendeeId && u[k].status == orders[k].status)
  {
    var w := orders + [o];
    assert w[|orders|] == o;
    assert forall k :: 0 <= k < |orders| ==> w[k] == orders[k];
  }

  /** The success branch of `RequestInvoice`. */
  lemma InvoiceRecorded(t: Tables, i: Input, pass: PassRow, aid: string, oid: string, x: Outcomes)
    requires x.invoice.Success? && !x.orderUpdateFails
    ensures var inv := x.invoice.value;
            RequestInvoice(t, i, pass, aid, oid, x) ==
              (Answer(200, true, "Invoice created successfully.",
                      Created(oid, aid, inv.requestCode, inv.hostedLink, inv.pdfUrl)),
               t.(calls := t.calls + [CreatePaymentCall(PaymentRequestFor(i, pass, aid, oid, x.dueDate))],
                  orders := RecordInvoice(t.orders, oid, inv)))
  {
  }

  /** With `resend_invoice` set, the terms are not checked; when the
      caller has no pending order the handler still registers one, and the
      registration records that the terms were not accepted. */
  lemma ResendFlagRegistersWithoutTerms(t: Tables, req: Request, x: Outcomes)
    requires req.httpMethod == "POST" && req.body.Parsed? && Acceptable(req.body.payload)
    requires Truthy(Field(req.body.payload, "resend_invoice")) && !Truthy(Field(req.body.payload, "accepted_terms"))
    requires !x.passFetchFails && !x.lookupFails
    requires MaybeSingle(ActivePasses(t.passes, InputOf(req.body.payload).passSku)).OneRow?
    requires FindPendingOrderByEmail(t, InputOf(req.body.payload).email).None?
    ensures var r := Respond(t, req, x);
            |r.1.calls| > |t.calls| && r.1.calls[|t.calls|].RegisterCall? &&
            !r.1.calls[|t.calls|].registration.metadata.acceptedTerms
  {
    ValidIff(req.body.payload);
    RespondSplit(t, req, x);
    var i := InputOf(req.body.payload);
    var pass := MaybeSingle(ActivePasses(t.passes, i.passSku)).row;
    assert Respond(t, req, x) == Register(t, i, pass, x);
    RegisterShape(t, i, pass, x);
  }

  // ------------------------------------------------------------ a second submission

  lemma {:induction false} HoldersAppend(xs: seq<AttendeeRow>, a: AttendeeRow, orders: seq<OrderRow>, email: string)
    ensures PendingHolders(xs + [a], orders, email) ==
            PendingHolders(xs, orders, email) + (if a.email == email && HasPending(orders, a.id) then [a] else [])
  {
    if xs == [] {
      assert [] + [a] == [a];
      assert [a][1..] == [];
    } else {
      assert (xs + [a])[0] == xs[0];
      assert (xs + [a])[1..] == xs[1..] + [a];
      HoldersAppend(xs[1..], a, orders, email);
    }
  }

  lemma {:induction false} HoldersSame(xs: seq<AttendeeRow>, o1: seq<OrderRow>, o2: seq<OrderRow>, email: string)
    requires forall a :: a in xs && a.email == email ==> (HasPending(o1, a.id) <==> HasPending(o2, a.id))
    ensures PendingHolders(xs, o1, email) == PendingHolders(xs, o2, email)
  {
    if xs != [] {
      assert xs[0] in xs;
      assert forall a :: a in xs[1..] ==> a in xs;
      HoldersSame(xs[1..], o1, o2, email);
    }
  }

  /** A table grown by one row that belongs to someone else, whose other
      rows keep their owner and status, has the same pending owners. */
  lemma PendingBefore(before: seq<OrderRow>, after: seq<OrderRow>, id: string)
    requires |after| == |before| + 1
    requires forall k :: 0 <= k < |before| ==>
      after[k].attendeeId == before[k].attendeeId && after[k].status == before[k].status
    requires after[|before|].attendeeId != id
    ensures HasPending(after, id) <==> HasPending(before, id)
  {
    if HasPending(after, id) {
      var y :| y in after && PendingFor(y, id);
      var k :| 0 <= k < |after| && after[k] == y;
      assert k < |before|;
      assert before[k] in before && PendingFor(before[k], id);
    }
    if HasPending(before, id) {
      var y :| y in before && PendingFor(y, id);
      var k :| 0 <= k < |before| && before[k] == y;
      assert after[k] in after && PendingFor(after[k], id);
    }
  }

  /** The latest pending order of an attendee whose only order is the last
      row is that row. */
  lemma OnlyPendingIsLast(u: seq<OrderRow>, n: nat, aid: string)
    requires |u| == n + 1
    requires forall k :: 0 <= k < n ==> u[k].attendeeId != aid
    requires PendingFor(u[n], aid)
    ensures LatestPending(u, aid) == Some(u[n])
  {
    assert u[n] in u;
    var r := LatestPending(u, aid);
    var k :| 0 <= k < |u| && u[k] == r.value;
    assert u[k].attendeeId == aid;
    assert k == n;
  }

  /** Submitting the same request again, after a registration for an
      e-mail with no pending order, answers with the order the first
      submission created and its invoice instead of registering again. */
  lemma SecondSubmissionFindsFirstOrder(t: Tables, req: Request, x: Outcomes, x2: Outcomes)
    requires ReachesLookup(t, req, x)
    requires PendingHolders(t.attendees, t.orders, InputOf(req.body.payload).email) == []
    requires x.registration.RpcRow? && x.invoice.Success? && !x.orderUpdateFails
    requires forall a :: a in t.attendees ==> a.id != x.registration.attendeeId
    requires forall o :: o in t.orders ==> o.attendeeId != x.registration.attendeeId
    requires !Truthy(Field(req.body.payload, "resend_invoice")) && !x2.passFetchFails && !x2.lookupFails
    ensures var t1 := Respond(t, req, x).1;
            var aid, oid, inv := x.registration.attendeeId, x.registration.orderId, x.invoice.value;
            Respond(t1, req, x2) ==
              (Answer(200, true, "Existing pending order found.",
                      Existing(ExistingPending(aid, oid, Some(inv.requestCode), Some(inv.hostedLink)))), t1)
  {
    FirstOrderFound(t, req, x);
    var t1 := Respond(t, req, x).1;
    assert t1.passes == t.passes;
    ReachesExisting(t1, req, x2);
  }

  /** After such a registration the lookup by e-mail finds the new order. */
  lemma FirstOrderFound(t: Tables, req: Request, x: Outcomes)
    requires ReachesLookup(t, req, x)
    requires PendingHolders(t.attendees, t.orders, InputOf(req.body.payload).email) == []
    requires x.registration.RpcRow? && x.invoice.Success? && !x.orderUpdateFails
    requires forall a :: a in t.attendees ==> a.id != x.registration.attendeeId
    requires forall o :: o in t.orders ==> o.attendeeId != x.registration.attendeeId
    ensures var t1 := Respond(t, req, x).1;
            var aid, oid, inv := x.registration.attendeeId, x.registration.orderId, x.invoice.value;
            t1.passes == t.passes &&
            FindPendingOrderByEmail(t1, InputOf(req.body.payload).email) ==
              Some(ExistingPending(aid, oid, Some(inv.requestCode), Some(inv.hostedLink)))
  {
    var i := InputOf(req.body.payload);
    var email := i.email;
    var aid, oid, inv := x.registration.attendeeId, x.registration.orderId, x.invoice.value;
    SubmissionRegistersOrder(t, req, x);
    var t1 := Respond(t, req, x).1;
    var n := |t.orders|;
    var newA := AttendeeRow(aid, i.fullName, i.email, i.role, OrNull(i.phone), OrNull(i.company));
    assert t1.orders[n] in t1.orders;
    assert HasPending(t1.orders, aid);
    forall a | a in t.attendees && a.email == email
      ensures HasPending(t1.orders, a.id) <==> HasPending(t.orders, a.id)
    {
      PendingBefore(t.orders, t1.orders, a.id);
    }
    HoldersSame(t.attendees, t1.orders, t.orders, email);
    HoldersAppend(t.attendees, newA, t1.orders, email);
    assert PendingHolders(t1.attendees, t1.orders, email) == [newA];
    forall k | 0 <= k < n
      ensures t1.orders[k].attendeeId != aid
    {
      assert t.orders[k] in t.orders;
    }
    OnlyPendingIsLast(t1.orders, n, aid);
    assert FindPendingOrderByEmail(t1, email) ==
      Some(ExistingPending(aid, oid, Some(inv.requestCode), Some(inv.hostedLink)));
  }

  // ------------------------------------------------------------ the currency preference

  /** A call with its recorded currency preference blanked out. */
  function WithoutPreference(c: Call): Call {
    match c
    case RegisterCall(reg) => RegisterCall(reg.(metadata := reg.metadata.(currencyPreference := "")))
    case NotifyCall(_) => c
    case CreatePaymentCall(pr) => CreatePaymentCall(pr.(metadata := pr.metadata.(currencyPreference := "")))
  }

  /** Equal tables, and call logs that differ at most in the recorded
      currency preference. */
  predicate SameButPreference(a: Tables, b: Tables) {
    a.passes == b.passes && a.attendees == b.attendees && a.orders == b.orders && |a.calls| == |b.calls| &&
    forall k :: 0 <= k < |a.calls| ==> WithoutPreference(a.calls[k]) == WithoutPreference(b.calls[k])
  }

  lemma LogBoth(a: Tables, b: Tables, c1: Call, c2: Call)
    requires SameButPreference(a, b) && WithoutPreference(c1) == WithoutPreference(c2)
    ensures SameButPreference(a.(calls := a.calls + [c1]), b.(calls := b.calls + [c2]))
  {
    var a1, b1 := a.calls + [c1], b.calls + [c2];
    assert forall k :: 0 <= k < |a.calls| ==> a1[k] == a.calls[k] && b1[k] == b.calls[k];
  }

  lemma RegisterIgnoresCurrency(t: Tables, i1: Input, i2: Input, pass: PassRow, x: Outcomes)
    requires i1.(currency := Null) == i2.(currency := Null)
    ensures Register(t, i1, pass, x).0 == Register(t, i2, pass, x).0
    ensures SameButPreference(Register(t, i1, pass, x).1, Register(t, i2, pass, x).1)
  {
    var reg1, reg2 := RegistrationFor(i1, pass), RegistrationFor(i2, pass);
    assert WithoutPreference(RegisterCall(reg1)) == WithoutPreference(RegisterCall(reg2));
    LogBoth(t, t, RegisterCall(reg1), RegisterCall(reg2));
    var t1, t2 := t.(calls := t.calls + [RegisterCall(reg1)]), t.(calls := t.calls + [RegisterCall(reg2)]);
    if x.registration.RpcRow? {
      var aid, oid := x.registration.attendeeId, x.registration.orderId;
      RegisterRowShape(t, i1, pass, x);
      RegisterRowShape(t, i2, pass, x);
      var u1, u2 := Registered(t1, reg1, aid, oid, x.createdAt), Registered(t2, reg2, aid, oid, x.createdAt);
      assert SameButPreference(u1, u2);
      var c1 := CreatePaymentCall(PaymentRequestFor(i1, pass, aid, oid, x.dueDate));
      var c2 := CreatePaymentCall(PaymentRequestFor(i2, pass, aid, oid, x.dueDate));
      LogBoth(u1, u2, c1, c2);
    } else {
      RegisterFailsShape(t, i1, pass, x);
      RegisterFailsShape(t, i2, pass, x);
    }
  }

  lemma ProceedIgnoresCurrency(t: Tables, i1: Input, i2: Input, x: Outcomes)
    requires i1.(currency := Null) == i2.(currency := Null)
    ensures Proceed(t, i1, x).0 == Proceed(t, i2, x).0
    ensures SameButPreference(Proceed(t, i1, x).1, Proceed(t, i2, x).1)
  {
    assert i1.passSku == i2.passSku && i1.email == i2.email && i1.resend == i2.resend;
    if !x.passFetchFails && MaybeSingle(ActivePasses(t.passes, i1.passSku)).OneRow? && !x.lookupFails &&
       FindPendingOrderByEmail(t, i1.email).None? {
      RegisterIgnoresCurrency(t, i1, i2, MaybeSingle(ActivePasses(t.passes, i1.passSku)).row, x);
    } else {
      assert Proceed(t, i1, x) == Proceed(t, i2, x);
    }
  }

  /** The currency the payload names does not change the reply, the rows or
      the amount and currency charged: the invoice uses the pass's own, and
      the payload's choice is only recorded as the preference. */
  lemma CurrencyChoiceOnlyRecorded(t: Tables, p: Value, v1: Value, v2: Value, x: Outcomes)
    requires p.Obj?
    requires Validate(With(p, "currency", v1)) == Valid && Validate(With(p, "currency", v2)) == Valid
    ensures var r1 := Respond(t, Request("POST", Parsed(With(p, "currency", v1))), x);
            var r2 := Respond(t, Request("POST", Parsed(With(p, "currency", v2))), x);
            r1.0 == r2.0 && SameButPreference(r1.1, r2.1)
  {
    var p1, p2 := With(p, "currency", v1), With(p, "currency", v2);
    RespondSplit(t, Request("POST", Parsed(p1)), x);
    RespondSplit(t, Request("POST", Parsed(p2)), x);
    assert InputOf(p1).(currency := Null) == InputOf(p2).(currency := Null);
    ProceedIgnoresCurrency(t, InputOf(p1), InputOf(p2), x);
  }
}
