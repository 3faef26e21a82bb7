/** Reconciliation of gateway notifications (POST /webhook). A notification
    `{type, data: {id}}` is only a hint: the payment is fetched again from
    the gateway and must pass every guard before one PENDING site becomes
    APPROVED. Each guard that fails ends processing with nothing changed. */
module WebhookRoutes {
  import opened Js
  import opened Config
  import opened MercadoPago
  import opened Db

  /** Rounding slack allowed between the paid amount and SITE_PRICE. */
  const AMOUNT_TOLERANCE: real := 0.01

  /** The request body; None for a field (or for `data`) that is missing. */
  datatype Notification = Notification(kind: Option<string>, dataId: Option<string>)

  /** How processing of one notification ended; the source logs each case. */
  datatype Outcome =
    | SiteApproved(siteId: string)
    | SiteAlreadyApproved(siteId: string)
    | PaymentNotFound
    | PaymentNotApproved(status: string)
    | AmountMismatch(paid: Option<real>)
    | ReferenceNotFound
    | SiteNotFound(siteId: string)
    | GatewayError
    | MissingPaymentId
    | MerchantOrderIgnored
    | UnhandledType

  function Abs(x: real): real {
    if x < 0.0 then -x else x
  }

  /** The amount guard AS WRITTEN: `Math.abs(paid - SITE_PRICE) > 0.01`
      aborts. A missing amount makes the difference NaN, every comparison
      with NaN is false, so nothing aborts. */
  function AmountAcceptedAsWritten(paid: Option<real>): (ok: bool)
    ensures paid.None? ==> ok
  {
    match paid
    case None => true
    case Some(a) => !(Abs(a - SITE_PRICE) > AMOUNT_TOLERANCE)
  }

  /** The amount guard as intended: the paid amount is present and lies
      within the tolerance of SITE_PRICE (never the site's stored price). */
  function AmountAccepted(paid: Option<real>): (ok: bool)
    ensures ok <==> paid.Some? && SITE_PRICE - AMOUNT_TOLERANCE <= paid.value <= SITE_PRICE + AMOUNT_TOLERANCE
  {
    match paid
    case None => false
    case Some(a) => !(Abs(a - SITE_PRICE) > AMOUNT_TOLERANCE)
  }

  /** The two guards differ exactly on a payment that carries no amount. */
  lemma MissingAmountPassesAsWritten(paid: Option<real>)
    ensures AmountAcceptedAsWritten(paid) != AmountAccepted(paid) <==> paid.None?
  {
  }

  /** Which amount guard the chain runs: the one the handler has as written,
      or the intended one. Everything proved below holds for both. */
  datatype Guard = AsWritten | Intended

  function AmountOk(g: Guard, paid: Option<real>): (ok: bool)
    ensures ok <==> (g.AsWritten? && paid.None?)
                    || (paid.Some? && SITE_PRICE - AMOUNT_TOLERANCE <= paid.value <= SITE_PRICE + AMOUNT_TOLERANCE)
  {
    if g.AsWritten? then AmountAcceptedAsWritten(paid) else AmountAccepted(paid)
  }

  datatype Resolution = Resolved(siteId: string) | Unresolved | LookupFailed

  /** `let siteId = payment.external_reference; if (!siteId &&
      payment.preference_id) siteId = (await getPreference(...)).external_reference`:
      the payment's own reference wins; the preference is consulted only when
      that is falsy and a preference id is present. A preference that cannot
      be fetched throws. */
  function ResolveSiteId(gw: Gateway, p: Payment): (r: Resolution)
    ensures r.Resolved? ==> r.siteId != ""
    ensures Truthy(p.externalReference) ==> r == Resolved(p.externalReference.value)
    ensures !Truthy(p.externalReference) && !Truthy(p.preferenceId) ==> r == Unresolved
    ensures r.LookupFailed? ==>
              !Truthy(p.externalReference) && Truthy(p.preferenceId)
              && !GetPreference(gw, p.preferenceId.value).Found?
    ensures r.Resolved? && !Truthy(p.externalReference) ==>
              Truthy(p.preferenceId)
              && GetPreference(gw, p.preferenceId.value) == Found(Preference(Some(r.siteId)))
    ensures !Truthy(p.externalReference) && Truthy(p.preferenceId)
            && GetPreference(gw, p.preferenceId.value).Found?
            && Truthy(GetPreference(gw, p.preferenceId.value).value.externalReference) ==>
              r == Resolved(GetPreference(gw, p.preferenceId.value).value.externalReference.value)
  {
    if Truthy(p.externalReference) then Resolved(p.externalReference.value)
    else if Truthy(p.preferenceId) then
      match GetPreference(gw, p.preferenceId.value)
      case Found(pref) => if Truthy(pref.externalReference) then Resolved(pref.externalReference.value) else Unresolved
      case _ => LookupFailed
    else Unresolved
  }

  /** The gateway vouches for payment `paymentId` paying for site `siteId`:
      it exists, is approved, carries the right amount and points at the site. */
  predicate Verified(g: Guard, gw: Gateway, paymentId: string, siteId: string) {
    var fetched := GetPayment(gw, paymentId);
    && fetched.Found?
    && fetched.value.status == "approved"
    && AmountOk(g, fetched.value.transactionAmount)
    && ResolveSiteId(gw, fetched.value) == Resolved(siteId)
  }

  lemma VerifiedIsFunctional(g: Guard, gw: Gateway, paymentId: string, a: string, b: string)
    requires Verified(g, gw, paymentId, a) && Verified(g, gw, paymentId, b)
    ensures a == b
  {
  }

  /** handlePaymentNotification's chain of guards, as a decision. */
  function PaymentOutcome(g: Guard, rows: map<string, Site>, gw: Gateway, paymentId: string): (o: Outcome)
    ensures o.SiteApproved? ==> o.siteId in rows && Verified(g, gw, paymentId, o.siteId) && rows[o.siteId].paymentStatus == Pending
    ensures o.SiteAlreadyApproved? ==> o.siteId in rows && Verified(g, gw, paymentId, o.siteId) && rows[o.siteId].paymentStatus.Approved?
    ensures o.SiteNotFound? ==> o.siteId !in rows && Verified(g, gw, paymentId, o.siteId)
    ensures forall id :: Verified(g, gw, paymentId, id) ==>
              o == (if id !in rows then SiteNotFound(id)
                    else if rows[id].paymentStatus == Pending then SiteApproved(id)
                    else SiteAlreadyApproved(id))
  {
    match GetPayment(gw, paymentId)
    case Throws => GatewayError
    case Absent => PaymentNotFound
    case Found(p) =>
      if p.status != "approved" then PaymentNotApproved(p.status)
      else if !AmountOk(g, p.transactionAmount) then AmountMismatch(p.transactionAmount)
      else
        match ResolveSiteId(gw, p)
        case LookupFailed => GatewayError
        case Unresolved => ReferenceNotFound
        case Resolved(id) =>
          if id !in rows then SiteNotFound(id)
          else if rows[id].paymentStatus.Pending? then SiteApproved(id)
          else SiteAlreadyApproved(id)
  }

  /** processWebhookNotification's dispatch on `type`. */
  function Dispatch(g: Guard, rows: map<string, Site>, gw: Gateway, n: Notification): (o: Outcome)
    ensures n.kind != Some("payment") ==> o == MerchantOrderIgnored || o == UnhandledType
    ensures n.kind == Some("payment") && n.dataId.Some? ==> o == PaymentOutcome(g, rows, gw, n.dataId.value)
    ensures n.kind == Some("payment") && n.dataId.None? ==> o == MissingPaymentId
  {
    if n.kind == Some("payment") then
      if n.dataId.None? then MissingPaymentId else PaymentOutcome(g, rows, gw, n.dataId.value)
    else if n.kind == Some("merchant_order") then MerchantOrderIgnored
    else UnhandledType
  }

  /** The approving update: status APPROVED and the notified payment id. */
  function Approve(site: Site, paymentId: string): (r: Site)
    ensures r.paymentStatus == Approved && r.mpPaymentId == Some(paymentId)
    ensures r.(paymentStatus := site.paymentStatus, mpPaymentId := site.mpPaymentId) == site
  {
    site.(paymentStatus := Approved, mpPaymentId := Some(paymentId))
  }

  /** The store after an outcome: only Approved writes, and only its site. */
  function Effect(rows: map<string, Site>, paymentId: string, o: Outcome): map<string, Site> {
    if o.SiteApproved? && o.siteId in rows then rows[o.siteId := Approve(rows[o.siteId], paymentId)] else rows
  }

  /** The store after one notification is processed. */
  function Process(g: Guard, rows: map<string, Site>, gw: Gateway, n: Notification): (r: map<string, Site>)
    ensures r.Keys == rows.Keys
    ensures n.kind != Some("payment") || n.dataId.None? ==> r == rows
    ensures forall id :: id in rows && rows[id].paymentStatus == Approved ==> r[id] == rows[id]
    ensures forall id :: id in rows && r[id] != rows[id] ==>
              && n.kind == Some("payment") && n.dataId.Some?
              && Verified(g, gw, n.dataId.value, id)
              && rows[id].paymentStatus == Pending
              && r[id] == Approve(rows[id], n.dataId.value)
    ensures n.kind == Some("payment") && n.dataId.Some? ==>
              forall id :: id in rows && Verified(g, gw, n.dataId.value, id) ==>
                r[id] == (if rows[id].paymentStatus == Pending then Approve(rows[id], n.dataId.value) else rows[id])
  {
    var o := Dispatch(g, rows, gw, n);
    if n.kind == Some("payment") && n.dataId.Some? then Effect(rows, n.dataId.value, o) else rows
  }

  /** The chain as written and the intended one decide differently only on
      an approved payment that carries no amount: the intended chain stops
      there, the written one goes on to the site. */
  lemma GuardsDisagreeOnlyOnMissingAmount(rows: map<string, Site>, gw: Gateway, paymentId: string)
    ensures PaymentOutcome(AsWritten, rows, gw, paymentId) != PaymentOutcome(Intended, rows, gw, paymentId) ==>
              && GetPayment(gw, paymentId).Found?
              && GetPayment(gw, paymentId).value.status == "approved"
              && GetPayment(gw, paymentId).value.transactionAmount.None?
              && PaymentOutcome(Intended, rows, gw, paymentId) == AmountMismatch(None)
  {
  }

  /** The missing-amount case on a concrete store: as written, an approved
      payment without an amount that references a PENDING site approves it;
      the intended chain leaves the store alone. */
  lemma MissingAmountApprovesAsWritten()
    ensures var site := Site("s", "", "", "", SITE_PRICE, Pending, "TEMP", None, 0);
      var rows := map["s" := site];
      var gw := Gateway(map["p" := Found(Payment("approved", None, Some("s"), None))], map[]);
      var n := Notification(Some("payment"), Some("p"));
      && Process(AsWritten, rows, gw, n)["s"] == Approve(site, "p")
      && Process(Intended, rows, gw, n) == rows
  {
    var site := Site("s", "", "", "", SITE_PRICE, Pending, "TEMP", None, 0);
    var gw := Gateway(map["p" := Found(Payment("approved", None, Some("s"), None))], map[]);
    assert Verified(AsWritten, gw, "p", "s");
  }

  /** At most one site changes per notification. */
  lemma AtMostOneSiteChanges(g: Guard, rows: map<string, Site>, gw: Gateway, n: Notification, a: string, b: string)
    requires a in rows && b in rows
    requires Process(g, rows, gw, n)[a] != rows[a] && Process(g, rows, gw, n)[b] != rows[b]
    ensures a == b
  {
    VerifiedIsFunctional(g, gw, n.dataId.value, a, b);
  }

  /** Any failed guard (no payment or a failing fetch, a status other than
      'approved', a wrong or missing amount, an unresolvable reference or an
      unknown site) leaves the store as it was; no site is ever created. */
  lemma FailedGuardChangesNothing(g: Guard, rows: map<string, Site>, gw: Gateway, n: Notification)
    requires n.dataId.Some?
    requires var fetched := GetPayment(gw, n.dataId.value);
      || !fetched.Found?
      || fetched.value.status != "approved"
      || !AmountOk(g, fetched.value.transactionAmount)
      || !ResolveSiteId(gw, fetched.value).Resolved?
      || ResolveSiteId(gw, fetched.value).siteId !in rows
    ensures Process(g, rows, gw, n) == rows
  {
  }

  /** A second delivery of a notification that approved a site finds it
      already approved. */
  lemma SecondDeliveryAlreadyApproved(g: Guard, rows: map<string, Site>, gw: Gateway, n: Notification)
    requires Dispatch(g, rows, gw, n).SiteApproved?
    ensures Dispatch(g, Process(g, rows, gw, n), gw, n) == SiteAlreadyApproved(Dispatch(g, rows, gw, n).siteId)
  {
    var id := Dispatch(g, rows, gw, n).siteId;
    assert Verified(g, gw, n.dataId.value, id);
  }

  /** Redelivery is a no-op: processing the same notification against the
      same gateway answers twice changes nothing more than once. */
  lemma {:induction false} RedeliveryIsNoOp(g: Guard, rows: map<string, Site>, gw: Gateway, n: Notification)
    ensures Process(g, Process(g, rows, gw, n), gw, n) == Process(g, rows, gw, n)
  {
    var once := Process(g, rows, gw, n);
    if once != rows {
      var id :| id in rows && once[id] != rows[id];
      assert Verified(g, gw, n.dataId.value, id);
      forall x | x in once
        ensures Process(g, once, gw, n)[x] == once[x]
      {
        if x == id {
          assert once[x].paymentStatus == Approved;
        } else {
          AtMostOneSiteChangesUnverified(g, rows, gw, n, id, x);
        }
      }
    }
  }

  lemma AtMostOneSiteChangesUnverified(g: Guard, rows: map<string, Site>, gw: Gateway, n: Notification, id: string, x: string)
    requires n.dataId.Some? && id in rows && x in rows && id != x
    requires Verified(g, gw, n.dataId.value, id)
    ensures Process(g, Process(g, rows, gw, n), gw, n)[x] == Process(g, rows, gw, n)[x]
  {
    if Verified(g, gw, n.dataId.value, x) {
      VerifiedIsFunctional(g, gw, n.dataId.value, id, x);
    }
  }

  /** One delivery: the gateway's answers at that moment and the body. */
  datatype Delivery = Delivery(gw: Gateway, n: Notification)

  /** The store after a sequence of deliveries, processed in order. Whatever
      the notifications and the gateway answers, no site appears or
      disappears, an APPROVED site never changes again (so status never
      returns to PENDING), and a site still PENDING at the end was never
      touched. */
  function DeliverAll(g: Guard, rows: map<string, Site>, ds: seq<Delivery>): (r: map<string, Site>)
    ensures r.Keys == rows.Keys
    ensures forall id :: id in rows && rows[id].paymentStatus == Approved ==> r[id] == rows[id]
    ensures forall id :: id in rows && r[id].paymentStatus == Pending ==> r[id] == rows[id]
    decreases |ds|
  {
    if ds == [] then rows else DeliverAll(g, Process(g, rows, ds[0].gw, ds[0].n), ds[1..])
  }

  function Repeat(d: Delivery, k: nat): (ds: seq<Delivery>)
    ensures |ds| == k && forall i :: 0 <= i < k ==> ds[i] == d
  {
    if k == 0 then [] else [d] + Repeat(d, k - 1)
  }

  /** Delivering the same notification k >= 1 times leaves the store exactly
      as one delivery does. */
  lemma {:induction false} RepeatedDeliveryIsOneDelivery(g: Guard, rows: map<string, Site>, d: Delivery, k: nat)
    requires k >= 1
    ensures DeliverAll(g, rows, Repeat(d, k)) == Process(g, rows, d.gw, d.n)
    decreases k
  {
    var ds := Repeat(d, k);
    assert ds[1..] == Repeat(d, k - 1);
    if k > 1 {
      var once := Process(g, rows, d.gw, d.n);
      RepeatedDeliveryIsOneDelivery(g, once, d, k - 1);
      RedeliveryIsNoOp(g, rows, d.gw, d.n);
    }
  }

  /** A site that starts PENDING and ends APPROVED after any sequence of
      deliveries was approved by one of them: a 'payment' notification whose
      payment the gateway verified for that very site, and its id is the one
      stored. */
  lemma {:induction false} ApprovalNeedsVerifiedPayment(g: Guard, rows: map<string, Site>, ds: seq<Delivery>, id: string)
    requires id in rows && rows[id].paymentStatus == Pending
    requires DeliverAll(g, rows, ds)[id].paymentStatus == Approved
    ensures exists k :: 0 <= k < |ds|
              && ds[k].n.kind == Some("payment") && ds[k].n.dataId.Some?
              && Verified(g, ds[k].gw, ds[k].n.dataId.value, id)
              && DeliverAll(g, rows, ds)[id].mpPaymentId == ds[k].n.dataId
    decreases |ds|
  {
    var first := Process(g, rows, ds[0].gw, ds[0].n);
    if first[id] != rows[id] {
      assert first[id].paymentStatus == Approved;
      assert DeliverAll(g, rows, ds)[id] == first[id];
      assert 0 < |ds|;
    } else {
      ApprovalNeedsVerifiedPayment(g, first, ds[1..], id);
      var k :| 0 <= k < |ds[1..]|
                && ds[1..][k].n.kind == Some("payment") && ds[1..][k].n.dataId.Some?
                && Verified(g, ds[1..][k].gw, ds[1..][k].n.dataId.value, id)
                && DeliverAll(g, first, ds[1..])[id].mpPaymentId == ds[1..][k].n.dataId;
      assert ds[k + 1] == ds[1..][k];
    }
  }

  // ---- the imperative handlers ----

  /** handlePaymentNotification as written: the early-return guard chain
      (with the amount test that lets a missing amount through), reassigning
      the site id when it comes from the preference, and the conditional
      update of a PENDING site. */
  method HandlePaymentNotification(table: SiteTable, gw: Gateway, paymentId: string) returns (o: Outcome)
    requires table.Valid()
    modifies table
    ensures table.Valid()
    ensures o == PaymentOutcome(AsWritten, old(table.rows), gw, paymentId)
    ensures table.rows == Effect(old(table.rows), paymentId, o)
  {
    var payment := GetPayment(gw, paymentId);
    if payment.Throws? {
      return GatewayError;
    }
    if payment.Absent? {
      return PaymentNotFound;
    }
    var p := payment.value;
    if p.status != "approved" {
      return PaymentNotApproved(p.status);
    }
    if !AmountAcceptedAsWritten(p.transactionAmount) {
      return AmountMismatch(p.transactionAmount);
    }
    var siteId := p.externalReference;
    if !Truthy(siteId) && Truthy(p.preferenceId) {
      var preference := GetPreference(gw, p.preferenceId.value);
      if !preference.Found? {
        return GatewayError;
      }
      siteId := preference.value.externalReference;
    }
    if !Truthy(siteId) {
      return ReferenceNotFound;
    }
    var site := table.FindUnique(siteId.value);
    if site.None? {
      return SiteNotFound(siteId.value);
    }
    if site.value.paymentStatus == Pending {
      var _ := table.MarkApproved(siteId.value, paymentId);
      o := SiteApproved(siteId.value);
    } else {
      o := SiteAlreadyApproved(siteId.value);
    }
  }

  /** processWebhookNotification: only `type === 'payment'` reaches the
      store; 'merchant_order' and every other type are logged and dropped. */
  method ProcessWebhookNotification(table: SiteTable, gw: Gateway, n: Notification) returns (o: Outcome)
    requires table.Valid()
    modifies table
    ensures table.Valid()
    ensures o == Dispatch(AsWritten, old(table.rows), gw, n)
    ensures table.rows == Process(AsWritten, old(table.rows), gw, n)
  {
    if n.kind == Some("payment") {
      if n.dataId.None? {
        return MissingPaymentId;
      }
      o := HandlePaymentNotification(table, gw, n.dataId.value);
    } else if n.kind == Some("merchant_order") {
      o := MerchantOrderIgnored;
    } else {
      o := UnhandledType;
    }
  }

  /** The POST /webhook handler: answers 200 'OK' on the normal path and on
      the exception path alike (a body that cannot be destructured); the
      store changes only through processing a well-formed body. */
  method ReceiveWebhook(table: SiteTable, gw: Gateway, body: Option<Notification>) returns (status: int, text: string)
    requires table.Valid()
    modifies table
    ensures table.Valid()
    ensures status == 200 && text == "OK"
    ensures table.rows == if body.Some? then Process(AsWritten, old(table.rows), gw, body.value) else old(table.rows)
  {
    if body.None? {
      return 200, "OK";
    }
    status, text := 200, "OK";
    var _ := ProcessWebhookNotification(table, gw, body.value);
  }
}
