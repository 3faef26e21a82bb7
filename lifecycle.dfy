/** The life of one site across the three handlers that touch it: created
    PENDING, gated on every read, opened by a verified payment notification
    and by nothing else. Each lemma holds for the amount guard as written and
    for the intended one. */
module Lifecycle {
  import opened Js
  import opened Config
  import opened MercadoPago
  import opened Db
  import opened WebhookRoutes
  import opened SiteRoutes

  /** A freshly created site is behind the payment gate: the read answers
      402 with PENDING and the gateway's preference id (or 'TEMP' when the
      gateway failed). */
  lemma CreatedSiteIsGated(rows: map<string, Site>, input: SiteInput, newId: string, createdAt: int, reply: PreferenceReply)
    requires IsNanoId(newId) && newId !in rows
    ensures var after := CreateSite(rows, input, newId, createdAt, reply).rows;
      GetSite(after, newId)
        == PaymentRequired(Pending, if reply.PreferenceCreated? then reply.preferenceId else TEMP_PREFERENCE_ID)
  {
    NanoIdLength(newId);
  }

  /** A 'payment' notification that the gateway verifies for a PENDING site
      opens it, showing the content stored at creation. */
  lemma VerifiedPaymentOpensSite(g: Guard, rows: map<string, Site>, gw: Gateway, paymentId: string, id: string)
    requires Utf16Length(id) == ID_LENGTH && id in rows && rows[id].paymentStatus == Pending
    requires Verified(g, gw, paymentId, id)
    ensures GetSite(Process(g, rows, gw, Notification(Some("payment"), Some(paymentId))), id) == SiteOk(ViewOf(rows[id]))
  {
  }

  /** The whole happy path: create with a preference, then the gateway
      reports an approved payment of SITE_PRICE whose external reference is
      the new site; the site opens. */
  lemma CreateThenPay(g: Guard, rows: map<string, Site>, input: SiteInput, newId: string, createdAt: int,
                      prefId: string, paymentId: string)
    requires IsNanoId(newId) && newId !in rows
    ensures var created := CreateSite(rows, input, newId, createdAt, PreferenceCreated(prefId, None, None)).rows;
      var gw := Gateway(map[paymentId := Found(Payment("approved", Some(SITE_PRICE), Some(newId), None))], map[]);
      var paid := Process(g, created, gw, Notification(Some("payment"), Some(paymentId)));
      && GetSite(created, newId) == PaymentRequired(Pending, prefId)
      && GetSite(paid, newId).SiteOk?
      && paid[newId].mpPaymentId == Some(paymentId)
  {
    var created := CreateSite(rows, input, newId, createdAt, PreferenceCreated(prefId, None, None)).rows;
    var gw := Gateway(map[paymentId := Found(Payment("approved", Some(SITE_PRICE), Some(newId), None))], map[]);
    NanoIdLength(newId);
    assert Verified(g, gw, paymentId, newId);
  }

  /** The happy path through the preference: the payment carries no
      external reference of its own, only the preference id the site was
      created with, and the gateway answers that preference with the new
      site's id (which is what `createPreference` set); the site opens. */
  lemma CreateThenPayViaPreference(g: Guard, rows: map<string, Site>, input: SiteInput, newId: string, createdAt: int,
                                   prefId: string, paymentId: string)
    requires IsNanoId(newId) && newId !in rows && prefId != ""
    ensures var created := CreateSite(rows, input, newId, createdAt, PreferenceCreated(prefId, None, None)).rows;
      var gw := Gateway(map[paymentId := Found(Payment("approved", Some(SITE_PRICE), None, Some(prefId)))],
                        map[prefId := Found(Preference(Some(newId)))]);
      var paid := Process(g, created, gw, Notification(Some("payment"), Some(paymentId)));
      && created[newId].mpPreferenceId == prefId
      && GetSite(created, newId) == PaymentRequired(Pending, prefId)
      && GetSite(paid, newId).SiteOk?
      && paid[newId].mpPaymentId == Some(paymentId)
  {
    var created := CreateSite(rows, input, newId, createdAt, PreferenceCreated(prefId, None, None)).rows;
    var gw := Gateway(map[paymentId := Found(Payment("approved", Some(SITE_PRICE), None, Some(prefId)))],
                      map[prefId := Found(Preference(Some(newId)))]);
    NanoIdLength(newId);
    assert ResolveSiteId(gw, GetPayment(gw, paymentId).value) == Resolved(newId);
    assert Verified(g, gw, paymentId, newId);
  }

  /** Delivering the same notification again leaves every read as it was. */
  lemma DuplicateDeliveryChangesNoRead(g: Guard, rows: map<string, Site>, gw: Gateway, n: Notification, id: string)
    ensures GetSite(Process(g, Process(g, rows, gw, n), gw, n), id) == GetSite(Process(g, rows, gw, n), id)
  {
    RedeliveryIsNoOp(g, rows, gw, n);
  }

  /** An underpaid payment (R$ 10,00 against R$ 29,90) leaves the site locked. */
  lemma UnderpaymentKeepsSiteLocked(g: Guard, rows: map<string, Site>, gw: Gateway, paymentId: string)
    requires GetPayment(gw, paymentId).Found?
    requires GetPayment(gw, paymentId).value.transactionAmount == Some(10.00)
    ensures Process(g, rows, gw, Notification(Some("payment"), Some(paymentId))) == rows
  {
    FailedGuardChangesNothing(g, rows, gw, Notification(Some("payment"), Some(paymentId)));
  }

  /** A site that is still PENDING after any sequence of deliveries is still
      answered with 402: no delivery ever exposes its content. */
  lemma PendingStaysGated(g: Guard, rows: map<string, Site>, ds: seq<Delivery>, id: string)
    requires Utf16Length(id) == ID_LENGTH && id in rows
    requires DeliverAll(g, rows, ds)[id].paymentStatus == Pending
    ensures GetSite(DeliverAll(g, rows, ds), id) == PaymentRequired(Pending, rows[id].mpPreferenceId)
  {
  }
}
