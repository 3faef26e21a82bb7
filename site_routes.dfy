/** Creation of a site and the two read endpoints (POST /create, GET
    /site/:id, GET /site/:id/status). Creation stores a PENDING site at the
    server's price before asking the gateway for a checkout preference; the
    reads withhold the content of any site that is not APPROVED. */
module SiteRoutes {
  import opened Js
  import opened Config
  import opened MercadoPago
  import opened Db

  /** Length of a site id (`nanoid(21)`), and the only `id.length` the reads
      accept. */
  const ID_LENGTH: nat := 21

  /** A character of nanoid's URL-safe alphabet `A-Za-z0-9_-`. */
  predicate IsNanoIdChar(c: char) {
    'A' <= c <= 'Z' || 'a' <= c <= 'z' || '0' <= c <= '9' || c == '_' || c == '-'
  }

  /** What `nanoid(21)` draws: 21 characters of its alphabet. */
  predicate IsNanoId(s: string) {
    |s| == ID_LENGTH && forall i :: 0 <= i < |s| ==> IsNanoIdChar(s[i])
  }

  /** A drawn id is 21 UTF-16 code units long, the length the reads accept. */
  lemma NanoIdLength(s: string)
    requires IsNanoId(s)
    ensures Utf16Length(s) == ID_LENGTH
  {
    Utf16LengthBmp(s);
  }

  /** The placeholder preference id stored until the gateway answers. */
  const TEMP_PREFERENCE_ID: string := "TEMP"

  /** The request body after validation and sanitising. */
  datatype SiteInput = SiteInput(familyName: string, message: string, photoUrl: string)

  /** 201 with the checkout data, or 500. */
  datatype CreateResponse =
    | Created(siteId: string, preferenceId: string, initPoint: Option<string>, price: real)
    | CreateFailed

  /** The state and the answer after POST /create. */
  datatype CreateResult = CreateResult(rows: map<string, Site>, response: CreateResponse)

  /** `init_point || sandbox_init_point`. */
  function InitPoint(reply: PreferenceReply): (r: Option<string>)
    requires reply.PreferenceCreated?
    ensures Truthy(reply.initPoint) ==> r == reply.initPoint
    ensures !Truthy(reply.initPoint) ==> r == reply.sandboxInitPoint
  {
    Or(reply.initPoint, reply.sandboxInitPoint)
  }

  /** The first write: a PENDING site at SITE_PRICE with the placeholder
      preference id, whatever the client sent. */
  function PendingSite(input: SiteInput, id: string, createdAt: int): (site: Site)
    ensures site.id == id && site.createdAt == createdAt
    ensures site.paymentStatus == Pending && site.price == SITE_PRICE
    ensures site.mpPreferenceId == TEMP_PREFERENCE_ID && site.mpPaymentId == None
    ensures site.familyName == input.familyName && site.message == input.message && site.photoUrl == input.photoUrl
  {
    Site(id, input.familyName, input.message, input.photoUrl, SITE_PRICE, Pending, TEMP_PREFERENCE_ID, None, createdAt)
  }

  /** POST /create as a transition. A taken id makes `create` throw (500,
      nothing stored); a failing gateway leaves the new site PENDING with the
      placeholder (500); otherwise the gateway's preference id is patched in
      and returned with the checkout link and the price. */
  function CreateSite(rows: map<string, Site>, input: SiteInput, newId: string, createdAt: int, reply: PreferenceReply): (r: CreateResult)
    ensures newId in rows ==> r == CreateResult(rows, CreateFailed)
    ensures newId !in rows ==> r.rows.Keys == rows.Keys + {newId}
    ensures forall id :: id in rows ==> r.rows[id] == rows[id]
    ensures newId !in rows ==>
              && r.rows[newId].id == newId
              && r.rows[newId].paymentStatus == Pending
              && r.rows[newId].price == SITE_PRICE
              && r.rows[newId].mpPaymentId == None
              && r.rows[newId].familyName == input.familyName
              && r.rows[newId].message == input.message
              && r.rows[newId].photoUrl == input.photoUrl
    ensures r.response.Created? <==> newId !in rows && reply.PreferenceCreated?
    ensures r.response.Created? ==>
              && r.response.siteId == newId
              && r.response.price == SITE_PRICE
              && r.response.preferenceId == reply.preferenceId
              && r.rows[newId].mpPreferenceId == reply.preferenceId
              && r.response.initPoint == (if Truthy(reply.initPoint) then reply.initPoint else reply.sandboxInitPoint)
    ensures newId !in rows && reply.PreferenceFailed? ==> r.rows[newId].mpPreferenceId == TEMP_PREFERENCE_ID
  {
    if newId in rows then CreateResult(rows, CreateFailed)
    else
      var site := PendingSite(input, newId, createdAt);
      match reply
      case PreferenceFailed => CreateResult(rows[newId := site], CreateFailed)
      case PreferenceCreated(prefId, _, _) =>
        CreateResult(rows[newId := site.(mpPreferenceId := prefId)],
                     Created(newId, prefId, InitPoint(reply), SITE_PRICE))
  }

  /** The POST /create handler: create, ask the gateway, patch the preference
      id in, answer. `newId` is the `nanoid(21)` draw, `createdAt` the clock,
      `reply` what `createPreference` returns. */
  method Create(table: SiteTable, input: SiteInput, newId: string, createdAt: int, reply: PreferenceReply)
    returns (response: CreateResponse)
    requires table.Valid()
    requires IsNanoId(newId)
    modifies table
    ensures table.Valid()
    ensures CreateResult(table.rows, response) == CreateSite(old(table.rows), input, newId, createdAt, reply)
  {
    var created := table.Create(PendingSite(input, newId, createdAt));
    if !created {
      return CreateFailed;
    }
    if reply.PreferenceFailed? {
      return CreateFailed;
    }
    var _ := table.SetPreferenceId(newId, reply.preferenceId);
    response := Created(newId, reply.preferenceId, InitPoint(reply), SITE_PRICE);
  }

  /** The public part of an approved site. */
  datatype SiteView = SiteView(id: string, familyName: string, message: string, photoUrl: string, createdAt: int)

  /** 400, 404, 402 with the payment state only, or 200 with the content. */
  datatype SiteResponse =
    | InvalidId
    | SiteNotFound
    | PaymentRequired(paymentStatus: Status, preferenceId: string)
    | SiteOk(view: SiteView)

  function ViewOf(site: Site): SiteView {
    SiteView(site.id, site.familyName, site.message, site.photoUrl, site.createdAt)
  }

  /** GET /site/:id. The content is returned only for an APPROVED site, and
      then exactly its id, family name, message, photo and creation time. */
  function GetSite(rows: map<string, Site>, id: string): (r: SiteResponse)
    ensures r.InvalidId? <==> Utf16Length(id) != ID_LENGTH
    ensures r.SiteNotFound? <==> Utf16Length(id) == ID_LENGTH && id !in rows
    ensures r.SiteOk? <==> Utf16Length(id) == ID_LENGTH && id in rows && rows[id].paymentStatus == Approved
    ensures r.SiteOk? ==> r.view == ViewOf(rows[id])
    ensures r.PaymentRequired? ==> r == PaymentRequired(rows[id].paymentStatus, rows[id].mpPreferenceId)
  {
    if Utf16Length(id) != ID_LENGTH then InvalidId
    else if id !in rows then SiteNotFound
    else if rows[id].paymentStatus != Approved then PaymentRequired(rows[id].paymentStatus, rows[id].mpPreferenceId)
    else SiteOk(ViewOf(rows[id]))
  }

  /** 400, 404, or 200 with the payment state, approved or not. */
  datatype StatusResponse =
    | StatusInvalidId
    | StatusNotFound
    | StatusOk(paymentStatus: Status, preferenceId: string)

  /** GET /site/:id/status: the same id checks, and the payment state. */
  function GetSiteStatus(rows: map<string, Site>, id: string): (r: StatusResponse)
    ensures r.StatusInvalidId? <==> Utf16Length(id) != ID_LENGTH
    ensures r.StatusNotFound? <==> Utf16Length(id) == ID_LENGTH && id !in rows
    ensures r.StatusOk? ==> r == StatusOk(rows[id].paymentStatus, rows[id].mpPreferenceId)
  {
    if Utf16Length(id) != ID_LENGTH then StatusInvalidId
    else if id !in rows then StatusNotFound
    else StatusOk(rows[id].paymentStatus, rows[id].mpPreferenceId)
  }

  /** The two reads agree: same rejections, and the gate answers 402 with
      exactly what the status endpoint reports whenever the site is not
      APPROVED. */
  lemma ReadsAgree(rows: map<string, Site>, id: string)
    ensures GetSite(rows, id).InvalidId? <==> GetSiteStatus(rows, id).StatusInvalidId?
    ensures GetSite(rows, id).SiteNotFound? <==> GetSiteStatus(rows, id).StatusNotFound?
    ensures GetSiteStatus(rows, id).StatusOk? && GetSiteStatus(rows, id).paymentStatus != Approved ==>
              GetSite(rows, id) == PaymentRequired(GetSiteStatus(rows, id).paymentStatus, GetSiteStatus(rows, id).preferenceId)
  {
  }

  /** Every id that creation stores has the length the reads accept, so a
      created site is never answered with 400. */
  lemma CreatedIdIsReadable(rows: map<string, Site>, input: SiteInput, newId: string, createdAt: int, reply: PreferenceReply)
    requires IsNanoId(newId) && newId !in rows
    ensures !GetSite(CreateSite(rows, input, newId, createdAt, reply).rows, newId).InvalidId?
    ensures !GetSite(CreateSite(rows, input, newId, createdAt, reply).rows, newId).SiteNotFound?
  {
    NanoIdLength(newId);
  }

  /** The length check counts UTF-16 code units: twenty characters ending in
      an emoji pass it and reach the lookup (404 for an unknown id). */
  lemma EmojiIdPassesLengthCheck(rows: map<string, Site>)
    ensures var id := "abcdefghijklmnopqrs" + ['\U{1F600}'];
      id !in rows ==> GetSite(rows, id) == SiteNotFound && GetSiteStatus(rows, id) == StatusNotFound
  {
    var id := "abcdefghijklmnopqrs" + ['\U{1F600}'];
    Utf16LengthBmp(id[..|id| - 1]);
    assert id[..|id| - 1] == "abcdefghijklmnopqrs";
  }
}
