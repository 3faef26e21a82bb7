/** The older payment and family routes (POST /payment, GET /payment/:id,
    POST /family, GET /family/:slug): a payment record created from the
    gateway's answer, a test override that marks it approved, and family
    pages whose wishes take uploaded images in order. */
module LegacyRoutes {
  import opened Js
  import opened Db
  import Json

  // ---- POST /payment ----

  /** The amount and description POST /payment forces, R$ 29,90. */
  const PAYMENT_AMOUNT: real := 29.90
  const PAYMENT_DESCRIPTION: string := "Natal da Fam\U{ed}lia"

  /** The payment fields the checkout widget posts, at the top level of the
      body or inside `formData`; None is an absent field. */
  datatype PaymentFields = PaymentFields(transactionAmount: Option<real>, description: Option<string>)
  datatype PaymentBody = PaymentBody(fields: PaymentFields, formData: Option<PaymentFields>)

  predicate AmountTruthy(a: Option<real>) {
    a.Some? && a.value != 0.0
  }

  /** The amount the gateway client charges for a body (payment.js): `data =
      formData || body`, then `Number(data.transaction_amount ||
      body.transaction_amount)`; None is NaN. */
  function ChargedAmount(body: PaymentBody): (a: Option<real>)
    ensures body.formData.Some? && AmountTruthy(body.formData.value.transactionAmount) ==>
              a == body.formData.value.transactionAmount
    ensures (body.formData.None? || !AmountTruthy(body.formData.value.transactionAmount)) ==>
              a == body.fields.transactionAmount
  {
    var data := if body.formData.Some? then body.formData.value else body.fields;
    if AmountTruthy(data.transactionAmount) then data.transactionAmount else body.fields.transactionAmount
  }

  /** The override AS WRITTEN: only the top-level fields are replaced;
      `formData` travels on untouched. */
  function OverrideAsWritten(body: PaymentBody): (sent: PaymentBody)
    ensures sent.fields == PaymentFields(Some(PAYMENT_AMOUNT), Some(PAYMENT_DESCRIPTION))
    ensures sent.formData == body.formData
  {
    body.(fields := PaymentFields(Some(PAYMENT_AMOUNT), Some(PAYMENT_DESCRIPTION)))
  }

  /** As written, an amount the client puts in `formData` is what is charged. */
  lemma ClientAmountChargedAsWritten(body: PaymentBody)
    requires body.formData.Some? && AmountTruthy(body.formData.value.transactionAmount)
    ensures ChargedAmount(OverrideAsWritten(body)) == body.formData.value.transactionAmount
  {
  }

  /** A one-cent payment gets through the override as written. */
  lemma OneCentChargedAsWritten()
    ensures ChargedAmount(OverrideAsWritten(
              PaymentBody(PaymentFields(None, None), Some(PaymentFields(Some(0.01), None))))) == Some(0.01)
  {
  }

  /** As written, the fixed price is charged exactly when `formData` is
      absent, carries a falsy amount, or already carries the price. */
  lemma OverrideAsWrittenChargesPriceIff(body: PaymentBody)
    ensures ChargedAmount(OverrideAsWritten(body)) == Some(PAYMENT_AMOUNT)
      <==> body.formData.None?
           || !AmountTruthy(body.formData.value.transactionAmount)
           || body.formData.value.transactionAmount == Some(PAYMENT_AMOUNT)
  {
  }

  /** The override as intended: the amount and the description are forced
      wherever the gateway client reads them. */
  function Override(body: PaymentBody): (sent: PaymentBody)
    ensures ChargedAmount(sent) == Some(PAYMENT_AMOUNT)
    ensures sent.fields.description == Some(PAYMENT_DESCRIPTION)
  {
    var forced := PaymentFields(Some(PAYMENT_AMOUNT), Some(PAYMENT_DESCRIPTION));
    PaymentBody(forced, if body.formData.Some? then Some(body.formData.value.(transactionAmount := Some(PAYMENT_AMOUNT))) else None)
  }

  /** What `processPayment` returns, or that it threw. `qrCode` is None when
      any link of `point_of_interaction.transaction_data.qr_code` is absent. */
  datatype ProcessReply =
    | PaymentProcessed(id: int, status: string, qrCode: Option<string>, qrCodeBase64: Option<string>)
    | ProcessFailed

  datatype PaymentResponse =
    | PaymentOk(id: int, mpPaymentId: int, status: string, qrCode: Option<string>, qrCodeBase64: Option<string>)
    | PaymentError

  /** The record stored for a processed payment: `String(id)`, the gateway's
      status, and the QR fields or null. */
  function RecordFor(id: int, reply: ProcessReply): (rec: PaymentRecord)
    requires reply.PaymentProcessed?
    ensures rec.id == id && rec.status == reply.status
    ensures rec.mpPaymentId == IntToString(reply.id) && ParseInt(rec.mpPaymentId) == Some(reply.id)
    ensures Truthy(reply.qrCode) ==> rec.qrCode == reply.qrCode
    ensures Truthy(reply.qrCodeBase64) ==> rec.qrCodeBase64 == reply.qrCodeBase64
    ensures rec.qrCode.Some? ==> rec.qrCode == reply.qrCode && rec.qrCode.value != ""
    ensures rec.qrCodeBase64.Some? ==> rec.qrCodeBase64 == reply.qrCodeBase64 && rec.qrCodeBase64.value != ""
  {
    ParseIntToString(reply.id);
    PaymentRecord(id, IntToString(reply.id), reply.status, NullIfFalsy(reply.qrCode), NullIfFalsy(reply.qrCodeBase64))
  }

  /** The POST /payment handler as written. `sent` is the body handed to the
      gateway client and `reply` its answer to that body. */
  method PostPayment(table: PaymentTable, body: PaymentBody, reply: ProcessReply)
    returns (sent: PaymentBody, response: PaymentResponse)
    requires table.Valid()
    modifies table
    ensures table.Valid()
    ensures sent == OverrideAsWritten(body)
    ensures reply.ProcessFailed? ==> response == PaymentError && table.rows == old(table.rows) && table.nextId == old(table.nextId)
    ensures reply.PaymentProcessed? ==>
              var rec := RecordFor(old(table.nextId), reply);
              && table.rows == old(table.rows)[rec.id := rec]
              && rec.id !in old(table.rows)
              && response == PaymentOk(rec.id, reply.id, reply.status, rec.qrCode, rec.qrCodeBase64)
  {
    sent := OverrideAsWritten(body);
    if reply.ProcessFailed? {
      return sent, PaymentError;
    }
    var qrCode := NullIfFalsy(reply.qrCode);
    var qrCodeBase64 := NullIfFalsy(reply.qrCodeBase64);
    var rec := table.Create(IntToString(reply.id), reply.status, qrCode, qrCodeBase64);
    response := PaymentOk(rec.id, reply.id, reply.status, qrCode, qrCodeBase64);
  }

  // ---- GET /payment/:id ----

  datatype PaymentRead = PaymentBadId | PaymentMissing | PaymentFound(record: PaymentRecord)

  /** GET /payment/:id: 400 when `parseInt` gives NaN, 404 for an unknown id;
      with `simular=true` the record comes back with status 'approved',
      otherwise as stored. */
  function ReadPayment(rows: map<int, PaymentRecord>, idParam: string, simular: Option<string>): (r: PaymentRead)
    ensures r.PaymentBadId? <==> ParseInt(idParam).None?
    ensures r.PaymentMissing? <==> ParseInt(idParam).Some? && ParseInt(idParam).value !in rows
    ensures r.PaymentFound? ==>
              var stored := rows[ParseInt(idParam).value];
              && r.record.(status := stored.status) == stored
              && (simular == Some("true") ==> r.record.status == "approved")
              && (simular != Some("true") ==> r.record == stored)
  {
    match ParseInt(idParam)
    case None => PaymentBadId
    case Some(id) =>
      if id !in rows then PaymentMissing
      else if simular == Some("true") then PaymentFound(rows[id].(status := "approved"))
      else PaymentFound(rows[id])
  }

  /** An id with no digit in it is answered with 400. */
  lemma NonNumericPaymentIdRejected(rows: map<int, PaymentRecord>, idParam: string, simular: Option<string>)
    requires forall i :: 0 <= i < |idParam| ==> !IsDecimalDigit(idParam[i])
    ensures ReadPayment(rows, idParam, simular) == PaymentBadId
  {
    NonNumericIsNaN(idParam);
  }

  /** The GET /payment/:id handler: the simulate branch writes the approved
      status back; every other path leaves the table alone. */
  method GetPayment(table: PaymentTable, idParam: string, simular: Option<string>) returns (r: PaymentRead)
    requires table.Valid()
    modifies table
    ensures table.Valid() && table.nextId == old(table.nextId)
    ensures r == ReadPayment(old(table.rows), idParam, simular)
    ensures table.rows == if r.PaymentFound? && simular == Some("true") then old(table.rows)[r.record.id := r.record] else old(table.rows)
  {
    var id := ParseInt(idParam);
    if id.None? {
      return PaymentBadId;
    }
    if id.value !in table.rows {
      return PaymentMissing;
    }
    if simular == Some("true") {
      var updated := table.SetStatus(id.value, "approved");
      return PaymentFound(updated);
    }
    r := PaymentFound(table.rows[id.value]);
  }

  // ---- POST /family: wishes and images ----

  const UPLOADS_PREFIX: string := "/uploads/"

  /** `wish.hasNewImage` is truthy. */
  predicate Flagged(wish: Json.Json) {
    var p := Json.Get(wish, "hasNewImage");
    p.Defined? && Json.Truthy(p.value)
  }

  /** How many wishes of the list are flagged. */
  function CountFlagged(wishes: seq<Json.Json>): (n: nat)
    ensures n <= |wishes|
  {
    if wishes == [] then 0
    else CountFlagged(wishes[..|wishes| - 1]) + (if Flagged(wishes[|wishes| - 1]) then 1 else 0)
  }

  /** `{ ...wish, image: path, icon: null }`. */
  function WithImage(wish: Json.Json, path: string): Json.Json {
    match wish
    case JObj(f) => Json.JObj(f["image" := Json.JStr(path)]["icon" := Json.JNull])
    case _ => wish
  }

  /** Wish i after assignment: when it is the k-th flagged wish (counting
      from 0) and there are more than k files, it takes file k; otherwise it
      is unchanged. */
  function AssignedWish(wishes: seq<Json.Json>, files: seq<string>, i: nat): Json.Json
    requires i < |wishes|
  {
    var k := CountFlagged(wishes[..i]);
    if Flagged(wishes[i]) && k < |files| then WithImage(wishes[i], UPLOADS_PREFIX + files[k]) else wishes[i]
  }

  /** The whole mapped list, or None when `wishesData.map` throws (a null
      wish has no properties). */
  function AssignedWishes(wishes: seq<Json.Json>, files: seq<string>): Option<seq<Json.Json>> {
    if Json.JNull in wishes then None
    else Some(seq(|wishes|, i requires 0 <= i < |wishes| => AssignedWish(wishes, files, i)))
  }

  function Min(a: int, b: int): int { if a < b then a else b }

  /** One step of the `wishesData.map` loop: the flagged count grows by one
      exactly at a flagged wish, and wish i takes a file exactly when it is
      flagged and the counter has not run past the files. */
  lemma AssignedWishStep(wishes: seq<Json.Json>, files: seq<string>, i: nat)
    requires i < |wishes|
    ensures CountFlagged(wishes[..i + 1]) == CountFlagged(wishes[..i]) + (if Flagged(wishes[i]) then 1 else 0)
    ensures AssignedWish(wishes, files, i) ==
              if Flagged(wishes[i]) && Min(CountFlagged(wishes[..i]), |files|) < |files|
              then WithImage(wishes[i], UPLOADS_PREFIX + files[Min(CountFlagged(wishes[..i]), |files|)])
              else wishes[i]
  {
    assert wishes[..i + 1][..i] == wishes[..i];
  }

  /** The loop's invariant on `out` survives appending wish i's image. */
  lemma AssignedAppend(wishes: seq<Json.Json>, files: seq<string>, out: seq<Json.Json>, next: Json.Json)
    requires |out| < |wishes|
    requires forall j :: 0 <= j < |out| ==> out[j] == AssignedWish(wishes, files, j)
    requires next == AssignedWish(wishes, files, |out|)
    ensures forall j :: 0 <= j <= |out| ==> (out + [next])[j] == AssignedWish(wishes, files, j)
  {
  }

  /** Every wish of the mapped list is the wish itself or, when it is the
      k-th flagged wish and there are more than k files, the wish with file
      k as its image. */
  lemma AssignedWishesShape(wishes: seq<Json.Json>, files: seq<string>)
    ensures AssignedWishes(wishes, files).None? <==> Json.JNull in wishes
    ensures AssignedWishes(wishes, files).Some? ==> |AssignedWishes(wishes, files).value| == |wishes|
    ensures AssignedWishes(wishes, files).Some? ==> forall i :: 0 <= i < |wishes| && AssignedWishes(wishes, files).value[i] != wishes[i] ==>
              Flagged(wishes[i]) && CountFlagged(wishes[..i]) < |files|
              && AssignedWishes(wishes, files).value[i] == WithImage(wishes[i], UPLOADS_PREFIX + files[CountFlagged(wishes[..i])])
  {
  }

  /** The `wishesData.map` loop with its `fileIndex` counter: flagged wishes
      take the uploaded files in order while files remain; every other wish
      is kept as it is, and the list keeps its length. */
  method AssignWishImages(wishes: seq<Json.Json>, files: seq<string>) returns (r: Option<seq<Json.Json>>)
    ensures r == AssignedWishes(wishes, files)
    ensures r.None? <==> Json.JNull in wishes
    ensures r.Some? ==> |r.value| == |wishes|
    ensures r.Some? ==> forall i :: 0 <= i < |wishes| && r.value[i] != wishes[i] ==>
              Flagged(wishes[i]) && CountFlagged(wishes[..i]) < |files|
              && r.value[i] == WithImage(wishes[i], UPLOADS_PREFIX + files[CountFlagged(wishes[..i])])
  {
    AssignedWishesShape(wishes, files);
    var fileIndex := 0;
    var out: seq<Json.Json> := [];
    var i := 0;
    while i < |wishes|
      invariant 0 <= i <= |wishes|
      invariant Json.JNull !in wishes[..i]
      invariant fileIndex == Min(CountFlagged(wishes[..i]), |files|)
      invariant |out| == i
      invariant forall j :: 0 <= j < i ==> out[j] == AssignedWish(wishes, files, j)
    {
      var wish := wishes[i];
      var hasNewImage := Json.Get(wish, "hasNewImage");
      if hasNewImage.TypeError? {
        assert Json.JNull in wishes;
        return None;
      }
      var flagged := hasNewImage.Defined? && Json.Truthy(hasNewImage.value);
      assert flagged == Flagged(wish);
      AssignedWishStep(wishes, files, i);
      ghost var count := CountFlagged(wishes[..i]);
      assert CountFlagged(wishes[..i + 1]) == count + (if flagged then 1 else 0);
      var next := wish;
      if flagged && fileIndex < |files| {
        next := WithImage(wish, UPLOADS_PREFIX + files[fileIndex]);
        fileIndex := fileIndex + 1;
      }
      assert fileIndex == Min(count + (if flagged then 1 else 0), |files|);
      AssignedAppend(wishes, files, out, next);
      out := out + [next];
      i := i + 1;
    }
    assert wishes[..i] == wishes;
    assert out == seq(|wishes|, j requires 0 <= j < |wishes| => AssignedWish(wishes, files, j));
    r := Some(out);
  }

  /** wishesData: `[]` when the field is empty or does not parse; the mapped
      list when it parses to a list the loop gets through; otherwise the
      parsed value itself, since the exception leaves it assigned. */
  function WishesData(field: Option<string>, files: seq<string>, parse: string -> Option<Json.Json>): (w: Json.Json)
    ensures !Truthy(field) || parse(field.value).None? ==> w == Json.EmptyArray
    ensures Truthy(field) && parse(field.value).Some? && !parse(field.value).value.JArr? ==> w == parse(field.value).value
    ensures Truthy(field) && parse(field.value).Some? && parse(field.value).value.JArr? ==>
              var ws := parse(field.value).value.items;
              w == if AssignedWishes(ws, files).Some? then Json.JArr(AssignedWishes(ws, files).value) else Json.JArr(ws)
  {
    if !Truthy(field) then Json.EmptyArray
    else match parse(field.value)
      case None => Json.EmptyArray
      case Some(v) =>
        if v.JArr? && AssignedWishes(v.items, files).Some? then Json.JArr(AssignedWishes(v.items, files).value) else v
  }

  method BuildWishesData(field: Option<string>, files: seq<string>, parse: string -> Option<Json.Json>) returns (w: Json.Json)
    ensures w == WishesData(field, files, parse)
  {
    w := Json.EmptyArray;
    if Truthy(field) {
      var parsed := parse(field.value);
      if parsed.Some? {
        w := parsed.value;
        if w.JArr? {
          var mapped := AssignWishImages(w.items, files);
          if mapped.Some? {
            w := Json.JArr(mapped.value);
          }
        }
      }
    }
  }

  /** The stored photo list: one `/uploads/<file>` path per upload. */
  function PhotoList(files: seq<string>): (v: Json.Json)
    ensures v.JArr? && |v.items| == |files|
    ensures forall i :: 0 <= i < |files| ==> v.items[i] == Json.JStr(UPLOADS_PREFIX + files[i])
  {
    Json.JArr(seq(|files|, i requires 0 <= i < |files| => Json.JStr(UPLOADS_PREFIX + files[i])))
  }

  // ---- POST /family: slug ----

  /** `name.trim().replace(/\s+/g, '-')`: no white space is left, the name
      is empty only when it was all white space, and it starts and ends with
      the first and last non-space characters of the name. */
  function CleanName(name: string): (r: string)
    ensures NoSpace(r)
    ensures r == [] <==> AllSpace(name)
    ensures r != [] ==> r[0] == Trim(name)[0] && r[|r| - 1] == Trim(name)[|Trim(name)| - 1]
  {
    var t := Trim(name);
    if t == [] then []
    else
      ReplaceKeepsEnds(t);
      ReplaceSpaceRuns(t)
  }

  /** Words separated by white space, with white space around them, become
      the words joined by single dashes. */
  lemma CleanNameJoinsWords(lead: string, a: string, gap: string, b: string, trail: string)
    requires AllSpace(lead) && AllSpace(trail)
    requires gap != [] && AllSpace(gap)
    requires a != [] && b != [] && NoSpace(a) && NoSpace(b)
    ensures CleanName(lead + a + gap + b + trail) == a + ("-" + b)
  {
    var m := a + gap + b;
    assert lead + a + gap + b + trail == lead + m + trail;
    assert m[0] == a[0] && m[|m| - 1] == b[|b| - 1];
    TrimPadded(lead, m, trail);
    ReplaceWords(a, gap, b);
  }

  /** Cleaning is idempotent: a clean name is its own clean name. */
  lemma CleanNameIdempotent(name: string)
    ensures CleanName(CleanName(name)) == CleanName(name)
  {
    var c := CleanName(name);
    TrimNoSpace(c);
    ReplaceSpaceRunsNoSpace(c);
  }

  lemma ConcatParts(a: string, b: string)
    ensures (a + b)[..|a|] == a && (a + b)[|a|..] == b
  {
  }

  lemma DashJoinNoSpace(a: string, b: string)
    ensures NoSpace(a) && NoSpace(b) ==> NoSpace(a + ("-" + b))
  {
    if NoSpace(a) && NoSpace(b) {
      NoSpaceConcat("-", b);
      NoSpaceConcat(a, "-" + b);
    }
  }

  /** `${a}-${b}`. */
  function JoinWithDash(a: string, b: string): (r: string)
    ensures |r| == |a| + 1 + |b|
    ensures r[..|a|] == a && r[|a|..] == "-" + b
    ensures NoSpace(a) && NoSpace(b) ==> NoSpace(r)
  {
    ConcatParts(a, "-" + b);
    DashJoinNoSpace(a, b);
    a + ("-" + b)
  }

  /** `${cleanName}-${shortCode}`: the clean name, a dash and the code; no
      white space when the code has none. */
  function Slug(name: string, shortCode: string): (r: string)
    ensures |r| == |CleanName(name)| + 1 + |shortCode|
    ensures r[..|CleanName(name)|] == CleanName(name) && r[|CleanName(name)|..] == "-" + shortCode
    ensures NoSpace(shortCode) ==> NoSpace(r)
  {
    JoinWithDash(CleanName(name), shortCode)
  }

  // ---- POST /family: the handler ----

  datatype FamilyRequest = FamilyRequest(
    name: Option<string>,
    paymentId: Option<string>,
    photoFiles: seq<string>,
    wishFiles: seq<string>,
    wishes: Option<string>,
    youtubeLink: Option<string>,
    message: Option<string>)

  /** Where the checks before any write end: 400 for a missing name or
      payment id, 500 for a payment id that is NaN (the database rejects the
      key), 400 for an unknown payment; otherwise the parsed payment id. */
  datatype FamilyCheck = MissingFields | PaymentIdNaN | UnknownPayment | PaymentExists(paymentId: int)

  function CheckFamily(payments: map<int, PaymentRecord>, req: FamilyRequest): (c: FamilyCheck)
    ensures c.MissingFields? <==> !Truthy(req.name) || !Truthy(req.paymentId)
    ensures c.PaymentIdNaN? <==>
              Truthy(req.name) && Truthy(req.paymentId) && ParseInt(req.paymentId.value).None?
    ensures c.UnknownPayment? <==>
              && Truthy(req.name) && Truthy(req.paymentId)
              && ParseInt(req.paymentId.value).Some? && ParseInt(req.paymentId.value).value !in payments
    ensures c.PaymentExists? <==>
              && Truthy(req.name) && Truthy(req.paymentId)
              && ParseInt(req.paymentId.value).Some? && ParseInt(req.paymentId.value).value in payments
    ensures c.PaymentExists? ==>
              && Truthy(req.name) && Truthy(req.paymentId)
              && ParseInt(req.paymentId.value) == Some(c.paymentId) && c.paymentId in payments
  {
    if !Truthy(req.name) || !Truthy(req.paymentId) then MissingFields
    else match ParseInt(req.paymentId.value)
      case None => PaymentIdNaN
      case Some(id) => if id in payments then PaymentExists(id) else UnknownPayment
  }

  /** Only the existence of the payment is checked, never its status. */
  lemma CheckIgnoresPaymentStatus(payments: map<int, PaymentRecord>, req: FamilyRequest, id: int, status: string)
    requires id in payments
    ensures CheckFamily(payments[id := payments[id].(status := status)], req) == CheckFamily(payments, req)
  {
  }

  /** The row POST /family writes (its id is assigned by the table): the
      name as given, its slug, the payment id, the photo list and the wishes
      as JSON text, and the link and message, an empty one stored as null. */
  function FamilyRow(req: FamilyRequest, paymentId: int, shortCode: string,
                     wishes: Json.Json, stringify: Json.Json -> string): (row: Family)
    requires Truthy(req.name)
    ensures row.name == req.name.value && row.slug == Slug(req.name.value, shortCode) && row.paymentId == paymentId
    ensures row.photos == Some(stringify(PhotoList(req.photoFiles))) && row.wishes == Some(stringify(wishes))
    ensures Truthy(req.youtubeLink) ==> row.youtubeLink == req.youtubeLink
    ensures !Truthy(req.youtubeLink) ==> row.youtubeLink == None
    ensures Truthy(req.message) ==> row.message == req.message
    ensures !Truthy(req.message) ==> row.message == None
  {
    Family(0, req.name.value, Slug(req.name.value, shortCode), paymentId,
           Some(stringify(PhotoList(req.photoFiles))),
           NullIfFalsy(req.youtubeLink), NullIfFalsy(req.message),
           Some(stringify(wishes)))
  }

  datatype FamilyResponse = FamilyCreated(id: int, slug: string) | FamilyBadRequest | FamilyError

  /** The POST /family handler. `shortCode` is the `nanoid(6)` draw; `parse`
      and `stringify` are JSON.parse (None: it throws) and JSON.stringify. */
  method PostFamily(payments: PaymentTable, families: FamilyTable, req: FamilyRequest, shortCode: string,
                    parse: string -> Option<Json.Json>, stringify: Json.Json -> string)
    returns (response: FamilyResponse)
    requires payments.Valid() && families.Valid()
    modifies families
    ensures families.Valid()
    ensures var c := CheckFamily(payments.rows, req);
      && (c.MissingFields? || c.UnknownPayment? ==> response == FamilyBadRequest)
      && (c.PaymentIdNaN? ==> response == FamilyError)
      && (!c.PaymentExists? ==> families.rows == old(families.rows))
      && (c.PaymentExists? ==>
            var row := FamilyRow(req, c.paymentId, shortCode, WishesData(req.wishes, req.wishFiles, parse), stringify);
            if row.slug in old(families.rows) then
              response == FamilyError && families.rows == old(families.rows)
            else
              && response == FamilyCreated(old(families.nextId), row.slug)
              && families.rows == old(families.rows)[row.slug := row.(id := old(families.nextId))])
  {
    var check := CheckFamily(payments.rows, req);
    if check.MissingFields? {
      return FamilyBadRequest;
    }
    var id := ParseInt(req.paymentId.value);
    if id.None? {
      return FamilyError;
    }
    if id.value !in payments.rows {
      return FamilyBadRequest;
    }
    var wishesData := BuildWishesData(req.wishes, req.wishFiles, parse);
    var row := FamilyRow(req, id.value, shortCode, wishesData, stringify);
    var created := families.Create(row);
    if created.None? {
      return FamilyError;
    }
    response := FamilyCreated(created.value.id, created.value.slug);
  }

  // ---- GET /family/:slug ----

  /** `[]` for an empty field or one that does not parse, the parsed value
      otherwise. */
  function ParseOrEmpty(field: Option<string>, parse: string -> Option<Json.Json>): (v: Json.Json)
    ensures !Truthy(field) || parse(field.value).None? ==> v == Json.EmptyArray
    ensures Truthy(field) && parse(field.value).Some? ==> v == parse(field.value).value
  {
    if !Truthy(field) then Json.EmptyArray
    else match parse(field.value)
      case None => Json.EmptyArray
      case Some(v) => v
  }

  datatype FamilyRead = FamilyNotFound | FamilyFound(family: Family, wishes: Json.Json, photos: Json.Json)

  /** GET /family/:slug: 404 for an unknown slug, else the row with its
      wishes and photos parsed, each falling back to `[]`. */
  function ReadFamily(rows: map<string, Family>, slug: string, parse: string -> Option<Json.Json>): (r: FamilyRead)
    ensures r.FamilyNotFound? <==> slug !in rows
    ensures r.FamilyFound? ==>
              && r.family == rows[slug]
              && r.wishes == ParseOrEmpty(rows[slug].wishes, parse)
              && r.photos == ParseOrEmpty(rows[slug].photos, parse)
  {
    if slug !in rows then FamilyNotFound
    else FamilyFound(rows[slug], ParseOrEmpty(rows[slug].wishes, parse), ParseOrEmpty(rows[slug].photos, parse))
  }

  /** What POST /family stores reads back through GET /family/:slug as it was
      built, provided JSON.parse undoes JSON.stringify on the two values
      stored. */
  lemma CreatedFamilyReadsBack(rows: map<string, Family>, req: FamilyRequest, paymentId: int, shortCode: string, id: int,
                               parse: string -> Option<Json.Json>, stringify: Json.Json -> string)
    requires Truthy(req.name)
    requires var photos := PhotoList(req.photoFiles); stringify(photos) != "" && parse(stringify(photos)) == Some(photos)
    requires var wishes := WishesData(req.wishes, req.wishFiles, parse);
      stringify(wishes) != "" && parse(stringify(wishes)) == Some(wishes)
    requires var row := FamilyRow(req, paymentId, shortCode, WishesData(req.wishes, req.wishFiles, parse), stringify);
      row.slug in rows && rows[row.slug] == row.(id := id)
    ensures var row := FamilyRow(req, paymentId, shortCode, WishesData(req.wishes, req.wishFiles, parse), stringify);
      ReadFamily(rows, row.slug, parse)
        == FamilyFound(row.(id := id), WishesData(req.wishes, req.wishFiles, parse), PhotoList(req.photoFiles))
  {
  }
}
