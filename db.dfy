/** The three tables the routes use, each a class over a map that the
    route handlers update in place: christmasSite, payment and family. */
module Db {
  import opened Js

  datatype Status = Pending | Approved

  /** A row of christmasSite. */
  datatype Site = Site(
    id: string,
    familyName: string,
    message: string,
    photoUrl: string,
    price: real,
    paymentStatus: Status,
    mpPreferenceId: string,
    mpPaymentId: Option<string>,
    createdAt: int)

  /** The christmasSite table, keyed by id. */
  class SiteTable {
    var rows: map<string, Site>

    ghost predicate Valid()
      reads this
    {
      forall id :: id in rows ==> rows[id].id == id
    }

    constructor ()
      ensures Valid() && rows == map[]
    {
      rows := map[];
    }

    /** `create`: fails (throws) when the id is already taken. */
    method Create(site: Site) returns (ok: bool)
      requires Valid()
      modifies this
      ensures Valid()
      ensures ok == (site.id !in old(rows))
      ensures rows == if ok then old(rows)[site.id := site] else old(rows)
    {
      ok := site.id !in rows;
      if ok {
        rows := rows[site.id := site];
      }
    }

    /** `findUnique` by id. */
    method FindUnique(id: string) returns (site: Option<Site>)
      requires Valid()
      ensures site.Some? <==> id in rows
      ensures site.Some? ==> site.value == rows[id] && site.value.id == id
    {
      site := if id in rows then Some(rows[id]) else None;
    }

    /** `update` of mp_preference_id; fails when there is no such row. */
    method SetPreferenceId(id: string, preferenceId: string) returns (ok: bool)
      requires Valid()
      modifies this
      ensures Valid()
      ensures ok == (id in old(rows))
      ensures rows == if ok then old(rows)[id := old(rows)[id].(mpPreferenceId := preferenceId)] else old(rows)
    {
      ok := id in rows;
      if ok {
        rows := rows[id := rows[id].(mpPreferenceId := preferenceId)];
      }
    }

    /** `update` to APPROVED with the gateway payment id; fails when there is
        no such row. */
    method MarkApproved(id: string, paymentId: string) returns (ok: bool)
      requires Valid()
      modifies this
      ensures Valid()
      ensures ok == (id in old(rows))
      ensures rows == if ok then old(rows)[id := old(rows)[id].(paymentStatus := Approved, mpPaymentId := Some(paymentId))] else old(rows)
    {
      ok := id in rows;
      if ok {
        rows := rows[id := rows[id].(paymentStatus := Approved, mpPaymentId := Some(paymentId))];
      }
    }
  }

  /** A row of the payment table of the older payment flow. */
  datatype PaymentRecord = PaymentRecord(
    id: int,
    mpPaymentId: string,
    status: string,
    qrCode: Option<string>,
    qrCodeBase64: Option<string>)

  /** The payment table, keyed by an auto-incremented id. */
  class PaymentTable {
    var rows: map<int, PaymentRecord>
    var nextId: int

    ghost predicate Valid()
      reads this
    {
      nextId >= 1 && forall id :: id in rows ==> 1 <= id < nextId && rows[id].id == id
    }

    constructor ()
      ensures Valid() && rows == map[] && nextId == 1
    {
      rows := map[];
      nextId := 1;
    }

    /** `create`: the row gets the next id. */
    method Create(mpPaymentId: string, status: string, qrCode: Option<string>, qrCodeBase64: Option<string>)
      returns (record: PaymentRecord)
      requires Valid()
      modifies this
      ensures Valid()
      ensures record == PaymentRecord(old(nextId), mpPaymentId, status, qrCode, qrCodeBase64)
      ensures record.id !in old(rows)
      ensures rows == old(rows)[record.id := record] && nextId == old(nextId) + 1
    {
      record := PaymentRecord(nextId, mpPaymentId, status, qrCode, qrCodeBase64);
      rows := rows[nextId := record];
      nextId := nextId + 1;
    }

    /** `update` of the status of an existing row. */
    method SetStatus(id: int, status: string) returns (record: PaymentRecord)
      requires Valid() && id in rows
      modifies this
      ensures Valid() && nextId == old(nextId)
      ensures record == old(rows)[id].(status := status)
      ensures rows == old(rows)[id := record]
    {
      record := rows[id].(status := status);
      rows := rows[id := record];
    }
  }

  /** A row of the family table; `photos` and `wishes` hold JSON text. */
  datatype Family = Family(
    id: int,
    name: string,
    slug: string,
    paymentId: int,
    photos: Option<string>,
    youtubeLink: Option<string>,
    message: Option<string>,
    wishes: Option<string>)

  /** The family table, keyed by its unique slug; ids are auto-incremented. */
  class FamilyTable {
    var rows: map<string, Family>
    var nextId: int

    ghost predicate Valid()
      reads this
    {
      nextId >= 1 && forall slug :: slug in rows ==> rows[slug].slug == slug && 1 <= rows[slug].id < nextId
    }

    constructor ()
      ensures Valid() && rows == map[] && nextId == 1
    {
      rows := map[];
      nextId := 1;
    }

    /** `create`: the id sequence advances on every insert attempt, as a
        PostgreSQL sequence does; the insert fails (a unique-constraint error)
        when the slug is taken, and otherwise the row gets the drawn id. */
    method Create(row: Family) returns (created: Option<Family>)
      requires Valid()
      modifies this
      ensures Valid()
      ensures created.Some? <==> row.slug !in old(rows)
      ensures created.Some? ==>
                created.value == row.(id := old(nextId))
                && rows == old(rows)[row.slug := created.value] && nextId == old(nextId) + 1
      ensures created.None? ==> rows == old(rows) && nextId == old(nextId) + 1
    {
      if row.slug in rows {
        created := None;
        nextId := nextId + 1;
      } else {
        var stored := row.(id := nextId);
        rows := rows[row.slug := stored];
        nextId := nextId + 1;
        created := Some(stored);
      }
    }
  }
}
