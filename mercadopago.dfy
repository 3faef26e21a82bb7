/** The payment gateway as the core sees it. Its network calls are replaced
    by lookups the caller supplies: each may answer, answer nothing, or fail
    (the SDK throws). */
module MercadoPago {
  import opened Js

  datatype Lookup<T> = Found(value: T) | Absent | Throws

  /** A payment as the gateway reports it when re-queried. A missing
      `transaction_amount` is None (in JavaScript, `undefined`). */
  datatype Payment = Payment(
    status: string,
    transactionAmount: Option<real>,
    externalReference: Option<string>,
    preferenceId: Option<string>)

  /** A checkout preference; `createPreference` sets its external reference to
      the site id. */
  datatype Preference = Preference(externalReference: Option<string>)

  /** What `getPayment` and `getPreference` answer, id by id; an id the maps
      do not hold is answered with nothing. */
  datatype Gateway = Gateway(
    payments: map<string, Lookup<Payment>>,
    preferences: map<string, Lookup<Preference>>)

  function GetPayment(gw: Gateway, id: string): Lookup<Payment> {
    if id in gw.payments then gw.payments[id] else Absent
  }

  function GetPreference(gw: Gateway, id: string): Lookup<Preference> {
    if id in gw.preferences then gw.preferences[id] else Absent
  }

  /** What `createPreference` returns, or that it threw. */
  datatype PreferenceReply =
    | PreferenceCreated(preferenceId: string, initPoint: Option<string>, sandboxInitPoint: Option<string>)
    | PreferenceFailed
}
