/** The two admin routes: `/api/admin/appointments` (GET lists, DELETE wipes)
    and `/api/admin/availability` (GET passes `getAvailability` through). Both
    guard with the same `checkAuth`, defined once here. The `Authorization`
    header and `ADMIN_TOKEN` are parameters, absent when unset. */
module Admin {
  import opened Optional
  import opened Services

  const BearerPrefix := "Bearer "

  /** The credential `checkAuth` compares: the header (empty when missing)
      with exactly "Bearer " cut off when it starts with it, case-sensitively. */
  function Credential(header: Option<string>): string {
    var h := header.GetOr("");
    if BearerPrefix <= h then h[|BearerPrefix|..] else h
  }

  /** `checkAuth`: a configured, non-empty `ADMIN_TOKEN` equal to the credential. */
  predicate CheckAuth(header: Option<string>, adminToken: Option<string>) {
    adminToken.Some? && adminToken.value != "" && Credential(header) == adminToken.value
  }

  /** Without a configured token, or with an empty one, nothing is authorised. */
  lemma NoTokenNoAccess(header: Option<string>, adminToken: Option<string>)
    requires adminToken.None? || adminToken == Some("")
    ensures !CheckAuth(header, adminToken)
  {
  }

  /** "Bearer " followed by `t` is accepted exactly when `t` is the configured,
      non-empty token: exactly 7 characters are cut off. */
  lemma BearerHeader(t: string, adminToken: Option<string>)
    ensures CheckAuth(Some(BearerPrefix + t), adminToken) <==> adminToken == Some(t) && t != ""
  {
    assert BearerPrefix <= BearerPrefix + t;
    assert (BearerPrefix + t)[|BearerPrefix|..] == t;
  }

  /** A header that does not start with "Bearer " is compared whole, and a
      missing header is the empty string, which is never accepted. */
  lemma RawHeader(h: string, adminToken: Option<string>)
    requires !(BearerPrefix <= h)
    ensures CheckAuth(Some(h), adminToken) <==> adminToken == Some(h) && h != ""
    ensures !CheckAuth(None, adminToken)
  {
  }

  /** The prefix is matched case-sensitively and cut off only once. */
  lemma PrefixIsExact(t: string)
    requires t != ""
    ensures !CheckAuth(Some("bearer " + t), Some(t))
    ensures CheckAuth(Some(BearerPrefix + BearerPrefix + t), Some(BearerPrefix + t))
    ensures !CheckAuth(Some(BearerPrefix + BearerPrefix + t), Some(t))
  {
    assert !(BearerPrefix <= "bearer " + t) by {
      assert ("bearer " + t)[0] == 'b';
    }
    assert |"bearer " + t| != |t|;
    BearerHeader(BearerPrefix + t, Some(BearerPrefix + t));
    BearerHeader(BearerPrefix + t, Some(t));
    assert BearerPrefix + BearerPrefix + t == BearerPrefix + (BearerPrefix + t);
  }

  /** What a route answers: 401, 400 for a missing `date`, or a JSON body. */
  datatype Response<T> = Unauthorized | MissingDate | Json(body: T)

  /** `GET /api/admin/appointments`: 401, or the store's appointments. It
      changes nothing. */
  method AppointmentsGet(store: Store, header: Option<string>, adminToken: Option<string>)
    returns (r: Response<seq<Appointment>>)
    ensures r.Unauthorized? <==> !CheckAuth(header, adminToken)
    ensures r.Json? ==> r.body == store.appointments
    ensures !r.MissingDate?
  {
    if !CheckAuth(header, adminToken) {
      return Unauthorized;
    }
    var data := store.ListAppointments();
    return Json(data);
  }

  /** `DELETE /api/admin/appointments`: 401 with the store untouched, or one
      `clearAll` call and `{ok: true}`. */
  method AppointmentsDelete(store: Store, header: Option<string>, adminToken: Option<string>)
    returns (r: Response<bool>)
    modifies store
    ensures !CheckAuth(header, adminToken) ==> r == Unauthorized && unchanged(store)
    ensures CheckAuth(header, adminToken) ==>
      r == Json(true) && store.clearAllCalls == old(store.clearAllCalls) + 1
      && store.appointments == [] && store.sessions == map[]
  {
    if !CheckAuth(header, adminToken) {
      return Unauthorized;
    }
    store.ClearAll();
    return Json(true);
  }

  /** `GET /api/admin/availability`: authorisation first, then a missing or
      empty `date` is 400, and otherwise the body is `getAvailability(date)`,
      with no format check of the date. */
  function AvailabilityGet(header: Option<string>, adminToken: Option<string>, date: Option<string>,
                           availability: string -> Availability): (r: Response<Availability>)
    ensures r.Unauthorized? <==> !CheckAuth(header, adminToken)
    ensures r.MissingDate? <==> CheckAuth(header, adminToken) && date.GetOr("") == ""
    ensures r.Json? ==> date.Some? && r.body == availability(date.value)
  {
    if !CheckAuth(header, adminToken) then Unauthorized
    else if date.GetOr("") == "" then MissingDate
    else Json(availability(date.value))
  }

  /** When it answers 401 or 400 the route has not consulted the scheduler:
      the answer is the same whatever `getAvailability` would return. */
  lemma RejectionIgnoresScheduler(header: Option<string>, adminToken: Option<string>, date: Option<string>,
                                  a1: string -> Availability, a2: string -> Availability)
    requires !CheckAuth(header, adminToken) || date.GetOr("") == ""
    ensures AvailabilityGet(header, adminToken, date, a1) == AvailabilityGet(header, adminToken, date, a2)
  {
  }
}
