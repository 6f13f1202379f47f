/**
 * The in-memory store of the WhatsApp booking bot (backend/database.py):
 * a session table keyed by phone number, a booking table keyed by booking
 * id, and the read-only sample provider catalogue.
 *
 * Ratings and distances are held in tenths (4.9 stars is 49, "2.1 km" is 21).
 */
module Store {
  import opened Wrappers
  import opened Text

  datatype Provider = Provider(
    id: string,
    name: string,
    phone: string,
    rating: nat,    // tenths of a star
    reviews: nat,
    rate: nat,      // KES per hour
    distance: nat,  // tenths of a kilometre
    areas: seq<string>)

  /** The keys the bot writes into a session dictionary. */
  datatype Field =
    | PhoneNumber | ProfileName | State | CreatedAt | LastInteraction
    | SelectedService | Location | AvailableProviders | SelectedProvider
    | BookingDetails | PaymentReference

  /** The values a session dictionary holds: `None`, a string, a provider list or one provider. */
  datatype Value = Null | Str(s: string) | ProviderList(providers: seq<Provider>) | ProviderRec(provider: Provider)

  /** A session is a dictionary; a key that is absent is not in the map. */
  type Session = map<Field, Value>

  datatype Booking = Booking(
    bookingId: string,
    clientPhone: Value,
    clientName: Value,
    service: Value,
    provider: Value,
    location: Value,
    details: Value,
    status: string,
    createdAt: string,
    paymentStatus: string)

  /** The sample providers the store starts with, keyed by lower-case service name. */
  function SampleCatalog(): map<string, seq<Provider>> {
    map[
      "plumbing" := [
        Provider("p1", "Mike Johnson", "+254700123456", 49, 245, 1200, 21, ["westlands", "kilimani", "parklands"]),
        Provider("p2", "Grace Wanjiku", "+254700123457", 48, 189, 1000, 35, ["westlands", "karen", "lavington"]),
        Provider("p3", "Peter Kamau", "+254700123458", 47, 156, 1500, 42, ["westlands", "upperhill", "cbd"])],
      "electrical" := [
        Provider("e1", "John Mwangi", "+254700123459", 48, 198, 1300, 18, ["westlands", "kilimani", "parklands"]),
        Provider("e2", "Sarah Njeri", "+254700123460", 49, 234, 1400, 29, ["karen", "lavington", "runda"])],
      "cleaning" := [
        Provider("c1", "Anne Muthoni", "+254700123461", 46, 167, 800, 15, ["westlands", "kilimani", "parklands"]),
        Provider("c2", "Mary Wanjiru", "+254700123462", 47, 203, 900, 31, ["karen", "lavington", "upperhill"])],
      "tutoring" := [
        Provider("t1", "David Kiprotich", "+254700123463", 49, 312, 600, 23, ["westlands", "kilimani", "lavington"]),
        Provider("t2", "Lucy Akinyi", "+254700123464", 48, 278, 700, 37, ["karen", "runda", "muthaiga"])],
      "car repair" := [
        Provider("cr1", "James Ochieng", "+254700123465", 47, 189, 1500, 41, ["westlands", "parklands", "kasarani"])],
      "painting" := [
        Provider("pt1", "Robert Mutua", "+254700123466", 45, 145, 700, 28, ["westlands", "kilimani", "upperhill"])]
    ]
  }

  /** `get_providers_by_service`: the catalogue entry under the lower-cased service name, or no providers. */
  function ProvidersByService(catalog: map<string, seq<Provider>>, service: string): seq<Provider> {
    var key := ToLower(service);
    if key in catalog then catalog[key] else []
  }

  /** The provider lists one of its areas as `location`, ignoring case. */
  predicate ServesArea(p: Provider, location: string) {
    exists i :: 0 <= i < |p.areas| && ToLower(p.areas[i]) == ToLower(location)
  }

  /** The providers that serve `location`, in their original order. */
  function AtLocation(ps: seq<Provider>, location: string): seq<Provider> {
    if ps == [] then []
    else AtLocation(ps[..|ps| - 1], location) + (if ServesArea(ps[|ps| - 1], location) then [ps[|ps| - 1]] else [])
  }

  /** `filter_providers_by_location`: the providers serving `location`, or all of them when none does. */
  function FilterByLocation(ps: seq<Provider>, location: string): seq<Provider> {
    var matching := AtLocation(ps, location);
    if matching != [] then matching else ps
  }

  /** `session.get("payment_reference")`: the stored reference, `None` when the key is absent. */
  function ReferenceOf(s: Session): Value {
    if PaymentReference in s then s[PaymentReference] else Null
  }

  // ---- properties of the pure parts ----

  /** Filtering distributes over concatenation, so it keeps the original order. */
  lemma {:induction false} AtLocationAppend(a: seq<Provider>, b: seq<Provider>, location: string)
    ensures AtLocation(a + b, location) == AtLocation(a, location) + AtLocation(b, location)
  {
    if b == [] {
      assert a + b == a;
    } else {
      var last := b[|b| - 1];
      assert (a + b)[..|a + b| - 1] == a + b[..|b| - 1];
      AtLocationAppend(a, b[..|b| - 1], location);
    }
  }

  /** A provider is kept exactly when it is in the input and serves the location. */
  lemma {:induction false} AtLocationMembers(ps: seq<Provider>, location: string, p: Provider)
    ensures p in AtLocation(ps, location) <==> p in ps && ServesArea(p, location)
  {
    if ps != [] {
      var init := ps[..|ps| - 1];
      AtLocationMembers(init, location, p);
      assert ps == init + [ps[|ps| - 1]];
    }
  }

  lemma {:induction false} AtLocationLength(ps: seq<Provider>, location: string)
    ensures |AtLocation(ps, location)| <= |ps|
  {
    if ps != [] {
      AtLocationLength(ps[..|ps| - 1], location);
    }
  }

  /** When some provider serves the location, exactly those providers are returned, in order. */
  lemma FilterKeepsServing(ps: seq<Provider>, location: string)
    requires exists p :: p in ps && ServesArea(p, location)
    ensures FilterByLocation(ps, location) == AtLocation(ps, location)
    ensures forall p :: p in FilterByLocation(ps, location) <==> p in ps && ServesArea(p, location)
  {
    var p :| p in ps && ServesArea(p, location);
    AtLocationMembers(ps, location, p);
    forall q ensures q in AtLocation(ps, location) <==> q in ps && ServesArea(q, location) {
      AtLocationMembers(ps, location, q);
    }
  }

  /** When no provider serves the location, the input list comes back unchanged. */
  lemma FilterFallsBack(ps: seq<Provider>, location: string)
    requires forall p :: p in ps ==> !ServesArea(p, location)
    ensures FilterByLocation(ps, location) == ps
  {
    if AtLocation(ps, location) != [] {
      var q := AtLocation(ps, location)[0];
      AtLocationMembers(ps, location, q);
    }
  }

  /** Location matching ignores case. */
  lemma FilterIgnoresCase(ps: seq<Provider>, location: string)
    ensures FilterByLocation(ps, ToUpper(location)) == FilterByLocation(ps, location)
  {
    ToLowerOfUpper(location);
    assert forall p :: ServesArea(p, ToUpper(location)) == ServesArea(p, location);
    AtLocationSameTest(ps, ToUpper(location), location);
  }

  lemma {:induction false} AtLocationSameTest(ps: seq<Provider>, l1: string, l2: string)
    requires ToLower(l1) == ToLower(l2)
    ensures AtLocation(ps, l1) == AtLocation(ps, l2)
  {
    if ps != [] {
      AtLocationSameTest(ps[..|ps| - 1], l1, l2);
    }
  }

  /** The service lookup ignores case, and a service absent from the catalogue has no providers. */
  lemma ProvidersByServiceProperties(catalog: map<string, seq<Provider>>, service: string)
    ensures ProvidersByService(catalog, ToUpper(service)) == ProvidersByService(catalog, service)
    ensures ToLower(service) !in catalog ==> ProvidersByService(catalog, service) == []
    ensures ToLower(service) in catalog ==> ProvidersByService(catalog, service) == catalog[ToLower(service)]
  {
    ToLowerOfUpper(service);
  }

  /**
   * The in-memory database. `order` records the phone numbers in the order
   * their sessions were first stored, which is the order in which a Python
   * dictionary yields its values.
   */
  class Database {
    var sessions: map<string, Session>
    var order: seq<string>
    var bookings: map<string, Booking>
    const catalog: map<string, seq<Provider>>

    ghost predicate Valid()
      reads this
    {
      && (forall i, j :: 0 <= i < j < |order| ==> order[i] != order[j])
      && (forall k :: k in order <==> k in sessions)
    }

    constructor ()
      ensures Valid()
      ensures sessions == map[] && order == [] && bookings == map[]
      ensures catalog == SampleCatalog()
    {
      sessions := map[];
      order := [];
      bookings := map[];
      catalog := SampleCatalog();
    }

    /** `get_user_session`: the stored session, or `None`. */
    method GetUserSession(phone: string) returns (r: Option<Session>)
      ensures r.Some? <==> phone in sessions
      ensures r.Some? ==> r.value == sessions[phone]
    {
      r := if phone in sessions then Some(sessions[phone]) else None;
    }

    /** `create_user_session`: stores the session under its own phone number, replacing any earlier one. */
    method CreateUserSession(session: Session)
      requires Valid()
      requires PhoneNumber in session && session[PhoneNumber].Str?
      modifies this
      ensures Valid()
      ensures sessions == old(sessions)[session[PhoneNumber].s := session]
      ensures order == if session[PhoneNumber].s in old(sessions) then old(order) else old(order) + [session[PhoneNumber].s]
      ensures bookings == old(bookings)
    {
      var phone := session[PhoneNumber].s;
      if phone !in sessions {
        order := order + [phone];
      }
      sessions := sessions[phone := session];
    }

    /** `update_user_session`: merges `updates` into an existing session; an unknown phone number changes nothing. */
    method UpdateUserSession(phone: string, updates: map<Field, Value>)
      requires Valid()
      modifies this
      ensures Valid()
      ensures phone in old(sessions) ==> sessions == old(sessions)[phone := old(sessions)[phone] + updates]
      ensures phone !in old(sessions) ==> sessions == old(sessions)
      ensures order == old(order) && bookings == old(bookings)
    {
      if phone in sessions {
        sessions := sessions[phone := sessions[phone] + updates];
      }
    }

    /** The session under `order[i]` is the first, in insertion order, whose reference is `ref`. */
    ghost predicate FirstWithReference(i: int, ref: Value)
      reads this
      requires Valid()
    {
      && 0 <= i < |order|
      && ReferenceOf(sessions[order[i]]) == ref
      && forall j :: 0 <= j < i ==> ReferenceOf(sessions[order[j]]) != ref
    }

    /** `find_user_by_payment_reference`: the first session in insertion order whose reference equals `ref`. */
    method FindUserByPaymentReference(ref: Value) returns (r: Option<Session>)
      requires Valid()
      ensures r.Some? ==> exists i :: FirstWithReference(i, ref) && r.value == sessions[order[i]]
      ensures r.None? <==> forall k :: k in sessions ==> ReferenceOf(sessions[k]) != ref
    {
      var i := 0;
      while i < |order|
        invariant 0 <= i <= |order|
        invariant forall j :: 0 <= j < i ==> ReferenceOf(sessions[order[j]]) != ref
      {
        var session := sessions[order[i]];
        if ReferenceOf(session) == ref {
          assert FirstWithReference(i, ref);
          return Some(session);
        }
        i := i + 1;
      }
      forall k | k in sessions
        ensures ReferenceOf(sessions[k]) != ref
      {
        var j :| 0 <= j < |order| && order[j] == k;
      }
      return None;
    }

    /** `create_booking`: stores the booking under its id; other bookings and the sessions are untouched. */
    method CreateBooking(booking: Booking)
      modifies this
      ensures bookings == old(bookings)[booking.bookingId := booking]
      ensures sessions == old(sessions) && order == old(order)
    {
      bookings := bookings[booking.bookingId := booking];
    }

    /** `filter_providers_by_location`, accumulating the matches in a loop. */
    method FilterProvidersByLocation(providers: seq<Provider>, location: string) returns (r: seq<Provider>)
      ensures r == FilterByLocation(providers, location)
    {
      var filtered: seq<Provider> := [];
      for i := 0 to |providers|
        invariant filtered == AtLocation(providers[..i], location)
      {
        assert providers[..i + 1][..i] == providers[..i];
        if ServesArea(providers[i], location) {
          filtered := filtered + [providers[i]];
        }
      }
      assert providers[..|providers|] == providers;
      r := if filtered != [] then filtered else providers;
    }
  }
}
