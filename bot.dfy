/**
 * The WhatsApp booking conversation (backend/bot_logic.py). Each phone
 * number has a session dictionary in the store whose "state" entry walks
 * welcome -> service_selection -> location_request -> provider_selection
 * -> booking_details -> payment -> completed.
 *
 * The pure part: what each state's handler writes and answers, as an
 * `Outcome`, and `Step`, the whole of `process_message` for one session.
 * The imperative part: class `GrooveHireBot`, whose methods perform the
 * writes on the shared `Database` and are specified by the pure part.
 */
module Bot {
  import opened Wrappers
  import opened Text
  import opened Store
  import opened Matching

  datatype BotState =
    | Welcome | ServiceSelection | LocationRequest | ProviderSelection
    | BookingDetails | Payment | Completed

  /** The `STATES` table: the string stored under "state" for each state. */
  function StateName(st: BotState): string {
    match st
    case Welcome => "welcome"
    case ServiceSelection => "service_selection"
    case LocationRequest => "location_request"
    case ProviderSelection => "provider_selection"
    case BookingDetails => "booking_details"
    case Payment => "payment"
    case Completed => "completed"
  }

  /** A service of the `SERVICES` table: its menu key and its name. */
  datatype Service = Service(key: string, name: string)

  function Services(): seq<Service> {
    [Service("1", "Plumbing"), Service("2", "Electrical"), Service("3", "Cleaning"),
     Service("4", "Tutoring"), Service("5", "Car Repair"), Service("6", "Painting")]
  }

  /** The keyword groups tried, in this order, when neither a key nor a name matched. */
  function KeywordGroups(): seq<seq<string>> {
    [["plumb", "pipe", "tap", "water"],
     ["electric", "wire", "power", "light"],
     ["clean", "house", "tidy"],
     ["tutor", "teach", "lesson", "study"],
     ["car", "vehicle", "mechanic"],
     ["paint", "color", "wall"]]
  }

  /** The Nairobi areas `extract_location` recognises, in the order it tries them. */
  function Areas(): seq<string> {
    ["westlands", "karen", "kilimani", "cbd", "upperhill", "lavington",
     "kileleshwa", "parklands", "eastleigh", "kasarani", "thika", "ngong",
     "runda", "muthaiga", "gigiri", "spring valley", "riverside"]
  }

  /** The booking fee in KES and the minimum number of hours the estimate is based on. */
  const BookingFee := 500
  const EstimatedHours := 2

  // ---- service selection ----

  /** `message in self.SERVICES`: the service whose key is exactly the message. */
  function ByKey(services: seq<Service>, msg: string): Option<Service> {
    if services == [] then None
    else if services[0].key == msg then Some(services[0])
    else ByKey(services[1..], msg)
  }

  /** The first service, in table order, whose lower-cased name occurs in the message. */
  function ByName(services: seq<Service>, msg: string): Option<Service> {
    if services == [] then None
    else if Contains(msg, ToLower(services[0].name)) then Some(services[0])
    else ByName(services[1..], msg)
  }

  /** The keyword chain: the first group with a word in the message selects the service at that position. */
  function ByKeyword(msg: string): Option<Service> {
    if ContainsAny(msg, KeywordGroups()[0]) then Some(Services()[0])
    else if ContainsAny(msg, KeywordGroups()[1]) then Some(Services()[1])
    else if ContainsAny(msg, KeywordGroups()[2]) then Some(Services()[2])
    else if ContainsAny(msg, KeywordGroups()[3]) then Some(Services()[3])
    else if ContainsAny(msg, KeywordGroups()[4]) then Some(Services()[4])
    else if ContainsAny(msg, KeywordGroups()[5]) then Some(Services()[5])
    else None
  }

  /** The service `handle_service_selection` settles on: by key, else by name, else by keyword. */
  function SelectService(msg: string): Option<Service> {
    var byKey := ByKey(Services(), msg);
    if byKey.Some? then byKey
    else
      var byName := ByName(Services(), msg);
      if byName.Some? then byName else ByKeyword(msg)
  }

  // ---- location ----

  /** The first area, in list order, that occurs in the message. */
  function FirstArea(areas: seq<string>, msg: string): Option<string> {
    if areas == [] then None
    else if Contains(msg, areas[0]) then Some(areas[0])
    else FirstArea(areas[1..], msg)
  }

  /** `extract_location`: a known area (title-cased), else a short message itself (title-cased), else nothing. */
  function ExtractLocation(msg: string): Option<string> {
    match FirstArea(Areas(), ToLower(msg))
    case Some(area) => Some(Title(area))
    case None => if WordCount(msg) <= 3 then Some(Title(msg)) else None
  }

  // ---- provider selection: Python's int() ----

  predicate IsDigit(c: char) {
    '0' <= c <= '9'
  }

  predicate AllDigits(s: string) {
    forall i :: 0 <= i < |s| ==> IsDigit(s[i])
  }

  function DigitsValue(s: string): nat
    requires AllDigits(s)
  {
    if s == [] then 0 else DigitsValue(s[..|s| - 1]) * 10 + (s[|s| - 1] as int - '0' as int)
  }

  /** `int(s)` for a stripped string: an optional sign and one or more ASCII digits. */
  function ParseInt(s: string): Option<int> {
    if s != [] && (s[0] == '+' || s[0] == '-') then
      if |s| > 1 && AllDigits(s[1..]) then
        Some(if s[0] == '-' then 0 - DigitsValue(s[1..]) as int else DigitsValue(s[1..]) as int)
      else None
    else if s != [] && AllDigits(s) then Some(DigitsValue(s))
    else None
  }

  // ---- replies and outcomes ----

  /** The reply texts, by kind, with the data each one mentions. */
  datatype Reply =
    | Greeting(name: Value)
    | ServiceConfirmed(chosen: Service)
    | ServiceMenu
    | ProvidersListed(serviceName: string, location: string, providers: seq<Provider>)
    | NoProviders(serviceName: string, location: string)
    | LocationPrompt
    | ProviderConfirmed(provider: Provider)
    | ProviderPrompt
    | BookingSummary(serviceValue: Value, provider: Provider, details: string, estimatedCost: int)
    | PaymentRequested
    | PaymentFailed(message: string)
    | DetailsAgain
    | PayOrBack
    | ErrorReply

  /** What a handler merges into the session (nothing when empty) and what it answers. */
  datatype Outcome = Outcome(updates: map<Field, Value>, reply: Reply)

  /** The current time as `isoformat()` and as `strftime('%Y%m%d%H%M%S')`. */
  datatype Clock = Clock(iso: string, stamp: string)

  /**
   * What a step depends on besides the session and the message: the
   * catalogue, the M-Pesa settings, which text of the push runs, the
   * gateway's answers and the time.
   */
  datatype Context = Context(catalog: map<string, seq<Provider>>, creds: Credentials, revision: Revision, gateway: Gateway, clock: Clock)

  /** `user_session.get(key)`, `None` when absent. */
  function Get(s: Session, f: Field): Value {
    if f in s then s[f] else Null
  }

  /** The provider list stored by the location step, `[]` when there is none. */
  function StoredProviders(s: Session): seq<Provider> {
    if AvailableProviders in s && s[AvailableProviders].ProviderList? then s[AvailableProviders].providers else []
  }

  /** The handler `process_message` runs for the session's "state" entry (missing: "welcome"). */
  function Dispatch(s: Session): BotState {
    var state := if State in s then s[State] else Str(StateName(Welcome));
    if state == Str(StateName(Welcome)) then Welcome
    else if state == Str(StateName(ServiceSelection)) then ServiceSelection
    else if state == Str(StateName(LocationRequest)) then LocationRequest
    else if state == Str(StateName(ProviderSelection)) then ProviderSelection
    else if state == Str(StateName(BotState.BookingDetails)) then BotState.BookingDetails
    else if state == Str(StateName(Payment)) then Payment
    else Welcome
  }

  function WelcomeStep(s: Session): Outcome {
    Outcome(map[State := Str(StateName(ServiceSelection))],
            Greeting(if ProfileName in s then s[ProfileName] else Str("there")))
  }

  function ServiceSelectionStep(msg: string): Outcome {
    match SelectService(msg)
    case Some(service) =>
      Outcome(map[SelectedService := Str(service.name), State := Str(StateName(LocationRequest))],
              ServiceConfirmed(service))
    case None => Outcome(map[], ServiceMenu)
  }

  /**
   * A usable location is stored with the next state before the providers are
   * looked up; the list is stored only when it is not empty. A session with
   * no service name makes the reply's `.lower()` raise: the error reply.
   */
  function LocationStep(s: Session, msg: string, catalog: map<string, seq<Provider>>): Outcome {
    LocationOutcome(s, ExtractLocation(msg), catalog)
  }

  /** The location step for the location extracted from the message. */
  function LocationOutcome(s: Session, location: Option<string>, catalog: map<string, seq<Provider>>): Outcome {
    if location.None? || location.value == "" then Outcome(map[], LocationPrompt)
    else
      var written := map[Location := Str(location.value), State := Str(StateName(ProviderSelection))];
      var service := if Get(s, SelectedService).Str? then Some(Get(s, SelectedService).s) else None;
      var providers := FindProviders(catalog, service, location.value);
      match service
      case None => Outcome(written, ErrorReply)
      case Some(name) =>
        if providers != [] then
          Outcome(written[AvailableProviders := ProviderList(Prefix(providers, 3))],
                  ProvidersListed(name, location.value, providers))
        else Outcome(written, NoProviders(name, location.value))
  }

  function ProviderSelectionStep(s: Session, msg: string): Outcome {
    var selection := ParseInt(msg);
    var providers := StoredProviders(s);
    if selection.Some? && 1 <= selection.value <= 3 && selection.value <= |providers| then
      var chosen := providers[selection.value - 1];
      Outcome(map[SelectedProvider := ProviderRec(chosen), State := Str(StateName(BotState.BookingDetails))],
              ProviderConfirmed(chosen))
    else Outcome(map[], ProviderPrompt)
  }

  /** Any message is the booking details; a session without a chosen provider makes `provider["rate"]` raise. */
  function BookingDetailsStep(s: Session, msg: string): Outcome {
    var written := map[Field.BookingDetails := Str(msg), State := Str(StateName(Payment))];
    var provider := Get(s, SelectedProvider);
    if provider.ProviderRec? then
      Outcome(written, BookingSummary(Get(s, SelectedService), provider.provider, msg, provider.provider.rate * EstimatedHours))
    else Outcome(written, ErrorReply)
  }

  /** `phone_number.replace("+", "")`. */
  function RemovePlus(phone: string): string {
    if phone == [] then []
    else (if phone[0] == '+' then [] else [phone[0]]) + RemovePlus(phone[1..])
  }

  /** The push `handle_payment` starts for this phone number at this time. */
  function PaymentAttempt(phone: string, ctx: Context): PushAttempt {
    InitiateStkPush(ctx.revision, ctx.creds, RemovePlus(phone), BookingFee, "BOOKING_" + ctx.clock.stamp, ctx.clock.stamp, ctx.gateway)
  }

  /** `result.get("checkout_request_id")` as a session value. */
  function Reference(result: PushResult): Value {
    match result.checkoutRequestId
    case Some(id) => Str(id)
    case None => Null
  }

  function PaymentStep(phone: string, msg: string, ctx: Context): Outcome {
    if ToLower(msg) == "pay" then
      var result := PaymentAttempt(phone, ctx).result;
      if result.success then
        Outcome(map[PaymentReference := Reference(result), State := Str(StateName(Completed))],
                PaymentRequested)
      else Outcome(map[], PaymentFailed(result.message))
    else if ToLower(msg) == "back" then
      Outcome(map[State := Str(StateName(BotState.BookingDetails))], DetailsAgain)
    else Outcome(map[], PayOrBack)
  }

  /** The message as the handlers see it: stripped and lower-cased. */
  function Normalize(message: string): string {
    ToLower(Strip(message))
  }

  /** The handler chosen by the session's state, run on an already normalised message. */
  function Respond(s: Session, phone: string, msg: string, ctx: Context): Outcome {
    match Dispatch(s)
    case ServiceSelection => ServiceSelectionStep(msg)
    case LocationRequest => LocationStep(s, msg, ctx.catalog)
    case ProviderSelection => ProviderSelectionStep(s, msg)
    case BookingDetails => BookingDetailsStep(s, msg)
    case Payment => PaymentStep(phone, msg, ctx)
    case _ => WelcomeStep(s)
  }

  /** One message: normalised, then handled by the state's handler. */
  function Step(s: Session, phone: string, message: string, ctx: Context): Outcome {
    Respond(s, phone, Normalize(message), ctx)
  }

  /** `update_user_session`'s effect: the updates plus a fresh `last_interaction`, or nothing when nothing is written. */
  function Apply(s: Session, updates: map<Field, Value>, clock: Clock): Session {
    if updates == map[] then s else s + updates + map[LastInteraction := Str(clock.iso)]
  }

  /**
   * A usable location writes the location and the next state; the list is
   * added when the service has providers found there; without a service
   * name the reply is the error reply.
   */
  lemma LocationOutcomeCases(s: Session, location: string, catalog: map<string, seq<Provider>>)
    requires location != ""
    ensures var o := LocationOutcome(s, Some(location), catalog);
            var written := map[Location := Str(location), State := Str(StateName(ProviderSelection))];
            var service := if Get(s, SelectedService).Str? then Some(Get(s, SelectedService).s) else None;
            var providers := FindProviders(catalog, service, location);
            && (providers != [] ==> service.Some? && o.updates == written + map[AvailableProviders := ProviderList(Prefix(providers, 3))]
                                    && o.reply == ProvidersListed(service.value, location, providers))
            && (providers == [] ==> o.updates == written)
            && (providers == [] && service.Some? ==> o.reply == NoProviders(service.value, location))
            && (service.None? ==> o.reply == ErrorReply)
  {
  }

  /** Two stamped merges in a row equal one stamped merge of both update sets. */
  lemma MergeTwice(s: Session, first: map<Field, Value>, second: map<Field, Value>, stamp: Value)
    ensures s + first + map[LastInteraction := stamp] + second + map[LastInteraction := stamp]
         == s + (first + second) + map[LastInteraction := stamp]
  {
  }

  /** A second write to the same key replaces the first. */
  lemma UpdateTwice<K, V>(m: map<K, V>, k: K, a: V, b: V)
    ensures m[k := a][k := b] == m[k := b]
  {
  }

  /** The session `get_user_session` creates for an unknown phone number. */
  function NewSession(phone: string, profileName: Option<string>, clock: Clock): Session {
    map[PhoneNumber := Str(phone),
        ProfileName := (match profileName case Some(n) => Str(n) case None => Null),
        State := Str(StateName(Welcome)),
        CreatedAt := Str(clock.iso),
        LastInteraction := Str(clock.iso)]
  }

  /** The session a message is processed against: the stored one, or a new one when there is none (or it is empty). */
  function Current(sessions: map<string, Session>, phone: string, profileName: Option<string>, clock: Clock): Session {
    if phone in sessions && sessions[phone] != map[] then sessions[phone] else NewSession(phone, profileName, clock)
  }

  /** The stored session after `process_message`. */
  function SessionAfter(sessions: map<string, Session>, phone: string, message: string, profileName: Option<string>, ctx: Context): Session {
    var s := Current(sessions, phone, profileName, ctx.clock);
    Apply(s, Step(s, phone, message, ctx).updates, ctx.clock)
  }

  /**
   * The bot object: it shares the store with the rest of the back end.
   * Each handler reads the session it was handed (the very dictionary the
   * store holds) and writes through `UpdateUserSession`. It runs the
   * repository's text of the push (`AsWritten`), and each call reads the
   * clock once (`clock`) and meets the gateway as it answers then (`gateway`).
   */
  class GrooveHireBot {
    const db: Database
    const creds: Credentials

    constructor (database: Database, credentials: Credentials)
      ensures db == database && creds == credentials
    {
      db := database;
      creds := credentials;
    }

    /** `update_user_session`: stamps `last_interaction` on the updates and merges them into the stored session. */
    method UpdateUserSession(phone: string, updates: map<Field, Value>, clock: Clock)
      requires db.Valid()
      modifies db
      ensures db.Valid()
      ensures phone in old(db.sessions) ==>
                db.sessions == old(db.sessions)[phone := old(db.sessions)[phone] + updates + map[LastInteraction := Str(clock.iso)]]
      ensures phone !in old(db.sessions) ==> db.sessions == old(db.sessions)
      ensures db.order == old(db.order) && db.bookings == old(db.bookings)
    {
      ghost var before := db.sessions;
      db.UpdateUserSession(phone, updates[LastInteraction := Str(clock.iso)]);
      if phone in before {
        assert before[phone] + updates[LastInteraction := Str(clock.iso)]
            == before[phone] + updates + map[LastInteraction := Str(clock.iso)];
      }
    }

    /** `get_user_session`: the stored session, or a new welcome session stored for an unknown (or empty) one. */
    method GetUserSession(phone: string, profileName: Option<string>, clock: Clock) returns (session: Session)
      requires db.Valid()
      modifies db
      ensures db.Valid()
      ensures session == Current(old(db.sessions), phone, profileName, clock)
      ensures db.sessions == old(db.sessions)[phone := session]
      ensures db.order == if phone in old(db.sessions) then old(db.order) else old(db.order) + [phone]
      ensures db.bookings == old(db.bookings)
    {
      var stored := db.GetUserSession(phone);
      if stored.None? || stored.value == map[] {
        session := NewSession(phone, profileName, clock);
        db.CreateUserSession(session);
      } else {
        session := stored.value;
      }
    }

    method HandleWelcome(phone: string, session: Session, clock: Clock) returns (reply: Reply)
      requires db.Valid() && phone in db.sessions && db.sessions[phone] == session
      modifies db
      ensures db.Valid() && db.order == old(db.order) && db.bookings == old(db.bookings)
      ensures db.sessions == old(db.sessions)[phone := Apply(session, WelcomeStep(session).updates, clock)]
      ensures reply == WelcomeStep(session).reply
    {
      var name := if ProfileName in session then session[ProfileName] else Str("there");
      UpdateUserSession(phone, map[State := Str(StateName(ServiceSelection))], clock);
      assert State in WelcomeStep(session).updates;
      reply := Greeting(name);
    }

    method HandleServiceSelection(phone: string, msg: string, session: Session, clock: Clock) returns (reply: Reply)
      requires db.Valid() && phone in db.sessions && db.sessions[phone] == session
      modifies db
      ensures db.Valid() && db.order == old(db.order) && db.bookings == old(db.bookings)
      ensures db.sessions == old(db.sessions)[phone := Apply(session, ServiceSelectionStep(msg).updates, clock)]
      ensures reply == ServiceSelectionStep(msg).reply
    {
      var selected := ByKey(Services(), msg);
      if selected.None? {
        selected := ByName(Services(), msg);
      }
      if selected.None? {
        selected := ByKeyword(msg);
      }
      if selected.Some? {
        UpdateUserSession(phone, map[SelectedService := Str(selected.value.name), State := Str(StateName(LocationRequest))], clock);
        assert State in ServiceSelectionStep(msg).updates;
        reply := ServiceConfirmed(selected.value);
      } else {
        assert db.sessions == old(db.sessions)[phone := session];
        reply := ServiceMenu;
      }
    }

    method HandleLocationRequest(phone: string, msg: string, session: Session, clock: Clock) returns (reply: Reply)
      requires db.Valid() && phone in db.sessions && db.sessions[phone] == session
      modifies db
      ensures db.Valid() && db.order == old(db.order) && db.bookings == old(db.bookings)
      ensures db.sessions == old(db.sessions)[phone := Apply(session, LocationStep(session, msg, db.catalog).updates, clock)]
      ensures reply == LocationStep(session, msg, db.catalog).reply
    {
      var location := ExtractLocation(msg);
      if location.Some? && location.value != "" {
        reply := RecordLocation(phone, location.value, session, clock);
      } else {
        assert db.sessions == old(db.sessions)[phone := session];
        reply := LocationPrompt;
      }
    }

    /**
     * The usable-location branch of `handle_location_request`: store the
     * location and the next state, look the providers up, and store them
     * when there are any.
     */
    method RecordLocation(phone: string, location: string, session: Session, clock: Clock) returns (reply: Reply)
      requires db.Valid() && phone in db.sessions && db.sessions[phone] == session && location != ""
      modifies db
      ensures db.Valid() && db.order == old(db.order) && db.bookings == old(db.bookings)
      ensures db.sessions == old(db.sessions)[phone := Apply(session, LocationOutcome(session, Some(location), db.catalog).updates, clock)]
      ensures reply == LocationOutcome(session, Some(location), db.catalog).reply
    {
      ghost var outcome := LocationOutcome(session, Some(location), db.catalog);
      LocationOutcomeCases(session, location, db.catalog);
      var first := map[Location := Str(location), State := Str(StateName(ProviderSelection))];
      UpdateUserSession(phone, first, clock);
      ghost var stamp := map[LastInteraction := Str(clock.iso)];
      assert db.sessions == old(db.sessions)[phone := session + first + stamp];
      var service := if Get(session, SelectedService).Str? then Some(Get(session, SelectedService).s) else None;
      var providers := FindProviders(db.catalog, service, location);
      if providers != [] {
        var second := map[AvailableProviders := ProviderList(Prefix(providers, 3))];
        UpdateUserSession(phone, second, clock);
        UpdateTwice(old(db.sessions), phone, session + first + stamp, session + first + stamp + second + stamp);
        MergeTwice(session, first, second, Str(clock.iso));
        reply := ProvidersListed(service.value, location, providers);
      } else if service.Some? {
        reply := NoProviders(service.value, location);
      } else {
        reply := ErrorReply;
      }
      assert State in outcome.updates;
    }

    method HandleProviderSelection(phone: string, msg: string, session: Session, clock: Clock) returns (reply: Reply)
      requires db.Valid() && phone in db.sessions && db.sessions[phone] == session
      modifies db
      ensures db.Valid() && db.order == old(db.order) && db.bookings == old(db.bookings)
      ensures db.sessions == old(db.sessions)[phone := Apply(session, ProviderSelectionStep(session, msg).updates, clock)]
      ensures reply == ProviderSelectionStep(session, msg).reply
    {
      var selection := ParseInt(msg);
      if selection.Some? && 1 <= selection.value <= 3 {
        var providers := StoredProviders(session);
        if selection.value <= |providers| {
          var chosen := providers[selection.value - 1];
          UpdateUserSession(phone, map[SelectedProvider := ProviderRec(chosen), State := Str(StateName(BotState.BookingDetails))], clock);
          assert State in ProviderSelectionStep(session, msg).updates;
          return ProviderConfirmed(chosen);
        }
      }
      assert db.sessions == old(db.sessions)[phone := session];
      reply := ProviderPrompt;
    }

    method HandleBookingDetails(phone: string, msg: string, session: Session, clock: Clock) returns (reply: Reply)
      requires db.Valid() && phone in db.sessions && db.sessions[phone] == session
      modifies db
      ensures db.Valid() && db.order == old(db.order) && db.bookings == old(db.bookings)
      ensures db.sessions == old(db.sessions)[phone := Apply(session, BookingDetailsStep(session, msg).updates, clock)]
      ensures reply == BookingDetailsStep(session, msg).reply
    {
      UpdateUserSession(phone, map[Field.BookingDetails := Str(msg), State := Str(StateName(Payment))], clock);
      assert State in BookingDetailsStep(session, msg).updates;
      var provider := Get(session, SelectedProvider);
      if provider.ProviderRec? {
        var estimatedCost := provider.provider.rate * EstimatedHours;
        reply := BookingSummary(Get(session, SelectedService), provider.provider, msg, estimatedCost);
      } else {
        reply := ErrorReply;
      }
    }

    method HandlePayment(phone: string, msg: string, session: Session, clock: Clock, gateway: Gateway) returns (reply: Reply)
      requires db.Valid() && phone in db.sessions && db.sessions[phone] == session
      modifies db
      ensures db.Valid() && db.order == old(db.order) && db.bookings == old(db.bookings)
      ensures var ctx := Context(db.catalog, creds, AsWritten, gateway, clock);
              db.sessions == old(db.sessions)[phone := Apply(session, PaymentStep(phone, msg, ctx).updates, clock)]
              && reply == PaymentStep(phone, msg, ctx).reply
    {
      if ToLower(msg) == "pay" {
        var attempt := InitiateStkPush(AsWritten, creds, RemovePlus(phone), BookingFee, "BOOKING_" + clock.stamp, clock.stamp, gateway);
        if attempt.result.success {
          UpdateUserSession(phone, map[PaymentReference := Reference(attempt.result), State := Str(StateName(Completed))], clock);
          assert State in PaymentStep(phone, msg, Context(db.catalog, creds, AsWritten, gateway, clock)).updates;
          reply := PaymentRequested;
        } else {
          assert db.sessions == old(db.sessions)[phone := session];
          reply := PaymentFailed(attempt.result.message);
        }
      } else if ToLower(msg) == "back" {
        UpdateUserSession(phone, map[State := Str(StateName(BotState.BookingDetails))], clock);
        assert State in PaymentStep(phone, msg, Context(db.catalog, creds, AsWritten, gateway, clock)).updates;
        reply := DetailsAgain;
      } else {
        assert db.sessions == old(db.sessions)[phone := session];
        reply := PayOrBack;
      }
    }

    /** The dispatch inside `process_message`: the handler for the session's state. */
    method RunHandler(phone: string, msg: string, session: Session, clock: Clock, gateway: Gateway) returns (reply: Reply)
      requires db.Valid() && phone in db.sessions && db.sessions[phone] == session
      modifies db
      ensures db.Valid() && db.order == old(db.order) && db.bookings == old(db.bookings)
      ensures var ctx := Context(db.catalog, creds, AsWritten, gateway, clock);
              db.sessions == old(db.sessions)[phone := Apply(session, Respond(session, phone, msg, ctx).updates, clock)]
              && reply == Respond(session, phone, msg, ctx).reply
    {
      var state := Dispatch(session);
      if state == ServiceSelection {
        reply := HandleServiceSelection(phone, msg, session, clock);
      } else if state == LocationRequest {
        reply := HandleLocationRequest(phone, msg, session, clock);
      } else if state == ProviderSelection {
        reply := HandleProviderSelection(phone, msg, session, clock);
      } else if state == BotState.BookingDetails {
        reply := HandleBookingDetails(phone, msg, session, clock);
      } else if state == Payment {
        reply := HandlePayment(phone, msg, session, clock, gateway);
      } else {
        reply := HandleWelcome(phone, session, clock);
      }
    }

    /** `process_message`: fetch or create the session, normalise the message, run the state's handler. */
    method ProcessMessage(phone: string, message: string, profileName: Option<string>, clock: Clock, gateway: Gateway)
      returns (reply: Reply)
      requires db.Valid()
      modifies db
      ensures db.Valid() && db.bookings == old(db.bookings)
      ensures db.sessions == old(db.sessions)[phone := SessionAfter(old(db.sessions), phone, message, profileName, Context(db.catalog, creds, AsWritten, gateway, clock))]
      ensures var s := Current(old(db.sessions), phone, profileName, clock);
              reply == Step(s, phone, message, Context(db.catalog, creds, AsWritten, gateway, clock)).reply
      ensures db.order == if phone in old(db.sessions) then old(db.order) else old(db.order) + [phone]
    {
      ghost var before := db.sessions;
      var session := GetUserSession(phone, profileName, clock);
      var msg := Normalize(message);
      reply := RunHandler(phone, msg, session, clock, gateway);
      UpdateTwice(before, phone, session, db.sessions[phone]);
    }
  }
}
