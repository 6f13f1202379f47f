/**
 * What the booking conversation guarantees: how a message is normalised,
 * how the state entry selects a handler, how each handler moves the
 * session along, and the six-message conversation of backend/test_bot.py.
 */
module BotProperties {
  import opened Wrappers
  import opened Text
  import opened Store
  import opened Matching
  import opened Bot

  // ---- normalisation and dispatch ----

  /** Normalising an already normalised message changes nothing. */
  lemma NormalizeIdempotent(message: string)
    ensures Normalize(Normalize(message)) == Normalize(message)
  {
    StripCommutesWithCase(Strip(message));
    StripIdempotent(message);
    ToLowerIdempotent(Strip(message));
  }

  /** The handlers never see the case of the message, nor whether it was already normalised. */
  lemma StepIgnoresCase(s: Session, phone: string, message: string, ctx: Context)
    ensures Step(s, phone, ToUpper(message), ctx) == Step(s, phone, message, ctx)
    ensures Step(s, phone, Normalize(message), ctx) == Step(s, phone, message, ctx)
  {
    StripCommutesWithCase(message);
    ToLowerOfUpper(Strip(message));
    NormalizeIdempotent(message);
  }

  /** Each state other than "completed" selects its own handler. */
  lemma DispatchFollowsState(s: Session, st: BotState)
    requires st != Completed
    ensures Dispatch(s[State := Str(StateName(st))]) == st
  {
  }

  /** The welcome handler runs exactly when the state is missing, "welcome", or not one of the other handlers' states. */
  lemma DispatchDefaultsToWelcome(s: Session)
    ensures Dispatch(s) != Completed
    ensures Dispatch(s) == Welcome <==>
              State !in s || forall st :: st != Welcome && st != Completed ==> s[State] != Str(StateName(st))
  {
  }

  // ---- the stage order ----

  /** The stage that follows each stage; a finished booking starts over at service selection. */
  function Next(st: BotState): BotState {
    match st
    case Welcome => ServiceSelection
    case ServiceSelection => LocationRequest
    case LocationRequest => ProviderSelection
    case ProviderSelection => BotState.BookingDetails
    case BookingDetails => Payment
    case Payment => Completed
    case Completed => ServiceSelection
  }

  /** What a handler writes under "state": nothing, the next stage, or (payment on "back") the details stage. */
  predicate MovesOneStage(from: BotState, updates: map<Field, Value>) {
    updates == map[]
    || (State in updates
        && (updates[State] == Str(StateName(Next(from)))
            || (from == Payment && updates[State] == Str(StateName(BotState.BookingDetails)))))
  }

  lemma RespondMovesOneStage(s: Session, phone: string, msg: string, ctx: Context)
    ensures MovesOneStage(Dispatch(s), Respond(s, phone, msg, ctx).updates)
  {
    match Dispatch(s)
    case ServiceSelection =>
      assert Respond(s, phone, msg, ctx) == ServiceSelectionStep(msg);
    case LocationRequest =>
      assert Respond(s, phone, msg, ctx) == LocationStep(s, msg, ctx.catalog);
    case ProviderSelection =>
      assert Respond(s, phone, msg, ctx) == ProviderSelectionStep(s, msg);
    case BookingDetails =>
      assert Respond(s, phone, msg, ctx) == BookingDetailsStep(s, msg);
    case Payment =>
      assert Respond(s, phone, msg, ctx) == PaymentStep(phone, msg, ctx);
    case Welcome =>
      assert Respond(s, phone, msg, ctx) == WelcomeStep(s);
    case Completed =>
      DispatchDefaultsToWelcome(s);
  }

  /**
   * One message never skips a stage: the session is left as it was, or its
   * state moves to the next stage, or (only from payment, on "back") back
   * to the details stage.
   */
  lemma StepMovesOneStage(s: Session, phone: string, message: string, ctx: Context)
    ensures var after := Apply(s, Step(s, phone, message, ctx).updates, ctx.clock);
            || after == s
            || after[State] == Str(StateName(Next(Dispatch(s))))
            || (Dispatch(s) == Payment && after[State] == Str(StateName(BotState.BookingDetails)))
  {
    var o := Respond(s, phone, Normalize(message), ctx);
    assert Step(s, phone, message, ctx) == o;
    RespondMovesOneStage(s, phone, Normalize(message), ctx);
    AppliedStage(s, Dispatch(s), o.updates, ctx.clock);
  }

  lemma AppliedStage(s: Session, from: BotState, updates: map<Field, Value>, clock: Clock)
    requires MovesOneStage(from, updates)
    ensures var after := Apply(s, updates, clock);
            || after == s
            || after[State] == Str(StateName(Next(from)))
            || (from == Payment && after[State] == Str(StateName(BotState.BookingDetails)))
  {
    if updates != map[] {
      assert Apply(s, updates, clock)[State] == updates[State];
    }
  }

  /** A new phone number is stored with its details and, whatever it says first, is greeted and moved to service selection. */
  lemma NewPhoneIsGreeted(sessions: map<string, Session>, phone: string, message: string, profileName: Option<string>, ctx: Context)
    requires phone !in sessions
    ensures var name := match profileName case Some(n) => Str(n) case None => Null;
            var after := SessionAfter(sessions, phone, message, profileName, ctx);
            && after == map[PhoneNumber := Str(phone), ProfileName := name, State := Str(StateName(ServiceSelection)),
                            CreatedAt := Str(ctx.clock.iso), LastInteraction := Str(ctx.clock.iso)]
            && Step(Current(sessions, phone, profileName, ctx.clock), phone, message, ctx).reply == Greeting(name)
  {
    var s := Current(sessions, phone, profileName, ctx.clock);
    assert s == NewSession(phone, profileName, ctx.clock);
    assert Dispatch(s) == Welcome;
    WelcomeResponds(s, phone, message, ctx);
    GreetedNewSession(phone, profileName, ctx.clock);
  }

  /** In the welcome state (and any state the dispatcher does not know) every message is greeted and moves to service selection. */
  lemma WelcomeResponds(s: Session, phone: string, message: string, ctx: Context)
    requires Dispatch(s) == Welcome
    ensures Step(s, phone, message, ctx) == WelcomeStep(s)
    ensures Apply(s, Step(s, phone, message, ctx).updates, ctx.clock)
         == s[State := Str(StateName(ServiceSelection))][LastInteraction := Str(ctx.clock.iso)]
  {
    RespondWelcome(s, phone, Normalize(message), ctx);
    StampedUpdate(s, State, Str(StateName(ServiceSelection)), Str(ctx.clock.iso));
  }

  /** Merging one update and then the stamp is writing the two keys in turn. */
  lemma StampedUpdate(s: Session, k: Field, v: Value, stamp: Value)
    ensures s + map[k := v] + map[LastInteraction := stamp] == s[k := v][LastInteraction := stamp]
  {
  }

  /** The new session, greeted: its state moved on and its `last_interaction` written again with the same time. */
  lemma GreetedNewSession(phone: string, profileName: Option<string>, clock: Clock)
    ensures var name := match profileName case Some(n) => Str(n) case None => Null;
            NewSession(phone, profileName, clock)[State := Str(StateName(ServiceSelection))][LastInteraction := Str(clock.iso)]
            == map[PhoneNumber := Str(phone), ProfileName := name, State := Str(StateName(ServiceSelection)),
                   CreatedAt := Str(clock.iso), LastInteraction := Str(clock.iso)]
  {
  }

  /** The dispatcher's welcome branch, whatever the message. */
  lemma RespondWelcome(s: Session, phone: string, msg: string, ctx: Context)
    requires Dispatch(s) == Welcome
    ensures Respond(s, phone, msg, ctx) == WelcomeStep(s)
  {
  }

  /** After a completed booking the next message starts a new one. */
  lemma CompletedStartsOver(s: Session, phone: string, message: string, ctx: Context)
    requires State in s && s[State] == Str(StateName(Completed))
    ensures Apply(s, Step(s, phone, message, ctx).updates, ctx.clock)[State] == Str(StateName(ServiceSelection))
    ensures Step(s, phone, message, ctx).reply.Greeting?
  {
    assert Dispatch(s) == Welcome;
    WelcomeResponds(s, phone, message, ctx);
  }

  // ---- service selection ----

  /** Matching by key finds a service whose key is the whole message, and fails only when no key is. */
  lemma {:induction false} ByKeyFinds(services: seq<Service>, msg: string)
    ensures ByKey(services, msg).Some? ==> ByKey(services, msg).value in services && ByKey(services, msg).value.key == msg
    ensures ByKey(services, msg).None? <==> forall i :: 0 <= i < |services| ==> services[i].key != msg
  {
    if services != [] && services[0].key != msg {
      ByKeyFinds(services[1..], msg);
      assert forall i :: 1 <= i < |services| ==> services[i] == services[1..][i - 1];
    }
  }

  /** Matching by name picks the first service, in table order, whose lower-cased name occurs in the message. */
  lemma {:induction false} ByNameFirstMatch(services: seq<Service>, msg: string)
    ensures match ByName(services, msg)
            case Some(sv) =>
              exists j :: 0 <= j < |services| && services[j] == sv && Contains(msg, ToLower(sv.name))
                          && forall k :: 0 <= k < j ==> !Contains(msg, ToLower(services[k].name))
            case None => forall j :: 0 <= j < |services| ==> !Contains(msg, ToLower(services[j].name))
  {
    if services != [] && !Contains(msg, ToLower(services[0].name)) {
      ByNameFirstMatch(services[1..], msg);
      assert forall i :: 1 <= i < |services| ==> services[i] == services[1..][i - 1];
      match ByName(services[1..], msg)
      case Some(sv) =>
        var j :| 0 <= j < |services[1..]| && services[1..][j] == sv && Contains(msg, ToLower(sv.name))
                 && forall k :: 0 <= k < j ==> !Contains(msg, ToLower(services[1..][k].name));
        assert services[j + 1] == sv;
      case None =>
    } else if services != [] {
      assert services[0] == ByName(services, msg).value;
    }
  }

  /** The keyword groups are tried in order; the first group with a word in the message decides. */
  lemma ByKeywordFirstGroup(msg: string, g: int)
    requires 0 <= g < 6 && ContainsAny(msg, KeywordGroups()[g])
    requires forall h :: 0 <= h < g ==> !ContainsAny(msg, KeywordGroups()[h])
    ensures ByKeyword(msg) == Some(Services()[g])
  {
  }

  lemma ByKeywordNone(msg: string)
    ensures ByKeyword(msg) == None <==> forall g :: 0 <= g < 6 ==> !ContainsAny(msg, KeywordGroups()[g])
  {
    if ByKeyword(msg) == None {
      forall g | 0 <= g < 6 ensures !ContainsAny(msg, KeywordGroups()[g]) {
      }
    }
  }

  /**
   * The selection fails exactly when the message is no key, contains no
   * service name and contains no keyword; whatever it selects is a listed service.
   */
  lemma SelectServiceNone(msg: string)
    ensures SelectService(msg).None? <==>
              (forall i :: 0 <= i < |Services()| ==> Services()[i].key != msg && !Contains(msg, ToLower(Services()[i].name)))
              && forall g :: 0 <= g < 6 ==> !ContainsAny(msg, KeywordGroups()[g])
    ensures SelectService(msg).Some? ==> SelectService(msg).value in Services()
  {
    ByKeyFinds(Services(), msg);
    ByNameFirstMatch(Services(), msg);
    ByKeywordNone(msg);
    if ByKeyword(msg).Some? {
      var g :| 0 <= g < 6 && ContainsAny(msg, KeywordGroups()[g]);
    }
  }

  /** In the service-selection state the session moves on exactly when a service was selected, and records its name. */
  lemma ServiceSelectionAdvances(s: Session, phone: string, message: string, ctx: Context)
    requires Dispatch(s) == ServiceSelection
    ensures var msg := Normalize(message);
            var after := Apply(s, Step(s, phone, message, ctx).updates, ctx.clock);
            match SelectService(msg)
            case Some(sv) =>
              after[State] == Str(StateName(LocationRequest)) && after[SelectedService] == Str(sv.name)
              && Step(s, phone, message, ctx).reply == ServiceConfirmed(sv)
            case None => after == s && Step(s, phone, message, ctx).reply == ServiceMenu
  {
    var msg := Normalize(message);
    assert Step(s, phone, message, ctx) == Respond(s, phone, msg, ctx) == ServiceSelectionStep(msg);
    if SelectService(msg).Some? {
      assert State in ServiceSelectionStep(msg).updates;
    }
  }

  /** A menu number selects its service. */
  lemma SelectByMenuNumber()
    ensures SelectService("3") == Some(Service("3", "Cleaning"))
  {
  }

  /**
   * The three ways of selecting, in priority order: a menu key selects its
   * service; otherwise a service name in the message selects the first such
   * service in table order, whatever keywords the message holds; only then
   * do the keyword groups decide.
   */
  lemma SelectServicePriority(msg: string)
    ensures (exists i :: 0 <= i < |Services()| && Services()[i].key == msg) ==>
              SelectService(msg).Some? && SelectService(msg).value.key == msg
    ensures (forall i :: 0 <= i < |Services()| ==> Services()[i].key != msg)
            && (exists j :: 0 <= j < |Services()| && Contains(msg, ToLower(Services()[j].name))) ==>
              exists j :: 0 <= j < |Services()| && SelectService(msg) == Some(Services()[j])
                          && Contains(msg, ToLower(Services()[j].name))
                          && forall k :: 0 <= k < j ==> !Contains(msg, ToLower(Services()[k].name))
    ensures (forall i :: 0 <= i < |Services()| ==> Services()[i].key != msg && !Contains(msg, ToLower(Services()[i].name))) ==>
              SelectService(msg) == ByKeyword(msg)
  {
    ByKeyFinds(Services(), msg);
    ByNameFirstMatch(Services(), msg);
  }

  // ---- location ----

  /** The area found is the first one, in list order, that occurs in the message. */
  lemma {:induction false} FirstAreaFirstMatch(areas: seq<string>, msg: string)
    ensures match FirstArea(areas, msg)
            case Some(a) =>
              exists j :: 0 <= j < |areas| && areas[j] == a && Contains(msg, a)
                          && forall k :: 0 <= k < j ==> !Contains(msg, areas[k])
            case None => forall j :: 0 <= j < |areas| ==> !Contains(msg, areas[j])
  {
    if areas != [] && !Contains(msg, areas[0]) {
      FirstAreaFirstMatch(areas[1..], msg);
      assert forall i :: 1 <= i < |areas| ==> areas[i] == areas[1..][i - 1];
      match FirstArea(areas[1..], msg)
      case Some(a) =>
        var j :| 0 <= j < |areas[1..]| && areas[1..][j] == a && Contains(msg, a)
                 && forall k :: 0 <= k < j ==> !Contains(msg, areas[1..][k]);
        assert areas[j + 1] == a;
      case None =>
    } else if areas != [] {
      assert areas[0] == FirstArea(areas, msg).value;
    }
  }

  /**
   * `extract_location`: a known area in the message gives that area
   * title-cased; otherwise a message of at most three words is itself the
   * location; a longer one gives none. The location is empty only for the
   * empty message.
   */
  lemma ExtractLocationCases(msg: string)
    ensures FirstArea(Areas(), ToLower(msg)).Some? ==>
              ExtractLocation(msg) == Some(Title(FirstArea(Areas(), ToLower(msg)).value))
    ensures ExtractLocation(msg) == None <==>
              (forall j :: 0 <= j < |Areas()| ==> !Contains(ToLower(msg), Areas()[j])) && WordCount(msg) > 3
    ensures ExtractLocation(msg) == Some("") <==> msg == ""
  {
    FirstAreaFirstMatch(Areas(), ToLower(msg));
    TitleEmptyIff(msg);
    match FirstArea(Areas(), ToLower(msg))
    case Some(a) =>
      TitleEmptyIff(a);
      assert a in Areas();
    case None =>
  }

  /**
   * In the location state the session moves to provider selection exactly
   * when a (non-empty) location was extracted; the providers offered, one
   * to three of them, are the ones stored.
   */
  lemma LocationStepOutcome(s: Session, msg: string, catalog: map<string, seq<Provider>>)
    ensures var o := LocationStep(s, msg, catalog);
            var loc := ExtractLocation(msg);
            && (o.updates == map[] <==> loc.None? || loc.value == "")
            && (o.updates == map[] ==> o.reply == LocationPrompt)
            && (o.updates != map[] ==> o.updates[State] == Str(StateName(ProviderSelection)) && o.updates[Location] == Str(loc.value))
            && (AvailableProviders in o.updates <==> o.reply.ProvidersListed?)
            && (o.reply.ProvidersListed? ==>
                  o.updates[AvailableProviders] == ProviderList(o.reply.providers) && 1 <= |o.reply.providers| <= 3)
  {
    var loc := ExtractLocation(msg);
    if loc.Some? && loc.value != "" {
      var service := if Get(s, SelectedService).Str? then Some(Get(s, SelectedService).s) else None;
      FindProvidersAtMostThree(catalog, service, loc.value);
      assert State in LocationStep(s, msg, catalog).updates;
    }
  }

  /** When the chosen service has providers, some are always offered (the location filter falls back to all of them). */
  lemma LocationOffersProviders(s: Session, msg: string, catalog: map<string, seq<Provider>>, name: string)
    requires ExtractLocation(msg).Some? && ExtractLocation(msg).value != ""
    requires Get(s, SelectedService) == Str(name) && ProvidersByService(catalog, name) != []
    ensures var location := ExtractLocation(msg).value;
            LocationStep(s, msg, catalog).reply == ProvidersListed(name, location, FindProviders(catalog, Some(name), location))
  {
    FindProvidersNonEmpty(catalog, name, ExtractLocation(msg).value);
  }

  // ---- provider selection ----

  /** The decimal numeral of `n`, as `str(n)` writes it. */
  function Decimal(n: nat): string {
    if n < 10 then [('0' as int + n) as char] else Decimal(n / 10) + [('0' as int + n % 10) as char]
  }

  lemma {:induction false} DecimalDigits(n: nat)
    ensures Decimal(n) != [] && AllDigits(Decimal(n)) && DigitsValue(Decimal(n)) == n
  {
    if n >= 10 {
      DecimalDigits(n / 10);
      var d := Decimal(n);
      assert d[..|d| - 1] == Decimal(n / 10);
    }
  }

  /** `int()` reads back what `str()` writes, with or without a sign. */
  lemma ParseIntDecimal(n: nat)
    ensures ParseInt(Decimal(n)) == Some(n)
    ensures ParseInt("+" + Decimal(n)) == Some(n)
    ensures ParseInt("-" + Decimal(n)) == Some(0 - n)
  {
    DecimalDigits(n);
    assert ("+" + Decimal(n))[1..] == Decimal(n);
    assert ("-" + Decimal(n))[1..] == Decimal(n);
  }

  /** `int()` accepts exactly an optional sign followed by one or more digits. */
  lemma ParseIntAccepts(s: string)
    ensures ParseInt(s).Some? <==>
              (s != [] && AllDigits(s)) || (|s| > 1 && (s[0] == '+' || s[0] == '-') && AllDigits(s[1..]))
  {
  }

  /**
   * In the provider-selection state a reply of 1, 2 or 3 that is within the
   * stored list picks that provider and moves on; anything else leaves the
   * session as it was.
   */
  lemma ProviderSelectionOutcome(s: Session, msg: string)
    ensures var o := ProviderSelectionStep(s, msg);
            var n := ParseInt(msg);
            var listed := StoredProviders(s);
            && (o.updates != map[] <==> n.Some? && 1 <= n.value <= 3 && n.value <= |listed|)
            && (o.updates != map[] ==>
                  o.updates[SelectedProvider] == ProviderRec(listed[n.value - 1])
                  && o.updates[State] == Str(StateName(BotState.BookingDetails))
                  && o.reply == ProviderConfirmed(listed[n.value - 1]))
            && (o.updates == map[] ==> o.reply == ProviderPrompt)
  {
    var o := ProviderSelectionStep(s, msg);
    if o.reply.ProviderConfirmed? {
      assert State in o.updates;
    }
  }

  /** Replying with the position of an offered provider books that provider. */
  lemma ChoosingAnOfferedProvider(s: Session, k: nat)
    requires 1 <= k <= |StoredProviders(s)| && k <= 3
    ensures var o := ProviderSelectionStep(s, Decimal(k));
            SelectedProvider in o.updates && o.updates[SelectedProvider] == ProviderRec(StoredProviders(s)[k - 1])
  {
    ParseIntDecimal(k);
  }

  // ---- booking details and payment ----

  /**
   * Any message is taken as the booking details and moves the session to
   * payment; the summary quotes twice the provider's hourly rate.
   */
  lemma BookingDetailsOutcome(s: Session, msg: string)
    ensures var o := BookingDetailsStep(s, msg);
            && o.updates == map[Field.BookingDetails := Str(msg), State := Str(StateName(Payment))]
            && (o.reply.BookingSummary? <==> Get(s, SelectedProvider).ProviderRec?)
            && (o.reply.BookingSummary? ==>
                  o.reply.provider == Get(s, SelectedProvider).provider
                  && o.reply.estimatedCost == 2 * Get(s, SelectedProvider).provider.rate)
  {
  }

  /** The push goes to the number without any "+". */
  lemma {:induction false} RemovePlusKeepsTheRest(phone: string)
    ensures forall c :: c in RemovePlus(phone) <==> c in phone && c != '+'
    ensures '+' !in phone ==> RemovePlus(phone) == phone
  {
    if phone != [] {
      RemovePlusKeepsTheRest(phone[1..]);
      assert phone == [phone[0]] + phone[1..];
    }
  }

  /**
   * In the payment state "pay" starts the push: on success the session is
   * completed with the checkout id as its reference, on failure it stays as
   * it was; "back" returns to the details; anything else changes nothing.
   */
  lemma PaymentOutcome(phone: string, msg: string, ctx: Context)
    ensures var o := PaymentStep(phone, msg, ctx);
            var result := PaymentAttempt(phone, ctx).result;
            && (ToLower(msg) == "pay" && result.success ==>
                  o.updates[State] == Str(StateName(Completed))
                  && o.updates[PaymentReference] == (if result.checkoutRequestId.Some? then Str(result.checkoutRequestId.value) else Null)
                  && o.reply == PaymentRequested)
            && (ToLower(msg) == "pay" && !result.success ==> o.updates == map[] && o.reply == PaymentFailed(result.message))
            && (ToLower(msg) == "back" ==> o.updates == map[State := Str(StateName(BotState.BookingDetails))])
            && (ToLower(msg) != "pay" && ToLower(msg) != "back" ==> o.updates == map[] && o.reply == PayOrBack)
  {
  }

  /**
   * As written, without M-Pesa credentials "pay" cannot start the push: the
   * session is left as it was and the reply carries the payment error.
   */
  lemma PaymentUnconfiguredFails(phone: string, ctx: Context)
    requires !Configured(ctx.creds) && ctx.revision == AsWritten
    ensures PaymentAttempt(phone, ctx).result == PushResult(false, None, "Payment error: " + UnboundDatetime)
    ensures PaymentStep(phone, "pay", ctx) == Outcome(map[], PaymentFailed("Payment error: " + UnboundDatetime))
  {
    StkPushUnconfiguredFails(ctx.creds, RemovePlus(phone), BookingFee, "BOOKING_" + ctx.clock.stamp, ctx.clock.stamp, ctx.gateway);
    assert ToLower("pay") == "pay";
  }

  /** With the import hoisted, "pay" without credentials completes the booking with a simulated reference. */
  lemma PaymentSimulatedCompletes(phone: string, ctx: Context)
    requires !Configured(ctx.creds) && ctx.revision == ImportHoisted
    ensures PaymentAttempt(phone, ctx).result.success
    ensures Reference(PaymentAttempt(phone, ctx).result) == Str("ws_CO_" + ctx.clock.stamp)
    ensures PaymentStep(phone, "pay", ctx)
            == Outcome(map[PaymentReference := Str("ws_CO_" + ctx.clock.stamp), State := Str(StateName(Completed))], PaymentRequested)
  {
    StkPushSimulated(ctx.creds, RemovePlus(phone), BookingFee, "BOOKING_" + ctx.clock.stamp, ctx.clock.stamp, ctx.gateway);
    assert ToLower("pay") == "pay";
  }

  // ---- the conversation of backend/test_bot.py ----

  /** What stays fixed over a conversation: the store's catalogue, the M-Pesa settings and the text of the push. */
  datatype Deployment = Deployment(catalog: map<string, seq<Provider>>, creds: Credentials, revision: Revision)

  /** What one message meets: the time the clock shows while it is handled, and the gateway's answers then. */
  datatype Moment = Moment(clock: Clock, gateway: Gateway)

  function Within(d: Deployment, m: Moment): Context {
    Context(d.catalog, d.creds, d.revision, m.gateway, m.clock)
  }

  /**
   * The store after `process_message` has handled each message in turn from
   * the same phone; message `k` is handled at `moments[k]`.
   */
  function Converse(sessions: map<string, Session>, phone: string, messages: seq<string>, profileName: Option<string>, d: Deployment, moments: seq<Moment>): map<string, Session>
    requires |moments| == |messages|
    decreases |messages|
  {
    if messages == [] then sessions
    else Converse(sessions[phone := SessionAfter(sessions, phone, messages[0], profileName, Within(d, moments[0]))], phone, messages[1..], profileName, d, moments[1..])
  }

  /** The session after one message to a stored, non-empty session. */
  function After(s: Session, phone: string, message: string, ctx: Context): Session {
    Apply(s, Step(s, phone, message, ctx).updates, ctx.clock)
  }

  /** The session after each message in turn, once one is stored. */
  function Replay(s: Session, phone: string, messages: seq<string>, d: Deployment, moments: seq<Moment>): Session
    requires |moments| == |messages|
    decreases |messages|
  {
    if messages == [] then s else Replay(After(s, phone, messages[0], Within(d, moments[0])), phone, messages[1..], d, moments[1..])
  }

  lemma ConverseStored(sessions: map<string, Session>, phone: string, messages: seq<string>, profileName: Option<string>, d: Deployment, moments: seq<Moment>)
    requires phone in sessions && sessions[phone] != map[] && messages != [] && |moments| == |messages|
    ensures Converse(sessions, phone, messages, profileName, d, moments)
            == Converse(sessions[phone := After(sessions[phone], phone, messages[0], Within(d, moments[0]))], phone, messages[1..], profileName, d, moments[1..])
  {
  }

  lemma DispatchOf(s: Session, st: BotState)
    requires st != Completed && Get(s, State) == Str(StateName(st))
    ensures Dispatch(s) == st
  {
    assert s[State := Str(StateName(st))] == s;
    DispatchFollowsState(s, st);
  }

  /** A field the updates do not write keeps its value; one they write takes the written value. */
  lemma GetApplied(s: Session, updates: map<Field, Value>, clock: Clock, f: Field)
    requires updates != map[] && f != LastInteraction
    ensures Get(Apply(s, updates, clock), f) == if f in updates then updates[f] else Get(s, f)
  {
  }

  // What each handler writes, on the session it was given.

  lemma ServiceApplied(s: Session, msg: string, clock: Clock, service: Service)
    requires SelectService(msg) == Some(service)
    ensures var t := Apply(s, ServiceSelectionStep(msg).updates, clock);
            Get(t, State) == Str(StateName(LocationRequest)) && Get(t, SelectedService) == Str(service.name)
  {
    assert State in ServiceSelectionStep(msg).updates;
  }

  lemma LocationApplied(s: Session, msg: string, catalog: map<string, seq<Provider>>, clock: Clock, name: string, location: string)
    requires Get(s, SelectedService) == Str(name) && ProvidersByService(catalog, name) != []
    requires ExtractLocation(msg) == Some(location) && location != ""
    ensures var t := Apply(s, LocationStep(s, msg, catalog).updates, clock);
            var offered := FindProviders(catalog, Some(name), location);
            && offered != []
            && Get(t, State) == Str(StateName(ProviderSelection)) && Get(t, Location) == Str(location)
            && StoredProviders(t) == offered && Get(t, SelectedService) == Str(name)
  {
    var o := LocationStep(s, msg, catalog);
    LocationOffersProviders(s, msg, catalog, name);
    LocationStepOutcome(s, msg, catalog);
    GetApplied(s, o.updates, clock, SelectedService);
  }

  lemma ProviderApplied(s: Session, k: nat, clock: Clock)
    requires 1 <= k <= |StoredProviders(s)| && k <= 3
    ensures var t := Apply(s, ProviderSelectionStep(s, Decimal(k)).updates, clock);
            && Get(t, State) == Str(StateName(BotState.BookingDetails))
            && Get(t, SelectedProvider) == ProviderRec(StoredProviders(s)[k - 1])
            && Get(t, SelectedService) == Get(s, SelectedService) && Get(t, Location) == Get(s, Location)
  {
    ChoosingAnOfferedProvider(s, k);
    ProviderSelectionOutcome(s, Decimal(k));
  }

  lemma DetailsApplied(s: Session, msg: string, clock: Clock)
    ensures var t := Apply(s, BookingDetailsStep(s, msg).updates, clock);
            && Get(t, State) == Str(StateName(Payment))
            && Get(t, Field.BookingDetails) == Str(msg)
            && Get(t, SelectedProvider) == Get(s, SelectedProvider)
            && Get(t, SelectedService) == Get(s, SelectedService) && Get(t, Location) == Get(s, Location)
  {
    BookingDetailsOutcome(s, msg);
    GetApplied(s, BookingDetailsStep(s, msg).updates, clock, Field.BookingDetails);
  }

  /** A push that succeeds stores its reference with the completed state and keeps the rest. */
  lemma PayApplied(s: Session, phone: string, ctx: Context)
    requires PaymentAttempt(phone, ctx).result.success
    ensures var t := Apply(s, PaymentStep(phone, "pay", ctx).updates, ctx.clock);
            && Get(t, State) == Str(StateName(Completed))
            && Get(t, PaymentReference) == Reference(PaymentAttempt(phone, ctx).result)
            && Get(t, Field.BookingDetails) == Get(s, Field.BookingDetails)
            && Get(t, SelectedProvider) == Get(s, SelectedProvider)
            && Get(t, SelectedService) == Get(s, SelectedService) && Get(t, Location) == Get(s, Location)
  {
    assert ToLower("pay") == "pay";
    assert State in PaymentStep(phone, "pay", ctx).updates;
  }

  // Which handler a stored session's state runs.

  lemma AfterInServiceSelection(s: Session, phone: string, message: string, ctx: Context)
    requires Get(s, State) == Str(StateName(ServiceSelection))
    ensures After(s, phone, message, ctx) == Apply(s, ServiceSelectionStep(Normalize(message)).updates, ctx.clock)
  {
    DispatchOf(s, ServiceSelection);
  }

  lemma AfterInLocationRequest(s: Session, phone: string, message: string, ctx: Context)
    requires Get(s, State) == Str(StateName(LocationRequest))
    ensures After(s, phone, message, ctx) == Apply(s, LocationStep(s, Normalize(message), ctx.catalog).updates, ctx.clock)
  {
    DispatchOf(s, LocationRequest);
  }

  lemma AfterInProviderSelection(s: Session, phone: string, message: string, ctx: Context)
    requires Get(s, State) == Str(StateName(ProviderSelection))
    ensures After(s, phone, message, ctx) == Apply(s, ProviderSelectionStep(s, Normalize(message)).updates, ctx.clock)
  {
    DispatchOf(s, ProviderSelection);
  }

  lemma AfterInBookingDetails(s: Session, phone: string, message: string, ctx: Context)
    requires Get(s, State) == Str(StateName(BotState.BookingDetails))
    ensures After(s, phone, message, ctx) == Apply(s, BookingDetailsStep(s, Normalize(message)).updates, ctx.clock)
  {
    DispatchOf(s, BotState.BookingDetails);
  }

  lemma AfterInPayment(s: Session, phone: string, message: string, ctx: Context)
    requires Get(s, State) == Str(StateName(Payment))
    ensures Step(s, phone, message, ctx) == PaymentStep(phone, Normalize(message), ctx)
    ensures After(s, phone, message, ctx) == Apply(s, PaymentStep(phone, Normalize(message), ctx).updates, ctx.clock)
  {
    DispatchOf(s, Payment);
  }

  // One message of a booking conversation at a time.

  /** A reply that selects a service, in the service-selection state, records it and asks for the location. */
  lemma WalkService(s: Session, phone: string, message: string, ctx: Context, service: Service)
    requires Get(s, State) == Str(StateName(ServiceSelection))
    requires SelectService(Normalize(message)) == Some(service)
    ensures var t := After(s, phone, message, ctx);
            && Get(t, State) == Str(StateName(LocationRequest)) && Get(t, SelectedService) == Str(service.name)
            && Get(t, PaymentReference) == Get(s, PaymentReference)
  {
    AfterInServiceSelection(s, phone, message, ctx);
    ServiceApplied(s, Normalize(message), ctx.clock, service);
    GetApplied(s, ServiceSelectionStep(Normalize(message)).updates, ctx.clock, PaymentReference);
  }

  /** A recognised location, for a service that has providers, offers them and stores them. */
  lemma WalkLocation(s: Session, phone: string, message: string, ctx: Context, name: string, location: string)
    requires Get(s, State) == Str(StateName(LocationRequest)) && Get(s, SelectedService) == Str(name)
    requires ExtractLocation(Normalize(message)) == Some(location) && location != ""
    requires ProvidersByService(ctx.catalog, name) != []
    ensures var t := After(s, phone, message, ctx);
            var offered := FindProviders(ctx.catalog, Some(name), location);
            && offered != []
            && Get(t, State) == Str(StateName(ProviderSelection)) && Get(t, Location) == Str(location)
            && StoredProviders(t) == offered && Get(t, SelectedService) == Str(name)
            && Get(t, PaymentReference) == Get(s, PaymentReference)
  {
    AfterInLocationRequest(s, phone, message, ctx);
    LocationApplied(s, Normalize(message), ctx.catalog, ctx.clock, name, location);
    LocationKeepsReference(s, Normalize(message), ctx.catalog, ctx.clock);
  }

  lemma LocationKeepsReference(s: Session, msg: string, catalog: map<string, seq<Provider>>, clock: Clock)
    requires ExtractLocation(msg).Some? && ExtractLocation(msg).value != ""
    ensures Get(Apply(s, LocationStep(s, msg, catalog).updates, clock), PaymentReference) == Get(s, PaymentReference)
  {
    LocationStepOutcome(s, msg, catalog);
    GetApplied(s, LocationStep(s, msg, catalog).updates, clock, PaymentReference);
  }

  /** Replying with the position of a stored provider books it; service and location are kept. */
  lemma WalkProvider(s: Session, phone: string, message: string, ctx: Context, k: nat)
    requires Get(s, State) == Str(StateName(ProviderSelection))
    requires Normalize(message) == Decimal(k) && 1 <= k <= |StoredProviders(s)| && k <= 3
    ensures var t := After(s, phone, message, ctx);
            && Get(t, State) == Str(StateName(BotState.BookingDetails))
            && Get(t, SelectedProvider) == ProviderRec(StoredProviders(s)[k - 1])
            && Get(t, SelectedService) == Get(s, SelectedService) && Get(t, Location) == Get(s, Location)
            && Get(t, PaymentReference) == Get(s, PaymentReference)
  {
    AfterInProviderSelection(s, phone, message, ctx);
    ProviderApplied(s, k, ctx.clock);
    ProviderSelectionOutcome(s, Decimal(k));
    GetApplied(s, ProviderSelectionStep(s, Decimal(k)).updates, ctx.clock, PaymentReference);
  }

  /** Whatever is sent as the booking details is stored, normalised, and payment is next; the choices are kept. */
  lemma WalkDetails(s: Session, phone: string, message: string, ctx: Context)
    requires Get(s, State) == Str(StateName(BotState.BookingDetails))
    ensures var t := After(s, phone, message, ctx);
            && Get(t, State) == Str(StateName(Payment))
            && Get(t, Field.BookingDetails) == Str(Normalize(message))
            && Get(t, SelectedProvider) == Get(s, SelectedProvider)
            && Get(t, SelectedService) == Get(s, SelectedService) && Get(t, Location) == Get(s, Location)
            && Get(t, PaymentReference) == Get(s, PaymentReference)
  {
    AfterInBookingDetails(s, phone, message, ctx);
    DetailsApplied(s, Normalize(message), ctx.clock);
    GetApplied(s, BookingDetailsStep(s, Normalize(message)).updates, ctx.clock, PaymentReference);
  }

  /**
   * "pay" in the payment state: when the push succeeds the booking is
   * completed with its checkout id and everything chosen is kept; when it
   * fails the session is left exactly as it was and the reply carries the
   * push's message.
   */
  lemma WalkPay(s: Session, phone: string, message: string, ctx: Context)
    requires Get(s, State) == Str(StateName(Payment))
    requires Normalize(message) == "pay"
    ensures var t := After(s, phone, message, ctx);
            var result := PaymentAttempt(phone, ctx).result;
            && (result.success ==>
                  && Get(t, State) == Str(StateName(Completed))
                  && Get(t, PaymentReference) == Reference(result)
                  && Get(t, Field.BookingDetails) == Get(s, Field.BookingDetails)
                  && Get(t, SelectedProvider) == Get(s, SelectedProvider)
                  && Get(t, SelectedService) == Get(s, SelectedService) && Get(t, Location) == Get(s, Location)
                  && Step(s, phone, message, ctx).reply == PaymentRequested)
            && (!result.success ==> t == s && Step(s, phone, message, ctx).reply == PaymentFailed(result.message))
  {
    AfterInPayment(s, phone, message, ctx);
    assert ToLower("pay") == "pay";
    if PaymentAttempt(phone, ctx).result.success {
      PayApplied(s, phone, ctx);
    }
  }

  /** "1" reaches the handler unchanged; it is the key of plumbing and the numeral of 1. */
  lemma OneNormalized(m: string)
    requires m == "1"
    ensures Normalize(m) == Decimal(1)
    ensures SelectService(Normalize(m)) == Some(Service("1", "Plumbing"))
  {
    StripUnpadded(m);
    assert ToLower(m) == m;
  }

  /** "PAY" reaches the handler as "pay". */
  lemma PayNormalized(m: string)
    requires m == "PAY"
    ensures Normalize(m) == "pay"
  {
    StripUnpadded(m);
    assert ToLower(m) == "pay";
  }

  /** The sample catalogue lists plumbers. */
  lemma SampleHasPlumbers(catalog: map<string, seq<Provider>>, plumbing: string)
    requires catalog == SampleCatalog() && plumbing == "Plumbing"
    ensures ProvidersByService(catalog, plumbing) != []
  {
    assert ToLower(plumbing) == "plumbing";
  }

  /** The message "Westlands" reaches the handler as "westlands". */
  lemma WestlandsNormalized(m: string)
    requires m == "Westlands"
    ensures Normalize(m) == "westlands"
  {
    StripUnpadded(m);
    assert ToLower(m) == "westlands";
  }

  /** "westlands" is the first of the known areas, reported as "Westlands". */
  lemma WestlandsIsALocation(area: string)
    requires area == "westlands"
    ensures ExtractLocation(area) == Some("Westlands")
  {
    assert ToLower(area) == area;
    WestlandsIsAnArea(area);
    WestlandsTitled(area);
  }

  lemma WestlandsIsAnArea(area: string)
    requires area == "westlands"
    ensures FirstArea(Areas(), area) == Some(area)
  {
    assert StartsWith(area, Areas()[0]);
  }

  lemma WestlandsTitled(area: string)
    requires area == "westlands"
    ensures Title(area) == "Westlands"
  {
    TitleOfLowerWord(area);
    assert [UpperChar(area[0])] + area[1..] == "Westlands";
  }

  /** Writing a message's updates never empties a session. */
  lemma AfterKeepsKeys(s: Session, phone: string, message: string, ctx: Context)
    ensures s.Keys <= After(s, phone, message, ctx).Keys
  {
  }

  /** Once the phone has a stored session, the conversation only replaces that session. */
  lemma {:induction false} ConverseReplays(sessions: map<string, Session>, phone: string, messages: seq<string>, profileName: Option<string>, d: Deployment, moments: seq<Moment>)
    requires phone in sessions && sessions[phone] != map[] && |moments| == |messages|
    ensures Converse(sessions, phone, messages, profileName, d, moments) == sessions[phone := Replay(sessions[phone], phone, messages, d, moments)]
    decreases |messages|
  {
    if messages != [] {
      var s := sessions[phone];
      var t := After(s, phone, messages[0], Within(d, moments[0]));
      ConverseStored(sessions, phone, messages, profileName, d, moments);
      AfterKeepsKeys(s, phone, messages[0], Within(d, moments[0]));
      assert t != map[];
      ConverseReplays(sessions[phone := t], phone, messages[1..], profileName, d, moments[1..]);
      UpdateTwice(sessions, phone, t, Replay(t, phone, messages[1..], d, moments[1..]));
    }
  }

  /**
   * From service selection, a reply naming a service that has providers and
   * then a recognised location lead to provider selection with the
   * providers offered stored; the rest of the messages are replayed from there.
   */
  lemma ServiceThenLocation(s: Session, phone: string, messages: seq<string>, d: Deployment, moments: seq<Moment>, service: Service, location: string)
      returns (t: Session)
    requires Get(s, State) == Str(StateName(ServiceSelection))
    requires |messages| >= 2 && |moments| == |messages| && SelectService(Normalize(messages[0])) == Some(service)
    requires ExtractLocation(Normalize(messages[1])) == Some(location) && location != ""
    requires ProvidersByService(d.catalog, service.name) != []
    ensures var offered := FindProviders(d.catalog, Some(service.name), location);
            && Replay(s, phone, messages, d, moments) == Replay(t, phone, messages[2..], d, moments[2..])
            && offered != []
            && Get(t, State) == Str(StateName(ProviderSelection))
            && Get(t, SelectedService) == Str(service.name) && Get(t, Location) == Str(location)
            && StoredProviders(t) == offered
            && Get(t, PaymentReference) == Get(s, PaymentReference)
  {
    WalkService(s, phone, messages[0], Within(d, moments[0]), service);
    var s2 := After(s, phone, messages[0], Within(d, moments[0]));
    WalkLocation(s2, phone, messages[1], Within(d, moments[1]), service.name, location);
    assert messages[1..][1..] == messages[2..] && moments[1..][1..] == moments[2..];
    t := After(s2, phone, messages[1], Within(d, moments[1]));
  }

  /**
   * How "pay" left the session: completed with the checkout id when the push
   * succeeded; otherwise still waiting for payment, with the reference it
   * held before.
   */
  predicate PaymentSettled(t: Session, result: PushResult, earlier: Value) {
    && (result.success ==> Get(t, State) == Str(StateName(Completed)) && Get(t, PaymentReference) == Reference(result))
    && (!result.success ==> Get(t, State) == Str(StateName(Payment)) && Get(t, PaymentReference) == earlier)
  }

  /**
   * From provider selection, "1", any details and "pay" book the first
   * provider offered and store the details, keeping service and location;
   * the payment settles as the push at the third message answers, and when
   * it fails the third message's reply is the push's error.
   */
  lemma FirstProviderThenPay(s: Session, phone: string, messages: seq<string>, d: Deployment, moments: seq<Moment>)
    requires Get(s, State) == Str(StateName(ProviderSelection)) && StoredProviders(s) != []
    requires |messages| == 3 && |moments| == 3 && Normalize(messages[0]) == Decimal(1) && Normalize(messages[2]) == "pay"
    ensures var t := Replay(s, phone, messages, d, moments);
            var result := PaymentAttempt(phone, Within(d, moments[2])).result;
            && Get(t, SelectedProvider) == ProviderRec(StoredProviders(s)[0])
            && Get(t, Field.BookingDetails) == Str(Normalize(messages[1]))
            && Get(t, SelectedService) == Get(s, SelectedService) && Get(t, Location) == Get(s, Location)
            && PaymentSettled(t, result, Get(s, PaymentReference))
            && (!result.success ==> Step(t, phone, messages[2], Within(d, moments[2])).reply == PaymentFailed(result.message))
  {
    WalkProvider(s, phone, messages[0], Within(d, moments[0]), 1);
    var s2 := After(s, phone, messages[0], Within(d, moments[0]));
    WalkDetails(s2, phone, messages[1], Within(d, moments[1]));
    var s3 := After(s2, phone, messages[1], Within(d, moments[1]));
    WalkPay(s3, phone, messages[2], Within(d, moments[2]));
    assert Replay(s3, phone, messages[2..], d, moments[2..]) == After(s3, phone, messages[2], Within(d, moments[2]));
    assert Replay(s2, phone, messages[1..], d, moments[1..]) == Replay(s3, phone, messages[2..], d, moments[2..]);
  }

  /** What the replies of the test script mean to the handlers. */
  lemma SampleReplies(one: string, westlands: string, pay: string)
    requires one == "1" && westlands == "Westlands" && pay == "PAY"
    ensures SelectService(Normalize(one)) == Some(Service("1", "Plumbing")) && Normalize(one) == Decimal(1)
    ensures ExtractLocation(Normalize(westlands)) == Some(westlands)
    ensures Normalize(pay) == "pay"
  {
    OneNormalized(one);
    WestlandsNormalized(westlands);
    WestlandsIsALocation(Normalize(westlands));
    PayNormalized(pay);
  }

  /**
   * The replies after the first message read, to the handlers, as a service
   * choice, a recognised location, "1", any details and "pay".
   */
  predicate BookingScript(messages: seq<string>, service: Service, location: string) {
    && |messages| == 6 && SelectService(Normalize(messages[1])) == Some(service)
    && ExtractLocation(Normalize(messages[2])) == Some(location) && location != ""
    && Normalize(messages[3]) == Decimal(1) && Normalize(messages[5]) == "pay"
  }

  /** The test script's messages, as the handlers read them. */
  lemma SampleMessages(messages: seq<string>, plumbing: string, westlands: string)
    requires plumbing == "Plumbing" && westlands == "Westlands"
    requires |messages| == 6 && messages[1] == "1" && messages[2] == westlands && messages[3] == "1" && messages[5] == "PAY"
    ensures BookingScript(messages, Service("1", plumbing), westlands)
  {
    SampleReplies(messages[1], messages[2], messages[5]);
  }

  /**
   * The session records a booking of the first provider offered for
   * `serviceName` in `location`, with `details`.
   */
  predicate BookingRecorded(t: Session, catalog: map<string, seq<Provider>>, serviceName: string, location: string, details: string) {
    var offered := FindProviders(catalog, Some(serviceName), location);
    && offered != []
    && Get(t, SelectedService) == Str(serviceName) && Get(t, Location) == Str(location)
    && Get(t, SelectedProvider) == ProviderRec(offered[0])
    && Get(t, Field.BookingDetails) == Str(details)
  }

  /**
   * From service selection, a reply choosing a service with providers, a
   * recognised location, "1", any details and "pay" record a booking of the
   * first provider offered with those details; the payment settles as the
   * push at the last message answers.
   */
  lemma BookingReplay(s: Session, phone: string, messages: seq<string>, d: Deployment, moments: seq<Moment>, service: Service, location: string)
    requires Get(s, State) == Str(StateName(ServiceSelection))
    requires |messages| == 5 && |moments| == 5 && SelectService(Normalize(messages[0])) == Some(service)
    requires ExtractLocation(Normalize(messages[1])) == Some(location) && location != ""
    requires Normalize(messages[2]) == Decimal(1) && Normalize(messages[4]) == "pay"
    requires ProvidersByService(d.catalog, service.name) != []
    ensures var t := Replay(s, phone, messages, d, moments);
            var result := PaymentAttempt(phone, Within(d, moments[4])).result;
            && BookingRecorded(t, d.catalog, service.name, location, Normalize(messages[3]))
            && PaymentSettled(t, result, Get(s, PaymentReference))
            && (!result.success ==> Step(t, phone, messages[4], Within(d, moments[4])).reply == PaymentFailed(result.message))
  {
    var t := ServiceThenLocation(s, phone, messages, d, moments, service, location);
    assert messages[2..][0] == messages[2] && messages[2..][1] == messages[3] && messages[2..][2] == messages[4];
    assert moments[2..][2] == moments[4];
    BookingFromOffer(t, phone, messages[2..], d, moments[2..], service.name, location, Get(s, PaymentReference));
  }

  /** From the offer of the providers for `serviceName` in `location`, "1", any details and "pay" record the booking. */
  lemma BookingFromOffer(t: Session, phone: string, rest: seq<string>, d: Deployment, moments: seq<Moment>, serviceName: string, location: string, earlier: Value)
    requires Get(t, State) == Str(StateName(ProviderSelection))
    requires StoredProviders(t) == FindProviders(d.catalog, Some(serviceName), location) && StoredProviders(t) != []
    requires Get(t, SelectedService) == Str(serviceName) && Get(t, Location) == Str(location) && Get(t, PaymentReference) == earlier
    requires |rest| == 3 && |moments| == 3 && Normalize(rest[0]) == Decimal(1) && Normalize(rest[2]) == "pay"
    ensures var u := Replay(t, phone, rest, d, moments);
            var result := PaymentAttempt(phone, Within(d, moments[2])).result;
            && BookingRecorded(u, d.catalog, serviceName, location, Normalize(rest[1]))
            && PaymentSettled(u, result, earlier)
            && (!result.success ==> Step(u, phone, rest[2], Within(d, moments[2])).reply == PaymentFailed(result.message))
  {
    FirstProviderThenPay(t, phone, rest, d, moments);
  }

  /** The session a new phone's first message stores, field by field. */
  lemma NewPhoneFields(sessions: map<string, Session>, phone: string, message: string, profileName: Option<string>, ctx: Context)
    requires phone !in sessions
    ensures var s1 := SessionAfter(sessions, phone, message, profileName, ctx);
            && s1 != map[] && Get(s1, State) == Str(StateName(ServiceSelection)) && Get(s1, PaymentReference) == Null
  {
    NewPhoneIsGreeted(sessions, phone, message, profileName, ctx);
    assert State in SessionAfter(sessions, phone, message, profileName, ctx);
  }

  lemma ConverseFirst(sessions: map<string, Session>, phone: string, messages: seq<string>, profileName: Option<string>, d: Deployment, moments: seq<Moment>)
    requires messages != [] && |moments| == |messages|
    ensures Converse(sessions, phone, messages, profileName, d, moments)
            == Converse(sessions[phone := SessionAfter(sessions, phone, messages[0], profileName, Within(d, moments[0]))], phone, messages[1..], profileName, d, moments[1..])
  {
  }

  /** A conversation from a new phone: the first message is greeted, and the rest are replayed from service selection. */
  lemma NewPhoneConverse(sessions: map<string, Session>, phone: string, messages: seq<string>, profileName: Option<string>, d: Deployment, moments: seq<Moment>)
    requires phone !in sessions && messages != [] && |moments| == |messages|
    ensures var s1 := SessionAfter(sessions, phone, messages[0], profileName, Within(d, moments[0]));
            && Get(s1, State) == Str(StateName(ServiceSelection)) && Get(s1, PaymentReference) == Null
            && Converse(sessions, phone, messages, profileName, d, moments) == sessions[phone := Replay(s1, phone, messages[1..], d, moments[1..])]
  {
    NewPhoneFields(sessions, phone, messages[0], profileName, Within(d, moments[0]));
    var s1 := SessionAfter(sessions, phone, messages[0], profileName, Within(d, moments[0]));
    var first := sessions[phone := s1];
    ConverseFirst(sessions, phone, messages, profileName, d, moments);
    ConverseReplays(first, phone, messages[1..], profileName, d, moments[1..]);
    UpdateTwice(sessions, phone, s1, Replay(s1, phone, messages[1..], d, moments[1..]));
  }

  /**
   * A new phone that sends anything, then a service with providers, a
   * recognised location, "1", any details and "pay" has a booking of the
   * first provider offered recorded; the payment settles as the push at the
   * last message answers, and a failed push leaves no reference.
   */
  lemma NewPhoneBooking(sessions: map<string, Session>, phone: string, messages: seq<string>, profileName: Option<string>, d: Deployment, moments: seq<Moment>, service: Service, location: string)
    requires phone !in sessions && |moments| == |messages| && BookingScript(messages, service, location)
    requires ProvidersByService(d.catalog, service.name) != []
    ensures var after := Converse(sessions, phone, messages, profileName, d, moments);
            var result := PaymentAttempt(phone, Within(d, moments[5])).result;
            && phone in after
            && BookingRecorded(after[phone], d.catalog, service.name, location, Normalize(messages[4]))
            && PaymentSettled(after[phone], result, Null)
            && (!result.success ==> Step(after[phone], phone, messages[5], Within(d, moments[5])).reply == PaymentFailed(result.message))
  {
    NewPhoneConverse(sessions, phone, messages, profileName, d, moments);
    var s1 := SessionAfter(sessions, phone, messages[0], profileName, Within(d, moments[0]));
    var rest := messages[1..];
    assert rest[0] == messages[1] && rest[1] == messages[2] && rest[2] == messages[3] && rest[3] == messages[4] && rest[4] == messages[5];
    assert moments[1..][4] == moments[5];
    BookingReplay(s1, phone, rest, d, moments[1..], service, location);
  }

  /**
   * The conversation of the back end's test script as the repository runs
   * it without M-Pesa credentials: a new phone number sends a greeting,
   * then "1", "Westlands", "1", the booking details and "PAY". Plumbing in
   * Westlands with the first plumber offered and the details are recorded,
   * but the push raises, so the session stays waiting for payment with no
   * reference; since the failed "PAY" left the session as it found it, the
   * reply to it is the payment error.
   */
  lemma SampleConversationStalls(sessions: map<string, Session>, phone: string, messages: seq<string>, profileName: Option<string>, d: Deployment, moments: seq<Moment>, plumbing: string, westlands: string)
    requires plumbing == "Plumbing" && westlands == "Westlands"
    requires phone !in sessions && !Configured(d.creds) && d.revision == AsWritten
    requires ProvidersByService(d.catalog, plumbing) != []
    requires |messages| == 6 && |moments| == 6 && messages[1] == "1" && messages[2] == westlands && messages[3] == "1" && messages[5] == "PAY"
    ensures var after := Converse(sessions, phone, messages, profileName, d, moments);
            && phone in after
            && BookingRecorded(after[phone], d.catalog, plumbing, westlands, Normalize(messages[4]))
            && Get(after[phone], State) == Str(StateName(Payment)) && Get(after[phone], PaymentReference) == Null
            && Step(after[phone], phone, messages[5], Within(d, moments[5])).reply == PaymentFailed("Payment error: " + UnboundDatetime)
  {
    SampleMessages(messages, plumbing, westlands);
    NewPhoneBooking(sessions, phone, messages, profileName, d, moments, Service("1", plumbing), westlands);
    PaymentUnconfiguredFails(phone, Within(d, moments[5]));
  }

  /**
   * The same conversation with the push's import hoisted: it ends with a
   * completed booking of the first plumber offered, the details stored and
   * the simulated reference stamped at the time of "PAY".
   */
  lemma SampleConversationBooks(sessions: map<string, Session>, phone: string, messages: seq<string>, profileName: Option<string>, d: Deployment, moments: seq<Moment>, plumbing: string, westlands: string)
    requires plumbing == "Plumbing" && westlands == "Westlands"
    requires phone !in sessions && !Configured(d.creds) && d.revision == ImportHoisted
    requires ProvidersByService(d.catalog, plumbing) != []
    requires |messages| == 6 && |moments| == 6 && messages[1] == "1" && messages[2] == westlands && messages[3] == "1" && messages[5] == "PAY"
    ensures var after := Converse(sessions, phone, messages, profileName, d, moments);
            && phone in after
            && BookingRecorded(after[phone], d.catalog, plumbing, westlands, Normalize(messages[4]))
            && Get(after[phone], State) == Str(StateName(Completed))
            && Get(after[phone], PaymentReference) == Str("ws_CO_" + moments[5].clock.stamp)
  {
    SampleMessages(messages, plumbing, westlands);
    NewPhoneBooking(sessions, phone, messages, profileName, d, moments, Service("1", plumbing), westlands);
    PaymentSimulatedCompletes(phone, Within(d, moments[5]));
  }
}
