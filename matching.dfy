/**
 * Provider ranking and the M-Pesa payment front of the bot
 * (backend/services.py): `ServiceMatcher.find_providers` and the parts of
 * `PaymentService.initiate_stk_push` that decide what is sent and what is
 * answered. The HTTP exchanges themselves are a `Gateway` value.
 */
module Matching {
  import opened Wrappers
  import opened Text
  import opened Store

  // ---- ranking: sorted(key=lambda x: (-rating, distance)) ----

  /** `a` sorts strictly before `b` under the key (-rating, distance). */
  predicate RanksBefore(a: Provider, b: Provider) {
    a.rating > b.rating || (a.rating == b.rating && a.distance < b.distance)
  }

  predicate Ranked(s: seq<Provider>) {
    forall i, j :: 0 <= i < j < |s| ==> !RanksBefore(s[j], s[i])
  }

  /** Inserts `x` before the first element that does not rank before it (so before its equals). */
  function Insert(x: Provider, s: seq<Provider>): seq<Provider> {
    if s == [] || !RanksBefore(s[0], x) then [x] + s else [s[0]] + Insert(x, s[1..])
  }

  /** Python's stable `sorted` with the key (-rating, distance), as an insertion sort. */
  function Rank(s: seq<Provider>): seq<Provider> {
    if s == [] then [] else Insert(s[0], Rank(s[1..]))
  }

  /** The providers of `s` whose key is exactly (rating, distance), in the order of `s`. */
  function WithKey(s: seq<Provider>, rating: nat, distance: nat): seq<Provider> {
    if s == [] then []
    else (if s[0].rating == rating && s[0].distance == distance then [s[0]] else []) + WithKey(s[1..], rating, distance)
  }

  /** The first `n` elements, as a slice `s[:n]` gives them. */
  function Prefix(s: seq<Provider>, n: nat): seq<Provider> {
    if |s| <= n then s else s[..n]
  }

  /**
   * `find_providers`: the service's providers, filtered by location, ranked,
   * top three. A service name of `None` makes `.lower()` raise, and the
   * exception handler answers with no providers.
   */
  function FindProviders(catalog: map<string, seq<Provider>>, service: Option<string>, location: string): seq<Provider> {
    match service
    case None => []
    case Some(name) => Prefix(Rank(FilterByLocation(ProvidersByService(catalog, name), location)), 3)
  }

  // ---- properties of the ranking ----

  lemma {:induction false} InsertPermutes(x: Provider, s: seq<Provider>)
    ensures multiset(Insert(x, s)) == multiset(s) + multiset{x}
  {
    if s != [] && RanksBefore(s[0], x) {
      InsertPermutes(x, s[1..]);
      assert s == [s[0]] + s[1..];
    }
  }

  lemma {:induction false} InsertRanked(x: Provider, s: seq<Provider>)
    requires Ranked(s)
    ensures Ranked(Insert(x, s))
  {
    if s != [] && RanksBefore(s[0], x) {
      InsertRanked(x, s[1..]);
      InsertPermutes(x, s[1..]);
      var t := Insert(x, s[1..]);
      forall j | 0 <= j < |t| ensures !RanksBefore(t[j], s[0]) {
        assert t[j] in multiset(t);
        assert t[j] == x || t[j] in s[1..];
      }
    }
  }

  /** Ranking sorts by rating descending, then distance ascending. */
  lemma {:induction false} RankSorts(s: seq<Provider>)
    ensures Ranked(Rank(s))
  {
    if s != [] {
      RankSorts(s[1..]);
      InsertRanked(s[0], Rank(s[1..]));
    }
  }

  /** Ranking is a permutation of its input. */
  lemma {:induction false} RankPermutes(s: seq<Provider>)
    ensures multiset(Rank(s)) == multiset(s)
  {
    if s != [] {
      RankPermutes(s[1..]);
      InsertPermutes(s[0], Rank(s[1..]));
      assert s == [s[0]] + s[1..];
    }
  }

  lemma {:induction false} InsertStable(x: Provider, s: seq<Provider>, rating: nat, distance: nat)
    ensures WithKey(Insert(x, s), rating, distance)
         == WithKey([x], rating, distance) + WithKey(s, rating, distance)
  {
    if s != [] && RanksBefore(s[0], x) {
      InsertStable(x, s[1..], rating, distance);
    } else {
      assert ([x] + s)[1..] == s;
    }
  }

  /** Ranking is stable: providers with equal keys keep their relative order. */
  lemma {:induction false} RankStable(s: seq<Provider>, rating: nat, distance: nat)
    ensures WithKey(Rank(s), rating, distance) == WithKey(s, rating, distance)
  {
    if s != [] {
      RankStable(s[1..], rating, distance);
      InsertStable(s[0], Rank(s[1..]), rating, distance);
    }
  }

  /** At most three providers are offered. */
  lemma FindProvidersAtMostThree(catalog: map<string, seq<Provider>>, service: Option<string>, location: string)
    ensures |FindProviders(catalog, service, location)| <= 3
  {
  }

  /** What a ranked sequence leaves after its prefix ranks no better than anything in the prefix. */
  lemma RestRanksNoBetter(s: seq<Provider>, n: nat, p: Provider, q: Provider)
    requires Ranked(s) && p in multiset(s[|Prefix(s, n)|..]) && q in Prefix(s, n)
    ensures !RanksBefore(p, q)
  {
    var r := Prefix(s, n);
    var rest := s[|r|..];
    var j :| 0 <= j < |rest| && rest[j] == p;
    var i :| 0 <= i < |r| && r[i] == q;
    assert s[i] == q && s[|r| + j] == p;
  }

  /** A prefix of a ranked arrangement of `pool` holds the best of `pool`. */
  lemma PrefixIsTop(s: seq<Provider>, pool: seq<Provider>, n: nat)
    requires Ranked(s) && multiset(s) == multiset(pool)
    ensures Ranked(Prefix(s, n))
    ensures |Prefix(s, n)| == if |pool| <= n then |pool| else n
    ensures multiset(Prefix(s, n)) <= multiset(pool)
    ensures forall p :: p in Prefix(s, n) ==> p in pool
    ensures forall p, q :: multiset(Prefix(s, n))[p] < multiset(pool)[p] && q in Prefix(s, n) ==> !RanksBefore(p, q)
  {
    var r := Prefix(s, n);
    var rest := s[|r|..];
    assert s == r + rest;
    assert multiset(s) == multiset(r) + multiset(rest);
    assert |s| == |multiset(s)| == |multiset(pool)| == |pool|;
    forall p | p in r ensures p in pool {
      assert p in multiset(s);
    }
    forall p, q | multiset(r)[p] < multiset(pool)[p] && q in r
      ensures !RanksBefore(p, q)
    {
      RestRanksNoBetter(s, n, p, q);
    }
  }

  /**
   * The offered providers are the top three of the location-filtered list
   * of the service (all of it when it is shorter): ranked, drawn from that
   * list without repetition beyond its own, and no provider left out ranks
   * before one offered.
   */
  lemma FindProvidersTopRanked(catalog: map<string, seq<Provider>>, name: string, location: string)
    ensures var pool := FilterByLocation(ProvidersByService(catalog, name), location);
            var r := FindProviders(catalog, Some(name), location);
            && Ranked(r)
            && |r| == (if |pool| <= 3 then |pool| else 3)
            && multiset(r) <= multiset(pool)
            && (forall p :: p in r ==> p in pool)
            && (forall p, q :: multiset(r)[p] < multiset(pool)[p] && q in r ==> !RanksBefore(p, q))
  {
    var pool := FilterByLocation(ProvidersByService(catalog, name), location);
    RankSorts(pool);
    RankPermutes(pool);
    PrefixIsTop(Rank(pool), pool, 3);
  }

  /** With three or fewer candidates, every one of them is offered. */
  lemma FindProvidersAllWhenFew(catalog: map<string, seq<Provider>>, name: string, location: string)
    requires |FilterByLocation(ProvidersByService(catalog, name), location)| <= 3
    ensures multiset(FindProviders(catalog, Some(name), location))
         == multiset(FilterByLocation(ProvidersByService(catalog, name), location))
  {
    var pool := FilterByLocation(ProvidersByService(catalog, name), location);
    RankPermutes(pool);
    assert |Rank(pool)| == |multiset(Rank(pool))| == |pool|;
  }

  /** Because the location filter falls back to all providers, a service with providers always offers some. */
  lemma FindProvidersNonEmpty(catalog: map<string, seq<Provider>>, name: string, location: string)
    ensures FindProviders(catalog, Some(name), location) == [] <==> ProvidersByService(catalog, name) == []
  {
    var pool := ProvidersByService(catalog, name);
    var filtered := FilterByLocation(pool, location);
    AtLocationLength(pool, location);
    RankPermutes(filtered);
    assert |Rank(filtered)| == |multiset(Rank(filtered))| == |multiset(filtered)| == |filtered|;
  }

  /** The failure path: with no service name there are no providers. */
  lemma FindProvidersWithoutService(catalog: map<string, seq<Provider>>, location: string)
    ensures FindProviders(catalog, None, location) == []
  {
  }

  // ---- payment ----

  /** Kenyan MSISDN prefix rewrite: "0…" and "+254…" become "254…"; anything else is kept. */
  function NormalizeMsisdn(phone: string): string {
    if StartsWith(phone, "254") then phone
    else if StartsWith(phone, "0") then "254" + phone[1..]
    else if StartsWith(phone, "+254") then phone[1..]
    else phone
  }

  /** The four cases of the rewrite. */
  lemma NormalizeMsisdnCases(phone: string)
    ensures StartsWith(phone, "254") ==> NormalizeMsisdn(phone) == phone
    ensures StartsWith(phone, "0") ==> NormalizeMsisdn(phone) == "254" + phone[1..]
    ensures StartsWith(phone, "+254") ==> NormalizeMsisdn(phone) == phone[1..]
    ensures !StartsWith(phone, "254") && !StartsWith(phone, "0") && !StartsWith(phone, "+254")
            ==> NormalizeMsisdn(phone) == phone
  {
    if StartsWith(phone, "0") || StartsWith(phone, "+254") {
      assert phone[0] == phone[..1][0];
      assert !StartsWith(phone, "254");
    }
    if StartsWith(phone, "+254") {
      assert !StartsWith(phone, "0");
    }
  }

  /** A rewritten number is rewritten no further, and the three known prefixes all end up as "254". */
  lemma NormalizeMsisdnIdempotent(phone: string)
    ensures NormalizeMsisdn(NormalizeMsisdn(phone)) == NormalizeMsisdn(phone)
    ensures StartsWith(phone, "254") || StartsWith(phone, "0") || StartsWith(phone, "+254")
            ==> StartsWith(NormalizeMsisdn(phone), "254")
  {
    if !StartsWith(phone, "254") && StartsWith(phone, "0") {
      assert ("254" + phone[1..])[..3] == "254";
    } else if !StartsWith(phone, "254") && StartsWith(phone, "+254") {
      assert phone[1..][..3] == phone[1..4];
    }
  }

  /** Environment settings; `None` stands for an unset variable. */
  datatype Credentials = Credentials(
    consumerKey: Option<string>,
    consumerSecret: Option<string>,
    shortcode: Option<string>,
    passkey: Option<string>)

  /** Python truthiness of an optional string. */
  predicate Truthy(v: Option<string>) {
    v.Some? && v.value != ""
  }

  predicate Configured(c: Credentials) {
    Truthy(c.consumerKey) && Truthy(c.consumerSecret) && Truthy(c.shortcode) && Truthy(c.passkey)
  }

  /** What the STK-push endpoint did with the request. */
  datatype PushResponse = Accepted(checkoutRequestId: Option<string>) | Rejected(body: string) | Raised(error: string)

  /** The outcome of the two HTTP calls: the access token obtained (if any) and the push response. */
  datatype Gateway = Gateway(accessToken: Option<string>, push: PushResponse)

  /** The fields of the STK-push payload the model follows. */
  datatype StkRequest = StkRequest(shortcode: string, partyA: string, phoneNumber: string, amount: int, reference: string, timestamp: string)

  /** The dictionary `initiate_stk_push` returns. */
  datatype PushResult = PushResult(success: bool, checkoutRequestId: Option<string>, message: string)

  /** The returned dictionary and the request that was sent, if one was. */
  datatype PushAttempt = PushAttempt(result: PushResult, sent: Option<StkRequest>)

  /**
   * Which text of `initiate_stk_push` runs. In the repository's text the
   * function-local `from datetime import datetime` makes `datetime` a local
   * name of the whole function, so the simulated branch, which reads it
   * before that import, raises `UnboundLocalError`; `ImportHoisted` is the
   * same function without the local import (the module imports `datetime`
   * already), as evidently intended.
   */
  datatype Revision = AsWritten | ImportHoisted

  /** The text of the `UnboundLocalError` the simulated branch raises (CPython 3.11 and later). */
  const UnboundDatetime := "cannot access local variable 'datetime' where it is not associated with a value"

  /** `initiate_stk_push`; `timestamp` is the `%Y%m%d%H%M%S` rendering of the current time. */
  function InitiateStkPush(revision: Revision, creds: Credentials, phone: string, amount: int, reference: string, timestamp: string, gateway: Gateway): PushAttempt {
    if !Configured(creds) then
      if revision == AsWritten then PushAttempt(PushResult(false, None, "Payment error: " + UnboundDatetime), None)
      else PushAttempt(PushResult(true, Some("ws_CO_" + timestamp), "Payment request sent (simulated)"), None)
    else if !Truthy(gateway.accessToken) then
      PushAttempt(PushResult(false, None, "Failed to authenticate with M-Pesa"), None)
    else
      var msisdn := NormalizeMsisdn(phone);
      var request := StkRequest(creds.shortcode.value, msisdn, msisdn, amount, reference, timestamp);
      match gateway.push
      case Accepted(id) => PushAttempt(PushResult(true, id, "Payment request sent successfully"), Some(request))
      case Rejected(body) => PushAttempt(PushResult(false, None, "Payment request failed: " + body), Some(request))
      case Raised(e) => PushAttempt(PushResult(false, None, "Payment error: " + e), Some(request))
  }

  /**
   * As written, without all four credentials the push fails before anything
   * is sent: the raised error is caught and reported as a payment error.
   */
  lemma StkPushUnconfiguredFails(creds: Credentials, phone: string, amount: int, reference: string, timestamp: string, gateway: Gateway)
    requires !Configured(creds)
    ensures var a := InitiateStkPush(AsWritten, creds, phone, amount, reference, timestamp, gateway);
            !a.result.success && a.sent == None && a.result.checkoutRequestId == None
            && a.result.message == "Payment error: " + UnboundDatetime
  {
  }

  /** With the import hoisted, the push without credentials is simulated: success, a `ws_CO_` id, nothing sent. */
  lemma StkPushSimulated(creds: Credentials, phone: string, amount: int, reference: string, timestamp: string, gateway: Gateway)
    requires !Configured(creds)
    ensures var a := InitiateStkPush(ImportHoisted, creds, phone, amount, reference, timestamp, gateway);
            a.result.success && a.sent == None && a.result.checkoutRequestId == Some("ws_CO_" + timestamp)
  {
  }

  /**
   * The push succeeds exactly when the credentials are set, a token was
   * obtained and the endpoint accepted the request, or, in the hoisted
   * text only, when the credentials are not set.
   */
  lemma StkPushSucceedsIff(revision: Revision, creds: Credentials, phone: string, amount: int, reference: string, timestamp: string, gateway: Gateway)
    ensures InitiateStkPush(revision, creds, phone, amount, reference, timestamp, gateway).result.success
            <==> (Configured(creds) && Truthy(gateway.accessToken) && gateway.push.Accepted?)
                 || (!Configured(creds) && revision == ImportHoisted)
  {
  }

  /**
   * With credentials, both texts behave alike: a request goes out exactly
   * when a token was obtained; it carries the rewritten number, and success
   * means the endpoint accepted it.
   */
  lemma StkPushConfigured(revision: Revision, creds: Credentials, phone: string, amount: int, reference: string, timestamp: string, gateway: Gateway)
    requires Configured(creds)
    ensures InitiateStkPush(revision, creds, phone, amount, reference, timestamp, gateway)
         == InitiateStkPush(AsWritten, creds, phone, amount, reference, timestamp, gateway)
    ensures var a := InitiateStkPush(revision, creds, phone, amount, reference, timestamp, gateway);
            && (a.sent.Some? <==> Truthy(gateway.accessToken))
            && (a.sent.Some? ==> a.sent.value.partyA == NormalizeMsisdn(phone) == a.sent.value.phoneNumber
                                 && a.sent.value.amount == amount && a.sent.value.reference == reference)
            && (a.result.success <==> Truthy(gateway.accessToken) && gateway.push.Accepted?)
  {
  }
}
