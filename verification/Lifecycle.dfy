/**
 Subscription state driven by provider events: the handlers, the grace clock they keep, and the
 invoices they store. A subscription's id is its position in the table.
 */
module Lifecycle {
  import opened Common
  import opened Payloads
  import opened InvoiceMapper

  const GRACE_MS: int := 14 * 24 * 60 * 60 * 1000

  datatype Status = Trialing | Active | PastDue | Grace | Cancelled | Expired

  datatype Subscription = Subscription(
    tenantId: string, planId: string, planPriceId: Option<string>, provider: string,
    subscriptionId: Option<string>, customerId: Option<string>, status: Status,
    currentPeriodEnd: Option<int>, cancelAt: Option<int>, graceEndsAt: Option<int>)

  datatype Price = Price(id: string, planId: string, providerPriceId: Option<string>)

  datatype Invoice = Invoice(tenantId: string, subscription: nat, columns: Columns)

  /** A tenant's billing identity, which checkout collects. */
  datatype Tenant = Tenant(country: Option<string>, billingCurrency: Option<string>, vatNumber: Option<string>)

  /** The tables, and what the notifier and the cache invalidator were asked to do. */
  datatype Store = Store(
    subscriptions: seq<Subscription>, invoices: seq<Invoice>, tenants: map<string, Tenant>,
    notices: seq<nat>, trialNotices: seq<(nat, int)>, invalidated: seq<string>)

  datatype EventKind =
    | CheckoutCompleted | SubscriptionChanged | InvoicePaid | PaymentFailed | TrialWillEnd | Unhandled

  datatype Event = Event(name: string, payload: Json, at: int)

  datatype Answer = Changed | Ignored(reason: Ignorance)

  datatype Ignorance =
    | NoHandler | NoReference | NoSubscription | NoId | UnmappedStatus | Unmappable(cause: Reason) | NoTrialEnd

  function KindOf(name: string): EventKind {
    if name == "checkout.session.completed" then CheckoutCompleted
    else if name == "customer.subscription.created" || name == "customer.subscription.updated"
            || name == "customer.subscription.deleted" then SubscriptionChanged
    else if name == "invoice.paid" || name == "invoice.payment_succeeded" then InvoicePaid
    else if name == "invoice.payment_failed" then PaymentFailed
    else if name == "customer.subscription.trial_will_end" then TrialWillEnd
    else Unhandled
  }

  function ReadStatus(value: Json): Option<Status> {
    if !value.JString? then None
    else if value.text == "trialing" || value.text == "incomplete" then Some(Trialing)
    else if value.text == "active" then Some(Active)
    else if value.text == "past_due" then Some(PastDue)
    else if value.text == "paused" then Some(Grace)
    else if value.text == "canceled" then Some(Cancelled)
    else if value.text == "incomplete_expired" || value.text == "unpaid" then Some(Expired)
    else None
  }

  /** The subscription's first line item, which carries the price and the billing period. */
  function FirstItem(remote: Json): Json {
    var items := Get(Get(remote, "items"), "data");
    if items.JArray? && items.items != [] then items.items[0] else JUndefined
  }

  // ---------------------------------------------------------------- lookups

  /** The columns a subscription is looked up by. */
  datatype Lookup = BySubscriptionId(id: string) | ByCustomerId(id: string) | ByTenant(id: string)

  predicate Matches(sub: Subscription, key: Lookup) {
    match key
    case BySubscriptionId(id) => sub.subscriptionId == Some(id)
    case ByCustomerId(id) => sub.customerId == Some(id)
    case ByTenant(id) => sub.tenantId == id
  }

  function FirstMatch(subs: seq<Subscription>, key: Lookup): (r: Option<nat>)
    ensures r.Some? ==> r.value < |subs| && Matches(subs[r.value], key)
                        && forall i :: 0 <= i < r.value ==> !Matches(subs[i], key)
    ensures r.None? ==> forall i :: 0 <= i < |subs| ==> !Matches(subs[i], key)
  {
    if subs == [] then None
    else if Matches(subs[0], key) then Some(0)
    else
      var later := FirstMatch(subs[1..], key);
      if later.Some? then Some(later.value + 1) else None
  }

  predicate IdUnknown(subs: seq<Subscription>, subscriptionId: Option<string>) {
    subscriptionId.Some? ==> forall i :: 0 <= i < |subs| ==> subs[i].subscriptionId != subscriptionId
  }

  /** By subscription id first, by customer id second. */
  function FindSubscription(
    subs: seq<Subscription>, subscriptionId: Option<string>, customerId: Option<string>): (r: Option<nat>)
    ensures r.Some? ==> r.value < |subs|
    ensures r.Some? ==>
      || (subscriptionId.Some? && subs[r.value].subscriptionId == subscriptionId)
      || (customerId.Some? && subs[r.value].customerId == customerId && IdUnknown(subs, subscriptionId))
    ensures r.None? ==> IdUnknown(subs, subscriptionId)
    ensures r.None? ==> (customerId.Some? ==> forall i :: 0 <= i < |subs| ==> subs[i].customerId != customerId)
  {
    var precise := if subscriptionId.Some? then FirstMatch(subs, BySubscriptionId(subscriptionId.value)) else None;
    if precise.Some? then precise
    else if customerId.Some? then FirstMatch(subs, ByCustomerId(customerId.value))
    else None
  }

  function FindPrice(prices: seq<Price>, providerPriceId: string): (r: Option<Price>)
    ensures r.Some? ==> r.value in prices && r.value.providerPriceId == Some(providerPriceId)
    ensures r.None? ==> forall p :: p in prices ==> p.providerPriceId != Some(providerPriceId)
  {
    if prices == [] then None
    else if prices[0].providerPriceId == Some(providerPriceId) then Some(prices[0])
    else FindPrice(prices[1..], providerPriceId)
  }

  function FindInvoice(invoices: seq<Invoice>, id: string): (r: Option<nat>)
    ensures r.Some? ==> r.value < |invoices| && invoices[r.value].columns.providerInvoiceId == id
    ensures r.None? ==> forall i :: 0 <= i < |invoices| ==> invoices[i].columns.providerInvoiceId != id
  {
    if invoices == [] then None
    else if invoices[|invoices| - 1].columns.providerInvoiceId == id then Some(|invoices| - 1)
    else FindInvoice(invoices[..|invoices| - 1], id)
  }

  // ---------------------------------------------------------------- the handlers

  /** The price a subscription payload bills, where it is one we sell. */
  function BilledPrice(prices: seq<Price>, remote: Json): Option<Price> {
    var id := AsId(Get(FirstItem(remote), "price"));
    if id.Some? then FindPrice(prices, id.value) else None
  }

  function WithPlan(sub: Subscription, price: Option<Price>): Subscription {
    if price.Some? then sub.(planId := price.value.planId, planPriceId := Some(price.value.id)) else sub
  }

  function Updated(sub: Subscription, prices: seq<Price>, remote: Json, status: Status): Subscription {
    var seen := sub.(subscriptionId := AsId(Get(remote, "id")), provider := "stripe", status := status,
                     currentPeriodEnd := AsDate(Get(FirstItem(remote), "current_period_end")),
                     cancelAt := AsDate(Get(remote, "cancel_at")),
                     graceEndsAt := if status.Active? || status.Trialing? then None else sub.graceEndsAt);
    WithPlan(seen, BilledPrice(prices, remote))
  }

  // ---- Billing identity ----

  const MAX_TAX_ID: nat := 32

  /** A tax id is taken whole or not at all: a longer one is skipped, never cut. */
  function TaxId(entry: Json): Option<string> {
    var id := Get(entry, "value");
    if id.JString? && NotBlank(id.text) && |id.text| <= MAX_TAX_ID then Some(Upper(TrimEnd(TrimStart(id.text))))
      else None
  }

  function Code(value: Json, length: nat): Option<string> {
    AsCode(if value.JString? then Some(value.text) else None, length)
  }

  /** The first value there is. */
  function FirstSome(offers: seq<Option<string>>): (r: Option<string>)
    ensures r.None? ==> forall i :: 0 <= i < |offers| ==> offers[i].None?
    ensures r.Some? ==> exists i :: 0 <= i < |offers| && offers[i] == r && forall j :: 0 <= j < i ==> offers[j].None?
  {
    if offers == [] then None
    else if offers[0].Some? then offers[0]
    else
      var r := FirstSome(offers[1..]);
      assert r.Some? ==> forall i :: 0 <= i < |offers| - 1 ==> offers[1..][i] == offers[i + 1];
      r
  }

  lemma FirstSomeIs(offers: seq<Option<string>>, i: nat)
    requires i < |offers| && offers[i].Some? && forall j :: 0 <= j < i ==> offers[j].None?
    ensures FirstSome(offers) == offers[i]
  {
  }

  lemma NoneUsable(offers: seq<Option<string>>)
    requires forall j :: 0 <= j < |offers| ==> offers[j].None?
    ensures FirstSome(offers) == None
  {
  }

  function TaxIds(value: Json): seq<Option<string>> {
    if value.JArray? then seq(|value.items|, i requires 0 <= i < |value.items| => TaxId(value.items[i])) else []
  }

  /** What a completed session says of its tenant. */
  function Offered(session: Json): Tenant {
    var details := Get(session, "customer_details");
    Tenant(Code(Get(Get(details, "address"), "country"), 2), Code(Get(session, "currency"), 3),
           FirstSome(TaxIds(Get(details, "tax_ids"))))
  }

  function Filled(was: Option<string>, offer: Option<string>): Option<string> { if was.Some? then was else offer }

  function Identified(tenants: map<string, Tenant>, tenantId: string, offer: Tenant): map<string, Tenant> {
    if tenantId !in tenants then tenants
    else
      var was := tenants[tenantId];
      tenants[tenantId := Tenant(Filled(was.country, offer.country), Filled(was.billingCurrency, offer.billingCurrency),
                                 Filled(was.vatNumber, offer.vatNumber))]
  }

  function StoreInvoice(invoices: seq<Invoice>, tenantId: string, subscription: nat, columns: Columns): seq<Invoice> {
    var existing := FindInvoice(invoices, columns.providerInvoiceId);
    if existing.Some? then invoices[existing.value := invoices[existing.value].(columns := columns)]
    else invoices + [Invoice(tenantId, subscription, columns)]
  }

  /** Which subscription an event is about. */
  ghost function Target(subs: seq<Subscription>, e: Event): Result<nat, Ignorance> {
    match KindOf(e.name)
    case Unhandled => Err(NoHandler)
    case CheckoutCompleted =>
      var tenantId := AsId(Get(e.payload, "client_reference_id"));
      if tenantId.None? then Err(NoReference) else Found(FirstMatch(subs, ByTenant(tenantId.value)))
    case SubscriptionChanged =>
      var id := AsId(Get(e.payload, "id"));
      if id.None? then Err(NoId) else Found(FindSubscription(subs, id, AsId(Get(e.payload, "customer"))))
    case InvoicePaid =>
      (match Mapping(e.payload)
       case Err(cause) => Err(Unmappable(cause))
       case Ok(mapped) => Found(FindSubscription(subs, mapped.subscriptionId, mapped.customerId)))
    case PaymentFailed => Found(FindSubscription(subs, ReadSubscriptionId(e.payload), AsId(Get(e.payload, "customer"))))
    case TrialWillEnd => Found(FindSubscription(subs, AsId(Get(e.payload, "id")), AsId(Get(e.payload, "customer"))))
  }

  function Found(i: Option<nat>): Result<nat, Ignorance> {
    if i.Some? then Ok(i.value) else Err(NoSubscription)
  }

  /** What one event makes of the store. */
  ghost function Step(s: Store, prices: seq<Price>, e: Event): (Store, Answer) {
    match Target(s.subscriptions, e)
    case Err(reason) => (s, Ignored(reason))
    case Ok(i) => if i < |s.subscriptions| then StepOn(s, prices, e, i) else (s, Ignored(NoSubscription))
  }

  ghost function StepOn(s: Store, prices: seq<Price>, e: Event, i: nat): (Store, Answer)
    requires i < |s.subscriptions|
  {
    var sub := s.subscriptions[i];
    match KindOf(e.name)
    case Unhandled => (s, Ignored(NoHandler))
    case CheckoutCompleted =>
      var linked := sub.(provider := "stripe", customerId := AsId(Get(e.payload, "customer")),
                         subscriptionId := AsId(Get(e.payload, "subscription")));
      (s.(subscriptions := s.subscriptions[i := linked],
          tenants := Identified(s.tenants, sub.tenantId, Offered(e.payload))), Changed)
    case SubscriptionChanged =>
      var status := ReadStatus(Get(e.payload, "status"));
      if status.None? then (s, Ignored(UnmappedStatus)) else
      var next := Updated(sub, prices, e.payload, status.value);
      var moved := (next.planPriceId, next.planId) != (sub.planPriceId, sub.planId);
      (s.(subscriptions := s.subscriptions[i := next],
          invalidated := if moved then s.invalidated + [sub.tenantId] else s.invalidated), Changed)
    case InvoicePaid =>
      (match Mapping(e.payload)
       case Err(cause) => (s, Ignored(Unmappable(cause)))
       case Ok(mapped) =>
         (s.(subscriptions := s.subscriptions[i := sub.(status := Active, graceEndsAt := None)],
             invoices := StoreInvoice(s.invoices, sub.tenantId, i, mapped.columns)), Changed))
    case PaymentFailed =>
      (if sub.graceEndsAt.None?
       then s.(subscriptions := s.subscriptions[i := sub.(status := PastDue, graceEndsAt := Some(e.at + GRACE_MS))],
               notices := s.notices + [i])
       else s.(subscriptions := s.subscriptions[i := sub.(status := PastDue)]), Changed)
    case TrialWillEnd =>
      var trialEnd := AsDate(Get(e.payload, "trial_end"));
      if trialEnd.None? then (s, Ignored(NoTrialEnd))
      else (s.(trialNotices := s.trialNotices + [(i, trialEnd.value)]), Changed)
  }

  ghost function Run(s: Store, prices: seq<Price>, events: seq<Event>): Store {
    if events == [] then s
    else Step(Run(s, prices, events[..|events| - 1]), prices, events[|events| - 1]).0
  }

  /** An event that is not acted on leaves no trace: an unmapped status changes nothing at all. */
  lemma IgnoredChangesNothing(s: Store, prices: seq<Price>, e: Event)
    ensures Step(s, prices, e).1.Ignored? ==> Step(s, prices, e).0 == s
    ensures forall i :: 0 <= i < |s.subscriptions| && Target(s.subscriptions, e) != Ok(i) ==>
      i < |Step(s, prices, e).0.subscriptions| && Step(s, prices, e).0.subscriptions[i] == s.subscriptions[i]
    ensures |Step(s, prices, e).0.subscriptions| == |s.subscriptions|
  {
  }

  // ---------------------------------------------------------------- the grace clock

  datatype Mark = Failed | Clearing | Neutral

  /** What an event means for the clock of the subscription it is about. */
  function MarkOf(e: Event): Mark {
    match KindOf(e.name)
    case PaymentFailed => Failed
    case InvoicePaid => Clearing
    case SubscriptionChanged =>
      var status := ReadStatus(Get(e.payload, "status"));
      if status == Some(Active) || status == Some(Trialing) then Clearing else Neutral
    case _ => Neutral
  }

  ghost function MarkFor(subs: seq<Subscription>, e: Event, i: nat): Mark {
    if Target(subs, e) == Ok(i) then MarkOf(e) else Neutral
  }

  /** The history of one subscription, one mark per event. */
  ghost function History(s: Store, prices: seq<Price>, events: seq<Event>, i: nat): (h: seq<Mark>)
    ensures |h| == |events|
  {
    if events == [] then []
    else
      var earlier := events[..|events| - 1];
      History(s, prices, earlier, i) + [MarkFor(Run(s, prices, earlier).subscriptions, events[|events| - 1], i)]
  }

  ghost predicate ClearedBetween(h: seq<Mark>, j: int, k: int) {
    exists m :: j < m < k && 0 <= m < |h| && h[m].Clearing?
  }

  /** Event `k` is the first failed payment of a lapse. */
  ghost predicate StartsLapse(h: seq<Mark>, k: int) {
    0 <= k < |h| && h[k].Failed? && forall j :: 0 <= j < k && h[j].Failed? ==> ClearedBetween(h, j, k)
  }

  /** The lapse that event `k` starts is still running. */
  ghost predicate OpenLapse(h: seq<Mark>, k: int) { StartsLapse(h, k) && !ClearedBetween(h, k, |h|) }

  ghost function Lapses(h: seq<Mark>): set<int> { set k | 0 <= k < |h| && StartsLapse(h, k) }

  function Occurrences(ids: seq<nat>, i: nat): nat {
    if ids == [] then 0 else Occurrences(ids[..|ids| - 1], i) + (if ids[|ids| - 1] == i then 1 else 0)
  }

  /** The clock of subscription `i` is what its history says it is. */
  ghost predicate ClockRight(h: seq<Mark>, events: seq<Event>, grace: Option<int>)
    requires |h| == |events|
  {
    && (forall k :: OpenLapse(h, k) ==> grace == Some(events[k].at + 14 * 86_400_000))
    && (grace.Some? ==> exists k :: OpenLapse(h, k))
  }

  function NextGrace(grace: Option<int>, mark: Mark, at: int): Option<int> {
    match mark
    case Failed => if grace.None? then Some(at + GRACE_MS) else grace
    case Clearing => None
    case Neutral => grace
  }

  /** Subscription `i` and its dunning notices after an event that means `mark` to its clock. */
  ghost predicate ClockStep(s: Store, s': Store, i: nat, mark: Mark, at: int)
    requires i < |s.subscriptions|
  {
    && |s'.subscriptions| == |s.subscriptions|
    && (var was, sub := s.subscriptions[i], s'.subscriptions[i];
        && sub.graceEndsAt == NextGrace(was.graceEndsAt, mark, at)
        && Occurrences(s'.notices, i)
          == Occurrences(s.notices, i) + (if mark.Failed? && was.graceEndsAt.None? then 1 else 0)
        && (sub.status.Active? || sub.status.Trialing? ==> mark.Clearing? || sub.status == was.status)
        && (mark.Failed? ==> sub.status.PastDue?))
  }

  lemma UpdatedClock(sub: Subscription, prices: seq<Price>, remote: Json, status: Status)
    ensures var next := Updated(sub, prices, remote, status);
      next.status == status && next.graceEndsAt == if status.Active? || status.Trialing? then None else sub.graceEndsAt
  {
  }

  lemma StepOnTarget(s: Store, prices: seq<Price>, e: Event, i: nat)
    requires i < |s.subscriptions| && (KindOf(e.name).InvoicePaid? ==> Mapping(e.payload).Ok?)
    ensures ClockStep(s, StepOn(s, prices, e, i).0, i, MarkOf(e), e.at)
  {
    hide Mapping, KindOf, ReadStatus, Updated, StoreInvoice, AsId, AsDate, Get;
    var status := ReadStatus(Get(e.payload, "status"));
    if status.Some? { UpdatedClock(s.subscriptions[i], prices, e.payload, status.value); }
    assert (s.notices + [i])[..|s.notices|] == s.notices;
  }

  lemma StepOffTarget(s: Store, prices: seq<Price>, e: Event, j: nat, i: nat)
    requires i < |s.subscriptions| && j < |s.subscriptions| && i != j
    ensures ClockStep(s, StepOn(s, prices, e, j).0, i, Neutral, e.at)
  {
    var s' := StepOn(s, prices, e, j).0;
    hide Target, Mapping, KindOf, ReadStatus, Updated, StoreInvoice, AsId, AsDate, Get;
    if s'.notices != s.notices {
      assert s'.notices[..|s'.notices| - 1] == s.notices;
    }
  }

  /** The marks say everything an event does to a subscription's clock and dunning notices. */
  lemma MarkDecides(s: Store, prices: seq<Price>, e: Event, i: nat)
    requires i < |s.subscriptions|
    ensures ClockStep(s, Step(s, prices, e).0, i, MarkFor(s.subscriptions, e, i), e.at)
  {
    var target := Target(s.subscriptions, e);
    if target.Ok? && target.value < |s.subscriptions| {
      assert KindOf(e.name).InvoicePaid? ==> Mapping(e.payload).Ok?;
      if target.value == i { StepOnTarget(s, prices, e, i); } else { StepOffTarget(s, prices, e, target.value, i); }
    }
    hide StepOn, Target, KindOf, MarkOf, Occurrences;
  }

  // ---- How one more event changes the lapses of a history ----

  lemma ClearedKept(h: seq<Mark>, mark: Mark, j: int, k: int)
    requires k <= |h|
    ensures ClearedBetween(h + [mark], j, k) <==> ClearedBetween(h, j, k)
  {
    if ClearedBetween(h, j, k) {
      var m :| j < m < k && 0 <= m < |h| && h[m].Clearing?;
      assert (h + [mark])[m].Clearing?;
    }
    if ClearedBetween(h + [mark], j, k) {
      var m :| j < m < k && 0 <= m < |h + [mark]| && (h + [mark])[m].Clearing?;
      assert h[m].Clearing?;
    }
  }

  lemma LapseKept(h: seq<Mark>, mark: Mark, k: int)
    requires 0 <= k < |h|
    ensures StartsLapse(h + [mark], k) <==> StartsLapse(h, k)
    ensures OpenLapse(h + [mark], k) <==> OpenLapse(h, k) && !mark.Clearing?
  {
    var g := h + [mark];
    forall j | 0 <= j < k ensures g[j] == h[j] && (ClearedBetween(g, j, k) <==> ClearedBetween(h, j, k)) {
      ClearedKept(h, mark, j, k);
    }
    ClearedKept(h, mark, k, |h|);
    if ClearedBetween(g, k, |g|) && !mark.Clearing? {
      var m :| k < m < |g| && 0 <= m < |g| && g[m].Clearing?;
      assert k < m < |h|;
    }
    if ClearedBetween(g, k, |h|) {
      var m :| k < m < |h| && 0 <= m < |g| && g[m].Clearing?;
      assert k < m < |g|;
    }
    assert mark.Clearing? ==> g[|h|].Clearing?;
  }

  lemma ClearedBeforeOrAfter(h: seq<Mark>, i: int, j: int)
    requires 0 <= i < j < |h| && h[j].Failed?
    ensures ClearedBetween(h, i, |h|) ==> ClearedBetween(h, i, j) || ClearedBetween(h, j, |h|)
  {
    if m :| i < m < |h| && 0 <= m < |h| && h[m].Clearing? {
      assert if m < j then ClearedBetween(h, i, j) else ClearedBetween(h, j, |h|);
    }
  }

  /** A failed payment that nothing has cleared since belongs to an open lapse. */
  lemma {:induction false} SomeLapseOpen(h: seq<Mark>, j: int)
    requires 0 <= j < |h| && h[j].Failed? && !ClearedBetween(h, j, |h|)
    ensures exists k :: OpenLapse(h, k)
    decreases j
  {
    if StartsLapse(h, j) {
      assert OpenLapse(h, j);
    } else {
      var i :| 0 <= i < j && h[i].Failed? && !ClearedBetween(h, i, j);
      ClearedBeforeOrAfter(h, i, j);
      SomeLapseOpen(h, i);
    }
  }

  /** A failed payment starts a lapse exactly when none is open. */
  lemma NewLapse(h: seq<Mark>)
    ensures var g := h + [Failed];
      (StartsLapse(g, |h|) <==> !exists k :: OpenLapse(h, k)) && (OpenLapse(g, |h|) <==> StartsLapse(g, |h|))
  {
    var g := h + [Failed];
    if j :| 0 <= j < |h| && h[j].Failed? && !ClearedBetween(g, j, |h|) {
      ClearedKept(h, Failed, j, |h|);
      SomeLapseOpen(h, j);
    }
    if k :| OpenLapse(h, k) {
      ClearedKept(h, Failed, k, |h|);
      assert g[k].Failed? && !ClearedBetween(g, k, |h|);
    }
  }

  lemma LapsesGrow(h: seq<Mark>, mark: Mark)
    ensures Lapses(h + [mark]) == Lapses(h) + (if mark.Failed? && !(exists k :: OpenLapse(h, k)) then {|h|} else {})
    ensures |Lapses(h + [mark])| == |Lapses(h)| + (if mark.Failed? && !(exists k :: OpenLapse(h, k)) then 1 else 0)
  {
    var g := h + [mark];
    forall k | 0 <= k < |h| ensures k in Lapses(g) <==> k in Lapses(h) { LapseKept(h, mark, k); }
    if mark.Failed? { NewLapse(h); }
    assert |h| !in Lapses(h);
  }

  lemma ClockExtends(h: seq<Mark>, events: seq<Event>, grace: Option<int>, mark: Mark, e: Event)
    requires |h| == |events| && ClockRight(h, events, grace)
    ensures ClockRight(h + [mark], events + [e], NextGrace(grace, mark, e.at))
  {
    var g := h + [mark];
    forall k | 0 <= k < |h| ensures OpenLapse(g, k) <==> OpenLapse(h, k) && !mark.Clearing? { LapseKept(h, mark, k); }
    if mark.Failed? { NewLapse(h); }
    if grace.Some? && !mark.Clearing? {
      var k :| OpenLapse(h, k);
      assert OpenLapse(g, k);
    }
    if mark.Failed? && grace.None? {
      assert OpenLapse(g, |h|);
    }
  }

  ghost predicate NoGrace(s: Store, i: nat) {
    i < |s.subscriptions| && s.subscriptions[i].graceEndsAt.None? && Occurrences(s.notices, i) == 0
  }

  /** A subscription, its notices and its history agree. */
  ghost predicate Agrees(s: Store, i: nat, h: seq<Mark>, events: seq<Event>) {
    && |h| == |events| && i < |s.subscriptions|
    && (var sub := s.subscriptions[i];
        && ClockRight(h, events, sub.graceEndsAt)
        && Occurrences(s.notices, i) == |Lapses(h)|
        && (sub.status.Active? || sub.status.Trialing? ==> sub.graceEndsAt.None?))
  }

  lemma AgreesAfter(s: Store, s': Store, i: nat, h: seq<Mark>, events: seq<Event>, mark: Mark, e: Event)
    requires Agrees(s, i, h, events) && ClockStep(s, s', i, mark, e.at)
    ensures Agrees(s', i, h + [mark], events + [e])
  {
    assert (exists k :: OpenLapse(h, k)) <==> s.subscriptions[i].graceEndsAt.Some?;
    hide ClockRight, Occurrences, Lapses, OpenLapse;
    ClockExtends(h, events, s.subscriptions[i].graceEndsAt, mark, e);
    LapsesGrow(h, mark);
  }

  /**
   The grace clock over whole histories: a grace date stands exactly while a lapse is open, it is
   the lapse's first failed payment plus fourteen days, one notice went out per lapse, and an
   active or trialing subscription has none.
   */
  lemma {:induction false} GraceClock(s: Store, prices: seq<Price>, events: seq<Event>, i: nat)
    requires NoGrace(s, i)
    ensures Agrees(Run(s, prices, events), i, History(s, prices, events, i), events)
    decreases |events|
  {
    if events == [] {
      assert Lapses([]) == {};
    } else {
      var earlier, e := events[..|events| - 1], events[|events| - 1];
      assert events == earlier + [e];
      hide Step, MarkFor, ClockStep, Agrees;
      GraceClock(s, prices, earlier, i);
      AgreesHasRow(Run(s, prices, earlier), i, History(s, prices, earlier, i), earlier);
      var before, h := Run(s, prices, earlier), History(s, prices, earlier, i);
      MarkDecides(before, prices, e, i);
      AgreesAfter(before, Step(before, prices, e).0, i, h, earlier, MarkFor(before.subscriptions, e, i), e);
    }
  }

  lemma AgreesHasRow(s: Store, i: nat, h: seq<Mark>, events: seq<Event>)
    requires Agrees(s, i, h, events)
    ensures i < |s.subscriptions|
  {
  }

  // ---------------------------------------------------------------- plans

  ghost predicate OnlyPrice(prices: seq<Price>, p: Price) {
    forall q :: q in prices && q.providerPriceId == p.providerPriceId ==> q == p
  }

  /**
   An update moves the plan to the price the provider bills and to nothing else, and storefronts
   are told exactly when the plan moved.
   */
  lemma PlanFollowsPrice(s: Store, prices: seq<Price>, e: Event, i: nat)
    requires KindOf(e.name).SubscriptionChanged? && i < |s.subscriptions| && Target(s.subscriptions, e) == Ok(i)
    requires ReadStatus(Get(e.payload, "status")).Some?
    ensures var s', billed := Step(s, prices, e).0, AsId(Get(FirstItem(e.payload), "price"));
      var was, sub := s.subscriptions[i], s'.subscriptions[i];
      && (forall p :: p in prices && billed.Some? && p.providerPriceId == billed && OnlyPrice(prices, p) ==>
            sub.planId == p.planId && sub.planPriceId == Some(p.id))
      && ((forall p :: p in prices ==> billed.None? || p.providerPriceId != billed) ==>
            sub.planId == was.planId && sub.planPriceId == was.planPriceId)
      && s'.invalidated == if (sub.planId, sub.planPriceId) != (was.planId, was.planPriceId)
                           then s.invalidated + [was.tenantId] else s.invalidated
  {
  }

  // ---------------------------------------------------------------- billing identity

  /** The completed sessions that name a tenant, in order. */
  function SessionsOf(events: seq<Event>, tenantId: string): seq<Json> {
    if events == [] then []
    else
      var e := events[|events| - 1];
      SessionsOf(events[..|events| - 1], tenantId)
      + (if KindOf(e.name).CheckoutCompleted? && AsId(Get(e.payload, "client_reference_id")) == Some(tenantId)
         then [e.payload] else [])
  }

  function Countries(sessions: seq<Json>): seq<Option<string>> {
    seq(|sessions|, i requires 0 <= i < |sessions| => Offered(sessions[i]).country)
  }

  function Currencies(sessions: seq<Json>): seq<Option<string>> {
    seq(|sessions|, i requires 0 <= i < |sessions| => Offered(sessions[i]).billingCurrency)
  }

  function VatNumbers(sessions: seq<Json>): seq<Option<string>> {
    seq(|sessions|, i requires 0 <= i < |sessions| => Offered(sessions[i]).vatNumber)
  }

  predicate HasSubscription(s: Store, tenantId: string) {
    exists i :: 0 <= i < |s.subscriptions| && s.subscriptions[i].tenantId == tenantId
  }

  ghost predicate IdentityIs(now: Tenant, was: Tenant, sessions: seq<Json>) {
    && now.country == FirstSome([was.country] + Countries(sessions))
    && now.billingCurrency == FirstSome([was.billingCurrency] + Currencies(sessions))
    && now.vatNumber == FirstSome([was.vatNumber] + VatNumbers(sessions))
  }

  lemma {:induction false} OneMoreOffer(offers: seq<Option<string>>, offer: Option<string>)
    ensures FirstSome(offers + [offer]) == Filled(FirstSome(offers), offer)
  {
    if offers != [] {
      OneMoreOffer(offers[1..], offer);
      assert (offers + [offer])[1..] == offers[1..] + [offer];
    }
  }

  lemma OneMoreSession(now: Tenant, was: Tenant, sessions: seq<Json>, session: Json, tenants: map<string, Tenant>,
    id: string)
    requires IdentityIs(now, was, sessions) && id in tenants && tenants[id] == now
    ensures IdentityIs(Identified(tenants, id, Offered(session))[id], was, sessions + [session])
  {
    var longer := sessions + [session];
    hide Offered, FirstSome;
    OneMoreOffer([was.country] + Countries(sessions), Offered(session).country);
    OneMoreOffer([was.billingCurrency] + Currencies(sessions), Offered(session).billingCurrency);
    OneMoreOffer([was.vatNumber] + VatNumbers(sessions), Offered(session).vatNumber);
    assert [was.country] + Countries(longer) == [was.country] + Countries(sessions) + [Offered(session).country];
    assert [was.billingCurrency] + Currencies(longer)
        == [was.billingCurrency] + Currencies(sessions) + [Offered(session).billingCurrency];
    assert [was.vatNumber] + VatNumbers(longer)
      == [was.vatNumber] + VatNumbers(sessions) + [Offered(session).vatNumber];
  }

  /** What one event does to the tenants: the identity of the tenant a completed session names, and no other. */
  lemma StepTenants(s: Store, prices: seq<Price>, e: Event)
    ensures var (s', id) := (Step(s, prices, e).0, AsId(Get(e.payload, "client_reference_id")));
      && (forall t :: HasSubscription(s', t) == HasSubscription(s, t))
      && s'.tenants == if KindOf(e.name).CheckoutCompleted? && id.Some? && HasSubscription(s, id.value)
                       then Identified(s.tenants, id.value, Offered(e.payload)) else s.tenants
  {
    SameTenants(s, prices, e);
    var s' := Step(s, prices, e).0;
    hide Step, Offered, Target, KindOf, Get, AsId, Identified;
    forall t ensures HasSubscription(s', t) == HasSubscription(s, t) {
      if HasSubscription(s, t) {
        var i :| 0 <= i < |s.subscriptions| && s.subscriptions[i].tenantId == t;
        assert s'.subscriptions[i].tenantId == t;
      }
    }
  }

  lemma SameTenants(s: Store, prices: seq<Price>, e: Event)
    ensures var (s', id) := (Step(s, prices, e).0, AsId(Get(e.payload, "client_reference_id")));
      && |s'.subscriptions| == |s.subscriptions|
      && (forall i :: 0 <= i < |s.subscriptions| ==> s'.subscriptions[i].tenantId == s.subscriptions[i].tenantId)
      && s'.tenants == if KindOf(e.name).CheckoutCompleted? && id.Some? && HasSubscription(s, id.value)
                       then Identified(s.tenants, id.value, Offered(e.payload)) else s.tenants
  {
    hide Offered, KindOf, Get, AsId, AsDate, Identified, Mapping, FindSubscription, ReadStatus, BilledPrice,
      StoreInvoice;
  }

  lemma NothingOffered(was: Tenant)
    ensures IdentityIs(was, was, [])
  {
    assert [was.country] + Countries([]) == [was.country] && [was.vatNumber] + VatNumbers([]) == [was.vatNumber];
    assert [was.billingCurrency] + Currencies([]) == [was.billingCurrency];
  }

  /** The completed sessions that reach a tenant: none does if it has no subscription. */
  ghost function SessionsFor(s: Store, events: seq<Event>, id: string): seq<Json> {
    if HasSubscription(s, id) then SessionsOf(events, id) else []
  }

  lemma IdentityStep(s: Store, prices: seq<Price>, events: seq<Event>, e: Event, id: string, was: Tenant)
    requires id in s.tenants && IdentityIs(s.tenants[id], was, SessionsFor(s, events, id))
    ensures var s' := Step(s, prices, e).0;
      && id in s'.tenants && IdentityIs(s'.tenants[id], was, SessionsFor(s, events + [e], id))
      && HasSubscription(s', id) == HasSubscription(s, id)
  {
    hide IdentityIs, Step, HasSubscription, Offered, KindOf, Get, AsId;
    StepTenants(s, prices, e);
    OneMoreSession(s.tenants[id], was, SessionsFor(s, events, id), e.payload, s.tenants, id);
    assert (events + [e])[..|events|] == events && (events + [e])[|events|] == e;
    if !(KindOf(e.name).CheckoutCompleted? && AsId(Get(e.payload, "client_reference_id")) == Some(id)) {
      assert SessionsOf(events + [e], id) == SessionsOf(events, id);
    }
  }

  /**
   A tenant's billing identity over any history: each of its fields is what it was, or failing that what
   the first completed session of the tenant to carry one said; once there it never changes.
   */
  lemma {:induction false} IdentityIsFirstOffered(s: Store, prices: seq<Price>, events: seq<Event>, id: string)
    requires id in s.tenants
    ensures var now := Run(s, prices, events);
      && id in now.tenants && IdentityIs(now.tenants[id], s.tenants[id], SessionsFor(s, events, id))
      && HasSubscription(now, id) == HasSubscription(s, id)
    decreases |events|
  {
    hide IdentityIs, Step, HasSubscription, SessionsOf;
    if events == [] {
      NothingOffered(s.tenants[id]);
      NoSessions(id);
    } else {
      var earlier, e := events[..|events| - 1], events[|events| - 1];
      IdentityIsFirstOffered(s, prices, earlier, id);
      IdentityStep(Run(s, prices, earlier), prices, earlier, e, id, s.tenants[id]);
      assert earlier + [e] == events;
    }
  }

  lemma NoSessions(id: string)
    ensures SessionsOf([], id) == []
  {
  }

  // ---------------------------------------------------------------- invoices

  /** One row per provider invoice, and every row balances. */
  ghost predicate InvoicesOk(invoices: seq<Invoice>) {
    && (forall i, j :: 0 <= i < j < |invoices| ==>
         invoices[i].columns.providerInvoiceId != invoices[j].columns.providerInvoiceId)
    && (forall i :: 0 <= i < |invoices| ==>
         invoices[i].columns.totalMinor == invoices[i].columns.subtotalMinor + invoices[i].columns.taxMinor)
  }

  /** Rows are never dropped, and never move to another tenant, subscription or provider invoice. */
  ghost predicate InvoicesGrow(was: seq<Invoice>, now: seq<Invoice>) {
    |was| <= |now| && forall i :: 0 <= i < |was| ==>
      && now[i].tenantId == was[i].tenantId && now[i].subscription == was[i].subscription
      && now[i].columns.providerInvoiceId == was[i].columns.providerInvoiceId
  }

  lemma StoreKeepsInvoices(invoices: seq<Invoice>, tenantId: string, subscription: nat, columns: Columns)
    requires InvoicesOk(invoices) && columns.totalMinor == columns.subtotalMinor + columns.taxMinor
    ensures var after := StoreInvoice(invoices, tenantId, subscription, columns);
      && InvoicesOk(after) && InvoicesGrow(invoices, after)
      && exists i :: 0 <= i < |after| && after[i].columns == columns
  {
    var after := StoreInvoice(invoices, tenantId, subscription, columns);
    var at := FindInvoice(invoices, columns.providerInvoiceId).GetOr(|invoices|);
    assert after[at].columns == columns;
  }

  /** The only thing an event can do to the invoices is to store the one it carries. */
  lemma StepInvoices(s: Store, prices: seq<Price>, e: Event) returns (i: nat)
    ensures Step(s, prices, e).0.invoices == s.invoices
      || (Mapping(e.payload).Ok? && i < |s.subscriptions|
          && Step(s, prices, e).0.invoices
             == StoreInvoice(s.invoices, s.subscriptions[i].tenantId, i, Mapping(e.payload).value.columns))
  {
    hide Target, Mapping, KindOf, StoreInvoice, Updated, ReadStatus, AsDate, AsId, Get;
    i := if Target(s.subscriptions, e).Ok? then Target(s.subscriptions, e).value else 0;
  }

  lemma {:induction false} StepKeepsInvoices(s: Store, prices: seq<Price>, e: Event)
    requires InvoicesOk(s.invoices)
    ensures InvoicesOk(Step(s, prices, e).0.invoices) && InvoicesGrow(s.invoices, Step(s, prices, e).0.invoices)
  {
    var i := StepInvoices(s, prices, e);
    if Step(s, prices, e).0.invoices != s.invoices {
      MappedBalances(e.payload);
      hide Step, Mapping, StoreInvoice, InvoicesOk;
      StoreKeepsInvoices(s.invoices, s.subscriptions[i].tenantId, i, Mapping(e.payload).value.columns);
    }
  }

  /** Over any history of events the invoices stay one row each and balanced. */
  lemma {:induction false} InvoicesBalance(s: Store, prices: seq<Price>, events: seq<Event>)
    requires InvoicesOk(s.invoices)
    ensures InvoicesOk(Run(s, prices, events).invoices) && InvoicesGrow(s.invoices, Run(s, prices, events).invoices)
    decreases |events|
  {
    if events != [] {
      InvoicesBalance(s, prices, events[..|events| - 1]);
      StepKeepsInvoices(Run(s, prices, events[..|events| - 1]), prices, events[|events| - 1]);
    }
  }

  lemma FindOnly(invoices: seq<Invoice>, at: nat)
    requires at < |invoices|
    requires forall i :: 0 <= i < |invoices| && i != at ==>
      invoices[i].columns.providerInvoiceId != invoices[at].columns.providerInvoiceId
    ensures FindInvoice(invoices, invoices[at].columns.providerInvoiceId) == Some(at)
  {
  }

  /** Storing an invoice again, whoever it is then matched to, changes nothing. */
  lemma StoreTwice(invoices: seq<Invoice>, tenantId: string, subscription: nat, columns: Columns, otherTenant: string,
    other: nat)
    requires InvoicesOk(invoices)
    ensures var once := StoreInvoice(invoices, tenantId, subscription, columns);
      StoreInvoice(once, otherTenant, other, columns) == once
  {
    var once := StoreInvoice(invoices, tenantId, subscription, columns);
    var at := FindInvoice(invoices, columns.providerInvoiceId).GetOr(|invoices|);
    assert once[at].columns == columns;
    assert forall i :: 0 <= i < |once| && i != at ==> once[i] == invoices[i];
    FindOnly(once, at);
    hide FindInvoice;
    assert once[at := once[at].(columns := columns)] == once;
  }

  lemma {:induction false} SameLookup(a: seq<Subscription>, b: seq<Subscription>, key: Lookup)
    requires |a| == |b| && forall i :: 0 <= i < |a| ==> Matches(a[i], key) == Matches(b[i], key)
    ensures FirstMatch(a, key) == FirstMatch(b, key)
  {
    if a != [] {
      assert Matches(a[0], key) == Matches(b[0], key);
      SameLookup(a[1..], b[1..], key);
    }
  }

  lemma SameFind(a: seq<Subscription>, b: seq<Subscription>, subscriptionId: Option<string>, customerId: Option<string>)
    requires |a| == |b| && forall i, key :: 0 <= i < |a| ==> Matches(a[i], key) == Matches(b[i], key)
    ensures FindSubscription(a, subscriptionId, customerId) == FindSubscription(b, subscriptionId, customerId)
  {
    if subscriptionId.Some? { SameLookup(a, b, BySubscriptionId(subscriptionId.value)); }
    if customerId.Some? { SameLookup(a, b, ByCustomerId(customerId.value)); }
  }

  /** A redelivered paid invoice leaves the invoices as the first delivery left them. */
  lemma {:induction false} ReplayStoresNothing(s: Store, prices: seq<Price>, e: Event)
    requires InvoicesOk(s.invoices) && KindOf(e.name).InvoicePaid?
    ensures var once := Step(s, prices, e).0; Step(once, prices, e).0.invoices == once.invoices
  {
    var once, first := Step(s, prices, e).0, Target(s.subscriptions, e);
    if Mapping(e.payload).Ok? {
      var mapped := Mapping(e.payload).value;
      SameFind(s.subscriptions, once.subscriptions, mapped.subscriptionId, mapped.customerId);
      if first.Ok? {
        var i := first.value;
        StoreTwice(s.invoices, s.subscriptions[i].tenantId, i, mapped.columns, once.subscriptions[i].tenantId, i);
      }
    }
  }

  // ---------------------------------------------------------------- the service

  class SubscriptionLifecycle {
    const prices: seq<Price>
    var subscriptions: seq<Subscription>
    var invoices: seq<Invoice>
    var tenants: map<string, Tenant>
    var notices: seq<nat>
    var trialNotices: seq<(nat, int)>
    var invalidated: seq<string>

    constructor (prices: seq<Price>, subscriptions: seq<Subscription>, tenants: map<string, Tenant>)
      ensures this.prices == prices && Contents() == Store(subscriptions, [], tenants, [], [], [])
    {
      this.prices := prices;
      this.subscriptions, this.tenants := subscriptions, tenants;
      invoices, notices, trialNotices, invalidated := [], [], [], [];
    }

    ghost function Contents(): Store
      reads this
    {
      Store(subscriptions, invoices, tenants, notices, trialNotices, invalidated)
    }

    method Apply(e: Event) returns (answer: Answer)
      modifies this
      ensures (Contents(), answer) == Step(old(Contents()), prices, e)
    {
      match KindOf(e.name) {
        case CheckoutCompleted => answer := OnCheckoutCompleted(e);
        case SubscriptionChanged => answer := OnSubscriptionChanged(e);
        case InvoicePaid => answer := OnInvoicePaid(e);
        case PaymentFailed => answer := OnPaymentFailed(e);
        case TrialWillEnd => answer := OnTrialWillEnd(e);
        case Unhandled => answer := Ignored(NoHandler);
      }
    }

    method OnCheckoutCompleted(e: Event) returns (answer: Answer)
      requires KindOf(e.name).CheckoutCompleted?
      modifies this
      ensures (Contents(), answer) == Step(old(Contents()), prices, e)
    {
      hide KindOf, AsId, Get;
      var tenantId := AsId(Get(e.payload, "client_reference_id"));
      if tenantId.None? {
        return Ignored(NoReference);
      }
      var i := FirstMatch(subscriptions, ByTenant(tenantId.value));
      if i.None? {
        return Ignored(NoSubscription);
      }
      var subscription := subscriptions[i.value];
      subscription := subscription.(provider := "stripe");
      subscription := subscription.(customerId := AsId(Get(e.payload, "customer")));
      subscription := subscription.(subscriptionId := AsId(Get(e.payload, "subscription")));
      RecordBillingIdentity(tenantId.value, e.payload);
      subscriptions := subscriptions[i.value := subscription];
      return Changed;
    }

    /** Only ever fills a blank. */
    method RecordBillingIdentity(tenantId: string, session: Json)
      modifies this`tenants
      ensures tenants == Identified(old(tenants), tenantId, Offered(session))
    {
      hide Code, Get, FirstSome, TaxIds;
      if tenantId !in tenants {
        return;
      }
      var tenant := tenants[tenantId];
      var details := Get(session, "customer_details");
      var country := Code(Get(Get(details, "address"), "country"), 2);
      var currency := Code(Get(session, "currency"), 3);
      var vatNumber := ReadTaxId(Get(details, "tax_ids"));
      if tenant.country.None? && country.Some? {
        tenant := tenant.(country := country);
      }
      if tenant.billingCurrency.None? && currency.Some? {
        tenant := tenant.(billingCurrency := currency);
      }
      if tenant.vatNumber.None? && vatNumber.Some? {
        tenant := tenant.(vatNumber := vatNumber);
      }
      tenants := tenants[tenantId := tenant];
    }

    /** The first usable tax id. */
    method ReadTaxId(value: Json) returns (r: Option<string>)
      ensures r == FirstSome(TaxIds(value))
    {
      hide FirstSome, Upper, TrimEnd, TrimStart, Get, NotBlank;
      NoneUsable([]);
      if !value.JArray? {
        return None;
      }
      for i := 0 to |value.items|
        invariant forall j :: 0 <= j < i ==> TaxIds(value)[j].None?
      {
        var id := Get(value.items[i], "value");
        if id.JString? && NotBlank(id.text) && |id.text| <= MAX_TAX_ID {
          FirstSomeIs(TaxIds(value), i);
          return Some(Upper(TrimEnd(TrimStart(id.text))));
        }
      }
      NoneUsable(TaxIds(value));
      return None;
    }

    method OnSubscriptionChanged(e: Event) returns (answer: Answer)
      requires KindOf(e.name).SubscriptionChanged?
      modifies this
      ensures (Contents(), answer) == Step(old(Contents()), prices, e)
    {
      hide KindOf, AsId, AsDate, Get, ReadStatus, FirstItem, FindSubscription;
      var id := AsId(Get(e.payload, "id"));
      if id.None? {
        return Ignored(NoId);
      }
      var i := FindSubscription(subscriptions, id, AsId(Get(e.payload, "customer")));
      if i.None? {
        return Ignored(NoSubscription);
      }
      var was := subscriptions[i.value];
      var subscription := was.(subscriptionId := id, provider := "stripe");
      var status := ReadStatus(Get(e.payload, "status"));
      if status.None? {
        return Ignored(UnmappedStatus);
      }
      subscription := subscription.(status := status.value);
      subscription := subscription.(currentPeriodEnd := AsDate(Get(FirstItem(e.payload), "current_period_end")));
      subscription := subscription.(cancelAt := AsDate(Get(e.payload, "cancel_at")));
      var adopted, moved := AdoptPlanFromPrice(subscription, e.payload);
      if status.value.Active? || status.value.Trialing? {
        adopted := adopted.(graceEndsAt := None);
      }
      subscriptions := subscriptions[i.value := adopted];
      if moved {
        invalidated := invalidated + [was.tenantId];
      }
      return Changed;
    }

    method AdoptPlanFromPrice(sub: Subscription, remote: Json) returns (r: Subscription, moved: bool)
      ensures r == WithPlan(sub, BilledPrice(prices, remote))
      ensures moved <==> (r.planPriceId, r.planId) != (sub.planPriceId, sub.planId)
    {
      var id := AsId(Get(FirstItem(remote), "price"));
      if id.None? {
        return sub, false;
      }
      var price := FindPrice(prices, id.value);
      if price.None? {
        return sub, false;
      }
      moved := sub.planPriceId != Some(price.value.id) || sub.planId != price.value.planId;
      r := sub.(planId := price.value.planId, planPriceId := Some(price.value.id));
    }

    method OnInvoicePaid(e: Event) returns (answer: Answer)
      requires KindOf(e.name).InvoicePaid?
      modifies this
      ensures (Contents(), answer) == Step(old(Contents()), prices, e)
    {
      hide KindOf, Mapping, FindSubscription, StoreInvoice;
      var mapped := MapInvoice(e.payload);
      if mapped.Err? {
        return Ignored(Unmappable(mapped.error));
      }
      var i := FindSubscription(subscriptions, mapped.value.subscriptionId, mapped.value.customerId);
      if i.None? {
        return Ignored(NoSubscription);
      }
      var subscription := subscriptions[i.value];
      Upsert(subscription.tenantId, i.value, mapped.value.columns);
      if !subscription.status.Active? {
        subscription := subscription.(status := Active);
      }
      subscription := subscription.(graceEndsAt := None);
      subscriptions := subscriptions[i.value := subscription];
      return Changed;
    }

    method Upsert(tenantId: string, subscription: nat, columns: Columns)
      modifies this`invoices
      ensures invoices == StoreInvoice(old(invoices), tenantId, subscription, columns)
    {
      var existing := FindInvoice(invoices, columns.providerInvoiceId);
      if existing.Some? {
        invoices := invoices[existing.value := invoices[existing.value].(columns := columns)];
        return;
      }
      invoices := invoices + [Invoice(tenantId, subscription, columns)];
    }

    method OnPaymentFailed(e: Event) returns (answer: Answer)
      requires KindOf(e.name).PaymentFailed?
      modifies this
      ensures (Contents(), answer) == Step(old(Contents()), prices, e)
    {
      hide KindOf, FindSubscription, ReadSubscriptionId, AsId, Get;
      var i := FindSubscription(subscriptions, ReadSubscriptionId(e.payload), AsId(Get(e.payload, "customer")));
      if i.None? {
        return Ignored(NoSubscription);
      }
      var subscription := subscriptions[i.value].(status := PastDue);
      var firstFailureOfThisLapse := subscription.graceEndsAt.None?;
      if firstFailureOfThisLapse {
        subscription := subscription.(graceEndsAt := Some(e.at + GRACE_MS));
      }
      subscriptions := subscriptions[i.value := subscription];
      if firstFailureOfThisLapse {
        notices := notices + [i.value];
      }
      return Changed;
    }

    method OnTrialWillEnd(e: Event) returns (answer: Answer)
      requires KindOf(e.name).TrialWillEnd?
      modifies this
      ensures (Contents(), answer) == Step(old(Contents()), prices, e)
    {
      hide KindOf, FindSubscription, AsId, AsDate, Get;
      var i := FindSubscription(subscriptions, AsId(Get(e.payload, "id")), AsId(Get(e.payload, "customer")));
      if i.None? {
        return Ignored(NoSubscription);
      }
      var trialEnd := AsDate(Get(e.payload, "trial_end"));
      if trialEnd.None? {
        return Ignored(NoTrialEnd);
      }
      trialNotices := trialNotices + [(i.value, trialEnd.value)];
      return Changed;
    }
  }
}
