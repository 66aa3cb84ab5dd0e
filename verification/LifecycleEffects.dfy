/**
 What each provider event does, by the name it arrives under: which subscription it is about, and every
 column, row and notice it changes.
 */
module LifecycleEffects {
  import opened Common
  import opened Payloads
  import opened InvoiceMapper
  import opened Lifecycle

  /** The first line item of a subscription. */
  ghost predicate IsFirstItem(remote: Json, item: Json) {
    var list := Get(Get(remote, "items"), "data");
    item == if list.JArray? && |list.items| > 0 then list.items[0] else JUndefined
  }

  /** Nothing but this subscription is written. */
  ghost predicate OnlySubscription(was: Store, now: Store, i: nat) {
    && now == was.(subscriptions := now.subscriptions) && |now.subscriptions| == |was.subscriptions|
    && forall j :: 0 <= j < |was.subscriptions| && j != i ==> now.subscriptions[j] == was.subscriptions[j]
  }

  ghost predicate SubscriptionEvent(name: string) {
    name in {"customer.subscription.created", "customer.subscription.updated", "customer.subscription.deleted"}
  }

  ghost predicate InvoiceEvent(name: string) { name in {"invoice.paid", "invoice.payment_succeeded"} }

  lemma Kinds(name: string)
    ensures SubscriptionEvent(name) ==> KindOf(name) == SubscriptionChanged
    ensures InvoiceEvent(name) ==> KindOf(name) == InvoicePaid
    ensures name == "invoice.payment_failed" ==> KindOf(name) == PaymentFailed
    ensures name == "customer.subscription.trial_will_end" ==> KindOf(name) == TrialWillEnd
  {
  }

  lemma UnknownName(s: Store, prices: seq<Price>, e: Event)
    requires e.name !in {"checkout.session.completed", "customer.subscription.created", "customer.subscription.updated",
                         "customer.subscription.deleted", "invoice.paid", "invoice.payment_succeeded",
                         "invoice.payment_failed", "customer.subscription.trial_will_end"}
    ensures Step(s, prices, e) == (s, Ignored(NoHandler))
  {
  }

  /** The tenant named by the session is linked to its provider ids; its status waits for a later event. */
  lemma CheckoutByColumns(s: Store, prices: seq<Price>, e: Event, i: nat)
    requires e.name == "checkout.session.completed" && i < |s.subscriptions|
    requires AsId(Get(e.payload, "client_reference_id")) == Some(s.subscriptions[i].tenantId)
    requires forall j :: 0 <= j < i ==> s.subscriptions[j].tenantId != s.subscriptions[i].tenantId
    ensures var (now, answer) := Step(s, prices, e);
      && answer == Changed && OnlySubscription(s.(tenants := now.tenants), now, i)
      && now.subscriptions[i] == s.subscriptions[i].(
           provider := "stripe", customerId := AsId(Get(e.payload, "customer")),
           subscriptionId := AsId(Get(e.payload, "subscription")))
  {
    assert FirstMatch(s.subscriptions, ByTenant(s.subscriptions[i].tenantId)) == Some(i);
  }

  lemma CheckoutUnmatched(s: Store, prices: seq<Price>, e: Event)
    requires e.name == "checkout.session.completed"
    ensures var id, (now, answer) := AsId(Get(e.payload, "client_reference_id")), Step(s, prices, e);
      && (id.None? ==> now == s && answer == Ignored(NoReference))
      && (id.Some? && (forall j :: 0 <= j < |s.subscriptions| ==> s.subscriptions[j].tenantId != id.value) ==>
            now == s && answer == Ignored(NoSubscription))
  {
  }

  /** A provider status and the local one it means. */
  ghost predicate MeansStatus(word: string, status: Status) {
    match status
    case Trialing => word == "trialing" || word == "incomplete"
    case Active => word == "active"
    case PastDue => word == "past_due"
    case Grace => word == "paused"
    case Cancelled => word == "canceled"
    case Expired => word == "incomplete_expired" || word == "unpaid"
  }

  lemma StatusRead(value: Json, status: Status)
    ensures ReadStatus(value) == Some(status) <==> value.JString? && MeansStatus(value.text, status)
  {
  }

  /** The provider's view replaces ours; being active or trialing again clears the grace date. */
  lemma SubscriptionByColumns(s: Store, prices: seq<Price>, e: Event, i: nat, status: Status, item: Json)
    requires SubscriptionEvent(e.name)
    requires AsId(Get(e.payload, "id")).Some? && IsFirstItem(e.payload, item)
    requires FindSubscription(s.subscriptions, AsId(Get(e.payload, "id")), AsId(Get(e.payload, "customer"))) == Some(i)
    requires Get(e.payload, "status").JString? && MeansStatus(Get(e.payload, "status").text, status)
    ensures var (now, answer) := Step(s, prices, e);
      var was, sub := s.subscriptions[i], now.subscriptions[i];
      && answer == Changed && OnlySubscription(s.(invalidated := now.invalidated), now, i)
      && sub.status == status && sub.provider == "stripe" && sub.subscriptionId == AsId(Get(e.payload, "id"))
      && sub.tenantId == was.tenantId && sub.customerId == was.customerId
      && sub.currentPeriodEnd == AsDate(Get(item, "current_period_end"))
      && sub.cancelAt == AsDate(Get(e.payload, "cancel_at"))
      && sub.graceEndsAt == (if status == Active || status == Trialing then None else was.graceEndsAt)
      && now.invalidated == (if sub.planId != was.planId || sub.planPriceId != was.planPriceId
                             then s.invalidated + [was.tenantId] else s.invalidated)
      && match AsId(Get(item, "price"))
         case None => sub.planId == was.planId && sub.planPriceId == was.planPriceId
         case Some(id) =>
           if forall p :: p in prices ==> p.providerPriceId != Some(id)
           then sub.planId == was.planId && sub.planPriceId == was.planPriceId
           else exists p :: p in prices && p.providerPriceId == Some(id)
                  && sub.planId == p.planId && sub.planPriceId == Some(p.id)
  {
    hide KindOf, ReadStatus, AsId, AsDate, Get, FindSubscription, MeansStatus, SubscriptionEvent, InvoiceEvent;
    Kinds(e.name);
    StatusRead(Get(e.payload, "status"), status);
    assert item == FirstItem(e.payload);
  }

  lemma UnmappedStatusIgnored(s: Store, prices: seq<Price>, e: Event)
    requires SubscriptionEvent(e.name)
    requires forall status :: !(Get(e.payload, "status").JString? && MeansStatus(Get(e.payload, "status").text, status))
    ensures Step(s, prices, e).0 == s && Step(s, prices, e).1.Ignored?
  {
    if ReadStatus(Get(e.payload, "status")).Some? {
      StatusRead(Get(e.payload, "status"), ReadStatus(Get(e.payload, "status")).value);
    }
    hide MeansStatus;
  }

  /** The invoice is stored under its own id and the subscription is active again. */
  lemma InvoicePaidByColumns(s: Store, prices: seq<Price>, e: Event, i: nat)
    requires InvoiceEvent(e.name) && Mapping(e.payload).Ok?
    requires var mapped := Mapping(e.payload).value;
      FindSubscription(s.subscriptions, mapped.subscriptionId, mapped.customerId) == Some(i)
    ensures var (now, answer) := Step(s, prices, e);
      && answer == Changed && OnlySubscription(s.(invoices := now.invoices), now, i)
      && now.subscriptions[i] == s.subscriptions[i].(status := Active, graceEndsAt := None)
      && InvoiceWritten(s.invoices, now.invoices, s.subscriptions[i].tenantId, i, Mapping(e.payload).value.columns)
  {
    hide Mapping, FindSubscription, KindOf, InvoiceEvent, SubscriptionEvent;
    Kinds(e.name);
  }

  /** The row that has the invoice's id takes its columns, or a new row of the tenant does. */
  ghost predicate InvoiceWritten(was: seq<Invoice>, now: seq<Invoice>, tenantId: string, i: nat, columns: Columns) {
    if forall k :: 0 <= k < |was| ==> was[k].columns.providerInvoiceId != columns.providerInvoiceId
    then now == was + [Invoice(tenantId, i, columns)]
    else exists k :: 0 <= k < |was| && was[k].columns.providerInvoiceId == columns.providerInvoiceId
           && now == was[k := was[k].(columns := columns)]
  }

  /** The first failure of a lapse sets the grace date fourteen days on and sends one notice. */
  lemma PaymentFailedByColumns(s: Store, prices: seq<Price>, e: Event, i: nat)
    requires e.name == "invoice.payment_failed"
    requires FindSubscription(s.subscriptions,
      AsId(Get(Get(Get(e.payload, "parent"), "subscription_details"), "subscription")),
      AsId(Get(e.payload, "customer"))) == Some(i)
    ensures var (now, answer) := Step(s, prices, e);
      var first := s.subscriptions[i].graceEndsAt.None?;
      && answer == Changed && OnlySubscription(s.(notices := now.notices), now, i)
      && now.subscriptions[i] == s.subscriptions[i].(
           status := PastDue,
           graceEndsAt := if first then Some(e.at + 14 * 86_400_000) else s.subscriptions[i].graceEndsAt)
      && now.notices == if first then s.notices + [i] else s.notices
  {
    hide FindSubscription, KindOf, InvoiceEvent, SubscriptionEvent, Get, AsId;
    Kinds(e.name);
    ReadsSubscriptionId(e.payload);
  }

  /** A trial notice carries the provider's date and writes nothing. */
  lemma TrialByColumns(s: Store, prices: seq<Price>, e: Event, i: nat)
    requires e.name == "customer.subscription.trial_will_end"
    requires FindSubscription(s.subscriptions, AsId(Get(e.payload, "id")), AsId(Get(e.payload, "customer"))) == Some(i)
    ensures Step(s, prices, e) ==
      match AsDate(Get(e.payload, "trial_end"))
      case None => (s, Ignored(NoTrialEnd))
      case Some(at) => (s.(trialNotices := s.trialNotices + [(i, at)]), Changed)
  {
    hide FindSubscription, AsDate, AsId, Get, KindOf, InvoiceEvent, SubscriptionEvent;
    Kinds(e.name);
  }

  /** An event that is about no subscription is answered so and changes nothing. */
  lemma UnmatchedIgnored(s: Store, prices: seq<Price>, e: Event, ids: (Option<string>, Option<string>))
    requires FindSubscription(s.subscriptions, ids.0, ids.1) == None
    requires
      || (e.name == "invoice.payment_failed"
          && ids.0 == AsId(Get(Get(Get(e.payload, "parent"), "subscription_details"), "subscription"))
          && ids.1 == AsId(Get(e.payload, "customer")))
      || (SubscriptionEvent(e.name)
          && ids.0 == AsId(Get(e.payload, "id")) && ids.0.Some? && ids.1 == AsId(Get(e.payload, "customer")))
      || (e.name == "customer.subscription.trial_will_end"
          && ids.0 == AsId(Get(e.payload, "id")) && ids.1 == AsId(Get(e.payload, "customer")))
      || (InvoiceEvent(e.name) && Mapping(e.payload).Ok?
          && ids.0 == Mapping(e.payload).value.subscriptionId && ids.1 == Mapping(e.payload).value.customerId)
    ensures Step(s, prices, e) == (s, Ignored(NoSubscription))
  {
    hide FindSubscription, Mapping, KindOf, InvoiceEvent, SubscriptionEvent, Get, AsId;
    Kinds(e.name);
    ReadsSubscriptionId(e.payload);
  }

  lemma ReadsSubscriptionId(payload: Json)
    ensures ReadSubscriptionId(payload)
         == AsId(Get(Get(Get(payload, "parent"), "subscription_details"), "subscription"))
  {
  }

  /** What a completed session says of its tenant, key by key. */
  lemma OfferedByKey(session: Json, i: nat)
    ensures var details := Get(session, "customer_details");
      var country, currency, ids :=
        Get(Get(details, "address"), "country"), Get(session, "currency"), Get(details, "tax_ids");
      var offered := Offered(session);
      && offered.country == (if country.JString? then AsCode(Some(country.text), 2) else None)
      && offered.billingCurrency == (if currency.JString? then AsCode(Some(currency.text), 3) else None)
      && (ids.JArray? && (forall j :: 0 <= j < |ids.items| ==> !UsableTaxId(Get(ids.items[j], "value"))) ==>
            offered.vatNumber.None?)
      && (!ids.JArray? ==> offered.vatNumber.None?)
      && (ids.JArray? && i < |ids.items| && UsableTaxId(Get(ids.items[i], "value"))
          && (forall j :: 0 <= j < i ==> !UsableTaxId(Get(ids.items[j], "value"))) ==>
            offered.vatNumber == Some(Upper(TrimEnd(TrimStart(Get(ids.items[i], "value").text)))))
  {
    hide Upper, TrimEnd, TrimStart, Get, AsCode, NotBlank, FirstSome, UsableTaxId;
    NoneUsable([]);
    CodeExactly("", 2, 0);
    CodeExactly("", 3, 0);
    var ids := Get(Get(session, "customer_details"), "tax_ids");
    if ids.JArray? {
      forall j | 0 <= j < |ids.items| ensures TaxIds(ids)[j].Some? <==> UsableTaxId(Get(ids.items[j], "value")) {
        NotBlankExactly(Get(ids.items[j], "value"));
      }
      if forall j :: 0 <= j < |ids.items| ==> !UsableTaxId(Get(ids.items[j], "value")) {
        NoneUsable(TaxIds(ids));
      }
      if i < |ids.items| && UsableTaxId(Get(ids.items[i], "value"))
         && forall j :: 0 <= j < i ==> !UsableTaxId(Get(ids.items[j], "value")) {
        FirstSomeIs(TaxIds(ids), i);
        NotBlankExactly(Get(ids.items[i], "value"));
      }
    }
  }

  /** Something in it, and no longer than the column. */
  ghost predicate UsableTaxId(value: Json) {
    value.JString? && |value.text| <= 32 && exists i :: 0 <= i < |value.text| && !IsSpace(value.text[i])
  }

  lemma NotBlankExactly(value: Json)
    ensures UsableTaxId(value) <==> value.JString? && NotBlank(value.text) && |value.text| <= 32
  {
  }
}
