/**
 Provider payloads as the code sees them, the readers that take values out of them without
 trusting their shape, and the translation of a provider invoice into the columns of a row.
 */
module Payloads {
  import opened Common

  /** A parsed payload. `JUndefined` is what reading an absent key yields. */
  datatype Json =
    | JUndefined | JNull | JBool(bool) | JNumber(number: real) | JString(text: string)
    | JArray(items: seq<Json>) | JObject(fields: map<string, Json>)

  const MAX_SAFE_INTEGER: int := 9007199254740991

  predicate IsRecord(value: Json) { value.JObject? || value.JArray? }

  /** `asRecord(value)[key]`. */
  function Get(value: Json, key: string): Json {
    if value.JObject? && key in value.fields then value.fields[key] else JUndefined
  }

  /** `text.trim() !== ''`. */
  predicate NotBlank(text: string) { exists i :: 0 <= i < |text| && !IsSpace(text[i]) }

  function AsString(value: Json): Option<string> {
    if value.JString? && NotBlank(value.text) then Some(value.text) else None
  }

  /** An id, or the expanded object that carries it. */
  function AsId(value: Json): Option<string> {
    if value.JString? then AsString(value) else AsString(Get(value, "id"))
  }

  /** Epoch seconds to milliseconds, cut towards zero as `Date` does. */
  function AsDate(value: Json): Option<int> {
    if value.JNumber? then
      var ms := value.number * 1000.0;
      Some(if ms >= 0.0 then ms.Floor else -((-ms).Floor))
    else None
  }

  function AsMinorUnits(value: Json): Option<int> {
    if value.JNumber? && value.number.Floor as real == value.number
       && -MAX_SAFE_INTEGER <= value.number.Floor <= MAX_SAFE_INTEGER
    then Some(value.number.Floor) else None
  }

  function UpperChar(c: char): char { if 'a' <= c <= 'z' then (c as int - 32) as char else c }

  function Upper(text: string): (r: string)
    ensures |r| == |text|
  {
    seq(|text|, i requires 0 <= i < |text| => UpperChar(text[i]))
  }

  function AsCode(value: Option<string>, length: nat): Option<string> {
    if value.Some? && |value.value| == length then Some(Upper(value.value)) else None
  }

  /** What each reader takes out of a payload, and that it takes nothing else. */
  lemma ReadersExactly(value: Json, text: string, n: int)
    ensures AsString(value) == Some(text) <==>
      value == JString(text) && exists i :: 0 <= i < |text| && !IsSpace(text[i])
    ensures AsMinorUnits(value) == Some(n) <==>
      value == JNumber(n as real) && -9007199254740991 <= n <= 9007199254740991
    ensures AsId(value) == Some(text) <==>
      && (value == JString(text) || (value.JObject? && "id" in value.fields && value.fields["id"] == JString(text)))
      && exists i :: 0 <= i < |text| && !IsSpace(text[i])
    ensures AsDate(value).Some? <==> value.JNumber?
    ensures value.JNumber? && value.number >= 0.0 ==>
      (AsDate(value) == Some(n) <==> n as real <= value.number * 1000.0 < n as real + 1.0)
    ensures value.JNumber? && value.number < 0.0 ==>
      (AsDate(value) == Some(n) <==> n as real - 1.0 < value.number * 1000.0 <= n as real)
  {
    DatesRead(value, n);
    hide AsDate;
  }

  lemma DatesRead(value: Json, n: int)
    ensures AsDate(value).Some? <==> value.JNumber?
    ensures value.JNumber? && value.number >= 0.0 ==>
      (AsDate(value) == Some(n) <==> n as real <= value.number * 1000.0 < n as real + 1.0)
    ensures value.JNumber? && value.number < 0.0 ==>
      (AsDate(value) == Some(n) <==> n as real - 1.0 < value.number * 1000.0 <= n as real)
  {
    if value.JNumber? {
      var ms := value.number * 1000.0;
      FloorExactly(ms, n);
      FloorExactly(-ms, -n);
    }
  }

  lemma FloorExactly(x: real, n: int)
    ensures x.Floor == n <==> n as real <= x < n as real + 1.0
  {
  }

  /** A code is a text of its column's width, with its letters a to z raised. */
  lemma CodeExactly(text: string, length: nat, i: nat)
    ensures AsCode(None, length) == None
    ensures AsCode(Some(text), length).Some? <==> |text| == length
    ensures |text| == length && i < length ==>
      AsCode(Some(text), length).value[i] == if 'a' <= text[i] <= 'z' then text[i] - 'a' + 'A' else text[i]
    ensures |text| == length ==> |AsCode(Some(text), length).value| == length
  {
  }

  /** The invoice's subscription, which lives under `parent`. */
  function ReadSubscriptionId(payload: Json): Option<string> {
    AsId(Get(Get(Get(payload, "parent"), "subscription_details"), "subscription"))
  }
}

module InvoiceMapper {
  import opened Common
  import opened Payloads

  datatype InvoiceStatus = Draft | Open | Paid | Uncollectible | Void

  datatype Columns = Columns(
    providerInvoiceId: string, status: InvoiceStatus, currency: string,
    subtotalMinor: int, taxMinor: int, totalMinor: int,
    taxCountry: Option<string>, issuedAt: Option<int>, paidAt: Option<int>, hostedUrl: Option<string>)

  datatype Mapped = Mapped(columns: Columns, customerId: Option<string>, subscriptionId: Option<string>)

  datatype Reason =
    | NotAnObject | MissingId | UnknownStatus | InvalidCurrency | BadAmounts | BadTaxes | TotalsDisagree

  function ReadInvoiceStatus(value: Option<string>): Option<InvoiceStatus> {
    match value
    case None => None
    case Some(text) =>
      if text == "draft" then Some(Draft)
      else if text == "open" then Some(Open)
      else if text == "paid" then Some(Paid)
      else if text == "uncollectible" then Some(Uncollectible)
      else if text == "void" then Some(Void)
      else None
  }

  // ---------------------------------------------------------------- taxes

  function TaxAmount(entry: Json): Option<int> { if IsRecord(entry) then AsMinorUnits(Get(entry, "amount")) else None }

  ghost predicate AllTaxesRead(entries: seq<Json>) {
    forall i :: 0 <= i < |entries| ==> TaxAmount(entries[i]).Some?
  }

  function TaxSum(entries: seq<Json>): int {
    if entries == [] then 0 else TaxSum(entries[..|entries| - 1]) + TaxAmount(entries[|entries| - 1]).GetOr(0)
  }

  /** No list is no tax; anything but a list of readable amounts is a refusal. */
  ghost function TaxTotal(value: Json): Option<int> {
    if value.JNull? || value.JUndefined? then Some(0)
    else if value.JArray? && AllTaxesRead(value.items) then Some(TaxSum(value.items))
    else None
  }

  method SumTaxes(value: Json) returns (r: Option<int>)
    ensures r == TaxTotal(value)
  {
    if value.JNull? || value.JUndefined? {
      return Some(0);
    }
    if !value.JArray? {
      return None;
    }
    var total, i := 0, 0;
    while i < |value.items|
      invariant i <= |value.items|
      invariant AllTaxesRead(value.items[..i]) && total == TaxSum(value.items[..i])
    {
      var entry := value.items[i];
      if !IsRecord(entry) {
        return None;
      }
      var amount := AsMinorUnits(Get(entry, "amount"));
      if amount.None? {
        return None;
      }
      assert value.items[..i + 1][..i] == value.items[..i];
      total := total + amount.value;
      i := i + 1;
    }
    assert value.items[..i] == value.items;
    return Some(total);
  }

  // ---------------------------------------------------------------- the mapping

  /** What a payload maps to, check by check. */
  ghost function Mapping(payload: Json): Result<Mapped, Reason> {
    if !IsRecord(payload) then Err(NotAnObject) else
    var id := AsString(Get(payload, "id"));
    if id.None? then Err(MissingId) else
    var status := ReadInvoiceStatus(AsString(Get(payload, "status")));
    if status.None? then Err(UnknownStatus) else
    var currency := AsCode(AsString(Get(payload, "currency")), 3);
    if currency.None? then Err(InvalidCurrency) else
    var subtotal, total := AsMinorUnits(Get(payload, "subtotal")), AsMinorUnits(Get(payload, "total"));
    if subtotal.None? || total.None? then Err(BadAmounts) else
    var tax := TaxTotal(Get(payload, "total_taxes"));
    if tax.None? then Err(BadTaxes) else
    if total.value != subtotal.value + tax.value then Err(TotalsDisagree) else
    Ok(Mapped(
      Columns(id.value, status.value, currency.value, subtotal.value, tax.value, total.value,
              AsCode(AsString(Get(Get(payload, "customer_address"), "country")), 2),
              AsDate(Get(payload, "created")),
              if status.value.Paid? then AsDate(Get(Get(payload, "status_transitions"), "paid_at")) else None,
              AsString(Get(payload, "hosted_invoice_url"))),
      AsId(Get(payload, "customer")), ReadSubscriptionId(payload)))
  }

  method MapInvoice(payload: Json) returns (r: Result<Mapped, Reason>)
    ensures r == Mapping(payload)
  {
    if !IsRecord(payload) {
      return Err(NotAnObject);
    }
    var id := AsString(Get(payload, "id"));
    if id.None? {
      return Err(MissingId);
    }
    var status := ReadInvoiceStatus(AsString(Get(payload, "status")));
    if status.None? {
      return Err(UnknownStatus);
    }
    var currency := AsString(Get(payload, "currency"));
    if currency.None? || |currency.value| != 3 {
      return Err(InvalidCurrency);
    }
    var subtotal, total := AsMinorUnits(Get(payload, "subtotal")), AsMinorUnits(Get(payload, "total"));
    if subtotal.None? || total.None? {
      return Err(BadAmounts);
    }
    var tax := SumTaxes(Get(payload, "total_taxes"));
    if tax.None? {
      return Err(BadTaxes);
    }
    if total.value != subtotal.value + tax.value {
      return Err(TotalsDisagree);
    }
    var paidAt := if status.value.Paid? then AsDate(Get(Get(payload, "status_transitions"), "paid_at")) else None;
    var columns := Columns(
      id.value, status.value, Upper(currency.value), subtotal.value, tax.value, total.value,
      AsCode(AsString(Get(Get(payload, "customer_address"), "country")), 2),
      AsDate(Get(payload, "created")), paidAt, AsString(Get(payload, "hosted_invoice_url")));
    return Ok(Mapped(columns, AsId(Get(payload, "customer")), ReadSubscriptionId(payload)));
  }

  /** A text with something in it, as a payload carries it. */
  ghost predicate Legible(value: Json) {
    value.JString? && exists i :: 0 <= i < |value.text| && !IsSpace(value.text[i])
  }

  ghost predicate WholeAmount(value: Json) {
    value.JNumber? && value == JNumber(value.number.Floor as real)
    && -9007199254740991 <= value.number.Floor <= 9007199254740991
  }

  ghost predicate KnownStatus(value: Json) {
    value.JString? && value.text in {"draft", "open", "paid", "uncollectible", "void"}
  }

  ghost predicate TaxesLegible(value: Json) {
    || value.JNull? || value.JUndefined?
    || (value.JArray? && forall i :: 0 <= i < |value.items| ==> WholeAmount(Get(value.items[i], "amount")))
  }

  lemma WholeAmountRead(value: Json)
    ensures WholeAmount(value) <==> AsMinorUnits(value).Some?
    ensures WholeAmount(value) ==> AsMinorUnits(value) == Some(value.number.Floor)
  {
  }

  lemma TaxesLegibleRead(value: Json)
    ensures TaxesLegible(value) <==> TaxTotal(value).Some?
  {
    if value.JArray? {
      forall i | 0 <= i < |value.items|
        ensures WholeAmount(Get(value.items[i], "amount")) <==> TaxAmount(value.items[i]).Some?
      {
        WholeAmountRead(Get(value.items[i], "amount"));
      }
    }
  }

  lemma StatusWords(value: Json)
    ensures KnownStatus(value) <==> ReadInvoiceStatus(AsString(value)).Some?
    ensures ReadInvoiceStatus(AsString(value)) == Some(Paid) <==> value == JString("paid")
    ensures ReadInvoiceStatus(AsString(value)) == Some(Draft) <==> value == JString("draft")
    ensures ReadInvoiceStatus(AsString(value)) == Some(Open) <==> value == JString("open")
    ensures ReadInvoiceStatus(AsString(value)) == Some(Uncollectible) <==> value == JString("uncollectible")
    ensures ReadInvoiceStatus(AsString(value)) == Some(Void) <==> value == JString("void")
  {
    if KnownStatus(value) { assert !IsSpace(value.text[0]); }
  }

  /** A payload is mapped exactly when everything the columns need can be read from it and it balances. */
  lemma MapsExactly(payload: Json)
    ensures Mapping(payload).Ok? <==>
      && Legible(Get(payload, "id")) && KnownStatus(Get(payload, "status"))
      && Legible(Get(payload, "currency")) && |Get(payload, "currency").text| == 3
      && WholeAmount(Get(payload, "subtotal")) && WholeAmount(Get(payload, "total"))
      && TaxesLegible(Get(payload, "total_taxes"))
      && Get(payload, "total").number.Floor
         == Get(payload, "subtotal").number.Floor + TaxTotal(Get(payload, "total_taxes")).value
  {
    WholeAmountRead(Get(payload, "subtotal"));
    WholeAmountRead(Get(payload, "total"));
    TaxesLegibleRead(Get(payload, "total_taxes"));
    StatusWords(Get(payload, "status"));
    LegibleRead(Get(payload, "id"));
    LegibleRead(Get(payload, "currency"));
    assert IsRecord(payload) || Get(payload, "id") == JUndefined;
    hide AsString, AsMinorUnits, ReadInvoiceStatus, TaxTotal, WholeAmount, TaxesLegible, KnownStatus, Legible, Get;
  }

  /** A refusal names the first check that fails. */
  lemma RefusedForTheFirst(payload: Json)
    requires Mapping(payload).Err?
    ensures
      var identified := Legible(Get(payload, "id"));
      var known := identified && KnownStatus(Get(payload, "status"));
      var priced := known && Legible(Get(payload, "currency")) && |Get(payload, "currency").text| == 3;
      var counted := priced && WholeAmount(Get(payload, "subtotal")) && WholeAmount(Get(payload, "total"));
      var taxed := counted && TaxesLegible(Get(payload, "total_taxes"));
      match Mapping(payload).error
      case NotAnObject => !payload.JObject? && !payload.JArray?
      case MissingId => (payload.JObject? || payload.JArray?) && !identified
      case UnknownStatus => identified && !known
      case InvalidCurrency => known && !priced
      case BadAmounts => priced && !counted
      case BadTaxes => counted && !taxed
      case TotalsDisagree => taxed
  {
    WholeAmountRead(Get(payload, "subtotal"));
    WholeAmountRead(Get(payload, "total"));
    TaxesLegibleRead(Get(payload, "total_taxes"));
    StatusWords(Get(payload, "status"));
    LegibleRead(Get(payload, "id"));
    LegibleRead(Get(payload, "currency"));
    hide AsString, AsMinorUnits, ReadInvoiceStatus, TaxTotal, WholeAmount, TaxesLegible, KnownStatus, Legible, Get;
  }

  lemma LegibleRead(value: Json)
    ensures Legible(value) <==> AsString(value).Some?
    ensures AsString(value).Some? ==> value == JString(AsString(value).value)
  {
  }

  /** Each column of a mapped invoice is what its own key of the payload says. */
  lemma MappedByKey(payload: Json)
    requires Mapping(payload).Ok?
    ensures var (mapped, c) := (Mapping(payload).value, Mapping(payload).value.columns);
      && Get(payload, "id") == JString(c.providerInvoiceId)
      && Get(payload, "status") == JString(
           match c.status
           case Draft => "draft" case Open => "open" case Paid => "paid"
           case Uncollectible => "uncollectible" case Void => "void")
      && Get(payload, "subtotal") == JNumber(c.subtotalMinor as real)
      && Get(payload, "total") == JNumber(c.totalMinor as real)
      && Get(payload, "currency").JString? && Some(c.currency) == AsCode(Some(Get(payload, "currency").text), 3)
      && c.taxCountry == AsCode(AsString(Get(Get(payload, "customer_address"), "country")), 2)
      && c.issuedAt == AsDate(Get(payload, "created"))
      && c.paidAt == (if c.status == Paid then AsDate(Get(Get(payload, "status_transitions"), "paid_at")) else None)
      && c.hostedUrl == AsString(Get(payload, "hosted_invoice_url"))
      && mapped.customerId == AsId(Get(payload, "customer"))
      && mapped.subscriptionId
         == AsId(Get(Get(Get(payload, "parent"), "subscription_details"), "subscription"))
  {
    StatusWords(Get(payload, "status"));
    LegibleRead(Get(payload, "id"));
    LegibleRead(Get(payload, "currency"));
    var c := Mapping(payload).value.columns;
    ReadersExactly(Get(payload, "subtotal"), "", c.subtotalMinor);
    ReadersExactly(Get(payload, "total"), "", c.totalMinor);
    hide AsString, AsMinorUnits, ReadInvoiceStatus, TaxTotal, AsDate, AsId, AsCode, Get;
  }

  /** The columns always balance, and the tax is what the payload's own entries add up to. */
  lemma MappedBalances(payload: Json)
    requires Mapping(payload).Ok?
    ensures var c := Mapping(payload).value.columns;
      && c.totalMinor == c.subtotalMinor + c.taxMinor
      && Some(c.totalMinor) == AsMinorUnits(Get(payload, "total"))
      && (Get(payload, "total_taxes").JArray? ==> c.taxMinor == TaxSum(Get(payload, "total_taxes").items))
      && |c.currency| == 3 && (c.taxCountry.Some? ==> |c.taxCountry.value| == 2)
      && (!c.status.Paid? ==> c.paidAt.None?)
  {
  }

  /** A provider that states any other total for the same lines and taxes is refused. */
  lemma OnlyTheBalancedTotal(payload: Json, total: int)
    requires payload.JObject? && Mapping(payload).Ok?
    requires -MAX_SAFE_INTEGER <= total <= MAX_SAFE_INTEGER
    ensures var other := JObject(payload.fields["total" := JNumber(total as real)]);
      var c := Mapping(payload).value.columns;
      if total == c.subtotalMinor + c.taxMinor then Mapping(other) == Mapping(payload)
      else Mapping(other) == Err(TotalsDisagree)
  {
    hide AsString, AsId, AsDate, AsCode, TaxTotal, ReadInvoiceStatus, Mapping;
    var other := JObject(payload.fields["total" := JNumber(total as real)]);
    KeysDiffer();
    OtherKeysKept(payload, "total", JNumber(total as real));
    assert AsMinorUnits(Get(other, "total")) == Some(total);
    SameButTotal(payload, other, total);
  }

  /** The payloads agree on everything the mapping reads but the total. */
  lemma SameButTotal(payload: Json, other: Json, total: int)
    requires IsRecord(other) && Mapping(payload).Ok? && AsMinorUnits(Get(other, "total")) == Some(total)
    requires Get(other, "id") == Get(payload, "id") && Get(other, "status") == Get(payload, "status")
    requires Get(other, "currency") == Get(payload, "currency") && Get(other, "subtotal") == Get(payload, "subtotal")
    requires Get(other, "total_taxes") == Get(payload, "total_taxes")
      && Get(other, "created") == Get(payload, "created")
    requires Get(other, "customer_address") == Get(payload, "customer_address")
    requires Get(other, "status_transitions") == Get(payload, "status_transitions")
    requires Get(other, "hosted_invoice_url") == Get(payload, "hosted_invoice_url")
    requires Get(other, "customer") == Get(payload, "customer")
    requires ReadSubscriptionId(other) == ReadSubscriptionId(payload)
    ensures var c := Mapping(payload).value.columns;
      if total == c.subtotalMinor + c.taxMinor then Mapping(other) == Mapping(payload)
      else Mapping(other) == Err(TotalsDisagree)
  {
    hide AsString, AsId, AsDate, AsCode, AsMinorUnits, TaxTotal, ReadInvoiceStatus, Get, ReadSubscriptionId, IsRecord;
    assert Mapping(payload).Ok? ==> IsRecord(payload);
  }

  lemma OtherKeysKept(payload: Json, key: string, value: Json)
    requires payload.JObject?
    ensures forall other :: other != key ==> Get(JObject(payload.fields[key := value]), other) == Get(payload, other)
  {
  }

  lemma KeysDiffer()
    ensures "total" !in {"id", "status", "currency", "subtotal", "total_taxes", "customer_address", "created",
                         "status_transitions", "hosted_invoice_url", "customer", "parent"}
  {
    assert |"total"| == 5;
  }

  /** Splitting a tax list does not change what is mapped: entries add up in any grouping. */
  lemma {:induction false} TaxesAdd(first: seq<Json>, second: seq<Json>)
    ensures TaxSum(first + second) == TaxSum(first) + TaxSum(second)
    decreases |second|
  {
    if second == [] {
      assert first + second == first;
    } else {
      var init := second[..|second| - 1];
      TaxesAdd(first, init);
      assert (first + second)[..|first + second| - 1] == first + init;
    }
  }
}
