/** The recovery snapshot of a payment: built from a transaction, stored as JSON, and strictly parsed back. */
module Snapshot {
  import opened Common
  import Pricing
  import opened DecimalText
  import UuidText

  /** The field names the snapshot uses, and any other. */
  datatype Key =
    | VersionKey | UserIdKey | PurchaseTypeKey | GatewayTypeKey | GatewayDisplayNameKey | PaymentMethodKey | PricingKey
    | CurrencyKey | PlanKey | OriginalAmountKey | DiscountPercentKey | FinalAmountKey | IdKey | NameKey | TagKey | TypeKey
    | TrafficLimitStrategyKey | TrafficLimitKey | DeviceLimitKey | DurationKey | InternalSquadsKey | ExternalSquadKey
    | IsTrialKey | OtherKey(name: string)

  datatype Value =
    | Null | Bool(b: bool) | Int(n: int) | Float(r: real) | Text(s: string) | List(items: seq<Value>)
    | Object(fields: map<Key, Value>)

  type Uuid = UuidText.Uuid

  const VERSION := 1
  const PURCHASE_TYPES := {"NEW", "RENEW", "CHANGE"}
  const GATEWAYS := {
    "TELEGRAM_STARS", "YOOKASSA", "YOOMONEY", "VALUTIX", "CRYPTOMUS", "HELEKET", "CRYPTOPAY", "FREEKASSA", "MULENPAY",
    "PAYMASTER", "PLATEGA", "ROBOKASSA", "URLPAY", "WATA", "ROLLYPAY" }
  const CURRENCIES := {"USD", "XTR", "RUB"}
  const STRATEGIES := {"NO_RESET", "DAY", "WEEK", "MONTH", "MONTH_ROLLING"}
  const PLAN_TYPES := {"TRAFFIC", "DEVICES", "BOTH", "UNLIMITED"}

  datatype PriceDetails = PriceDetails(original: Decimal, discount: int, final: Decimal)

  datatype Plan = Plan(
    id: int, name: string, tag: Option<string>, kind: string, strategy: string, trafficLimit: int, deviceLimit: int,
    duration: int, internalSquads: seq<Uuid>, externalSquad: Option<Uuid>, isTrial: bool)

  datatype Status = Pending | Completed | Canceled | Refunded | Failed

  datatype Transaction = Transaction(
    payment: Uuid, user: int, status: Status, purchaseType: string, gateway: string, displayName: Option<string>,
    paymentMethod: Option<string>, pricing: PriceDetails, currency: string, plan: Plan)

  // ---------------------------------------------------------------- building

  function OptionalText(s: Option<string>): Value {
    if s.Some? then Text(s.value) else Null
  }

  function BuildPricing(p: PriceDetails): Value {
    Object(map[OriginalAmountKey := Text(DecimalText.Print(p.original)), DiscountPercentKey := Int(p.discount),
               FinalAmountKey := Text(DecimalText.Print(p.final))])
  }

  function BuildSquads(squads: seq<Uuid>): (items: seq<Value>)
    ensures |items| == |squads|
  {
    if squads == [] then [] else [Text(UuidText.Print(squads[0]))] + BuildSquads(squads[1..])
  }

  function OptionalUuid(u: Option<Uuid>): Value {
    if u.Some? then Text(UuidText.Print(u.value)) else Null
  }

  function BuildPlan(p: Plan): Value {
    Object(map[
      IdKey := Int(p.id), NameKey := Text(p.name), TagKey := OptionalText(p.tag), TypeKey := Text(p.kind),
      TrafficLimitStrategyKey := Text(p.strategy), TrafficLimitKey := Int(p.trafficLimit),
      DeviceLimitKey := Int(p.deviceLimit), DurationKey := Int(p.duration),
      InternalSquadsKey := List(BuildSquads(p.internalSquads)),
      ExternalSquadKey := OptionalUuid(p.externalSquad),
      IsTrialKey := Bool(p.isTrial)])
  }

  /** Its enumerations hold members of theirs. */
  predicate KnownNames(t: Transaction) {
    && t.purchaseType in PURCHASE_TYPES && t.gateway in GATEWAYS && t.currency in CURRENCIES
    && t.plan.kind in PLAN_TYPES && t.plan.strategy in STRATEGIES
  }

  function Build(t: Transaction): Option<Value> {
    if !KnownNames(t) then None
    else Some(Object(map[
      VersionKey := Int(VERSION), UserIdKey := Int(t.user), PurchaseTypeKey := Text(t.purchaseType),
      GatewayTypeKey := Text(t.gateway), GatewayDisplayNameKey := OptionalText(t.displayName),
      PaymentMethodKey := OptionalText(t.paymentMethod), PricingKey := BuildPricing(t.pricing),
      CurrencyKey := Text(t.currency), PlanKey := BuildPlan(t.plan)]))
  }

  // ---------------------------------------------------------------- parsing

  function StrictInt(v: Value, minimum: int): Option<int> {
    if v.Int? && v.n >= minimum then Some(v.n) else None
  }

  function StrictText(v: Value): Option<string> {
    if v.Text? && v.s != "" then Some(v.s) else None
  }

  /** An optional text is absent, or a text that is not empty; `None` here is the parser's error. */
  function ReadOptional(v: Value): Option<Option<string>> {
    if v.Null? then Some(None) else if StrictText(v).Some? then Some(StrictText(v)) else None
  }

  function Named(v: Value, names: set<string>): Option<string> {
    if StrictText(v).Some? && v.s in names then Some(v.s) else None
  }

  function ReadNumber(v: Value): Option<Decimal> {
    if StrictText(v).None? then None
    else
      var d := DecimalText.Read(v.s);
      if d.None? || ValueOf(d.value) < 0.0 then None else d
  }

  function ReadPricing(v: Value): Option<PriceDetails> {
    if !v.Object? || v.fields.Keys != {OriginalAmountKey, DiscountPercentKey, FinalAmountKey} then None
    else
      var original := ReadNumber(v.fields[OriginalAmountKey]);
      var discount := StrictInt(v.fields[DiscountPercentKey], 0);
      var final := ReadNumber(v.fields[FinalAmountKey]);
      if original.None? || discount.None? || final.None? then None
      else if discount.value > 100 || ValueOf(final.value) > ValueOf(original.value) then None
      else Some(PriceDetails(original.value, discount.value, final.value))
  }

  function ReadSquads(items: seq<Value>): Option<seq<Uuid>> {
    if items == [] then Some([])
    else if StrictText(items[0]).None? || UuidText.Read(items[0].s).None? then None
    else
      var rest := ReadSquads(items[1..]);
      if rest.None? then None else Some([UuidText.Read(items[0].s).value] + rest.value)
  }

  predicate Falsy(v: Value) {
    match v
    case Null => true
    case Bool(b) => !b
    case Int(n) => n == 0
    case Float(r) => r == 0.0
    case Text(s) => s == ""
    case List(items) => items == []
    case Object(fields) => fields == map[]
  }

  function ReadExternal(v: Value): Option<Option<Uuid>> {
    if Falsy(v) then Some(None)
    else if v.Text? && UuidText.Read(v.s).Some? then Some(UuidText.Read(v.s))
    else None
  }

  const PLAN_KEYS := {
    IdKey, NameKey, TagKey, TypeKey, TrafficLimitStrategyKey, TrafficLimitKey, DeviceLimitKey, DurationKey, InternalSquadsKey,
    ExternalSquadKey, IsTrialKey }

  function ReadPlan(v: Value): Option<Plan> {
    if !v.Object? || v.fields.Keys != PLAN_KEYS || !v.fields[InternalSquadsKey].List? then None
    else
      var f := v.fields;
      var id := StrictInt(f[IdKey], 0);
      var name := StrictText(f[NameKey]);
      var tag := ReadOptional(f[TagKey]);
      var kind := Named(f[TypeKey], PLAN_TYPES);
      var strategy := Named(f[TrafficLimitStrategyKey], STRATEGIES);
      var traffic := StrictInt(f[TrafficLimitKey], 0);
      var devices := StrictInt(f[DeviceLimitKey], 0);
      var duration := StrictInt(f[DurationKey], 0);
      var squads := ReadSquads(f[InternalSquadsKey].items);
      var external := ReadExternal(f[ExternalSquadKey]);
      if id.None? || name.None? || tag.None? || kind.None? || strategy.None? || traffic.None? || devices.None?
         || duration.None? || squads.None? || external.None? || !f[IsTrialKey].Bool?
      then None
      else Some(Plan(id.value, name.value, tag.value, kind.value, strategy.value, traffic.value, devices.value,
                     duration.value, squads.value, external.value, f[IsTrialKey].b))
  }

  const KEYS := {
    VersionKey, UserIdKey, PurchaseTypeKey, GatewayTypeKey, GatewayDisplayNameKey, PaymentMethodKey, PricingKey, CurrencyKey,
    PlanKey }

  /** `transaction_from_resolved_snapshot`; `None` is its error. */
  function Parse(snapshot: Value, user: int, payment: Uuid): Option<Transaction> {
    if !snapshot.Object? || snapshot.fields.Keys != KEYS then None
    else
      var f := snapshot.fields;
      if StrictInt(f[VersionKey], 1) != Some(VERSION) || StrictInt(f[UserIdKey], 1) != Some(user) then None
      else
        var purchase := Named(f[PurchaseTypeKey], PURCHASE_TYPES);
        var gateway := Named(f[GatewayTypeKey], GATEWAYS);
        var displayName := ReadOptional(f[GatewayDisplayNameKey]);
        var paymentMethod := ReadOptional(f[PaymentMethodKey]);
        var pricing := ReadPricing(f[PricingKey]);
        var currency := Named(f[CurrencyKey], CURRENCIES);
        var plan := ReadPlan(f[PlanKey]);
        if purchase.None? || gateway.None? || displayName.None? || paymentMethod.None? || pricing.None? || currency.None? || plan.None?
        then None
        else Some(Transaction(payment, user, Pending, purchase.value, gateway.value, displayName.value, paymentMethod.value,
                              pricing.value, currency.value, plan.value))
  }

  /** Amounts are compared as numbers. */
  predicate SamePricing(p: PriceDetails, q: PriceDetails) {
    ValueOf(p.original) == ValueOf(q.original) && p.discount == q.discount && ValueOf(p.final) == ValueOf(q.final)
  }

  /** `_transactions_match`: everything but the status. */
  predicate Matches(actual: Transaction, expected: Transaction) {
    SamePricing(actual.pricing, expected.pricing)
    && actual.(status := expected.status, pricing := expected.pricing) == expected
  }

  // ---------------------------------------------------------------- properties

  predicate NotBlank(s: Option<string>) {
    s != Some("")
  }

  predicate PricingRecoverable(p: PriceDetails) {
    0.0 <= ValueOf(p.final) <= ValueOf(p.original) && 0 <= p.discount <= 100
  }

  predicate PlanRecoverable(p: Plan) {
    && p.id >= 0 && p.name != "" && NotBlank(p.tag)
    && p.trafficLimit >= 0 && p.deviceLimit >= 0 && p.duration >= 0
  }

  predicate Recoverable(t: Transaction) {
    t.user >= 1 && NotBlank(t.displayName) && NotBlank(t.paymentMethod) && PricingRecoverable(t.pricing) && PlanRecoverable(t.plan)
  }

  lemma {:induction false} SquadsRoundTrip(squads: seq<Uuid>)
    ensures ReadSquads(BuildSquads(squads)) == Some(squads)
  {
    hide UuidText.Print, UuidText.Read;
    if squads != [] {
      UuidText.UuidRoundTrip(squads[0]);
      SquadsRoundTrip(squads[1..]);
      assert BuildSquads(squads)[1..] == BuildSquads(squads[1..]);
      assert squads == [squads[0]] + squads[1..];
    }
  }

  lemma PricingRoundTrip(p: PriceDetails)
    ensures ReadPricing(BuildPricing(p)) == if PricingRecoverable(p) then Some(p) else None
  {
    hide DecimalText.Print, DecimalText.Read, ValueOf;
    DecimalRoundTrip(p.original);
    DecimalRoundTrip(p.final);
    var f := BuildPricing(p).fields;
    assert f.Keys == {OriginalAmountKey, DiscountPercentKey, FinalAmountKey};
  }

  lemma OptionalRoundTrip(s: Option<string>)
    ensures ReadOptional(OptionalText(s)) == if NotBlank(s) then Some(s) else None
  {
  }

  lemma UuidRoundTrip(u: Option<Uuid>)
    ensures ReadExternal(OptionalUuid(u)) == Some(u)
  {
    hide UuidText.Print, UuidText.Read;
    if u.Some? {
      UuidText.UuidRoundTrip(u.value);
    }
  }

  lemma NameRoundTrip(name: string, names: set<string>)
    requires name in names && "" !in names
    ensures Named(Text(name), names) == Some(name)
  {
  }

  lemma PlanRoundTrip(p: Plan)
    requires p.kind in PLAN_TYPES && p.strategy in STRATEGIES
    ensures ReadPlan(BuildPlan(p)) == if PlanRecoverable(p) then Some(p) else None
  {
    hide ReadOptional, OptionalText, Named, ReadExternal, OptionalUuid, ReadSquads, BuildSquads, NotBlank;
    SquadsRoundTrip(p.internalSquads);
    OptionalRoundTrip(p.tag);
    UuidRoundTrip(p.externalSquad);
    NameRoundTrip(p.kind, PLAN_TYPES);
    NameRoundTrip(p.strategy, STRATEGIES);
    PlanKeys(p);
  }

  lemma PlanKeys(p: Plan)
    ensures BuildPlan(p).fields.Keys == PLAN_KEYS
  {
  }

  /**
   The snapshot of a transaction is read back, by its owner and for its payment, exactly when the transaction
   is recoverable; what is read is pending and matches the original. Anyone else is refused.
   */
  lemma SnapshotRoundTrip(t: Transaction, user: int, payment: Uuid)
    requires KnownNames(t)
    ensures Build(t).Some?
    ensures var r := Parse(Build(t).value, user, payment);
            && (r.Some? <==> user == t.user && Recoverable(t))
            && (r.Some? ==> r.value == t.(status := Pending, payment := payment) && (payment == t.payment ==> Matches(t, r.value)))
  {
    hide BuildPlan, BuildPricing, ReadPlan, ReadPricing, ReadOptional, OptionalText, Named, NotBlank, PricingRecoverable,
         PlanRecoverable;
    var f := Build(t).value.fields;
    assert f.Keys == KEYS;
    OptionalRoundTrip(t.displayName);
    OptionalRoundTrip(t.paymentMethod);
    NameRoundTrip(t.purchaseType, PURCHASE_TYPES);
    NameRoundTrip(t.gateway, GATEWAYS);
    NameRoundTrip(t.currency, CURRENCIES);
    PricingRoundTrip(t.pricing);
    PlanRoundTrip(t.plan);
  }

  /** Building fails exactly for a name outside its enumeration. */
  lemma BuildsIff(t: Transaction)
    ensures Build(t).Some? <==> KnownNames(t)
  {
  }

  /** Whatever is accepted is recoverable, and its own snapshot gives it back. */
  lemma AcceptedIsStable(snapshot: Value, user: int, payment: Uuid)
    ensures var r := Parse(snapshot, user, payment);
            r.Some? ==>
              && Recoverable(r.value) && KnownNames(r.value)
              && Build(r.value).Some? && Parse(Build(r.value).value, user, payment) == r
  {
    hide BuildPlan, BuildPricing, Build, DecimalText.Read, UuidText.Read, ValueOf, ReadPlan, ReadPricing, PlanRecoverable,
         PricingRecoverable;
    var r := Parse(snapshot, user, payment);
    if r.Some? {
      AcceptedPlan(snapshot.fields[PlanKey]);
      AcceptedPricing(snapshot.fields[PricingKey]);
      SnapshotRoundTrip(r.value, user, payment);
    }
  }

  lemma AcceptedPricing(v: Value)
    ensures ReadPricing(v).Some? ==> PricingRecoverable(ReadPricing(v).value)
  {
    hide DecimalText.Read, ValueOf;
  }

  lemma AcceptedPlan(v: Value)
    ensures ReadPlan(v).Some? ==>
              && PlanRecoverable(ReadPlan(v).value)
              && ReadPlan(v).value.kind in PLAN_TYPES && ReadPlan(v).value.strategy in STRATEGIES
  {
    hide UuidText.Read;
  }

  /** A snapshot with a field too many, or one too few, is refused. */
  lemma ShapeIsExact(snapshot: Value, user: int, payment: Uuid)
    ensures Parse(snapshot, user, payment).Some? ==>
              && snapshot.Object? && snapshot.fields.Keys == KEYS
              && snapshot.fields[PlanKey].Object? && snapshot.fields[PlanKey].fields.Keys == PLAN_KEYS
  {
  }

  /** Every price the pricing service computes from a parsed price passes the snapshot's own check. */
  lemma ComputedPricesAreRecoverable(price: real, discount: nat, currency: Pricing.Currency, original: Decimal, final: Decimal)
    requires Pricing.Settled(price, currency)
    requires ValueOf(original) == Pricing.Calculate(price, discount, currency).original
    requires ValueOf(final) == Pricing.Calculate(price, discount, currency).final
    ensures PricingRecoverable(PriceDetails(original, Pricing.Calculate(price, discount, currency).discount, final))
  {
    Pricing.PricesAreRecoverable(price, discount, currency);
  }

  /** Amounts that the pricing service settles on are decimals, so every computed price has a snapshot. */
  lemma SettledAmountsAreDecimals(price: real, currency: Pricing.Currency) returns (d: Decimal)
    requires Pricing.Settled(price, currency)
    ensures ValueOf(d) == price
  {
    Pricing.SettledIff(price, currency);
    if currency == Pricing.USD {
      d := Decimal(false, (100.0 * price).Floor, -2);
      assert Scale(-2) == 0.01;
    } else {
      d := Decimal(false, price.Floor, 0);
      assert Scale(0) == 1.0;
    }
  }

  lemma ComputedPricesAreDecimals(price: real, discount: nat, currency: Pricing.Currency)
    returns (original: Decimal, final: Decimal)
    requires Pricing.Settled(price, currency)
    ensures ValueOf(original) == Pricing.Calculate(price, discount, currency).original
    ensures ValueOf(final) == Pricing.Calculate(price, discount, currency).final
  {
    original := SettledAmountsAreDecimals(price, currency);
    Pricing.RulesAreIdempotent(Pricing.Discounted(price, discount), currency);
    Pricing.RulesArePositive(Pricing.Discounted(price, discount), currency);
    final := SettledAmountsAreDecimals(Pricing.Calculate(price, discount, currency).final, currency);
  }
}
