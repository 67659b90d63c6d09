/** Which JSON values the recovery parser accepts for which transaction: those that spell it, field by field. */
module SnapshotSpelling {
  import opened Common
  import opened DecimalText
  import UuidText
  import opened Snapshot

  predicate SpellsText(v: Value, s: Option<string>) {
    match s
    case None => v == Null
    case Some(text) => v == Text(text)
  }

  /** Any text that Python reads as this decimal. */
  predicate SpellsAmount(v: Value, d: Decimal) {
    v.Text? && v.s != "" && DecimalText.Read(v.s) == Some(d)
  }

  predicate SpellsUuid(v: Value, u: Uuid) {
    v.Text? && v.s != "" && UuidText.Read(v.s) == Some(u)
  }

  /** Whatever Python takes for false stands for no squad. */
  predicate SpellsOptionalUuid(v: Value, u: Option<Uuid>) {
    match u
    case Some(id) => SpellsUuid(v, id)
    case None => v in [Null, Bool(false), Int(0), Float(0.0), Text(""), List([]), Object(map[])]
  }

  predicate SpellsPricing(v: Value, p: PriceDetails) {
    && v.Object? && v.fields.Keys == {OriginalAmountKey, DiscountPercentKey, FinalAmountKey}
    && SpellsAmount(v.fields[OriginalAmountKey], p.original) && v.fields[DiscountPercentKey] == Int(p.discount)
    && SpellsAmount(v.fields[FinalAmountKey], p.final)
  }

  predicate SpellsSquads(v: Value, squads: seq<Uuid>) {
    v.List? && |v.items| == |squads| && forall i :: 0 <= i < |squads| ==> SpellsUuid(v.items[i], squads[i])
  }

  predicate SpellsPlan(v: Value, p: Plan) {
    && v.Object?
    && v.fields.Keys == {IdKey, NameKey, TagKey, TypeKey, TrafficLimitStrategyKey, TrafficLimitKey, DeviceLimitKey, DurationKey,
                         InternalSquadsKey, ExternalSquadKey, IsTrialKey}
    && v.fields[IdKey] == Int(p.id) && v.fields[NameKey] == Text(p.name) && SpellsText(v.fields[TagKey], p.tag)
    && v.fields[TypeKey] == Text(p.kind) && v.fields[TrafficLimitStrategyKey] == Text(p.strategy)
    && v.fields[TrafficLimitKey] == Int(p.trafficLimit) && v.fields[DeviceLimitKey] == Int(p.deviceLimit)
    && v.fields[DurationKey] == Int(p.duration) && SpellsSquads(v.fields[InternalSquadsKey], p.internalSquads)
    && SpellsOptionalUuid(v.fields[ExternalSquadKey], p.externalSquad) && v.fields[IsTrialKey] == Bool(p.isTrial)
  }

  predicate Spells(v: Value, t: Transaction) {
    && v.Object?
    && v.fields.Keys == {VersionKey, UserIdKey, PurchaseTypeKey, GatewayTypeKey, GatewayDisplayNameKey, PaymentMethodKey, PricingKey,
                         CurrencyKey, PlanKey}
    && v.fields[VersionKey] == Int(1) && v.fields[UserIdKey] == Int(t.user)
    && v.fields[PurchaseTypeKey] == Text(t.purchaseType) && v.fields[GatewayTypeKey] == Text(t.gateway)
    && SpellsText(v.fields[GatewayDisplayNameKey], t.displayName) && SpellsText(v.fields[PaymentMethodKey], t.paymentMethod)
    && SpellsPricing(v.fields[PricingKey], t.pricing) && v.fields[CurrencyKey] == Text(t.currency)
    && SpellsPlan(v.fields[PlanKey], t.plan)
  }

  // ---------------------------------------------------------------- the readers

  lemma ReadPricingIff(v: Value, p: PriceDetails)
    ensures ReadPricing(v) == Some(p) <==> SpellsPricing(v, p) && PricingRecoverable(p)
  {
    hide DecimalText.Read, ValueOf;
  }

  lemma {:induction false} ReadSquadsIff(items: seq<Value>, squads: seq<Uuid>)
    ensures ReadSquads(items) == Some(squads) <==> SpellsSquads(List(items), squads)
    decreases |items|
  {
    hide UuidText.Read;
    if items != [] && squads != [] {
      ReadSquadsIff(items[1..], squads[1..]);
      SpellsFirst(items, squads);
      assert squads == [squads[0]] + squads[1..];
    }
  }

  lemma SpellsFirst(items: seq<Value>, squads: seq<Uuid>)
    requires items != [] && squads != []
    ensures SpellsSquads(List(items), squads) <==> SpellsUuid(items[0], squads[0]) && SpellsSquads(List(items[1..]), squads[1..])
  {
    hide UuidText.Read;
    if SpellsUuid(items[0], squads[0]) && SpellsSquads(List(items[1..]), squads[1..]) {
      forall i | 0 <= i < |squads|
        ensures SpellsUuid(items[i], squads[i])
      {
        assert i > 0 ==> items[i] == items[1..][i - 1] && squads[i] == squads[1..][i - 1];
      }
    }
  }

  lemma ReadOptionalIff(v: Value, s: Option<string>)
    ensures ReadOptional(v) == Some(s) <==> SpellsText(v, s) && NotBlank(s)
  {
  }

  lemma ReadExternalIff(v: Value, u: Option<Uuid>)
    ensures ReadExternal(v) == Some(u) <==> SpellsOptionalUuid(v, u)
  {
    hide UuidText.Read;
  }

  lemma NamedIff(v: Value, name: string, names: set<string>)
    requires "" !in names
    ensures Named(v, names) == Some(name) <==> v == Text(name) && name in names
  {
  }

  lemma ReadPlanIff(v: Value, p: Plan)
    ensures ReadPlan(v) == Some(p) <==>
              SpellsPlan(v, p) && PlanRecoverable(p) && p.kind in PLAN_TYPES && p.strategy in STRATEGIES
  {
    hide ReadSquads, ReadOptional, ReadExternal, Named, SpellsSquads, SpellsOptionalUuid, SpellsText, NotBlank;
    if v.Object? && v.fields.Keys == PLAN_KEYS && v.fields[InternalSquadsKey].List? {
      var f := v.fields;
      ReadSquadsIff(f[InternalSquadsKey].items, p.internalSquads);
      ReadOptionalIff(f[TagKey], p.tag);
      ReadExternalIff(f[ExternalSquadKey], p.externalSquad);
      NamedIff(f[TypeKey], p.kind, PLAN_TYPES);
      NamedIff(f[TrafficLimitStrategyKey], p.strategy, STRATEGIES);
    } else if v.Object? && v.fields.Keys == PLAN_KEYS {
      SquadsAreListed(v.fields[InternalSquadsKey], p.internalSquads);
    }
  }

  lemma SquadsAreListed(v: Value, squads: seq<Uuid>)
    ensures SpellsSquads(v, squads) ==> v.List?
  {
  }

  /** A snapshot is accepted for a transaction if and only if it spells it, for its owner, and the transaction is recoverable. */
  lemma AcceptedIff(snapshot: Value, user: int, payment: Uuid, t: Transaction)
    ensures Parse(snapshot, user, payment) == Some(t) <==>
              && Spells(snapshot, t) && Recoverable(t) && KnownNames(t)
              && t.user == user && t.payment == payment && t.status == Pending
  {
    hide ReadPlan, ReadPricing, ReadOptional, Named, NotBlank, SpellsText, SpellsPlan, SpellsPricing, PricingRecoverable,
         PlanRecoverable;
    if snapshot.Object? && snapshot.fields.Keys == KEYS {
      var f := snapshot.fields;
      ReadOptionalIff(f[GatewayDisplayNameKey], t.displayName);
      ReadOptionalIff(f[PaymentMethodKey], t.paymentMethod);
      ReadPricingIff(f[PricingKey], t.pricing);
      ReadPlanIff(f[PlanKey], t.plan);
      NamedIff(f[PurchaseTypeKey], t.purchaseType, PURCHASE_TYPES);
      NamedIff(f[GatewayTypeKey], t.gateway, GATEWAYS);
      NamedIff(f[CurrencyKey], t.currency, CURRENCIES);
    }
  }

  lemma BuiltPricingSpells(p: PriceDetails)
    ensures SpellsPricing(BuildPricing(p), p)
  {
    hide DecimalText.Read, DecimalText.Print;
    DecimalRoundTrip(p.original);
    DecimalRoundTrip(p.final);
    NothingIsEmpty(p.original);
    NothingIsEmpty(p.final);
    assert BuildPricing(p).fields.Keys == {OriginalAmountKey, DiscountPercentKey, FinalAmountKey};
  }

  lemma BuiltPlanSpells(p: Plan)
    ensures SpellsPlan(BuildPlan(p), p)
  {
    hide SpellsSquads, BuildSquads, SpellsOptionalUuid, OptionalUuid;
    BuiltUuids(p);
    PlanKeys(p);
  }

  /** What the service builds spells the transaction it was built from. */
  lemma BuiltSpells(t: Transaction)
    requires KnownNames(t)
    ensures Build(t).Some? && Spells(Build(t).value, t)
  {
    hide BuildPlan, BuildPricing, SpellsPlan, SpellsPricing;
    BuiltPricingSpells(t.pricing);
    BuiltPlanSpells(t.plan);
    assert Build(t).value.fields.Keys == KEYS;
  }

  lemma NothingIsEmpty(d: Decimal)
    ensures DecimalText.Print(d) != ""
  {
  }

  lemma BuiltUuids(p: Plan)
    ensures SpellsSquads(List(BuildSquads(p.internalSquads)), p.internalSquads)
    ensures SpellsOptionalUuid(OptionalUuid(p.externalSquad), p.externalSquad)
  {
    SquadsRoundTrip(p.internalSquads);
    ReadSquadsIff(BuildSquads(p.internalSquads), p.internalSquads);
    UuidRoundTrip(p.externalSquad);
    ReadExternalIff(OptionalUuid(p.externalSquad), p.externalSquad);
  }
}
