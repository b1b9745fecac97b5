/**
 * Properties of the bond event converters: what makes a conversion fail and
 * which failure is reported, what a successful conversion returns, and that
 * only the presence of fields matters.
 */
module BondEventProperties {
  import opened Wrappers
  import opened BondEvents

  /** The first-absent search looks only at which names are keys of the bag. */
  lemma FirstAbsentDependsOnKeys(fields: seq<string>, b1: FieldBag, b2: FieldBag)
    requires b1.Keys == b2.Keys
    ensures FirstAbsent(fields, b1) == FirstAbsent(fields, b2)
  {
  }

  /** Whether a conversion succeeds, and which check it reports when it does
      not, depend only on which fields are present: not on their values, and
      not on the event's own name. */
  lemma PresenceOnly(kind: Kind, e1: DecodedEvent, e2: DecodedEvent)
    requires e1.args.None? <==> e2.args.None?
    requires e1.args.Some? ==> e1.args.value.Keys == e2.args.value.Keys
    ensures Convert(kind, e1).Success? <==> Convert(kind, e2).Success?
    ensures Convert(kind, e1).Failure? ==> Convert(kind, e1).error == Convert(kind, e2).error
  {
  }

  /** A missing argument bag is reported for every kind, whatever the event's name. */
  lemma NoArgsFailsForEveryKind(name: string)
    ensures forall kind :: Convert(kind, DecodedEvent(name, None)) == Failure(ArgsMissing)
  {
  }

  /** When a schema field is absent, conversion fails and reports that field
      or one that comes before it in the schema. */
  lemma EarliestFailureReported(kind: Kind, bag: FieldBag, name: string, i: nat)
    requires i < |Schema(kind)| && Schema(kind)[i] !in bag
    ensures Convert(kind, DecodedEvent(name, Some(bag))).Failure?
    ensures exists j :: 0 <= j <= i && Convert(kind, DecodedEvent(name, Some(bag))) == Failure(FieldMissing(Schema(kind)[j]))
  {
  }

  /** With a single schema field missing and all others present, the missing
      field is the one reported. */
  lemma OmitOneField(kind: Kind, bag: FieldBag, name: string, f: string)
    requires f in Schema(kind)
    requires forall g :: g in Schema(kind) && g != f ==> g in bag
    ensures Convert(kind, DecodedEvent(name, Some(bag - {f}))) == Failure(FieldMissing(f))
  {
  }

  /** A bag holding exactly the schema fields converts to itself, for every kind. */
  lemma ExactFieldsConvertUnchanged(kind: Kind, bag: FieldBag, name: string)
    requires forall f :: f in bag <==> f in Schema(kind)
    ensures Convert(kind, DecodedEvent(name, Some(bag))) == Success(bag)
  {
    var r := Convert(kind, DecodedEvent(name, Some(bag)));
    assert AllPresent(Schema(kind), bag);
    assert r.value == bag;
  }

  /** AllowRedemption's record has exactly the keys authorizer and reason,
      whatever else the argument bag carries. */
  lemma AllowRedemptionExactKeys(ev: DecodedEvent)
    requires Convert(AllowRedemption, ev).Success?
    ensures Convert(AllowRedemption, ev).value.Keys == {"authorizer", "reason"}
  {
  }

  /** Every other kind returns the argument bag itself, extra fields included. */
  lemma PassThrough(kind: Kind, ev: DecodedEvent)
    requires kind != AllowRedemption
    requires Convert(kind, ev).Success?
    ensures Convert(kind, ev).value == ev.args.value
  {
  }

  /** Extra fields never cause a violation; AllowRedemption's record is the
      same with or without them. */
  lemma ExtraFieldsTolerated(kind: Kind, bag: FieldBag, extra: FieldBag, name: string)
    requires Convert(kind, DecodedEvent(name, Some(bag))).Success?
    requires forall f :: f in extra ==> f !in Schema(kind)
    ensures Convert(kind, DecodedEvent(name, Some(bag + extra))).Success?
    ensures kind == AllowRedemption ==>
              Convert(kind, DecodedEvent(name, Some(bag + extra))) == Convert(kind, DecodedEvent(name, Some(bag)))
  {
    var fields := Schema(kind);
    assert AllPresent(fields, bag);
    assert AllPresent(fields, bag + extra);
    if kind == AllowRedemption {
      var r1 := Convert(kind, DecodedEvent(name, Some(bag + extra))).value;
      var r2 := Convert(kind, DecodedEvent(name, Some(bag))).value;
      assert r1 == r2;
    }
  }

  /** Converting a record a second time, as a fresh event, gives it back unchanged. */
  lemma ReconvertIdempotent(kind: Kind, ev: DecodedEvent, name: string)
    requires Convert(kind, ev).Success?
    ensures Convert(kind, DecodedEvent(name, Some(Convert(kind, ev).value))) == Convert(kind, ev)
  {
    var r := Convert(kind, ev).value;
    assert AllPresent(Schema(kind), r);
    if kind == AllowRedemption {
      var r2 := Convert(kind, DecodedEvent(name, Some(r))).value;
      assert r2 == r;
    }
  }

  /** DebtIssue requires the key `debSymbol`: without it the conversion fails. */
  lemma DebSymbolRequired(ev: DecodedEvent)
    requires ev.args.Some? && "debSymbol" !in ev.args.value
    ensures Convert(DebtIssue, ev).Failure?
  {
  }

  /** A DebtIssue bag spelling the field `debtSymbol` is rejected for lacking `debSymbol`. */
  lemma DebtSymbolSpellingRejected(receiver: Value, symbol: Value, amount: Value)
    ensures var bag := map["receiver" := receiver, "debtSymbol" := symbol, "debtAmount" := amount];
            Convert(DebtIssue, DecodedEvent("DebtIssue", Some(bag))) == Failure(FieldMissing("debSymbol"))
  {
    var bag := map["receiver" := receiver, "debtSymbol" := symbol, "debtAmount" := amount];
    assert "debSymbol" !in bag;
    assert FirstAbsent(Schema(DebtIssue), bag) == Some(1);
  }

  /** A Redemption event with its five fields converts unchanged; without
      `debtAmount` it fails naming that field. */
  lemma RedemptionExample()
    ensures var bag := map["redeemer" := Str("0xABC"), "debtSymbol" := Str("DBT"), "debtAmount" := Num(1000),
                           "collateralSymbol" := Str("COL"), "collateralAmount" := Num(500)];
            && Convert(Redemption, DecodedEvent("Redemption", Some(bag))) == Success(bag)
            && Convert(Redemption, DecodedEvent("Redemption", Some(bag - {"debtAmount"})))
               == Failure(FieldMissing("debtAmount"))
  {
  }

  /** PartialCollateral with both collateralAmount and debtSymbol absent
      reports collateralAmount, the earlier of the two. */
  lemma PartialCollateralFirstFailure(bag: FieldBag)
    requires "collateralSymbol" in bag
    requires "collateralAmount" !in bag && "debtSymbol" !in bag
    ensures Convert(PartialCollateral, DecodedEvent("PartialCollateral", Some(bag)))
            == Failure(FieldMissing("collateralAmount"))
  {
    assert FirstAbsent(Schema(PartialCollateral), bag) == Some(1);
  }
}
