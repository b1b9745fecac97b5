/**
 * Shape check and conversion of decoded single-collateral bond events.
 *
 * A decoded event carries an optional bag of named arguments. Converting it
 * to the record of one event kind first requires the bag to be there at all,
 * then requires each field of that kind's schema to be present, in the
 * schema's order; the first check that fails is the one reported. Values are
 * never inspected: only presence matters.
 */
module BondEvents {
  import opened Wrappers

  /** An argument value as the log decoder produces it: an address or symbol
      string, or an arbitrary-precision amount. */
  datatype Value = Str(s: string) | Num(n: int)

  /** The decoded arguments of one event; a name absent from the map is `undefined`. */
  type FieldBag = map<string, Value>

  /** The record a conversion returns. */
  type Record = FieldBag

  /** A decoded log entry: the event's own name and its argument bag, if any. */
  datatype DecodedEvent = DecodedEvent(name: string, args: Option<FieldBag>)

  /** The event kinds of the single-collateral bond that have a converter. */
  datatype Kind =
    | AllowRedemption
    | DebtIssue
    | Expire
    | FullCollateral
    | PartialCollateral
    | Redemption
    | Slash
    | WithdrawCollateral

  /** The check that failed: no argument bag at all, or one named field absent. */
  datatype Violation = ArgsMissing | FieldMissing(field: string)

  /** Every name of `fields` is a key of `bag`. */
  predicate AllPresent(fields: seq<string>, bag: FieldBag)
  {
    forall i :: 0 <= i < |fields| ==> fields[i] in bag
  }

  /** `f` is the first name of `fields`, in order, that `bag` lacks. */
  predicate IsFirstAbsent(fields: seq<string>, bag: FieldBag, f: string)
  {
    exists i :: 0 <= i < |fields| && fields[i] == f && f !in bag
                && forall j :: 0 <= j < i ==> fields[j] in bag
  }

  /** No name occurs twice in `fields`. */
  predicate Distinct(fields: seq<string>)
  {
    forall i, j :: 0 <= i < j < |fields| ==> fields[i] != fields[j]
  }

  /** The fields each kind's record type declares, in the order its converter
      checks them. DebtIssue's symbol field is spelled `debSymbol`. */
  function Schema(kind: Kind): (fields: seq<string>)
    ensures Distinct(fields)
  {
    match kind
    case AllowRedemption => ["authorizer", "reason"]
    case DebtIssue => ["receiver", "debSymbol", "debtAmount"]
    case Expire => ["sender", "treasury", "collateralSymbol", "collateralAmount"]
    case FullCollateral => ["collateralSymbol", "collateralAmount"]
    case PartialCollateral => ["collateralSymbol", "collateralAmount", "debtSymbol", "debtRemaining"]
    case Redemption => ["redeemer", "debtSymbol", "debtAmount", "collateralSymbol", "collateralAmount"]
    case Slash => ["collateralSymbol", "collateralAmount"]
    case WithdrawCollateral => ["treasury", "collateralSymbol", "collateralAmount"]
  }

  /** The position of the first name of `fields` that `bag` lacks, checking in order. */
  function FirstAbsent(fields: seq<string>, bag: FieldBag): (r: Option<nat>)
    ensures r.None? <==> AllPresent(fields, bag)
    ensures r.Some? ==> r.value < |fields| && fields[r.value] !in bag
    ensures r.Some? ==> forall j :: 0 <= j < r.value ==> fields[j] in bag
  {
    if |fields| == 0 then None
    else if fields[0] !in bag then Some(0)
    else match FirstAbsent(fields[1..], bag)
      case None => None
      case Some(i) => Some(i + 1)
  }

  /** The sub-bag of `bag` holding exactly the names of `fields`. */
  function Project(fields: seq<string>, bag: FieldBag): (r: FieldBag)
    requires AllPresent(fields, bag)
    ensures forall f :: f in r <==> f in fields
    ensures forall f :: f in r ==> r[f] == bag[f]
  {
    map f | f in fields :: bag[f]
  }

  /**
   * The schema-driven converter. The argument bag is checked before any
   * field; fields are checked in schema order and the first absent one is
   * reported. On success AllowRedemption builds a fresh record of exactly its
   * schema fields, while every other kind hands back the argument bag itself.
   * The event's own name is never consulted.
   */
  function Convert(kind: Kind, ev: DecodedEvent): (r: Result<Record, Violation>)
    ensures ev.args.None? ==> r == Failure(ArgsMissing)
    ensures r.Success? <==> ev.args.Some? && AllPresent(Schema(kind), ev.args.value)
    ensures r.Failure? && r.error.FieldMissing? ==>
              ev.args.Some? && IsFirstAbsent(Schema(kind), ev.args.value, r.error.field)
    ensures r.Success? ==> forall f :: f in Schema(kind) ==> f in r.value && r.value[f] == ev.args.value[f]
    ensures r.Success? ==> forall f :: f in r.value ==> f in ev.args.value && r.value[f] == ev.args.value[f]
    ensures r.Success? ==>
              r.value.Keys == if kind == AllowRedemption then set f | f in Schema(kind) else ev.args.value.Keys
  {
    match ev.args
    case None => Failure(ArgsMissing)
    case Some(bag) =>
      match FirstAbsent(Schema(kind), bag)
      case Some(i) => Failure(FieldMissing(Schema(kind)[i]))
      case None =>
        if kind == AllowRedemption then Success(Project(Schema(kind), bag)) else Success(bag)
  }

  // The eight converters as the bond's test helpers spell them out, one
  // presence check after another. Each is proved to agree with Convert.

  function AllowRedemptionEvent(ev: DecodedEvent): (r: Result<Record, Violation>)
    ensures r == Convert(AllowRedemption, ev)
  {
    if ev.args.None? then Failure(ArgsMissing)
    else
      var args := ev.args.value;
      if "authorizer" !in args then Failure(FieldMissing("authorizer"))
      else if "reason" !in args then Failure(FieldMissing("reason"))
      else
        var actual := map["authorizer" := args["authorizer"], "reason" := args["reason"]];
        assert actual == Project(Schema(AllowRedemption), args);
        Success(actual)
  }

  function DebtIssueEvent(ev: DecodedEvent): (r: Result<Record, Violation>)
    ensures r == Convert(DebtIssue, ev)
  {
    if ev.args.None? then Failure(ArgsMissing)
    else
      var args := ev.args.value;
      if "receiver" !in args then Failure(FieldMissing("receiver"))
      else if "debSymbol" !in args then Failure(FieldMissing("debSymbol"))
      else if "debtAmount" !in args then Failure(FieldMissing("debtAmount"))
      else Success(args)
  }

  function ExpireEvent(ev: DecodedEvent): (r: Result<Record, Violation>)
    ensures r == Convert(Expire, ev)
  {
    if ev.args.None? then Failure(ArgsMissing)
    else
      var args := ev.args.value;
      if "sender" !in args then Failure(FieldMissing("sender"))
      else if "treasury" !in args then Failure(FieldMissing("treasury"))
      else if "collateralSymbol" !in args then Failure(FieldMissing("collateralSymbol"))
      else if "collateralAmount" !in args then Failure(FieldMissing("collateralAmount"))
      else Success(args)
  }

  function FullCollateralEvent(ev: DecodedEvent): (r: Result<Record, Violation>)
    ensures r == Convert(FullCollateral, ev)
  {
    if ev.args.None? then Failure(ArgsMissing)
    else
      var args := ev.args.value;
      if "collateralSymbol" !in args then Failure(FieldMissing("collateralSymbol"))
      else if "collateralAmount" !in args then Failure(FieldMissing("collateralAmount"))
      else Success(args)
  }

  function PartialCollateralEvent(ev: DecodedEvent): (r: Result<Record, Violation>)
    ensures r == Convert(PartialCollateral, ev)
  {
    if ev.args.None? then Failure(ArgsMissing)
    else
      var args := ev.args.value;
      if "collateralSymbol" !in args then Failure(FieldMissing("collateralSymbol"))
      else if "collateralAmount" !in args then Failure(FieldMissing("collateralAmount"))
      else if "debtSymbol" !in args then Failure(FieldMissing("debtSymbol"))
      else if "debtRemaining" !in args then Failure(FieldMissing("debtRemaining"))
      else Success(args)
  }

  function RedemptionEvent(ev: DecodedEvent): (r: Result<Record, Violation>)
    ensures r == Convert(Redemption, ev)
  {
    if ev.args.None? then Failure(ArgsMissing)
    else
      var args := ev.args.value;
      if "redeemer" !in args then Failure(FieldMissing("redeemer"))
      else if "debtSymbol" !in args then Failure(FieldMissing("debtSymbol"))
      else if "debtAmount" !in args then Failure(FieldMissing("debtAmount"))
      else if "collateralSymbol" !in args then Failure(FieldMissing("collateralSymbol"))
      else if "collateralAmount" !in args then Failure(FieldMissing("collateralAmount"))
      else Success(args)
  }

  function SlashEvent(ev: DecodedEvent): (r: Result<Record, Violation>)
    ensures r == Convert(Slash, ev)
  {
    if ev.args.None? then Failure(ArgsMissing)
    else
      var args := ev.args.value;
      if "collateralSymbol" !in args then Failure(FieldMissing("collateralSymbol"))
      else if "collateralAmount" !in args then Failure(FieldMissing("collateralAmount"))
      else Success(args)
  }

  function WithdrawCollateralEvent(ev: DecodedEvent): (r: Result<Record, Violation>)
    ensures r == Convert(WithdrawCollateral, ev)
  {
    if ev.args.None? then Failure(ArgsMissing)
    else
      var args := ev.args.value;
      if "treasury" !in args then Failure(FieldMissing("treasury"))
      else if "collateralSymbol" !in args then Failure(FieldMissing("collateralSymbol"))
      else if "collateralAmount" !in args then Failure(FieldMissing("collateralAmount"))
      else Success(args)
  }
}
