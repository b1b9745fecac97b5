# Single-collateral bond event converters

This project models the shape checks that the bond's test suite applies to
decoded `ERC20SingleCollateralBond` events before it asserts on them. A
decoded event carries an optional argument bag. Each of the eight converters
(`allowRedemptionEvent`, `debtIssueEvent`, `expireEvent`,
`fullCollateralEvent`, `partialCollateralEvent`, `redemptionEvent`,
`slashEvent`, `withdrawCollateralEvent`) works the same way:

- it requires the argument bag to be present;
- it requires each field of its record type to be present, in declaration order;
- it returns the data as that record type.

A failed `expect` halts the test. The model turns it into a `Failure` that
names the first check that failed: `ArgsMissing`, or `FieldMissing(name)`.

Files:

- `wrappers.dfy` (module `Wrappers`): `Option` and `Result`.
- `bond_events.dfy` (module `BondEvents`): the data model and the converters.
  - `Value` holds a string or an arbitrary-precision amount.
  - `FieldBag` is `map<string, Value>`; a missing key is `undefined`.
  - `DecodedEvent` holds the event's name and an optional bag.
  - `Kind` lists the eight event kinds.
  - `Schema` is the per-kind field table taken from the `Actual*Event` types.
  - `Convert` is one schema-driven converter.
  - The eight per-kind functions are written out check by check, as the
    source writes them, and each is proved equal to `Convert` for that kind.
- `bond_event_properties.dfy` (module `BondEventProperties`): lemmas about
  `Convert`. They cover which check is reported, what a successful conversion
  returns, and the fact that only field presence matters.

Two details of the code shape the model:

- Only `allowRedemptionEvent` builds a fresh record
  (single-collateral-bond-events.ts:81-84). The other seven converters return
  `args` itself, so extra fields pass through. See `PassThrough` and
  `AllowRedemptionExactKeys`.
- DebtIssue's record type and check use the key `debSymbol` (:21, :97), so a
  bag keyed `debtSymbol` is rejected. See `DebtSymbolSpellingRejected`.

## Model

| member | source | states |
|---|---|---|
| BondEvents.Schema | test/contracts/bond/single-collateral-bond-events.ts:14-67 | each kind's field list, in check order, has no name twice |
| BondEvents.FirstAbsent | test/contracts/bond/single-collateral-bond-events.ts:142-146 | the checks run in order: no result exactly when every field is present; otherwise the result is the position of an absent field, and every earlier field is present |
| BondEvents.Project | test/contracts/bond/single-collateral-bond-events.ts:81-84 | the fresh record has exactly the listed keys, each with its value from the bag |
| BondEvents.Convert | test/contracts/bond/single-collateral-bond-events.ts:72-197 | a missing bag fails with ArgsMissing before any field check; success happens exactly when the bag is present and holds every schema field; a reported missing field is the first absent one in schema order; on success every schema field keeps its input value, every output key comes from the input with its value unchanged, and the output's keys are exactly the schema for AllowRedemption and exactly the input's keys for the other kinds |
| BondEvents.AllowRedemptionEvent | test/contracts/bond/single-collateral-bond-events.ts:72-86 | the check-by-check converter for AllowRedemption, including its fresh record, equals Convert for that kind on every event |
| BondEvents.DebtIssueEvent | test/contracts/bond/single-collateral-bond-events.ts:91-101 | the check-by-check DebtIssue converter (receiver, debSymbol, debtAmount, then return the bag) equals Convert for that kind |
| BondEvents.ExpireEvent | test/contracts/bond/single-collateral-bond-events.ts:106-117 | the check-by-check Expire converter equals Convert for that kind |
| BondEvents.FullCollateralEvent | test/contracts/bond/single-collateral-bond-events.ts:122-131 | the check-by-check FullCollateral converter equals Convert for that kind |
| BondEvents.PartialCollateralEvent | test/contracts/bond/single-collateral-bond-events.ts:136-149 | the check-by-check PartialCollateral converter equals Convert for that kind |
| BondEvents.RedemptionEvent | test/contracts/bond/single-collateral-bond-events.ts:154-166 | the check-by-check Redemption converter equals Convert for that kind |
| BondEvents.SlashEvent | test/contracts/bond/single-collateral-bond-events.ts:171-180 | the check-by-check Slash converter equals Convert for that kind |
| BondEvents.WithdrawCollateralEvent | test/contracts/bond/single-collateral-bond-events.ts:185-197 | the check-by-check WithdrawCollateral converter equals Convert for that kind |
| BondEventProperties.FirstAbsentDependsOnKeys | test/contracts/bond/single-collateral-bond-events.ts:96-98 | the ordered presence checks depend only on the bag's key set, never on its values |
| BondEventProperties.PresenceOnly | test/contracts/bond/single-collateral-bond-events.ts:72-74 | two events whose bags have the same keys (or both have no bag) succeed or fail together and report the same failure, whatever their values and event names |
| BondEventProperties.NoArgsFailsForEveryKind | test/contracts/bond/single-collateral-bond-events.ts:74 | an event without an argument bag fails with ArgsMissing for every kind |
| BondEventProperties.EarliestFailureReported | test/contracts/bond/single-collateral-bond-events.ts:142-146 | if the i-th schema field is absent, conversion fails, and it names that field or one earlier in the schema |
| BondEventProperties.PartialCollateralFirstFailure | test/contracts/bond/single-collateral-bond-events.ts:143-145 | with collateralAmount and debtSymbol both absent, PartialCollateral reports collateralAmount |
| BondEventProperties.OmitOneField | test/contracts/bond/single-collateral-bond-events.ts:72-197 | for every kind, a bag missing exactly one schema field fails and names that field |
| BondEventProperties.ExactFieldsConvertUnchanged | test/contracts/bond/single-collateral-bond-events.ts:72-197 | for every kind, a bag with exactly the schema fields converts to itself |
| BondEventProperties.AllowRedemptionExactKeys | test/contracts/bond/single-collateral-bond-events.ts:81-84 | a successful AllowRedemption record has exactly the keys authorizer and reason, whatever the input holds |
| BondEventProperties.PassThrough | test/contracts/bond/single-collateral-bond-events.ts:100 | for the seven other kinds, a successful conversion returns the input bag itself, extra fields included |
| BondEventProperties.ExtraFieldsTolerated | test/contracts/bond/single-collateral-bond-events.ts:77-84 | adding fields outside the schema to a convertible bag never causes a violation, and leaves AllowRedemption's record unchanged |
| BondEventProperties.ReconvertIdempotent | test/contracts/bond/single-collateral-bond-events.ts:72-197 | converting a successful output again, as a fresh event of the same kind, gives the same result |
| BondEventProperties.DebSymbolRequired | test/contracts/bond/single-collateral-bond-events.ts:97 | a DebtIssue bag without the key debSymbol fails |
| BondEventProperties.DebtSymbolSpellingRejected | test/contracts/bond/single-collateral-bond-events.ts:19-23 | a DebtIssue bag with receiver, debtSymbol and debtAmount fails with FieldMissing("debSymbol") |
| BondEventProperties.RedemptionExample | test/contracts/bond/single-collateral-bond-events.ts:154-166 | the five-field Redemption example converts unchanged, and without debtAmount it fails naming debtAmount |

## Left out

- The ethers `Event` and typechain event types (lines 1, 3-12) belong to the ABI-decoding layer. Only the optional field bag it produces is modelled.
- The chai `expect` machinery (line 2): a failed assertion becomes a `Failure` result, not an exception that halts a test.
- `BigNumber` arithmetic: amounts are plain integers, and no converter ever inspects a value.
- The TypeScript field types of the `Actual*Event` records (string or `BigNumber`) are compile-time casts. They are not checked at run time, so the model's records are field bags.
- `ActualTransferEvents` (lines 57-61) is a type without a converter, so there is no behaviour to model.
- TypeScript also treats a key whose value is `undefined` as absent. The model represents `undefined` only as a missing key.
- `null`: chai's `.not.undefined` passes on `null`. The model has no `null`. A present key stands for any value other than `undefined`, `null` included. A `null` argument bag passes the check at line 74 and then fails at the first field check. In the model it behaves like `Some(map[])`, which gives the same first failure.
