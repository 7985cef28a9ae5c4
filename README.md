# class-validator annotation factories, modelled in Dafny

This project models the annotation factories of class-validator
(`src/annotation/ValidationAnnotations.ts`): `Contains`, `Equals`, `IsAfter`,
… `IsVariableWidth`, `Matches`, 42 in all. Each factory is curried. The outer
call captures the rule parameters and an optional options bag
`{message?, groups?, always?}` and returns a property decorator. Applying that
decorator to `(object, propertyName)` builds one metadata record and appends
it to the shared metadata storage.

The files:

- `wrappers.dfy`: `Option`, where `None` is JavaScript's `undefined`.
- `validation_types.dfy`: the rule kinds (`CONTAINS` … `MATCHES`) as a closed
  enumeration, and `Layout`, the table saying where each kind's record keeps
  its rule parameters (none; a required `value1`; an optional `value1`;
  `min`/`max` in `value1`/`value2`).
- `metadata_storage.dfy`: the record (`ValidationMetadata`), the
  invariant `WellFormed` every registered record keeps, and the storage class,
  whose `AddValidationMetadata` appends one record. The storage's own
  implementation is not part of this model.
- `validation_annotations.dfy`: the options bag, its normalisation by
  JavaScript truthiness, the `Decorator` value an outer call returns, the
  `Apply` method, `Replay` (the records a run of applications registers)
  with its lemmas, `ApplyAll` and `RegisterAll` (a run of `Apply` calls,
  on a given storage and on a new empty one), and the 42 factories.

Rule parameters (strings, numbers, `Date`s, arrays, option bags) are never
inspected by the annotations, so they are the opaque type `Param`. The target
object is the opaque type `Target`. In the record literal a `value1`/`value2`
key is either left out (`Omitted`) or present, possibly holding `undefined`
(`Given(None)`). The no-parameter factories leave both keys out. `IsIP`,
`IsISBN`, `IsUUID` and the option-bag factories always write `value1`, even
when it is undefined.

The options are normalised by JavaScript truthiness. An empty message is
dropped to undefined. So is `always: false`, so `always` is never stored as
`false`. A present `groups` array is kept even when it is empty, because
arrays are truthy. Without an options bag, all three are undefined.

`Matches(pattern, modifiers, …)` records neither of its parameters. The model
keeps that behaviour, and `MatchesIgnoresPattern` states it.

The process-wide `defaultMetadataStorage` is an explicit parameter of
`Apply`. An outer factory call is a pure function, so it registers nothing.

## Model

| member | source | states |
|---|---|---|
| ValidationAnnotations.NormaliseGroups | src/annotation/ValidationAnnotations.ts:23 | undefined when the options bag is absent; otherwise exactly the bag's `groups`, so an empty array is kept |
| ValidationAnnotations.NormaliseMessage | src/annotation/ValidationAnnotations.ts:24 | never the empty string; a stored message is the bag's own message; a present non-empty message is always stored |
| ValidationAnnotations.NormaliseAlways | src/annotation/ValidationAnnotations.ts:25 | never `false`; `true` exactly when the options bag is present and its `always` is `true` |
| ValidationAnnotations.Decorator.Record | src/annotation/ValidationAnnotations.ts:16-26 | the record built on application carries the target and property name unchanged, and is well formed (`sanitize` false, no empty message, no `always: false`, slots fitting the kind's layout) whenever the decorator's slots fit its kind |
| ValidationAnnotations.Apply | src/annotation/ValidationAnnotations.ts:16-17 | applying a decorator appends exactly its one record to the storage and changes nothing else; it keeps the storage's records well formed |
| Metadata.MetadataStorage.AddValidationMetadata | src/annotation/ValidationAnnotations.ts:17 | the storage's records become the old ones followed by the new record, with no deduplication or overwriting |
| ValidationAnnotations.Replay | src/annotation/ValidationAnnotations.ts:16-17 | the sequence of records a run of applications registers has exactly one record per application (`ApplyAll` and `RegisterAll` show that the storage holds it) |
| ValidationAnnotations.ApplyAll | src/annotation/ValidationAnnotations.ts:16-17 | applying decorators one after another, each by `Apply`, leaves the storage's old records followed by `Replay` of the applications |
| ValidationAnnotations.RegisterAll | src/annotation/ValidationAnnotations.ts:16-25 | a storage created empty and given a run of applications holds exactly `Replay` of them, and all its records are well formed when every decorator came from a factory |
| ValidationAnnotations.ReplayAt | src/annotation/ValidationAnnotations.ts:16-17 | registration order is kept: the i-th record of `Replay` is the one the i-th application built |
| ValidationAnnotations.ReplayWellFormed | src/annotation/ValidationAnnotations.ts:18-25 | when every decorator came from a factory, every record of `Replay` is well formed |
| ValidationAnnotations.MatchesIgnoresPattern | src/annotation/ValidationAnnotations.ts:781-793 | `Matches` calls that differ only in `pattern`/`modifiers` give the same decorator, and its record is a no-parameter record of kind `MATCHES` |
| ValidationAnnotations.Contains | src/annotation/ValidationAnnotations.ts:15-28 | applying the decorator registers one `CONTAINS` record: `sanitize` false; target and property name as given; `seed` unchanged in `value1`, no `value2`; `groups`/`message`/`always` normalised from the options bag; the slots fit the kind's layout |
| ValidationAnnotations.Equals | src/annotation/ValidationAnnotations.ts:33-46 | applying the decorator registers one `EQUALS` record: `sanitize` false; target and property name as given; `comparison` unchanged in `value1`, no `value2`; `groups`/`message`/`always` normalised from the options bag; the slots fit the kind's layout |
| ValidationAnnotations.IsAfter | src/annotation/ValidationAnnotations.ts:51-64 | applying the decorator registers one `IS_AFTER` record: `sanitize` false; target and property name as given; `date` unchanged in `value1`, no `value2`; `groups`/`message`/`always` normalised from the options bag; the slots fit the kind's layout |
| ValidationAnnotations.IsAlpha | src/annotation/ValidationAnnotations.ts:69-81 | applying the decorator registers one `IS_ALPHA` record: `sanitize` false; target and property name as given; no `value1` or `value2` key; `groups`/`message`/`always` normalised from the options bag; the slots fit the kind's layout |
| ValidationAnnotations.IsAlphanumeric | src/annotation/ValidationAnnotations.ts:86-98 | applying the decorator registers one `IS_ALPHANUMERIC` record: `sanitize` false; target and property name as given; no `value1` or `value2` key; `groups`/`message`/`always` normalised from the options bag; the slots fit the kind's layout |
| ValidationAnnotations.IsAscii | src/annotation/ValidationAnnotations.ts:103-115 | applying the decorator registers one `IS_ASCII` record: `sanitize` false; target and property name as given; no `value1` or `value2` key; `groups`/`message`/`always` normalised from the options bag; the slots fit the kind's layout |
| ValidationAnnotations.IsBase64 | src/annotation/ValidationAnnotations.ts:120-132 | applying the decorator registers one `IS_BASE64` record: `sanitize` false; target and property name as given; no `value1` or `value2` key; `groups`/`message`/`always` normalised from the options bag; the slots fit the kind's layout |
| ValidationAnnotations.IsBefore | src/annotation/ValidationAnnotations.ts:137-150 | applying the decorator registers one `IS_BEFORE` record: `sanitize` false; target and property name as given; `date` unchanged in `value1`, no `value2`; `groups`/`message`/`always` normalised from the options bag; the slots fit the kind's layout |
| ValidationAnnotations.IsBoolean | src/annotation/ValidationAnnotations.ts:155-167 | applying the decorator registers one `IS_BOOLEAN` record: `sanitize` false; target and property name as given; no `value1` or `value2` key; `groups`/`message`/`always` normalised from the options bag; the slots fit the kind's layout |
| ValidationAnnotations.IsByteLength | src/annotation/ValidationAnnotations.ts:172-186 | applying the decorator registers one `IS_BYTE_LENGTH` record: `sanitize` false; target and property name as given; `min` in `value1` and `max`, possibly undefined, in `value2`; `groups`/`message`/`always` normalised from the options bag; the slots fit the kind's layout |
| ValidationAnnotations.IsCreditCard | src/annotation/ValidationAnnotations.ts:191-203 | applying the decorator registers one `IS_CREDIT_CARD` record: `sanitize` false; target and property name as given; no `value1` or `value2` key; `groups`/`message`/`always` normalised from the options bag; the slots fit the kind's layout |
| ValidationAnnotations.IsCurrency | src/annotation/ValidationAnnotations.ts:223-236 | applying the decorator registers one `IS_CURRENCY` record: `sanitize` false; target and property name as given; `options` in `value1` even when undefined, no `value2`; `groups`/`message`/`always` normalised from the options bag; the slots fit the kind's layout |
| ValidationAnnotations.IsDate | src/annotation/ValidationAnnotations.ts:241-253 | applying the decorator registers one `IS_DATE` record: `sanitize` false; target and property name as given; no `value1` or `value2` key; `groups`/`message`/`always` normalised from the options bag; the slots fit the kind's layout |
| ValidationAnnotations.IsDecimal | src/annotation/ValidationAnnotations.ts:258-270 | applying the decorator registers one `IS_DECIMAL` record: `sanitize` false; target and property name as given; no `value1` or `value2` key; `groups`/`message`/`always` normalised from the options bag; the slots fit the kind's layout |
| ValidationAnnotations.IsDivisibleBy | src/annotation/ValidationAnnotations.ts:275-288 | applying the decorator registers one `IS_DIVISIBLE_BY` record: `sanitize` false; target and property name as given; `number` unchanged in `value1`, no `value2`; `groups`/`message`/`always` normalised from the options bag; the slots fit the kind's layout |
| ValidationAnnotations.IsEmail | src/annotation/ValidationAnnotations.ts:299-312 | applying the decorator registers one `IS_EMAIL` record: `sanitize` false; target and property name as given; `options` in `value1` even when undefined, no `value2`; `groups`/`message`/`always` normalised from the options bag; the slots fit the kind's layout |
| ValidationAnnotations.IsFQDN | src/annotation/ValidationAnnotations.ts:323-336 | applying the decorator registers one `IS_FQDN` record: `sanitize` false; target and property name as given; `options` in `value1` even when undefined, no `value2`; `groups`/`message`/`always` normalised from the options bag; the slots fit the kind's layout |
| ValidationAnnotations.IsFloat | src/annotation/ValidationAnnotations.ts:346-359 | applying the decorator registers one `IS_FLOAT` record: `sanitize` false; target and property name as given; `options` in `value1` even when undefined, no `value2`; `groups`/`message`/`always` normalised from the options bag; the slots fit the kind's layout |
| ValidationAnnotations.IsFullWidth | src/annotation/ValidationAnnotations.ts:364-376 | applying the decorator registers one `IS_FULL_WIDTH` record: `sanitize` false; target and property name as given; no `value1` or `value2` key; `groups`/`message`/`always` normalised from the options bag; the slots fit the kind's layout |
| ValidationAnnotations.IsHalfWidth | src/annotation/ValidationAnnotations.ts:381-393 | applying the decorator registers one `IS_HALF_WIDTH` record: `sanitize` false; target and property name as given; no `value1` or `value2` key; `groups`/`message`/`always` normalised from the options bag; the slots fit the kind's layout |
| ValidationAnnotations.IsHexColor | src/annotation/ValidationAnnotations.ts:398-410 | applying the decorator registers one `IS_HEX_COLOR` record: `sanitize` false; target and property name as given; no `value1` or `value2` key; `groups`/`message`/`always` normalised from the options bag; the slots fit the kind's layout |
| ValidationAnnotations.IsHexadecimal | src/annotation/ValidationAnnotations.ts:415-427 | applying the decorator registers one `IS_HEXADECIMAL` record: `sanitize` false; target and property name as given; no `value1` or `value2` key; `groups`/`message`/`always` normalised from the options bag; the slots fit the kind's layout |
| ValidationAnnotations.IsIP | src/annotation/ValidationAnnotations.ts:432-445 | applying the decorator registers one `IS_IP` record: `sanitize` false; target and property name as given; `version` in `value1` even when undefined, no `value2`; `groups`/`message`/`always` normalised from the options bag; the slots fit the kind's layout |
| ValidationAnnotations.IsISBN | src/annotation/ValidationAnnotations.ts:450-463 | applying the decorator registers one `IS_ISBN` record: `sanitize` false; target and property name as given; `version` in `value1` even when undefined, no `value2`; `groups`/`message`/`always` normalised from the options bag; the slots fit the kind's layout |
| ValidationAnnotations.IsISIN | src/annotation/ValidationAnnotations.ts:468-480 | applying the decorator registers one `IS_ISIN` record: `sanitize` false; target and property name as given; no `value1` or `value2` key; `groups`/`message`/`always` normalised from the options bag; the slots fit the kind's layout |
| ValidationAnnotations.IsISO8601 | src/annotation/ValidationAnnotations.ts:485-497 | applying the decorator registers one `IS_ISO8601` record: `sanitize` false; target and property name as given; no `value1` or `value2` key; `groups`/`message`/`always` normalised from the options bag; the slots fit the kind's layout |
| ValidationAnnotations.IsIn | src/annotation/ValidationAnnotations.ts:502-515 | applying the decorator registers one `IS_IN` record: `sanitize` false; target and property name as given; `values` unchanged in `value1`, no `value2`; `groups`/`message`/`always` normalised from the options bag; the slots fit the kind's layout |
| ValidationAnnotations.IsInt | src/annotation/ValidationAnnotations.ts:525-538 | applying the decorator registers one `IS_INT` record: `sanitize` false; target and property name as given; `options` in `value1` even when undefined, no `value2`; `groups`/`message`/`always` normalised from the options bag; the slots fit the kind's layout |
| ValidationAnnotations.IsJSON | src/annotation/ValidationAnnotations.ts:543-555 | applying the decorator registers one `IS_JSON` record: `sanitize` false; target and property name as given; no `value1` or `value2` key; `groups`/`message`/`always` normalised from the options bag; the slots fit the kind's layout |
| ValidationAnnotations.IsLength | src/annotation/ValidationAnnotations.ts:560-574 | applying the decorator registers one `IS_LENGTH` record: `sanitize` false; target and property name as given; `min` in `value1` and `max`, possibly undefined, in `value2`; `groups`/`message`/`always` normalised from the options bag; the slots fit the kind's layout |
| ValidationAnnotations.IsLowercase | src/annotation/ValidationAnnotations.ts:579-591 | applying the decorator registers one `IS_LOWERCASE` record: `sanitize` false; target and property name as given; no `value1` or `value2` key; `groups`/`message`/`always` normalised from the options bag; the slots fit the kind's layout |
| ValidationAnnotations.IsMobilePhone | src/annotation/ValidationAnnotations.ts:596-609 | applying the decorator registers one `IS_MOBILE_PHONE` record: `sanitize` false; target and property name as given; `locale` unchanged in `value1`, no `value2`; `groups`/`message`/`always` normalised from the options bag; the slots fit the kind's layout |
| ValidationAnnotations.IsMongoId | src/annotation/ValidationAnnotations.ts:614-626 | applying the decorator registers one `IS_MONGO_ID` record: `sanitize` false; target and property name as given; no `value1` or `value2` key; `groups`/`message`/`always` normalised from the options bag; the slots fit the kind's layout |
| ValidationAnnotations.IsMultibyte | src/annotation/ValidationAnnotations.ts:631-643 | applying the decorator registers one `IS_MULTIBYTE` record: `sanitize` false; target and property name as given; no `value1` or `value2` key; `groups`/`message`/`always` normalised from the options bag; the slots fit the kind's layout |
| ValidationAnnotations.IsNull | src/annotation/ValidationAnnotations.ts:648-660 | applying the decorator registers one `IS_NULL` record: `sanitize` false; target and property name as given; no `value1` or `value2` key; `groups`/`message`/`always` normalised from the options bag; the slots fit the kind's layout |
| ValidationAnnotations.IsNumeric | src/annotation/ValidationAnnotations.ts:665-677 | applying the decorator registers one `IS_NUMERIC` record: `sanitize` false; target and property name as given; no `value1` or `value2` key; `groups`/`message`/`always` normalised from the options bag; the slots fit the kind's layout |
| ValidationAnnotations.IsSurrogatePair | src/annotation/ValidationAnnotations.ts:682-694 | applying the decorator registers one `IS_SURROGATE_PAIR` record: `sanitize` false; target and property name as given; no `value1` or `value2` key; `groups`/`message`/`always` normalised from the options bag; the slots fit the kind's layout |
| ValidationAnnotations.IsUrl | src/annotation/ValidationAnnotations.ts:711-724 | applying the decorator registers one `IS_URL` record: `sanitize` false; target and property name as given; `options` in `value1` even when undefined, no `value2`; `groups`/`message`/`always` normalised from the options bag; the slots fit the kind's layout |
| ValidationAnnotations.IsUUID | src/annotation/ValidationAnnotations.ts:729-742 | applying the decorator registers one `IS_UUID` record: `sanitize` false; target and property name as given; `version` in `value1` even when undefined, no `value2`; `groups`/`message`/`always` normalised from the options bag; the slots fit the kind's layout |
| ValidationAnnotations.IsUppercase | src/annotation/ValidationAnnotations.ts:747-759 | applying the decorator registers one `IS_UPPERCASE` record: `sanitize` false; target and property name as given; no `value1` or `value2` key; `groups`/`message`/`always` normalised from the options bag; the slots fit the kind's layout |
| ValidationAnnotations.IsVariableWidth | src/annotation/ValidationAnnotations.ts:764-776 | applying the decorator registers one `IS_VARIABLE_WIDTH` record: `sanitize` false; target and property name as given; no `value1` or `value2` key; `groups`/`message`/`always` normalised from the options bag; the slots fit the kind's layout |
| ValidationAnnotations.Matches | src/annotation/ValidationAnnotations.ts:781-793 | applying the decorator registers one `MATCHES` record: `sanitize` false; target and property name as given; no `value1` or `value2` key (`pattern` and `modifiers` are dropped); `groups`/`message`/`always` normalised from the options bag; the slots fit the kind's layout |

## Left out

- The `body-parser` and `express` imports (lines 1-2): they are unused.
- The internals of `MetadataStorage` and `ValidationTypes` (lines 3-4): their files are not part of this model. The storage is an append-only sequence of records. The types are the 42 kinds the factories use, as a closed enumeration.
- The option interfaces `IsCurrencyOptions`, `IsEmailOptions`, `IsFQDNOptions`, `IsFloatOptions`, `IsIntOptions` and `IsURLOptions`: the annotations only pass them through, so they are the opaque `Param`. So are `Date` values and numbers, which are floating point.
- The validation predicates themselves (email, URL, currency, dates, …), group filtering and rule evaluation: none of them is implemented in the modelled file.
- The decorator binding mechanism of TypeScript: a decorator is applied by calling `Apply` explicitly.
- Aliasing: the source reads `annotationOptions` when the decorator is applied, so a caller who mutates the bag between the outer call and the application changes the record. The registered record also shares the caller's objects by reference: the `groups` array (line 23) and rule parameters such as `values` (line 509) and the option bags (lines 230, 306, 330, 353, 532, 718). Mutating them after registration changes the stored record. The model treats all of these as immutable values.
- Values of the wrong type in the options bag (say a number as `message`): the model follows the declared types `string`, `string[]` and `boolean`. A `null` options bag behaves like an absent one and is modelled as `None`.
- `test/utils.spec.ts`: it tests `convertToArray` and `getEnumStringValues` of `src/utils`, which is not part of this model.
