/**
 * The annotation factories. Each factory is curried: the outer call captures
 * the rule parameters and an optional options bag and returns a property
 * decorator; applying the decorator to `(object, propertyName)` builds one
 * metadata record and appends it to the metadata storage.
 */
module ValidationAnnotations {
  import opened Wrappers
  import opened ValidationTypes
  import opened Metadata

  /** The options bag every factory accepts; each key may be left out. */
  datatype ValidationAnnotationOptions = ValidationAnnotationOptions(
    message: Option<string>,
    groups: Option<seq<string>>,
    always: Option<bool>)

  // Each common key is copied into the record only when the options bag is
  // present (an object is truthy, `undefined` is not) and the key's value is
  // truthy in JavaScript: a string unless it is empty, an array always (even
  // an empty one), a boolean only when `true`.

  function NormaliseGroups(annotationOptions: Option<ValidationAnnotationOptions>): (groups: Option<seq<string>>)
    ensures annotationOptions.None? ==> groups.None?
    ensures annotationOptions.Some? ==> groups == annotationOptions.value.groups
  {
    if annotationOptions.Some? && annotationOptions.value.groups.Some? then annotationOptions.value.groups else None
  }

  function NormaliseMessage(annotationOptions: Option<ValidationAnnotationOptions>): (message: Option<string>)
    ensures message != Some("")
    ensures message.Some? ==> annotationOptions.Some? && message == annotationOptions.value.message
    ensures annotationOptions.Some? && annotationOptions.value.message.Some? && annotationOptions.value.message.value != ""
            ==> message.Some?
  {
    if annotationOptions.Some? && annotationOptions.value.message.Some? && annotationOptions.value.message.value != ""
    then annotationOptions.value.message
    else None
  }

  function NormaliseAlways(annotationOptions: Option<ValidationAnnotationOptions>): (always: Option<bool>)
    ensures always != Some(false)
    ensures always == Some(true) <==> annotationOptions.Some? && annotationOptions.value.always == Some(true)
  {
    if annotationOptions.Some? && annotationOptions.value.always.Some? && annotationOptions.value.always.value
    then annotationOptions.value.always
    else None
  }

  /**
   * The decorator an outer factory call returns, given by what it captured:
   * its kind, the value slots of its record and the options bag.
   */
  datatype Decorator = Decorator(
    kind: ValidationType,
    value1: Slot,
    value2: Slot,
    annotationOptions: Option<ValidationAnnotationOptions>)
  {
    /** The value slots fit the layout of the decorator's kind. */
    predicate Valid()
    {
      SlotsFit(Layout(kind), value1, value2)
    }

    /** The record the decorator registers when applied to `(target, propertyName)`. */
    function Record(target: Target, propertyName: string): (m: ValidationMetadata)
      ensures m.target == target && m.propertyName == propertyName
      ensures Valid() ==> WellFormed(m)
    {
      ValidationMetadata(
        kind, false, target, propertyName, value1, value2,
        NormaliseGroups(annotationOptions),
        NormaliseMessage(annotationOptions),
        NormaliseAlways(annotationOptions))
    }

    /**
     * Applied to any target and property, the decorator registers a
     * validation rule of kind `k` with value slots `v1` and `v2`, and with
     * the common keys of `opts` normalised by truthiness.
     */
    ghost predicate Registers(k: ValidationType, v1: Slot, v2: Slot,
                              opts: Option<ValidationAnnotationOptions>)
    {
      forall target: Target, propertyName: string ::
        Record(target, propertyName) ==
          ValidationMetadata(
            k, false, target, propertyName, v1, v2,
            NormaliseGroups(opts),
            NormaliseMessage(opts),
            NormaliseAlways(opts))
    }
  }

  /**
   * Applying a decorator: exactly one call to `addValidationMetadata`, with
   * the target and property name unchanged. The process-wide default
   * storage is passed in explicitly.
   */
  method Apply(storage: MetadataStorage, d: Decorator, target: Target, propertyName: string)
    modifies storage
    ensures storage.validationMetadatas == old(storage.validationMetadatas) + [d.Record(target, propertyName)]
    ensures (forall i :: 0 <= i < |old(storage.validationMetadatas)| ==> WellFormed(old(storage.validationMetadatas)[i]))
            && d.Valid()
            ==> forall i :: 0 <= i < |storage.validationMetadatas| ==> WellFormed(storage.validationMetadatas[i])
  {
    storage.AddValidationMetadata(d.Record(target, propertyName));
  }

  /** One application of a decorator to a target's property. */
  datatype Application = Application(decorator: Decorator, target: Target, propertyName: string)
  {
    /** The record this application registers. */
    function Record(): ValidationMetadata
    {
      decorator.Record(target, propertyName)
    }
  }

  /** The records an initially empty storage holds after `apps` were applied in order. */
  function Replay(apps: seq<Application>): (records: seq<ValidationMetadata>)
    ensures |records| == |apps|
  {
    if apps == [] then [] else Replay(apps[..|apps| - 1]) + [apps[|apps| - 1].Record()]
  }

  /** Each further application appends its own record, as `Apply` does. */
  lemma ReplayAppend(apps: seq<Application>, app: Application)
    ensures Replay(apps + [app]) == Replay(apps) + [app.Record()]
  {
  }

  /**
   * Applying the decorators of `apps` one after another, as the decorators
   * of a class's properties are applied when the class is defined, appends
   * their records in order.
   */
  method ApplyAll(storage: MetadataStorage, apps: seq<Application>)
    modifies storage
    ensures storage.validationMetadatas == old(storage.validationMetadatas) + Replay(apps)
  {
    for i := 0 to |apps|
      invariant storage.validationMetadatas == old(storage.validationMetadatas) + Replay(apps[..i])
    {
      Apply(storage, apps[i].decorator, apps[i].target, apps[i].propertyName);
      ReplayAppend(apps[..i], apps[i]);
      assert apps[..i + 1] == apps[..i] + [apps[i]];
    }
    assert apps[..|apps|] == apps;
  }

  /**
   * A storage created empty and then given the applications of `apps` holds
   * exactly their records, in order; when every decorator came from a
   * factory, all of them are well formed.
   */
  method RegisterAll(apps: seq<Application>) returns (storage: MetadataStorage)
    ensures fresh(storage)
    ensures storage.validationMetadatas == Replay(apps)
    ensures (forall i :: 0 <= i < |apps| ==> apps[i].decorator.Valid())
            ==> forall i :: 0 <= i < |storage.validationMetadatas| ==> WellFormed(storage.validationMetadatas[i])
  {
    storage := new MetadataStorage();
    ApplyAll(storage, apps);
    if forall i :: 0 <= i < |apps| ==> apps[i].decorator.Valid() {
      ReplayWellFormed(apps);
    }
  }

  /** Registration order: the i-th record comes from the i-th application. */
  lemma {:induction false} ReplayAt(apps: seq<Application>, i: nat)
    requires i < |apps|
    ensures Replay(apps)[i] == apps[i].Record()
  {
    if i < |apps| - 1 {
      ReplayAt(apps[..|apps| - 1], i);
    }
  }

  /** Records registered by decorators from the factories are all well formed. */
  lemma {:induction false} ReplayWellFormed(apps: seq<Application>)
    requires forall i :: 0 <= i < |apps| ==> apps[i].decorator.Valid()
    ensures forall i :: 0 <= i < |Replay(apps)| ==> WellFormed(Replay(apps)[i])
  {
    forall i | 0 <= i < |Replay(apps)|
      ensures WellFormed(Replay(apps)[i])
    {
      ReplayAt(apps, i);
    }
  }

  /**
   * `Matches` ignores its pattern and modifiers: two calls that differ only
   * in them give the same decorator, whose record is that of a
   * parameterless factory with kind `MATCHES`.
   */
  lemma MatchesIgnoresPattern(pattern: Param, modifiers: Option<Param>, pattern': Param, modifiers': Option<Param>,
                              annotationOptions: Option<ValidationAnnotationOptions>, target: Target, propertyName: string)
    ensures Matches(pattern, modifiers, annotationOptions) == Matches(pattern', modifiers', annotationOptions)
    ensures Matches(pattern, modifiers, annotationOptions).Record(target, propertyName)
            == IsAlpha(annotationOptions).Record(target, propertyName).(validationType := MATCHES)
  {
  }

  // The factories, in the order of the source.

  /** Registers a rule that the property's value contains the seed. */
  function Contains(seed: Param, annotationOptions: Option<ValidationAnnotationOptions>): (d: Decorator)
    ensures d.Valid() && d.Registers(CONTAINS, Given(Some(seed)), Omitted, annotationOptions)
  {
    Decorator(CONTAINS, Given(Some(seed)), Omitted, annotationOptions)
  }

  /** Registers a rule that the property's value equals the comparison. */
  function Equals(comparison: Param, annotationOptions: Option<ValidationAnnotationOptions>): (d: Decorator)
    ensures d.Valid() && d.Registers(EQUALS, Given(Some(comparison)), Omitted, annotationOptions)
  {
    Decorator(EQUALS, Given(Some(comparison)), Omitted, annotationOptions)
  }

  /** Registers a rule that the property's value is a date after `date`. */
  function IsAfter(date: Param, annotationOptions: Option<ValidationAnnotationOptions>): (d: Decorator)
    ensures d.Valid() && d.Registers(IS_AFTER, Given(Some(date)), Omitted, annotationOptions)
  {
    Decorator(IS_AFTER, Given(Some(date)), Omitted, annotationOptions)
  }

  /** Registers a rule that the property's value holds letters only. */
  function IsAlpha(annotationOptions: Option<ValidationAnnotationOptions>): (d: Decorator)
    ensures d.Valid() && d.Registers(IS_ALPHA, Omitted, Omitted, annotationOptions)
  {
    Decorator(IS_ALPHA, Omitted, Omitted, annotationOptions)
  }

  /** Registers a rule that the property's value holds letters and digits only. */
  function IsAlphanumeric(annotationOptions: Option<ValidationAnnotationOptions>): (d: Decorator)
    ensures d.Valid() && d.Registers(IS_ALPHANUMERIC, Omitted, Omitted, annotationOptions)
  {
    Decorator(IS_ALPHANUMERIC, Omitted, Omitted, annotationOptions)
  }

  /** Registers a rule that the property's value holds ASCII characters only. */
  function IsAscii(annotationOptions: Option<ValidationAnnotationOptions>): (d: Decorator)
    ensures d.Valid() && d.Registers(IS_ASCII, Omitted, Omitted, annotationOptions)
  {
    Decorator(IS_ASCII, Omitted, Omitted, annotationOptions)
  }

  /** Registers a rule that the property's value is base64 encoded. */
  function IsBase64(annotationOptions: Option<ValidationAnnotationOptions>): (d: Decorator)
    ensures d.Valid() && d.Registers(IS_BASE64, Omitted, Omitted, annotationOptions)
  {
    Decorator(IS_BASE64, Omitted, Omitted, annotationOptions)
  }

  /** Registers a rule that the property's value is a date before `date`. */
  function IsBefore(date: Param, annotationOptions: Option<ValidationAnnotationOptions>): (d: Decorator)
    ensures d.Valid() && d.Registers(IS_BEFORE, Given(Some(date)), Omitted, annotationOptions)
  {
    Decorator(IS_BEFORE, Given(Some(date)), Omitted, annotationOptions)
  }

  /** Registers a rule that the property's value is a boolean. */
  function IsBoolean(annotationOptions: Option<ValidationAnnotationOptions>): (d: Decorator)
    ensures d.Valid() && d.Registers(IS_BOOLEAN, Omitted, Omitted, annotationOptions)
  {
    Decorator(IS_BOOLEAN, Omitted, Omitted, annotationOptions)
  }

  /** Registers a rule that the property's value has a byte length between `min` and `max`. */
  function IsByteLength(min: Param, max: Option<Param>, annotationOptions: Option<ValidationAnnotationOptions>): (d: Decorator)
    ensures d.Valid() && d.Registers(IS_BYTE_LENGTH, Given(Some(min)), Given(max), annotationOptions)
  {
    Decorator(IS_BYTE_LENGTH, Given(Some(min)), Given(max), annotationOptions)
  }

  /** Registers a rule that the property's value is a credit card number. */
  function IsCreditCard(annotationOptions: Option<ValidationAnnotationOptions>): (d: Decorator)
    ensures d.Valid() && d.Registers(IS_CREDIT_CARD, Omitted, Omitted, annotationOptions)
  {
    Decorator(IS_CREDIT_CARD, Omitted, Omitted, annotationOptions)
  }

  /** Registers a rule that the property's value is a currency amount. */
  function IsCurrency(options: Option<Param>, annotationOptions: Option<ValidationAnnotationOptions>): (d: Decorator)
    ensures d.Valid() && d.Registers(IS_CURRENCY, Given(options), Omitted, annotationOptions)
  {
    Decorator(IS_CURRENCY, Given(options), Omitted, annotationOptions)
  }

  /** Registers a rule that the property's value is a date. */
  function IsDate(annotationOptions: Option<ValidationAnnotationOptions>): (d: Decorator)
    ensures d.Valid() && d.Registers(IS_DATE, Omitted, Omitted, annotationOptions)
  {
    Decorator(IS_DATE, Omitted, Omitted, annotationOptions)
  }

  /** Registers a rule that the property's value is a decimal number. */
  function IsDecimal(annotationOptions: Option<ValidationAnnotationOptions>): (d: Decorator)
    ensures d.Valid() && d.Registers(IS_DECIMAL, Omitted, Omitted, annotationOptions)
  {
    Decorator(IS_DECIMAL, Omitted, Omitted, annotationOptions)
  }

  /** Registers a rule that the property's value is divisible by `number`. */
  function IsDivisibleBy(number: Param, annotationOptions: Option<ValidationAnnotationOptions>): (d: Decorator)
    ensures d.Valid() && d.Registers(IS_DIVISIBLE_BY, Given(Some(number)), Omitted, annotationOptions)
  {
    Decorator(IS_DIVISIBLE_BY, Given(Some(number)), Omitted, annotationOptions)
  }

  /** Registers a rule that the property's value is an email address. */
  function IsEmail(options: Option<Param>, annotationOptions: Option<ValidationAnnotationOptions>): (d: Decorator)
    ensures d.Valid() && d.Registers(IS_EMAIL, Given(options), Omitted, annotationOptions)
  {
    Decorator(IS_EMAIL, Given(options), Omitted, annotationOptions)
  }

  /** Registers a rule that the property's value is a fully qualified domain name. */
  function IsFQDN(options: Option<Param>, annotationOptions: Option<ValidationAnnotationOptions>): (d: Decorator)
    ensures d.Valid() && d.Registers(IS_FQDN, Given(options), Omitted, annotationOptions)
  {
    Decorator(IS_FQDN, Given(options), Omitted, annotationOptions)
  }

  /** Registers a rule that the property's value is a float. */
  function IsFloat(options: Option<Param>, annotationOptions: Option<ValidationAnnotationOptions>): (d: Decorator)
    ensures d.Valid() && d.Registers(IS_FLOAT, Given(options), Omitted, annotationOptions)
  {
    Decorator(IS_FLOAT, Given(options), Omitted, annotationOptions)
  }

  /** Registers a rule that the property's value contains full-width characters. */
  function IsFullWidth(annotationOptions: Option<ValidationAnnotationOptions>): (d: Decorator)
    ensures d.Valid() && d.Registers(IS_FULL_WIDTH, Omitted, Omitted, annotationOptions)
  {
    Decorator(IS_FULL_WIDTH, Omitted, Omitted, annotationOptions)
  }

  /** Registers a rule that the property's value contains half-width characters. */
  function IsHalfWidth(annotationOptions: Option<ValidationAnnotationOptions>): (d: Decorator)
    ensures d.Valid() && d.Registers(IS_HALF_WIDTH, Omitted, Omitted, annotationOptions)
  {
    Decorator(IS_HALF_WIDTH, Omitted, Omitted, annotationOptions)
  }

  /** Registers a rule that the property's value is a hexadecimal colour. */
  function IsHexColor(annotationOptions: Option<ValidationAnnotationOptions>): (d: Decorator)
    ensures d.Valid() && d.Registers(IS_HEX_COLOR, Omitted, Omitted, annotationOptions)
  {
    Decorator(IS_HEX_COLOR, Omitted, Omitted, annotationOptions)
  }

  /** Registers a rule that the property's value is a hexadecimal number. */
  function IsHexadecimal(annotationOptions: Option<ValidationAnnotationOptions>): (d: Decorator)
    ensures d.Valid() && d.Registers(IS_HEXADECIMAL, Omitted, Omitted, annotationOptions)
  {
    Decorator(IS_HEXADECIMAL, Omitted, Omitted, annotationOptions)
  }

  /** Registers a rule that the property's value is an IP address (of `version`). */
  function IsIP(version: Option<Param>, annotationOptions: Option<ValidationAnnotationOptions>): (d: Decorator)
    ensures d.Valid() && d.Registers(IS_IP, Given(version), Omitted, annotationOptions)
  {
    Decorator(IS_IP, Given(version), Omitted, annotationOptions)
  }

  /** Registers a rule that the property's value is an ISBN (of `version`). */
  function IsISBN(version: Option<Param>, annotationOptions: Option<ValidationAnnotationOptions>): (d: Decorator)
    ensures d.Valid() && d.Registers(IS_ISBN, Given(version), Omitted, annotationOptions)
  {
    Decorator(IS_ISBN, Given(version), Omitted, annotationOptions)
  }

  /** Registers a rule that the property's value is an ISIN. */
  function IsISIN(annotationOptions: Option<ValidationAnnotationOptions>): (d: Decorator)
    ensures d.Valid() && d.Registers(IS_ISIN, Omitted, Omitted, annotationOptions)
  {
    Decorator(IS_ISIN, Omitted, Omitted, annotationOptions)
  }

  /** Registers a rule that the property's value is an ISO 8601 date. */
  function IsISO8601(annotationOptions: Option<ValidationAnnotationOptions>): (d: Decorator)
    ensures d.Valid() && d.Registers(IS_ISO8601, Omitted, Omitted, annotationOptions)
  {
    Decorator(IS_ISO8601, Omitted, Omitted, annotationOptions)
  }

  /** Registers a rule that the property's value is one of `values`. */
  function IsIn(values: Param, annotationOptions: Option<ValidationAnnotationOptions>): (d: Decorator)
    ensures d.Valid() && d.Registers(IS_IN, Given(Some(values)), Omitted, annotationOptions)
  {
    Decorator(IS_IN, Given(Some(values)), Omitted, annotationOptions)
  }

  /** Registers a rule that the property's value is an integer. */
  function IsInt(options: Option<Param>, annotationOptions: Option<ValidationAnnotationOptions>): (d: Decorator)
    ensures d.Valid() && d.Registers(IS_INT, Given(options), Omitted, annotationOptions)
  {
    Decorator(IS_INT, Given(options), Omitted, annotationOptions)
  }

  /** Registers a rule that the property's value is valid JSON. */
  function IsJSON(annotationOptions: Option<ValidationAnnotationOptions>): (d: Decorator)
    ensures d.Valid() && d.Registers(IS_JSON, Omitted, Omitted, annotationOptions)
  {
    Decorator(IS_JSON, Omitted, Omitted, annotationOptions)
  }

  /** Registers a rule that the property's value has a length between `min` and `max`. */
  function IsLength(min: Param, max: Option<Param>, annotationOptions: Option<ValidationAnnotationOptions>): (d: Decorator)
    ensures d.Valid() && d.Registers(IS_LENGTH, Given(Some(min)), Given(max), annotationOptions)
  {
    Decorator(IS_LENGTH, Given(Some(min)), Given(max), annotationOptions)
  }

  /** Registers a rule that the property's value is lower case. */
  function IsLowercase(annotationOptions: Option<ValidationAnnotationOptions>): (d: Decorator)
    ensures d.Valid() && d.Registers(IS_LOWERCASE, Omitted, Omitted, annotationOptions)
  {
    Decorator(IS_LOWERCASE, Omitted, Omitted, annotationOptions)
  }

  /** Registers a rule that the property's value is a mobile phone number of `locale`. */
  function IsMobilePhone(locale: Param, annotationOptions: Option<ValidationAnnotationOptions>): (d: Decorator)
    ensures d.Valid() && d.Registers(IS_MOBILE_PHONE, Given(Some(locale)), Omitted, annotationOptions)
  {
    Decorator(IS_MOBILE_PHONE, Given(Some(locale)), Omitted, annotationOptions)
  }

  /** Registers a rule that the property's value is a MongoDB object id. */
  function IsMongoId(annotationOptions: Option<ValidationAnnotationOptions>): (d: Decorator)
    ensures d.Valid() && d.Registers(IS_MONGO_ID, Omitted, Omitted, annotationOptions)
  {
    Decorator(IS_MONGO_ID, Omitted, Omitted, annotationOptions)
  }

  /** Registers a rule that the property's value contains multibyte characters. */
  function IsMultibyte(annotationOptions: Option<ValidationAnnotationOptions>): (d: Decorator)
    ensures d.Valid() && d.Registers(IS_MULTIBYTE, Omitted, Omitted, annotationOptions)
  {
    Decorator(IS_MULTIBYTE, Omitted, Omitted, annotationOptions)
  }

  /** Registers a rule that the property's value is null. */
  function IsNull(annotationOptions: Option<ValidationAnnotationOptions>): (d: Decorator)
    ensures d.Valid() && d.Registers(IS_NULL, Omitted, Omitted, annotationOptions)
  {
    Decorator(IS_NULL, Omitted, Omitted, annotationOptions)
  }

  /** Registers a rule that the property's value is numeric. */
  function IsNumeric(annotationOptions: Option<ValidationAnnotationOptions>): (d: Decorator)
    ensures d.Valid() && d.Registers(IS_NUMERIC, Omitted, Omitted, annotationOptions)
  {
    Decorator(IS_NUMERIC, Omitted, Omitted, annotationOptions)
  }

  /** Registers a rule that the property's value contains surrogate pairs. */
  function IsSurrogatePair(annotationOptions: Option<ValidationAnnotationOptions>): (d: Decorator)
    ensures d.Valid() && d.Registers(IS_SURROGATE_PAIR, Omitted, Omitted, annotationOptions)
  {
    Decorator(IS_SURROGATE_PAIR, Omitted, Omitted, annotationOptions)
  }

  /** Registers a rule that the property's value is a URL. */
  function IsUrl(options: Option<Param>, annotationOptions: Option<ValidationAnnotationOptions>): (d: Decorator)
    ensures d.Valid() && d.Registers(IS_URL, Given(options), Omitted, annotationOptions)
  {
    Decorator(IS_URL, Given(options), Omitted, annotationOptions)
  }

  /** Registers a rule that the property's value is a UUID (of `version`). */
  function IsUUID(version: Option<Param>, annotationOptions: Option<ValidationAnnotationOptions>): (d: Decorator)
    ensures d.Valid() && d.Registers(IS_UUID, Given(version), Omitted, annotationOptions)
  {
    Decorator(IS_UUID, Given(version), Omitted, annotationOptions)
  }

  /** Registers a rule that the property's value is upper case. */
  function IsUppercase(annotationOptions: Option<ValidationAnnotationOptions>): (d: Decorator)
    ensures d.Valid() && d.Registers(IS_UPPERCASE, Omitted, Omitted, annotationOptions)
  {
    Decorator(IS_UPPERCASE, Omitted, Omitted, annotationOptions)
  }

  /** Registers a rule that the property's value mixes full- and half-width characters. */
  function IsVariableWidth(annotationOptions: Option<ValidationAnnotationOptions>): (d: Decorator)
    ensures d.Valid() && d.Registers(IS_VARIABLE_WIDTH, Omitted, Omitted, annotationOptions)
  {
    Decorator(IS_VARIABLE_WIDTH, Omitted, Omitted, annotationOptions)
  }

  /**
   * Meant as a rule that the property's value matches `pattern`, but the
   * registered record holds neither `pattern` nor `modifiers`: it is a
   * `MATCHES` rule without a pattern.
   */
  function Matches(pattern: Param, modifiers: Option<Param>, annotationOptions: Option<ValidationAnnotationOptions>): (d: Decorator)
    ensures d.Valid() && d.Registers(MATCHES, Omitted, Omitted, annotationOptions)
  {
    Decorator(MATCHES, Omitted, Omitted, annotationOptions)
  }
}
