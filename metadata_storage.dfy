/**
 * The metadata record an annotation hands to the storage, and the storage
 * itself. The storage's own implementation is not part of this model: its
 * `addValidationMetadata` is modelled as "append this record".
 */
module Metadata {
  import opened Wrappers
  import opened ValidationTypes

  /**
   * A rule parameter (a string, a number, a `Date`, an array or an options
   * bag). The annotations pass it through without looking at it.
   */
  type Param

  /** The object (a class prototype) whose property a decorator is applied to. */
  type Target(!new)

  /**
   * A `value1`/`value2` entry of the record literal: `Omitted` when the
   * literal has no such key, `Given(None)` when the key is present and holds
   * `undefined`.
   */
  datatype Slot = Omitted | Given(value: Option<Param>)

  /**
   * The object literal passed to `addValidationMetadata`. `type` and
   * `object` are Dafny keywords, so those two keys are named
   * `validationType` and `target` here.
   */
  datatype ValidationMetadata = ValidationMetadata(
    validationType: ValidationType,
    sanitize: bool,
    target: Target,
    propertyName: string,
    value1: Slot,
    value2: Slot,
    groups: Option<seq<string>>,
    message: Option<string>,
    always: Option<bool>)

  /** The value slots fit the layout of the record's kind. */
  predicate SlotsFit(layout: ValueLayout, value1: Slot, value2: Slot)
  {
    match layout
    case NoValue => value1 == Omitted && value2 == Omitted
    case RequiredValue => value1.Given? && value1.value.Some? && value2 == Omitted
    case OptionalValue => value1.Given? && value2 == Omitted
    case RangeValues => value1.Given? && value1.value.Some? && value2.Given?
  }

  /**
   * What holds of every record an annotation registers: it is a validation
   * (not a sanitisation) rule, an empty message and `always: false` never
   * reach it, and its value slots follow its kind's layout.
   */
  predicate WellFormed(m: ValidationMetadata)
  {
    && !m.sanitize
    && m.message != Some("")
    && m.always != Some(false)
    && SlotsFit(Layout(m.validationType), m.value1, m.value2)
  }

  /** The shared registry of validation records, in registration order. */
  class MetadataStorage {
    var validationMetadatas: seq<ValidationMetadata>

    constructor ()
      ensures validationMetadatas == []
    {
      validationMetadatas := [];
    }

    /** Appends one record: no deduplication, no overwriting. */
    method AddValidationMetadata(metadata: ValidationMetadata)
      modifies this
      ensures validationMetadatas == old(validationMetadatas) + [metadata]
    {
      validationMetadatas := validationMetadatas + [metadata];
    }
  }
}
