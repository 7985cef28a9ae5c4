/**
 * The closed set of rule kinds the annotation factories register, named as
 * the constants of the `ValidationTypes` enumeration they refer to, and the
 * layout of rule parameters each kind's record carries.
 */
module ValidationTypes {

  datatype ValidationType =
    | CONTAINS | EQUALS | IS_AFTER | IS_ALPHA | IS_ALPHANUMERIC | IS_ASCII
    | IS_BASE64 | IS_BEFORE | IS_BOOLEAN | IS_BYTE_LENGTH | IS_CREDIT_CARD
    | IS_CURRENCY | IS_DATE | IS_DECIMAL | IS_DIVISIBLE_BY | IS_EMAIL | IS_FQDN
    | IS_FLOAT | IS_FULL_WIDTH | IS_HALF_WIDTH | IS_HEX_COLOR | IS_HEXADECIMAL
    | IS_IP | IS_ISBN | IS_ISIN | IS_ISO8601 | IS_IN | IS_INT | IS_JSON
    | IS_LENGTH | IS_LOWERCASE | IS_MOBILE_PHONE | IS_MONGO_ID | IS_MULTIBYTE
    | IS_NULL | IS_NUMERIC | IS_SURROGATE_PAIR | IS_URL | IS_UUID
    | IS_UPPERCASE | IS_VARIABLE_WIDTH | MATCHES

  /** Where a kind's record keeps the rule parameters of its factory. */
  datatype ValueLayout =
    | NoValue        // neither `value1` nor `value2` is written
    | RequiredValue  // a mandatory parameter in `value1`, no `value2`
    | OptionalValue  // an optional parameter in `value1` (possibly undefined), no `value2`
    | RangeValues    // a mandatory `min` in `value1`, an optional `max` in `value2`

  /**
   * The layout follows each factory's parameter list. `MATCHES` takes a
   * pattern and modifiers but writes neither, so its layout is `NoValue`.
   */
  function Layout(k: ValidationType): ValueLayout
  {
    match k
    case CONTAINS | EQUALS | IS_AFTER | IS_BEFORE | IS_DIVISIBLE_BY | IS_IN
       | IS_MOBILE_PHONE =>
      RequiredValue
    case IS_CURRENCY | IS_EMAIL | IS_FQDN | IS_FLOAT | IS_INT | IS_URL
       | IS_IP | IS_ISBN | IS_UUID =>
      OptionalValue
    case IS_BYTE_LENGTH | IS_LENGTH =>
      RangeValues
    case _ =>
      NoValue
  }
}
