/**
  `helper.ConfigReader`: the strict integer getter used for `timeout.maximum`.
  It never substitutes a default: a missing, blank or malformed value throws.
 */
module StrictConfig {
  import opened JavaLang
  import opened JavaText
  import UtilConfig

  function NotFoundMessage(key: string): string {
    "Property " + key + " not found or empty in config file"
  }

  function InvalidMessage(key: string): string {
    "Invalid integer value for key: " + key
  }

  /**
    `getIntProperty(key)`: a present value that is not blank is parsed as it is
    stored (untrimmed); a parse failure becomes "Invalid integer value for key",
    wrapping the `NumberFormatException`; an absent or blank value becomes
    "Property ... not found or empty in config file".
   */
  function GetIntPropertyStrict(p: UtilConfig.Properties, key: string): (r: Result<Int32>)
    ensures r.Ok? ==> key in p && ParseInt(p[key]) == Some(r.value)
    ensures r.Throw? ==> r.exc.kind == RuntimeException
    ensures key !in p ==> r == Throw(Runtime(NotFoundMessage(key), None))
    ensures key in p && ParseInt(p[key]).Some? ==> r == Ok(ParseInt(p[key]).value)
    ensures key in p && Trim(p[key]) != [] && ParseInt(p[key]).None? ==>
      r == Throw(Runtime(InvalidMessage(key), Some(NumberFormat(p[key]))))
  {
    match UtilConfig.GetProperty(p, key)
    case Some(value) =>
      if Trim(value) != [] then (
        match ParseInt(value)
        case Some(n) => Ok(n)
        case None => Throw(Runtime(InvalidMessage(key), Some(NumberFormat(value)))))
      else Throw(Runtime(NotFoundMessage(key), None))
    case None => Throw(Runtime(NotFoundMessage(key), None))
  }

  /** The "not found or empty" error is raised exactly when the key is absent or its value is all blanks. */
  lemma StrictNotFoundIffAbsentOrBlank(p: UtilConfig.Properties, key: string)
    ensures GetIntPropertyStrict(p, key) == Throw(Runtime(NotFoundMessage(key), None)) <==>
      key !in p || forall k :: 0 <= k < |p[key]| ==> IsBlankChar(p[key][k])
  {
    if key in p {
      TrimEmptyIffAllBlank(p[key]);
      if Trim(p[key]) != [] && ParseInt(p[key]).None? {
        assert InvalidMessage(key) != NotFoundMessage(key) by {
          assert InvalidMessage(key)[0] == 'I' && NotFoundMessage(key)[0] == 'P';
        }
      }
    }
  }

  /**
    A value with blanks around a valid numeral (" 5") is not trimmed before
    parsing, so it is rejected as an invalid integer, wrapping the parse error.
   */
  lemma StrictRejectsPaddedNumeral(p: UtilConfig.Properties, key: string)
    requires key in p && Trim(p[key]) != []
    requires IsBlankChar(p[key][0]) || IsBlankChar(p[key][|p[key]| - 1])
    ensures GetIntPropertyStrict(p, key) == Throw(Runtime(InvalidMessage(key), Some(NumberFormat(p[key]))))
  {
    if DecimalValue(p[key]).Some? {
      ParsedNumeralHasNoBlanks(p[key]);
    }
  }

  /** Storing `Integer.toString(n)` makes the strict getter return `n`. */
  lemma StrictReadsBack(p: UtilConfig.Properties, key: string, n: Int32)
    ensures GetIntPropertyStrict(p[key := IntToString(n)], key) == Ok(n)
  {
    ParseIntToString(n);
    ParsedNumeralHasNoBlanks(IntToString(n));
    TrimKeepsUnpaddedString(IntToString(n));
  }

  /**
    Where the strict getter succeeds the lenient one agrees with it for every
    default; where the lenient one would fall back, the strict one throws.
   */
  lemma StrictAgreesWithLenient(p: UtilConfig.Properties, key: string, default: Int32)
    ensures GetIntPropertyStrict(p, key).Ok? ==>
      UtilConfig.GetIntProperty(p, key, default) == GetIntPropertyStrict(p, key).value
    ensures key !in p || ParseInt(p[key]).None? ==> GetIntPropertyStrict(p, key).Throw?
  {
  }
}
