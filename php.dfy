/** The parts of PHP's value semantics that the grant's control flow depends on:
    strict identity with `false`, conversion to bool, loose comparison with `null`,
    and the default-value lookups of a request parameter bag and of the
    configuration repository. */
module Php {
  import opened Wrappers

  /** A PHP scalar. Floats, arrays and objects are not modelled. */
  datatype PhpValue = PNull | PFalse | PTrue | PInt(i: int) | PStr(s: string)

  /** PHP's conversion to bool: null, false, 0, "" and "0" convert to false. */
  predicate Truthy(v: PhpValue) {
    match v
    case PNull => false
    case PFalse => false
    case PTrue => true
    case PInt(i) => i != 0
    case PStr(s) => s != "" && s != "0"
  }

  /** `$v == null`. A loose comparison with null converts both sides to bool, except
      against a string, where null is compared as the empty string. So null, false, 0
      and "" are loosely null, but "0" is not, although it converts to false. */
  predicate LooselyNull(v: PhpValue) {
    match v
    case PNull => true
    case PFalse => true
    case PTrue => false
    case PInt(i) => i == 0
    case PStr(s) => s == ""
  }

  /** Every loosely null value converts to false; "0" is the one falsy value that is
      not loosely null. */
  lemma LooselyNullVersusTruthy(v: PhpValue)
    ensures LooselyNull(v) ==> !Truthy(v)
    ensures !Truthy(v) && !LooselyNull(v) <==> v == PStr("0")
  {
  }

  /** `$bag->get($key, $fallback)` on a request parameter bag: a key that is present
      yields its stored value, even a null one; only an absent key yields the fallback. */
  function BagGet(bag: map<string, PhpValue>, key: string, fallback: PhpValue): PhpValue {
    if key in bag then bag[key] else fallback
  }

  /** `Config::get($key, $fallback)` for one configuration key, given whether the key
      is present and with which value. */
  function ConfigGet(entry: Option<PhpValue>, fallback: PhpValue): PhpValue {
    entry.GetOr(fallback)
  }
}
