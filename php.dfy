/** The scalar PHP values a request parameter or a gateway payload field can carry. */
module Php {
  import Decimal

  datatype Value = Null | Bool(b: bool) | Int(i: int) | Str(s: string)

  /** PHP's `(string)` cast. */
  function ToPhpString(v: Value): (s: string)
    ensures v.Str? ==> s == v.s
    ensures v.Null? || v == Bool(false) ==> s == ""
    ensures s == "" <==> v.Null? || v == Bool(false) || v == Str("")
  {
    match v
    case Null => ""
    case Bool(b) => if b then "1" else ""
    case Int(i) => Decimal.IntToString(i)
    case Str(s) => s
  }

  /** `!$s` for a string: PHP treats "" and "0" as false. */
  predicate FalsyString(s: string) {
    s == "" || s == "0"
  }
}
