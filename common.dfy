/** Value-level stand-ins for the .NET notions every component uses: nullable
    references, exceptions, whitespace and ordinal case-insensitive comparison. */
module Common {

  /** A nullable reference of the source: `None` is C#'s `null`. */
  datatype Option<+T> = None | Some(value: T) {
    function GetOr(default: T): T {
      match this
      case Some(v) => v
      case None => default
    }
  }

  /** The exceptions the modelled code throws or lets through. */
  datatype Exception =
    | NullReference
    | ArgumentNull(paramName: string)
    | Argument(message: string)
    | InvalidOperation(message: string)
    | Foreign(id: nat)          // raised by code outside the model (an inner handler, a library)

  /** How a call ends: it returns a value or it throws. */
  datatype Outcome<+T> = Returned(value: T) | Threw(error: Exception)

  /** `char.IsWhiteSpace`: the Unicode space, line and paragraph separators
      and the control characters U+0009..U+000D and U+0085. */
  predicate IsWhiteSpace(c: char) {
    || ('\U{0009}' <= c <= '\U{000D}')
    || c == ' ' || c == '\U{0085}' || c == '\U{00A0}' || c == '\U{1680}'
    || ('\U{2000}' <= c <= '\U{200A}')
    || c == '\U{2028}' || c == '\U{2029}' || c == '\U{202F}' || c == '\U{205F}' || c == '\U{3000}'
  }

  /** `string.IsNullOrWhiteSpace`. */
  predicate IsBlank(s: Option<string>) {
    match s
    case None => true
    case Some(t) => forall i | 0 <= i < |t| :: IsWhiteSpace(t[i])
  }

  /** Upper-casing as `StringComparison.OrdinalIgnoreCase` applies it to ASCII letters. */
  function ToUpperAscii(c: char): (u: char)
    ensures 'a' <= c <= 'z' ==> 'A' <= u <= 'Z'
    ensures !('a' <= c <= 'z') ==> u == c
  {
    if 'a' <= c <= 'z' then (c as int - 32) as char else c
  }

  /** `string.Equals(a, b, StringComparison.OrdinalIgnoreCase)` on ASCII text. */
  predicate EqualsIgnoreCase(a: string, b: string) {
    |a| == |b| && forall i | 0 <= i < |a| :: ToUpperAscii(a[i]) == ToUpperAscii(b[i])
  }

  /** `a.StartsWith(prefix, StringComparison.OrdinalIgnoreCase)`. */
  predicate StartsWithIgnoreCase(a: string, prefix: string) {
    |prefix| <= |a| && EqualsIgnoreCase(a[..|prefix|], prefix)
  }

  /** ASP.NET Core `IHeaderDictionary`: each key has a list of values, any
      of which may be null. */
  type HeaderDictionary = map<string, seq<Option<string>>>
}
