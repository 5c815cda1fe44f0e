/** Value types shared by the whole model: nullable columns and JavaScript arguments. */
module Prelude {

  datatype Option<+T> = None | Some(value: T) {

    /** `a ?? default` */
    function GetOr(default: T): T {
      if Some? then value else default
    }
  }

  datatype Result<+T, +E> = Ok(value: T) | Err(error: E)

  /** An optional JavaScript argument, where `undefined` and `null` differ. */
  datatype Nullish<+T> = Undefined | Null | Given(value: T)

  /** JavaScript truthiness of a nullable string: null and "" are falsy. */
  predicate Truthy(s: Option<string>) {
    s.Some? && s.value != ""
  }

  /** White space that `trim` removes, ECMA-262 sections 12.2 and 12.3. */
  predicate IsWhiteSpace(c: char) {
    c == ' ' || '\t' <= c <= '\r' || c == '\U{00A0}' || c == '\U{1680}' || '\U{2000}' <= c <= '\U{200A}'
    || c == '\U{2028}' || c == '\U{2029}' || c == '\U{202F}' || c == '\U{205F}' || c == '\U{3000}' || c == '\U{FEFF}'
  }

  function Trim(s: string): string
    decreases |s|
  {
    if s != "" && IsWhiteSpace(s[0]) then Trim(s[1..])
    else if s != "" && IsWhiteSpace(s[|s| - 1]) then Trim(s[..|s| - 1])
    else s
  }
}
