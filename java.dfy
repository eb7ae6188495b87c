/** The few pieces of Java semantics the model depends on. */
module Java {
  import opened Wrappers

  /**
   * A Java `String` reference: `null`, or an object holding `text`.
   * `interned` marks the one shared object the compiler uses for a string
   * literal; a string built at run time (by a `StringBuffer`, say) is a
   * distinct object even when its text equals a literal.
   */
  datatype StrRef = Null | Str(text: string, interned: bool)

  /** The object a string literal such as `""` denotes. */
  function Literal(text: string): StrRef
  {
    Str(text, true)
  }

  /**
   * `a == Literal(t)` in Java, i.e. reference identity: only the interned
   * object itself is the same reference as the literal.
   */
  predicate SameAsLiteral(a: StrRef, t: string)
  {
    a == Literal(t)
  }

  /** What `"" + x` yields for a possibly-null string `x`: "null" for null. */
  function TextOf(x: Option<string>): string
  {
    match x
    case Some(s) => s
    case None => "null"
  }

  /** `s.startsWith(t)`. */
  predicate StartsWith(s: string, t: string)
  {
    |t| <= |s| && s[..|t|] == t
  }

  /** `s.endsWith(t)`. */
  predicate EndsWith(s: string, t: string)
  {
    |t| <= |s| && s[|s| - |t|..] == t
  }

  /** `s.contains(t)`: `t` occurs in `s` at some position. */
  predicate Contains(s: string, t: string)
    decreases |s|
  {
    StartsWith(s, t) || (|s| > 0 && Contains(s[1..], t))
  }

  /** The exceptions the modelled code can raise. */
  datatype Exception =
    | JsonSyntax            // the JSON parser rejected its input
    | ClassCast             // a cast such as `(JsonObject) obj` failed
    | NullPointer           // a member was called on `null`
    | IllegalState          // Gson: `getAsJsonObject`/`getAsString` on the wrong kind of element
    | UnsupportedOperation  // Gson: `getAsString` on an object or on JSON null
}
