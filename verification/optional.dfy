/** The nullable values of the source (`null`, `undefined`, a missing key). */
module Optional {

  datatype Option<+T> = None | Some(value: T)

  /** JavaScript truthiness of a nullable string: `!s` is false exactly when
      `s` is present and not the empty string. */
  predicate Truthy(s: Option<string>)
    ensures !Truthy(s) <==> s == None || s == Some("")
  {
    s.Some? && s.value != ""
  }
}
