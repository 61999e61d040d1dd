/** Stable identifiers: the scanner of the service against the pattern of the JSON schemas. */
module StableIds {
  import opened Text

  predicate Alphanumeric(c: char) { IsLower(c) || IsDigit(c) }

  predicate Separator(c: char) { c == '.' || c == '_' || c == '-' }

  // [a-z0-9]* ([._-] [a-z0-9]+)*
  predicate Body(s: string) {
    || s == []
    || (Alphanumeric(s[0]) && Body(s[1..]))
    || (Separator(s[0]) && |s| > 1 && Alphanumeric(s[1]) && Body(s[1..]))
  }

  // The pattern the schemas publish: [a-z] [a-z0-9]* ([._-] [a-z0-9]+)*
  predicate StableId(s: string) {
    s != [] && IsLower(s[0]) && Body(s[1..])
  }

  // What must follow, after a separator or after anything else.
  predicate Rest(afterSeparator: bool, s: string) {
    Body(s) && (afterSeparator ==> s != [] && Alphanumeric(s[0]))
  }

  // `validate_stable_id`: one pass with a flag for the previous separator.
  method ValidateStableId(value: string) returns (valid: bool)
    ensures valid <==> StableId(value)
  {
    var previousSeparator := false;
    var i := 0;
    valid := true;
    while i < |value| && valid
      invariant 0 <= i <= |value|
      invariant i == 0 ==> valid && !previousSeparator
      invariant !valid ==> !StableId(value)
      invariant valid && i > 0 ==> (StableId(value) <==> Rest(previousSeparator, value[i..]))
    {
      var character := value[i];
      var separator := Separator(character);
      var allowed := IsLower(character) || IsDigit(character) || separator;
      var positionValid := i != 0 || IsLower(character);
      var separatorValid := !separator || !previousSeparator;
      assert value[i..][1..] == value[i + 1..];
      previousSeparator := separator;
      valid := allowed && positionValid && separatorValid;
      i := i + 1;
    }
    valid := valid && value != [] && !previousSeparator;
  }
}
