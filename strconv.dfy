/**
 * The one standard-library function the normalizers depend on: Go's
 * strconv.ParseBool, whose accepted spellings are fixed by its documentation.
 */
module StrConv {
  import opened GoStrings

  datatype Option<T> = None | Some(value: T)

  /**
   * strconv.ParseBool: "1", "t", "T", "TRUE", "true" and "True" parse as true;
   * "0", "f", "F", "FALSE", "false" and "False" parse as false; every other
   * string is a syntax error, here None.
   */
  function ParseBool(s: GoString): (r: Option<bool>)
    // only one-, four- and five-byte strings are accepted
    ensures r.Some? ==> |s| == 1 || |s| == 4 || |s| == 5
    ensures r == Some(true) ==> |s| == 1 || |s| == 4
    ensures r == Some(false) ==> |s| == 1 || |s| == 5
    // an accepted string's first byte decides its value
    ensures r.Some? ==> (r.value <==> s[0] as int as char in {'1', 't', 'T'})
    ensures r.Some? ==> (!r.value <==> s[0] as int as char in {'0', 'f', 'F'})
  {
    if |s| == 1 then
      if Spells(s, "1") || Spells(s, "t") || Spells(s, "T") then Some(true)
      else if Spells(s, "0") || Spells(s, "f") || Spells(s, "F") then Some(false)
      else None
    else if |s| == 4 then
      if Spells(s, "TRUE") || Spells(s, "true") || Spells(s, "True") then Some(true) else None
    else if |s| == 5 then
      if Spells(s, "FALSE") || Spells(s, "false") || Spells(s, "False") then Some(false) else None
    else None
  }

  /** Inputs that ParseBool rejects, among them the empty string. */
  lemma ParseBoolRejects()
    ensures ParseBool([]) == None
    ensures ParseBool(Ascii("yes")) == None
    ensures ParseBool(Ascii("not-a-bool")) == None
    ensures ParseBool(Ascii("tRUE")) == None
    ensures ParseBool(Ascii("00")) == None
  {
    assert Ascii("tRUE")[0] != Ascii("TRUE")[0];
    assert Ascii("tRUE")[1] != Ascii("true")[1];
    assert Ascii("tRUE")[1] != Ascii("True")[1];
  }

  /** Every spelling in strconv.ParseBool's table parses to the value it names. */
  lemma ParseBoolAccepts()
    ensures ParseBool(Ascii("true")) == Some(true)
    ensures ParseBool(Ascii("false")) == Some(false)
    ensures ParseBool(Ascii("1")) == Some(true)
    ensures ParseBool(Ascii("0")) == Some(false)
    ensures ParseBool(Ascii("t")) == Some(true) && ParseBool(Ascii("T")) == Some(true)
    ensures ParseBool(Ascii("TRUE")) == Some(true) && ParseBool(Ascii("True")) == Some(true)
    ensures ParseBool(Ascii("f")) == Some(false) && ParseBool(Ascii("F")) == Some(false)
    ensures ParseBool(Ascii("FALSE")) == Some(false) && ParseBool(Ascii("False")) == Some(false)
  {
  }
}
