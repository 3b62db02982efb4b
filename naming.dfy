/**
 * The JavaBeans naming the inspectors use to find accessors: `capitalize` and
 * the `is`/`get`/`set` prefixes.
 */
module Naming {
  import opened Reflection

  /** `Character.toUpperCase` on the ASCII range; other characters are returned unchanged. */
  function ToUpperAscii(ch: char): char
  {
    if 'a' <= ch <= 'z' then (ch as int - 32) as char else ch
  }

  /** `s.substring(0, 1).toUpperCase().concat(s.substring(1))`; the empty string would throw. */
  function Capitalize(s: string): (r: string)
    requires |s| > 0
    ensures |r| == |s|
    ensures r[0] == ToUpperAscii(s[0]) && !('a' <= r[0] <= 'z')
    ensures forall i :: 1 <= i < |s| ==> r[i] == s[i]
  {
    [ToUpperAscii(s[0])] + s[1..]
  }

  /** Capitalising twice is capitalising once. */
  lemma CapitalizeIdempotent(s: string)
    requires |s| > 0
    ensures Capitalize(Capitalize(s)) == Capitalize(s)
  {
    assert Capitalize(s)[1..] == s[1..];
  }

  /** A name that already starts with a non-lower-case character is left as it is. */
  lemma CapitalizeFixesCapitalised(s: string)
    requires |s| > 0 && !('a' <= s[0] <= 'z')
    ensures Capitalize(s) == s
  {
    assert Capitalize(s)[0] == s[0];
  }

  /** `is` for a primitive `boolean` field, `get` for every other field type. */
  function GetterPrefix(fieldType: JClass): (r: string)
    ensures r == "is" <==> fieldType == BooleanClass
    ensures r == "is" || r == "get"
  {
    if fieldType == BooleanClass then "is" else "get"
  }

  /** The getter name looked up for a field: the prefix, then the capitalised field name. */
  function GetterName(fieldType: JClass, name: Identifier): string
  {
    GetterPrefix(fieldType) + Capitalize(name)
  }

  /** The setter name looked up for a bean field. */
  function SetterName(name: Identifier): string
  {
    "set" + Capitalize(name)
  }

  /** Getter names tell `boolean` fields from the others and keep the whole name after its first character. */
  lemma GetterNameShape(fieldType: JClass, name: Identifier)
    ensures fieldType == BooleanClass ==> GetterName(fieldType, name)[..2] == "is" && |GetterName(fieldType, name)| == |name| + 2
    ensures fieldType != BooleanClass ==> GetterName(fieldType, name)[..3] == "get" && |GetterName(fieldType, name)| == |name| + 3
    ensures GetterName(fieldType, name)[|GetterName(fieldType, name)| - |name| + 1..] == name[1..]
  {
    var p := GetterPrefix(fieldType);
    assert GetterName(fieldType, name) == p + Capitalize(name);
    assert (p + Capitalize(name))[|p| + 1..] == Capitalize(name)[1..];
  }
}
