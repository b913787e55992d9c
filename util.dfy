/**
 * `Capitalize::capitalize` of util.rs: the first character upper-cased, the
 * rest of the string as it was. Case mapping is modelled for ASCII letters.
 */
module Util {

  predicate IsLower(c: char) {
    'a' <= c <= 'z'
  }

  predicate IsUpper(c: char) {
    'A' <= c <= 'Z'
  }

  /** `char::to_uppercase` on ASCII: a lower-case letter becomes its capital, anything else stays. */
  function ToUpper(c: char): (r: char)
    ensures IsLower(c) ==> IsUpper(r) && r as int - c as int == 'A' as int - 'a' as int
    ensures !IsLower(c) ==> r == c
    ensures !IsLower(r)
  {
    if IsLower(c) then (c as int - 'a' as int + 'A' as int) as char else c
  }

  function Capitalize(s: string): (r: string)
    ensures s == [] ==> r == []
    ensures s != [] ==> |r| == |s| && r[0] == ToUpper(s[0]) && r[1..] == s[1..]
  {
    if s == [] then [] else [ToUpper(s[0])] + s[1..]
  }

  /** A string that already starts with anything but a lower-case letter is left alone. */
  lemma CapitalizeKeepsCapitalized(s: string)
    requires s != [] ==> !IsLower(s[0])
    ensures Capitalize(s) == s
  {
  }

  /** Capitalizing twice is capitalizing once. */
  lemma CapitalizeIdempotent(s: string)
    ensures Capitalize(Capitalize(s)) == Capitalize(s)
  {
  }

  /** Capitalizing only ever changes the first character. */
  lemma CapitalizePreservesTail(s: string, i: nat)
    requires 1 <= i < |s|
    ensures Capitalize(s)[i] == s[i]
  {
  }
}
