/**
 * Ruby's String#upcase! and String#downcase!, as the configuration loader
 * applies them to the entries of the MAC and proximity filter lists
 * (lib/blue_hydra.rb:87-91). Only the ASCII letters are mapped.
 */
module CaseMapping {

  predicate IsLowerLetter(c: char) { 'a' <= c <= 'z' }

  predicate IsUpperLetter(c: char) { 'A' <= c <= 'Z' }

  function UpcaseChar(c: char): (u: char)
    ensures !IsLowerLetter(u)
    ensures IsLowerLetter(c) ==> u as int == c as int - 32
    ensures !IsLowerLetter(c) ==> u == c
  {
    if IsLowerLetter(c) then (c as int - 32) as char else c
  }

  function DowncaseChar(c: char): (d: char)
    ensures !IsUpperLetter(d)
    ensures IsUpperLetter(c) ==> d as int == c as int + 32
    ensures !IsUpperLetter(c) ==> d == c
  {
    if IsUpperLetter(c) then (c as int + 32) as char else c
  }

  /** A string with no lower-case letter. */
  predicate IsUpcased(s: string) {
    forall i :: 0 <= i < |s| ==> !IsLowerLetter(s[i])
  }

  /** A string with no upper-case letter. */
  predicate IsDowncased(s: string) {
    forall i :: 0 <= i < |s| ==> !IsUpperLetter(s[i])
  }

  /** The string `s` with every lower-case letter made upper-case. */
  function Upcase(s: string): (r: string)
    ensures |r| == |s|
    ensures forall i :: 0 <= i < |s| ==> r[i] == UpcaseChar(s[i])
    ensures IsUpcased(r)
  {
    if s == [] then [] else [UpcaseChar(s[0])] + Upcase(s[1..])
  }

  /** The string `s` with every upper-case letter made lower-case. */
  function Downcase(s: string): (r: string)
    ensures |r| == |s|
    ensures forall i :: 0 <= i < |s| ==> r[i] == DowncaseChar(s[i])
    ensures IsDowncased(r)
  {
    if s == [] then [] else [DowncaseChar(s[0])] + Downcase(s[1..])
  }

  /** An upper-case string is left as it is by Upcase; in particular Upcase is idempotent. */
  lemma UpcaseFixesUpcased(s: string)
    requires IsUpcased(s)
    ensures Upcase(s) == s
  {
    var r := Upcase(s);
    assert forall i :: 0 <= i < |s| ==> r[i] == s[i];
  }

  lemma DowncaseFixesDowncased(s: string)
    requires IsDowncased(s)
    ensures Downcase(s) == s
  {
    var r := Downcase(s);
    assert forall i :: 0 <= i < |s| ==> r[i] == s[i];
  }
}
