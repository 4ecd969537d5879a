/** Case mapping of addresses, as `String.prototype.toLowerCase` applies it to hex text. */
module Text {

  predicate IsUpper(ch: char) {
    'A' <= ch <= 'Z'
  }

  function LowerChar(ch: char): (r: char)
    ensures !IsUpper(r)
    ensures !IsUpper(ch) ==> r == ch
    ensures IsUpper(ch) ==> r as int == ch as int + 32
  {
    if IsUpper(ch) then (ch as int + 32) as char else ch
  }

  /** The string with every upper-case ASCII letter replaced by its lower-case letter. */
  function ToLower(s: string): (r: string)
    ensures |r| == |s|
    ensures forall i :: 0 <= i < |s| && !IsUpper(s[i]) ==> r[i] == s[i]
    ensures forall i :: 0 <= i < |s| ==> !IsUpper(r[i])
    ensures forall i :: 0 <= i < |s| && IsUpper(s[i]) ==> r[i] as int == s[i] as int + 32
  {
    seq(|s|, i requires 0 <= i < |s| => LowerChar(s[i]))
  }

  /** Lower-casing is idempotent: an address already lower-cased is left as it is. */
  lemma LowerIsFixpoint(s: string)
    ensures ToLower(ToLower(s)) == ToLower(s)
  {
  }
}
