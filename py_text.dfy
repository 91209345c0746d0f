/** Python's `str.lower()` and `str.capitalize()`, on ASCII letters; other
    characters are kept as they are. */
module PyText {

  predicate IsLetter(c: char) {
    'A' <= c <= 'Z' || 'a' <= c <= 'z'
  }

  function Upper(c: char): char {
    if 'a' <= c <= 'z' then (c as int - 32) as char else c
  }

  function Lower(c: char): char {
    if 'A' <= c <= 'Z' then (c as int + 32) as char else c
  }

  /** The two cases of a character: the upper case is never a lower-case
      letter and the lower case never an upper-case one, a letter stays a
      letter, any other character is kept, and each case of a letter maps
      back to the same other case. */
  lemma CaseMapping(c: char)
    ensures !('a' <= Upper(c) <= 'z') && !('A' <= Lower(c) <= 'Z')
    ensures IsLetter(Upper(c)) <==> IsLetter(c)
    ensures IsLetter(Lower(c)) <==> IsLetter(c)
    ensures !IsLetter(c) ==> Upper(c) == c && Lower(c) == c
    ensures Upper(Lower(c)) == Upper(c) && Lower(Upper(c)) == Lower(c)
  {
  }

  /** `s.lower()`. */
  function LowerAll(s: string): (r: string)
    ensures |r| == |s| && forall i :: 0 <= i < |s| ==> r[i] == Lower(s[i])
  {
    if s == [] then [] else [Lower(s[0])] + LowerAll(s[1..])
  }

  /** Lower-casing twice is lower-casing once, so comparing lowered texts
      is an equivalence that ignores case. */
  lemma LowerAllIdempotent(s: string)
    ensures LowerAll(LowerAll(s)) == LowerAll(s)
  {
    var l := LowerAll(s);
    var ll := LowerAll(l);
    forall i | 0 <= i < |l| ensures ll[i] == l[i] {
    }
  }

  /** `s.capitalize()`. */
  function Capitalize(s: string): (r: string)
    ensures |r| == |s|
    ensures |s| > 0 ==> r[0] == Upper(s[0])
    ensures forall i :: 1 <= i < |s| ==> r[i] == Lower(s[i])
  {
    if s == [] then [] else [Upper(s[0])] + LowerAll(s[1..])
  }

  /** Capitalising twice is capitalising once. */
  lemma CapitalizeIdempotent(s: string)
    ensures Capitalize(Capitalize(s)) == Capitalize(s)
  {
    var c := Capitalize(s);
    var cc := Capitalize(c);
    forall i | 0 <= i < |c| ensures cc[i] == c[i] {
    }
  }

  /** Capitalize by its characters, for checking a given text. */
  lemma CapitalizeIs(s: string, t: string)
    requires |s| == |t| > 0 && t[0] == Upper(s[0])
    requires forall i :: 1 <= i < |s| ==> t[i] == Lower(s[i])
    ensures Capitalize(s) == t
  {
  }
}
