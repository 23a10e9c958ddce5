/**
 * The case-insensitive comparison the signing self-check performs with
 * `toLowerCase()` on both addresses. Only the ASCII letters 'A'..'Z' are folded;
 * the addresses compared are hexadecimal text.
 */
module AsciiCase {

  predicate IsUpper(c: char)
  {
    'A' <= c <= 'Z'
  }

  /** Maps 'A'..'Z' to 'a'..'z' and every other character to itself. */
  function LowerChar(c: char): (d: char)
    ensures !IsUpper(d)
    ensures !IsUpper(c) ==> d == c
    ensures IsUpper(c) ==> d as int - c as int == 'a' as int - 'A' as int
  {
    if IsUpper(c) then (c as int - 'A' as int + 'a' as int) as char else c
  }

  function Lower(s: string): (t: string)
    ensures |t| == |s|
  {
    if s == [] then [] else [LowerChar(s[0])] + Lower(s[1..])
  }

  lemma {:induction false} LowerAt(s: string, i: int)
    requires 0 <= i < |s|
    ensures Lower(s)[i] == LowerChar(s[i])
  {
    if i > 0 {
      LowerAt(s[1..], i - 1);
    }
  }

  /** Lowering is idempotent: a lowered string has no upper-case letter left. */
  lemma LowerIdempotent(s: string)
    ensures Lower(Lower(s)) == Lower(s)
  {
    var t := Lower(s);
    forall i | 0 <= i < |t|
      ensures Lower(t)[i] == t[i]
    {
      LowerAt(t, i);
      LowerAt(s, i);
    }
  }

  /** `a.toLowerCase() === b.toLowerCase()` */
  predicate EqualIgnoringCase(a: string, b: string)
  {
    Lower(a) == Lower(b)
  }

  /** The comparison holds exactly when the strings agree character by character up to case. */
  lemma EqualIgnoringCaseIff(a: string, b: string)
    ensures EqualIgnoringCase(a, b) <==>
            |a| == |b| && forall i :: 0 <= i < |a| ==> LowerChar(a[i]) == LowerChar(b[i])
  {
    if |a| == |b| {
      forall i | 0 <= i < |a|
        ensures Lower(a)[i] == LowerChar(a[i]) && Lower(b)[i] == LowerChar(b[i])
      {
        LowerAt(a, i);
        LowerAt(b, i);
      }
    }
  }

  /** An exact match always passes, and so does a match that differs only in letter case. */
  lemma EqualIgnoringCaseOfLower(a: string)
    ensures EqualIgnoringCase(a, a)
    ensures EqualIgnoringCase(a, Lower(a))
  {
    LowerIdempotent(a);
  }
}
