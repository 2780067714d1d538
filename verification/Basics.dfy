/** Small types shared by every part of the model: optional values, results with the
    error kinds of backend/app/core/exceptions.py, and ASCII case folding. */
module Basics {

  type Id = nat

  datatype Option<+T> = None | Some(value: T)

  /** NotFound, Validation, Conflict and Unauthorised are the application's exception classes;
      Integrity is a violated database constraint, Malformed a value Python cannot parse. */
  datatype Error = NotFound | Validation | Conflict | Unauthorised | Integrity | Malformed

  datatype Result<+T> = Ok(value: T) | Err(error: Error)

  function Min(a: int, b: int): int {
    if a <= b then a else b
  }

  function LowerChar(c: char): char {
    if 'A' <= c <= 'Z' then (c as int + 32) as char else c
  }

  function UpperChar(c: char): char {
    if 'a' <= c <= 'z' then (c as int - 32) as char else c
  }

  /** `str.lower` on ASCII text. */
  function Lower(s: string): (r: string)
    ensures |r| == |s|
  {
    seq(|s|, i requires 0 <= i < |s| => LowerChar(s[i]))
  }

  /** `str.upper` on ASCII text. */
  function Upper(s: string): (r: string)
    ensures |r| == |s|
  {
    seq(|s|, i requires 0 <= i < |s| => UpperChar(s[i]))
  }

  /** The same letter, upper and lower case apart. */
  predicate SameLetter(a: char, b: char) {
    || a == b
    || ('A' <= a <= 'Z' && b as int == a as int + 32)
    || ('A' <= b <= 'Z' && a as int == b as int + 32)
  }

  /** The same text, upper and lower case apart. */
  predicate SameText(a: string, b: string) {
    |a| == |b| && forall i | 0 <= i < |a| :: SameLetter(a[i], b[i])
  }

  lemma LetterCase(a: char, b: char)
    ensures SameLetter(a, b) <==> LowerChar(a) == LowerChar(b)
    ensures SameLetter(a, b) <==> UpperChar(a) == UpperChar(b)
  {
  }

  /** Lowering, or raising, both texts compares them apart from case. */
  lemma CaseApart(a: string, b: string)
    ensures Lower(a) == Lower(b) <==> SameText(a, b)
    ensures Upper(a) == Upper(b) <==> SameText(a, b)
  {
    if |a| == |b| {
      forall i | 0 <= i < |a|
        ensures SameLetter(a[i], b[i]) <==> Lower(a)[i] == Lower(b)[i]
        ensures SameLetter(a[i], b[i]) <==> Upper(a)[i] == Upper(b)[i]
      {
        LetterCase(a[i], b[i]);
      }
    }
  }
}
