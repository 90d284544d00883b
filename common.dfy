/** Values shared by the game engines, the validators and the sign-up form. */
module Common {

  datatype Option<+T> = None | Some(value: T)

  /** Primary key of a user row. */
  type UserId = int

  /** The difficulty tier of a word and of a game. */
  datatype Level = Easy | Medium | Hard

  predicate IsAsciiUpper(c: char) { 'A' <= c <= 'Z' }

  predicate IsAsciiLower(c: char) { 'a' <= c <= 'z' }

  predicate IsAsciiLetter(c: char) { IsAsciiUpper(c) || IsAsciiLower(c) }

  predicate IsDigit(c: char) { '0' <= c <= '9' }

  /** The character range written `آ-ی` in the Python patterns: U+0622 to U+06CC. */
  predicate IsPersianRange(c: char) { '\U{0622}' <= c <= '\U{06CC}' }

  /** Stand-in for a Unicode letter (Python `str.isalpha`, JavaScript `\p{L}`). */
  predicate IsLetter(c: char) { IsAsciiLetter(c) || IsPersianRange(c) }

  function UpperChar(c: char): char
  {
    if IsAsciiLower(c) then (c as int - 32) as char else c
  }

  function LowerChar(c: char): char
  {
    if IsAsciiUpper(c) then (c as int + 32) as char else c
  }

  /** Python `str.upper`, on the ASCII letters. */
  function Upper(s: string): (r: string)
    ensures |r| == |s|
    ensures forall i :: 0 <= i < |s| ==> r[i] == UpperChar(s[i])
  {
    seq(|s|, i requires 0 <= i < |s| => UpperChar(s[i]))
  }

  /** Python `str.lower`, on the ASCII letters. */
  function Lower(s: string): (r: string)
    ensures |r| == |s|
    ensures forall i :: 0 <= i < |s| ==> r[i] == LowerChar(s[i])
  {
    seq(|s|, i requires 0 <= i < |s| => LowerChar(s[i]))
  }

  lemma UpperIsIdempotent(s: string)
    ensures Upper(Upper(s)) == Upper(s)
  {
    forall i | 0 <= i < |s| ensures Upper(Upper(s))[i] == Upper(s)[i] {
      assert !IsAsciiLower(UpperChar(s[i]));
    }
  }

  /** Every element of `s` lies in [0, n). */
  ghost predicate InRange(s: set<int>, n: nat)
  {
    forall i | i in s :: 0 <= i < n
  }

  /** A set of positions inside [0, n) has at most n elements, and exactly n only when it is all of [0, n). */
  lemma {:induction false} RangeSubsetSize(s: set<int>, n: nat)
    requires InRange(s, n)
    ensures |s| <= n
    ensures |s| == n <==> (forall i :: 0 <= i < n ==> i in s)
  {
    if n == 0 {
      assert forall x :: x !in s;
      assert s == {};
    } else {
      var rest := s - {n - 1};
      assert InRange(rest, n - 1);
      RangeSubsetSize(rest, n - 1);
      if n - 1 in s {
        assert s == rest + {n - 1};
        assert |s| == |rest| + 1;
      } else {
        assert rest == s;
      }
    }
  }
}
