/**
 * Python's ordering of `str` values: character by character on code points,
 * a proper prefix first; and the ordering of a pair of strings as a tuple.
 */
module Lex {

  /** `a <= b` on Python strings. */
  predicate LexLe(a: string, b: string) {
    if a == [] then true
    else if b == [] then false
    else if a[0] != b[0] then a[0] < b[0]
    else LexLe(a[1..], b[1..])
  }

  /** `a < b` on Python strings. */
  predicate LexLess(a: string, b: string) {
    LexLe(a, b) && a != b
  }

  lemma {:induction false} LexLeTotal(a: string, b: string)
    ensures LexLe(a, b) || LexLe(b, a)
  {
    if a != [] && b != [] && a[0] == b[0] {
      LexLeTotal(a[1..], b[1..]);
    }
  }

  lemma {:induction false} LexLeAntisymmetric(a: string, b: string)
    ensures LexLe(a, b) && LexLe(b, a) ==> a == b
  {
    if a != [] && b != [] && a[0] == b[0] {
      LexLeAntisymmetric(a[1..], b[1..]);
      if LexLe(a, b) && LexLe(b, a) {
        assert a == [a[0]] + a[1..] && b == [b[0]] + b[1..];
      }
    }
  }

  lemma {:induction false} LexLeTransitive(a: string, b: string, c: string)
    ensures LexLe(a, b) && LexLe(b, c) ==> LexLe(a, c)
  {
    if a != [] && b != [] && c != [] && a[0] == b[0] == c[0] {
      LexLeTransitive(a[1..], b[1..], c[1..]);
    }
  }

  /** `(a1, a2) <= (b1, b2)` on tuples of two strings. */
  predicate PairLe(a1: string, a2: string, b1: string, b2: string) {
    LexLess(a1, b1) || (a1 == b1 && LexLe(a2, b2))
  }

  lemma PairLeTotal(a1: string, a2: string, b1: string, b2: string)
    ensures PairLe(a1, a2, b1, b2) || PairLe(b1, b2, a1, a2)
  {
    LexLeTotal(a1, b1);
    LexLeTotal(a2, b2);
  }

  lemma PairLeTransitive(a1: string, a2: string, b1: string, b2: string, c1: string, c2: string)
    ensures PairLe(a1, a2, b1, b2) && PairLe(b1, b2, c1, c2) ==> PairLe(a1, a2, c1, c2)
  {
    LexLeTransitive(a1, b1, c1);
    LexLeTransitive(a2, b2, c2);
    LexLeAntisymmetric(a1, b1);
    LexLeAntisymmetric(b1, c1);
  }
}
