/** The orderings the store and the report use: byte-wise (BINARY) string
    comparison, SQLite's NOCASE collation (ASCII case folding before the
    comparison), and the composite keys built from them. */
module Collation {
  import opened Text
  import Seqs

  /** Lexicographic order on character codes (`Ord for String`, SQLite
      BINARY on ASCII text). */
  predicate LexLe(a: string, b: string)
    decreases |a|
  {
    |a| == 0 || (|b| > 0 && (a[0] < b[0] || (a[0] == b[0] && LexLe(a[1..], b[1..]))))
  }

  predicate LexLt(a: string, b: string) {
    LexLe(a, b) && a != b
  }

  lemma {:induction false} LexLeTotal(a: string, b: string)
    ensures LexLe(a, b) || LexLe(b, a)
    decreases |a|
  {
    if |a| > 0 && |b| > 0 && a[0] == b[0] {
      LexLeTotal(a[1..], b[1..]);
    }
  }

  lemma {:induction false} LexLeTransitive(a: string, b: string, c: string)
    requires LexLe(a, b) && LexLe(b, c)
    ensures LexLe(a, c)
    decreases |a|
  {
    if |a| > 0 && |c| > 0 && a[0] == b[0] && b[0] == c[0] {
      LexLeTransitive(a[1..], b[1..], c[1..]);
    }
  }

  lemma {:induction false} LexLeAntisymmetric(a: string, b: string)
    requires LexLe(a, b) && LexLe(b, a)
    ensures a == b
    decreases |a|
  {
    if |a| > 0 {
      LexLeAntisymmetric(a[1..], b[1..]);
      assert a == [a[0]] + a[1..] && b == [b[0]] + b[1..];
    }
  }

  /** `ORDER BY k1, k2` on a pair of string keys. */
  predicate KeyLe(a1: string, a2: string, b1: string, b2: string) {
    LexLt(a1, b1) || (a1 == b1 && LexLe(a2, b2))
  }

  lemma KeyLeTotal(a1: string, a2: string, b1: string, b2: string)
    ensures KeyLe(a1, a2, b1, b2) || KeyLe(b1, b2, a1, a2)
  {
    LexLeTotal(a1, b1);
    LexLeTotal(a2, b2);
  }

  lemma KeyLeTransitive(a1: string, a2: string, b1: string, b2: string, c1: string, c2: string)
    requires KeyLe(a1, a2, b1, b2) && KeyLe(b1, b2, c1, c2)
    ensures KeyLe(a1, a2, c1, c2)
  {
    if a1 == b1 && b1 == c1 {
      LexLeTransitive(a2, b2, c2);
    } else {
      if LexLe(a1, b1) && LexLe(b1, c1) {
        LexLeTransitive(a1, b1, c1);
        if a1 == c1 {
          LexLeAntisymmetric(a1, b1);
        }
      } else if a1 == b1 {
      } else {
      }
    }
  }

  lemma KeyLeAntisymmetric(a1: string, a2: string, b1: string, b2: string)
    requires KeyLe(a1, a2, b1, b2) && KeyLe(b1, b2, a1, a2)
    ensures a1 == b1 && a2 == b2
  {
    if a1 == b1 {
      LexLeAntisymmetric(a2, b2);
    } else {
      LexLeAntisymmetric(a1, b1);
    }
  }

  /** `ORDER BY title COLLATE NOCASE, composer COLLATE NOCASE`, and the
      `to_lowercase` comparison of the report's song view. */
  predicate TitleComposerLe(t1: string, c1: string, t2: string, c2: string) {
    KeyLe(Lower(t1), Lower(c1), Lower(t2), Lower(c2))
  }

  /** `ORDER BY LOWER(composer), composer`. */
  predicate ComposerLe(a: string, b: string) {
    KeyLe(Lower(a), a, Lower(b), b)
  }

  lemma ComposerLeTotalPreorder()
    ensures Seqs.TotalPreorder(ComposerLe)
  {
    forall a, b
      ensures ComposerLe(a, b) || ComposerLe(b, a)
    {
      KeyLeTotal(Lower(a), a, Lower(b), b);
    }
    forall a, b, c | ComposerLe(a, b) && ComposerLe(b, c)
      ensures ComposerLe(a, c)
    {
      KeyLeTransitive(Lower(a), a, Lower(b), b, Lower(c), c);
    }
  }

  /** Distinct strings are strictly ordered by `ComposerLe`. */
  lemma ComposerLeStrict(a: string, b: string)
    requires ComposerLe(a, b) && a != b
    ensures !ComposerLe(b, a)
  {
    if ComposerLe(b, a) {
      KeyLeAntisymmetric(Lower(a), a, Lower(b), b);
    }
  }
}
