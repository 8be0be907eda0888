/** The order of `ORDER BY product_id`, character by character. */
module ProductOrder {
  import opened Events

  predicate Le(a: string, b: string) {
    a == "" || (b != "" && (a[0] < b[0] || (a[0] == b[0] && Le(a[1..], b[1..]))))
  }

  lemma LeIsTotal(a: string, b: string)
    ensures Le(a, b) || Le(b, a)
  {
    if a != "" && b != "" && a[0] == b[0] { LeIsTotal(a[1..], b[1..]); }
  }

  lemma {:induction false} LeIsTransitive(a: string, b: string, c: string)
    requires Le(a, b) && Le(b, c)
    ensures Le(a, c)
  {
    if a != "" && a[0] == b[0] == c[0] { LeIsTransitive(a[1..], b[1..], c[1..]); }
  }

  lemma {:induction false} LeIsAntisymmetric(a: string, b: string)
    requires Le(a, b) && Le(b, a)
    ensures a == b
  {
    if a != "" && b != "" {
      LeIsAntisymmetric(a[1..], b[1..]);
      assert a == [a[0]] + a[1..] && b == [b[0]] + b[1..];
    }
  }

  ghost predicate IsLeast(m: ProductId, s: set<ProductId>) {
    m in s && forall x | x in s :: Le(m, x)
  }

  lemma {:induction false} LeastExists(s: set<ProductId>)
    requires s != {}
    ensures exists m :: IsLeast(m, s)
    decreases |s|
  {
    var x :| x in s;
    var rest := s - {x};
    LeIsTotal(x, x);
    if rest == {} {
      assert s == {x};
      assert IsLeast(x, s);
    } else {
      LeastExists(rest);
      var m :| IsLeast(m, rest);
      LeIsTotal(m, x);
      if Le(m, x) {
        assert IsLeast(m, s);
      } else {
        forall y | y in s ensures Le(x, y) {
          if y != x { LeIsTransitive(x, m, y); }
        }
        assert IsLeast(x, s);
      }
    }
  }

  ghost function Least(s: set<ProductId>): (m: ProductId)
    requires s != {}
    ensures IsLeast(m, s)
  {
    LeastExists(s);
    var m :| IsLeast(m, s);
    m
  }

  lemma LeastIsUnique(m: ProductId, s: set<ProductId>)
    requires s != {} && IsLeast(m, s)
    ensures m == Least(s)
  {
    LeIsAntisymmetric(m, Least(s));
  }

  /** The elements of `s` in ascending order. */
  ghost function Sorted(s: set<ProductId>): seq<ProductId>
    decreases |s|
  {
    if s == {} then [] else
      var m := Least(s);
      assert s - {m} < s;
      [m] + Sorted(s - {m})
  }

  lemma {:induction false} SortedEnumerates(s: set<ProductId>)
    ensures forall p :: p in Sorted(s) <==> p in s
    ensures forall i, j | 0 <= i < j < |Sorted(s)| :: Sorted(s)[i] != Sorted(s)[j]
    decreases |s|
  {
    if s != {} {
      var m := Least(s);
      assert s - {m} < s;
      SortedEnumerates(s - {m});
    }
  }

  lemma {:induction false} SortedAscends(s: set<ProductId>)
    ensures forall i, j | 0 <= i < j < |Sorted(s)| :: Le(Sorted(s)[i], Sorted(s)[j])
    decreases |s|
  {
    if s != {} {
      var m := Least(s);
      assert s - {m} < s;
      SortedAscends(s - {m});
      SortedEnumerates(s - {m});
      forall j | 0 < j < |Sorted(s)| ensures Le(m, Sorted(s)[j]) {
        assert Sorted(s)[j] == Sorted(s - {m})[j - 1] && Sorted(s)[j] in s - {m};
      }
    }
  }

  lemma DifferentHeads(a: string, b: string)
    requires a != "" && b != "" && a[0] != b[0]
    ensures forall i | 0 < i <= |a| && i <= |b| :: a[..i] != b[..i]
  {
    forall i | 0 < i <= |a| && i <= |b| ensures a[..i] != b[..i] {
      assert a[..i][0] == a[0] && b[..i][0] == b[0];
    }
  }

  predicate FirstDifference(a: string, b: string, i: int) {
    0 <= i < |a| && i < |b| && a[..i] == b[..i] && a[i] < b[i]
  }

  lemma DifferenceInTails(a: string, b: string, i: nat)
    requires a != "" && b != "" && a[0] == b[0]
    ensures FirstDifference(a[1..], b[1..], i) ==> FirstDifference(a, b, i + 1)
  {
    if FirstDifference(a[1..], b[1..], i) {
      assert a[..i + 1] == [a[0]] + a[1..][..i];
      assert b[..i + 1] == [b[0]] + b[1..][..i];
    }
  }

  lemma TailsOfDifference(a: string, b: string, i: int)
    requires a != "" && b != "" && a[0] == b[0] && FirstDifference(a, b, i)
    ensures FirstDifference(a[1..], b[1..], i - 1)
  {
    assert a[1..][..i - 1] == a[..i][1..];
    assert b[1..][..i - 1] == b[..i][1..];
  }

  /** Character order: a prefix first, otherwise the smaller character where they first differ. */
  lemma {:induction false} LeIsLexicographic(a: string, b: string)
    ensures Le(a, b) <==> a <= b || exists i :: FirstDifference(a, b, i)
  {
    if a != "" && b != "" && a[0] == b[0] {
      LeIsLexicographic(a[1..], b[1..]);
      PrefixOfTails(a, b);
      if i :| FirstDifference(a[1..], b[1..], i) {
        DifferenceInTails(a, b, i);
      }
      if i :| FirstDifference(a, b, i) {
        TailsOfDifference(a, b, i);
      }
    } else if a != "" && b != "" {
      DifferentHeads(a, b);
      if a[0] < b[0] { assert FirstDifference(a, b, 0); }
    }
  }

  lemma PrefixOfTails(a: string, b: string)
    requires a != "" && b != "" && a[0] == b[0]
    ensures a <= b <==> a[1..] <= b[1..]
  {
    assert a == [a[0]] + a[1..] && b == [b[0]] + b[1..];
  }
}
