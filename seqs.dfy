/** Facts about sequences used by several modules. */
module Seqs {

  /** No element occurs twice. */
  predicate NoDup<T(==)>(s: seq<T>) {
    forall i, j :: 0 <= i < j < |s| ==> s[i] != s[j]
  }

  /** The set of elements of `s`. */
  function Elems<T>(s: seq<T>): set<T> {
    set x | x in s
  }

  /** `s` with every element of `drop` taken out, the others in their order. */
  function Without<T(!new)>(s: seq<T>, drop: set<T>): (r: seq<T>)
    ensures forall x :: x in r <==> x in s && x !in drop
    ensures |r| <= |s|
  {
    if s == [] then []
    else if s[0] in drop then Without(s[1..], drop)
    else [s[0]] + Without(s[1..], drop)
  }

  lemma {:induction false} WithoutNoDup<T(!new)>(s: seq<T>, drop: set<T>)
    requires NoDup(s)
    ensures NoDup(Without(s, drop))
  {
    if s != [] {
      assert NoDup(s[1..]) by {
        forall i, j | 0 <= i < j < |s[1..]| ensures s[1..][i] != s[1..][j] {
          assert s[1..][i] == s[i + 1] && s[1..][j] == s[j + 1];
        }
      }
      WithoutNoDup(s[1..], drop);
      assert s[0] !in s[1..];
    }
  }

  /** Removing a set and then one more element removes their union. */
  lemma {:induction false} WithoutTwice<T(!new)>(s: seq<T>, d: set<T>, e: set<T>)
    ensures Without(Without(s, d), e) == Without(s, d + e)
  {
    if s != [] {
      WithoutTwice(s[1..], d, e);
      if s[0] !in d {
        assert Without(s, d) == [s[0]] + Without(s[1..], d);
        assert ([s[0]] + Without(s[1..], d))[1..] == Without(s[1..], d);
      }
    }
  }

  /** A duplicate-free sequence has as many elements as its set. */
  lemma {:induction false} NoDupCard<T>(s: seq<T>)
    requires NoDup(s)
    ensures |Elems(s)| == |s|
  {
    if s != [] {
      var last := s[|s| - 1];
      var init := s[..|s| - 1];
      assert NoDup(init) by {
        forall i, j | 0 <= i < j < |init| ensures init[i] != init[j] {
          assert init[i] == s[i] && init[j] == s[j];
        }
      }
      NoDupCard(init);
      assert s == init + [last];
      assert last !in init;
      assert Elems(s) == Elems(init) + {last};
    }
  }

  lemma {:induction false} WithoutNone<T(!new)>(s: seq<T>)
    ensures Without(s, {}) == s
  {
    if s != [] {
      WithoutNone(s[1..]);
      assert s == [s[0]] + s[1..];
    }
  }

  lemma ElemsPrefix<T>(s: seq<T>, j: nat)
    requires j <= |s|
    ensures j == 0 ==> Elems(s[..j]) == {}
    ensures j > 0 ==> Elems(s[..j]) == Elems(s[..j - 1]) + {s[j - 1]}
  {
    if j > 0 {
      assert s[..j] == s[..j - 1] + [s[j - 1]];
    }
  }

  /** The elements of a concatenation. */
  lemma ElemsConcat<T>(a: seq<T>, b: seq<T>)
    ensures Elems(a + b) == Elems(a) + Elems(b)
  {
    forall x | x in Elems(a) + Elems(b) ensures x in Elems(a + b) {
      if x in a {
        var i :| 0 <= i < |a| && a[i] == x;
        assert (a + b)[i] == x;
      } else {
        var i :| 0 <= i < |b| && b[i] == x;
        assert (a + b)[|a| + i] == x;
      }
    }
  }

  /** Splicing `x` out of `a + [x] + b`: the elements lose at most `x`, and
      a duplicate-free sequence stays so and held `x` only there. */
  lemma SpliceOut<T>(a: seq<T>, x: T, b: seq<T>)
    ensures Elems(a + [x] + b) == Elems(a) + {x} + Elems(b)
    ensures Elems(a + b) == Elems(a) + Elems(b)
    ensures NoDup(a + [x] + b) ==> NoDup(a + b) && x !in a && x !in b
  {
    ElemsConcat(a + [x], b);
    ElemsConcat(a, [x]);
    ElemsConcat(a, b);
    var s := a + [x] + b;
    if NoDup(s) {
      var r := a + b;
      forall i, j | 0 <= i < j < |r| ensures r[i] != r[j] {
        var i' := if i < |a| then i else i + 1;
        var j' := if j < |a| then j else j + 1;
        assert r[i] == s[i'] && r[j] == s[j'];
      }
      forall i | 0 <= i < |a| ensures a[i] != x {
        assert s[i] == a[i] && s[|a|] == x;
      }
      forall i | 0 <= i < |b| ensures b[i] != x {
        assert s[|a| + 1 + i] == b[i] && s[|a|] == x;
      }
    }
  }

  /** Splicing a new element into a duplicate-free sequence keeps it so. */
  lemma SpliceIn<T>(a: seq<T>, x: T, b: seq<T>)
    requires NoDup(a + b) && x !in a && x !in b
    ensures NoDup(a + [x] + b)
  {
    var r := a + b;
    var s := a + [x] + b;
    forall i, j | 0 <= i < j < |s| ensures s[i] != s[j] {
      if i != |a| && j != |a| {
        var i' := if i < |a| then i else i - 1;
        var j' := if j < |a| then j else j - 1;
        assert s[i] == r[i'] && s[j] == r[j'];
      } else if i == |a| {
        assert s[j] == b[j - |a| - 1];
      } else {
        assert s[i] == a[i];
      }
    }
  }
}
