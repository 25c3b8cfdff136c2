/** Go's string order. Comparing UTF-8 bytes and comparing code points give the same order. */
module Strings {

  predicate Less(a: string, b: string) {
    && b != []
    && (a == [] || a[0] < b[0] || (a[0] == b[0] && Less(a[1..], b[1..])))
  }

  lemma {:induction false} Trichotomy(a: string, b: string)
    ensures !Less(a, a)
    ensures Less(a, b) ==> a != b && !Less(b, a)
    ensures a != b && !Less(b, a) ==> Less(a, b)
  {
    if a != [] && b != [] {
      Trichotomy(a[1..], b[1..]);
      assert a == [a[0]] + a[1..] && b == [b[0]] + b[1..];
    } else if a != [] {
      Irreflexive(a);
    }
  }

  lemma {:induction false} Irreflexive(a: string)
    ensures !Less(a, a)
  {
    if a != [] {
      Irreflexive(a[1..]);
    }
  }

  lemma {:induction false} Transitive(a: string, b: string, c: string)
    requires Less(a, b) && Less(b, c)
    ensures Less(a, c)
  {
    if a != [] && a[0] == b[0] == c[0] {
      Transitive(a[1..], b[1..], c[1..]);
    }
  }

  lemma NotLessTransitive(a: string, b: string, c: string)
    requires !Less(a, b) && !Less(b, c)
    ensures !Less(a, c)
  {
    Trichotomy(a, b);
    Trichotomy(b, c);
    if Less(a, c) && Less(b, a) {
      Transitive(b, a, c);
    }
  }

  /** `n` characters are common, and then `a` ends or has the smaller one. */
  ghost predicate SmallerAt(a: string, b: string, n: nat) {
    n <= |a| && n < |b| && a[..n] == b[..n] && (n == |a| || a[n] < b[n])
  }

  lemma SmallerAtRest(a: string, b: string, n: nat)
    requires a != [] && b != [] && a[0] == b[0]
    ensures SmallerAt(a, b, n + 1) <==> SmallerAt(a[1..], b[1..], n)
    ensures !SmallerAt(a, b, 0)
  {
    if n + 1 <= |a| && n + 1 <= |b| {
      assert a[..n + 1] == [a[0]] + a[1..][..n] && b[..n + 1] == [b[0]] + b[1..][..n];
    }
  }

  lemma {:induction false} LessSmaller(a: string, b: string) returns (n: nat)
    requires Less(a, b)
    ensures SmallerAt(a, b, n)
  {
    if a == [] || a[0] < b[0] {
      n := 0;
    } else {
      n := LessSmaller(a[1..], b[1..]);
      SmallerAtRest(a, b, n);
      n := n + 1;
    }
  }

  lemma {:induction false} SmallerLess(a: string, b: string, n: nat)
    requires SmallerAt(a, b, n)
    ensures Less(a, b)
  {
    if n > 0 {
      assert a[..n][0] == b[..n][0];
      SmallerAtRest(a, b, n - 1);
      SmallerLess(a[1..], b[1..], n - 1);
    }
  }

  /** Less is dictionary order. */
  lemma LessIff(a: string, b: string)
    ensures Less(a, b) <==> exists n :: SmallerAt(a, b, n)
  {
    if Less(a, b) {
      var n := LessSmaller(a, b);
    }
    forall n: nat | SmallerAt(a, b, n)
      ensures Less(a, b)
    {
      SmallerLess(a, b, n);
    }
  }

  /** Fields of equal width compare one after the other. */
  lemma {:induction false} LessFields(a: string, b: string, x: string, y: string)
    requires |a| == |b|
    ensures Less(a + x, b + y) <==> Less(a, b) || (a == b && Less(x, y))
  {
    if a == [] {
      assert a + x == x && b + y == y;
    } else {
      assert (a + x)[1..] == a[1..] + x && (b + y)[1..] == b[1..] + y;
      LessFields(a[1..], b[1..], x, y);
      assert a == [a[0]] + a[1..] && b == [b[0]] + b[1..];
    }
  }
}
