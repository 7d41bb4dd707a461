/** Facts about text assembled from separated parts. */
module Splitting {
  /** The part before the first separator determines both parts. */
  lemma {:induction false} SplitFirst<T>(a: seq<T>, b: seq<T>, a': seq<T>, b': seq<T>, c: T)
    requires a + [c] + b == a' + [c] + b' && c !in a && c !in a'
    ensures a == a' && b == b'
  {
    var s := a + [c] + b;
    assert s[|a|] == c && s[|a'|] == c;
    assert a == s[..|a|] && a' == s[..|a'|] && b == s[|a| + 1..] && b' == s[|a'| + 1..];
  }

  /** The part after the last separator determines both parts. */
  lemma {:induction false} SplitLast<T>(a: seq<T>, b: seq<T>, a': seq<T>, b': seq<T>, c: T)
    requires a + [c] + b == a' + [c] + b' && c !in b && c !in b'
    ensures a == a' && b == b'
  {
    var s := a + [c] + b;
    assert s == a' + [c] + b';
    assert s[|a|] == c && s[|a'|] == c;
    assert a == s[..|a|] && a' == s[..|a'|] && b == s[|a| + 1..] && b' == s[|a'| + 1..];
  }

  /** Equally long endings determine both parts. */
  lemma {:induction false} SplitAt<T>(a: seq<T>, b: seq<T>, a': seq<T>, b': seq<T>)
    requires a + b == a' + b' && (|b| == |b'| || |a| == |a'|)
    ensures a == a' && b == b'
  {
    var s := a + b;
    assert a == s[..|a|] && a' == s[..|a'|] && b == s[|a|..] && b' == s[|a'|..];
  }

  /** `a` goes on to `a'` with a part that `b` begins with. */
  ghost predicate Continues<T(!new)>(a: seq<T>, b: seq<T>, a': seq<T>, b': seq<T>, c: T) {
    exists u: seq<T> :: a' == a + [c] + u && b == u + [c] + b'
  }

  /** Two parts joined by a separator that may occur in both: they agree
      exactly when the parts do, or one pair reads on past the separator. */
  lemma {:induction false} JoinedAgree<T(!new)>(a: seq<T>, b: seq<T>, a': seq<T>, b': seq<T>, c: T)
    ensures a + [c] + b == a' + [c] + b' <==> (a == a' && b == b') || Continues(a, b, a', b', c) || Continues(a', b', a, b, c)
  {
    if a + [c] + b == a' + [c] + b' && |a| != |a'| {
      if |a| < |a'| {
        ReadsOn(a, b, a', b', c);
      } else {
        ReadsOn(a', b', a, b, c);
      }
    }
    if a + [c] + b == a' + [c] + b' && |a| == |a'| {
      assert a + [c] + b == a + ([c] + b) && a' + [c] + b' == a' + ([c] + b');
      SplitAt(a, [c] + b, a', [c] + b');
      SplitAt([c], b, [c], b');
    }
    if Continues(a, b, a', b', c) {
      var u :| a' == a + [c] + u && b == u + [c] + b';
      assert a + [c] + (u + [c] + b') == a + [c] + u + [c] + b';
    }
    if Continues(a', b', a, b, c) {
      var u :| a == a' + [c] + u && b' == u + [c] + b;
      assert a' + [c] + (u + [c] + b) == a' + [c] + u + [c] + b;
    }
  }

  lemma {:induction false} ReadsOn<T(!new)>(a: seq<T>, b: seq<T>, a': seq<T>, b': seq<T>, c: T)
    requires a + [c] + b == a' + [c] + b' && |a| < |a'|
    ensures Continues(a, b, a', b', c)
  {
    var s := a + [c] + b;
    var u := a'[|a| + 1..];
    assert s == a' + ([c] + b');
    assert a' == s[..|a'|] && s[..|a| + 1] == a + [c] && s[..|a'|][..|a| + 1] == a + [c];
    assert a' == a + [c] + u;
    assert b == s[|a| + 1..];
    assert s == (a + [c]) + (u + [c] + b');
  }
}
