/** Sequences and the multisets of their elements. */
module Sequences {
  lemma First<T>(x: T, s: seq<T>)
    ensures multiset([x] + s) == multiset{x} + multiset(s)
  {
  }

  lemma Cancel<T(!new)>(a: multiset<T>, b: multiset<T>, c: multiset<T>)
    requires a + b == a + c
    ensures b == c
  {
    forall x: T
      ensures b[x] == c[x]
    {
      assert (a + b)[x] == a[x] + b[x] && (a + c)[x] == a[x] + c[x];
    }
  }

  lemma Regroup<T>(a: multiset<T>, b: multiset<T>, c: multiset<T>)
    ensures a + (b + c) == a + b + c
  {
  }

  lemma Exchange<T>(a: multiset<T>, b: multiset<T>, c: multiset<T>)
    ensures a + (b + c) == b + (a + c)
  {
    assert a + (b + c) == a + b + c && b + (a + c) == b + a + c;
  }

  /** The first element of one sequence, taken out of both. */
  lemma TakeOut<T(!new)>(a: seq<T>, b: seq<T>) returns (front: seq<T>, back: seq<T>)
    requires a != [] && multiset(a) == multiset(b)
    ensures b == front + ([a[0]] + back) && multiset(a[1..]) == multiset(front + back)
  {
    var x, rest := a[0], a[1..];
    assert a == [x] + rest;
    assert x in multiset(b);
    var i :| 0 <= i < |b| && b[i] == x;
    front, back := b[..i], b[i + 1..];
    assert b == front + ([x] + back);
    First(x, rest);
    First(x, back);
    Exchange(multiset(front), multiset{x}, multiset(back));
    assert multiset(b) == multiset(front) + multiset([x] + back);
    Cancel(multiset{x}, multiset(rest), multiset(front + back));
  }

  lemma TwiceCounted<T>(s: seq<T>, i: nat, j: nat)
    requires i < j < |s| && s[i] == s[j]
    ensures multiset(s)[s[i]] > 1
  {
    assert s == s[..j] + s[j..];
    assert s[..j][i] in s[..j] && s[j..][0] in s[j..];
  }

  lemma OnceCounted<T>(s: seq<T>, i: nat)
    requires i < |s| && forall j :: 0 <= j < |s| && j != i ==> s[j] != s[i]
    ensures multiset(s)[s[i]] == 1
  {
    var front, back := s[..i], s[i + 1..];
    assert s == front + ([s[i]] + back);
    assert forall x <- front :: x != s[i];
    assert forall x <- back :: x != s[i];
  }

  /** A sequence taken apart at its end. */
  lemma SplitLast<T>(front: seq<T>, back: seq<T>) returns (init: seq<T>, last: T)
    requires back != []
    ensures back == init + [last] && |init| < |back|
    ensures front + back == front + init + [last]
  {
    init, last := back[..|back| - 1], back[|back| - 1];
  }
}
