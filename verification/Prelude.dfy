/** Failure-compatible value types used by every component. */
module Prelude {

  datatype Option<+T> = None | Some(value: T)

  datatype Result<+T, +E> = Ok(value: T) | Err(error: E)
}

/** Stable filtering of sequences, the vocabulary in which the stores' loops are specified. */
module Sequences {
  import opened Prelude

  /** The elements of `s` that satisfy `p`, in their order in `s`. */
  function Keep<T>(s: seq<T>, p: T -> bool): (r: seq<T>)
  {
    if s == [] then []
    else
      var rest := Keep(s[..|s| - 1], p);
      if p(s[|s| - 1]) then rest + [s[|s| - 1]] else rest
  }

  lemma {:induction false} KeepMembers<T>(s: seq<T>, p: T -> bool)
    ensures forall x :: x in Keep(s, p) <==> x in s && p(x)
    ensures |Keep(s, p)| <= |s|
  {
    if s != [] {
      KeepMembers(s[..|s| - 1], p);
      assert s == s[..|s| - 1] + [s[|s| - 1]];
    }
  }

  lemma {:induction false} KeepConcat<T>(a: seq<T>, b: seq<T>, p: T -> bool)
    ensures Keep(a + b, p) == Keep(a, p) + Keep(b, p)
  {
    if b == [] {
      assert a + b == a;
    } else {
      var front := b[..|b| - 1];
      KeepConcat(a, front, p);
      assert (a + b)[..|a + b| - 1] == a + front;
    }
  }

  /** Only the values of the predicate on the elements matter. */
  lemma {:induction false} KeepAgree<T>(s: seq<T>, p: T -> bool, q: T -> bool)
    requires forall x :: x in s ==> p(x) == q(x)
    ensures Keep(s, p) == Keep(s, q)
  {
    if s != [] {
      var front := s[..|s| - 1];
      assert forall x :: x in front ==> x in s;
      KeepAgree(front, p, q);
    }
  }

  /** Filtering by `p` and then by a predicate `q` that implies `p` is filtering by `q`. */
  lemma {:induction false} KeepStronger<T>(s: seq<T>, p: T -> bool, q: T -> bool)
    requires forall x :: x in s && q(x) ==> p(x)
    ensures Keep(Keep(s, p), q) == Keep(s, q)
  {
    if s != [] {
      var front, last := s[..|s| - 1], s[|s| - 1];
      assert forall x :: x in front ==> x in s;
      KeepStronger(front, p, q);
      KeepConcat(Keep(front, p), [last], q);
    }
  }

  lemma {:induction false} KeepCommute<T>(s: seq<T>, p: T -> bool, q: T -> bool)
    ensures Keep(Keep(s, p), q) == Keep(Keep(s, q), p)
  {
    if s != [] {
      var front, last := s[..|s| - 1], s[|s| - 1];
      KeepCommute(front, p, q);
      KeepConcat(Keep(front, p), [last], q);
      KeepConcat(Keep(front, q), [last], p);
    }
  }

  lemma {:induction false} KeepAll<T>(s: seq<T>, p: T -> bool)
    requires forall x :: x in s ==> p(x)
    ensures Keep(s, p) == s
  {
    if s != [] {
      var front := s[..|s| - 1];
      assert forall x :: x in front ==> x in s;
      KeepAll(front, p);
    }
  }

  lemma {:induction false} KeepNone<T>(s: seq<T>, p: T -> bool)
    requires forall x :: x in s ==> !p(x)
    ensures Keep(s, p) == []
  {
    if s != [] {
      var front := s[..|s| - 1];
      assert forall x :: x in front ==> x in s;
      KeepNone(front, p);
    }
  }

  /** One more element at the end, the step of every scanning loop. */
  lemma KeepPush<T>(s: seq<T>, i: nat, p: T -> bool)
    requires i < |s|
    ensures Keep(s[..i + 1], p) == Keep(s[..i], p) + (if p(s[i]) then [s[i]] else [])
  {
    assert s[..i + 1][..i] == s[..i];
  }

  /** A sequence and its complement under a predicate hold the same elements as the sequence. */
  lemma {:induction false} KeepSplit<T>(s: seq<T>, p: T -> bool, q: T -> bool, both: T -> bool)
    requires forall x :: x in s ==> !(p(x) && q(x)) && both(x) == (p(x) || q(x))
    ensures multiset(Keep(s, p)) + multiset(Keep(s, q)) == multiset(Keep(s, both))
  {
    if s != [] {
      var front := s[..|s| - 1];
      assert forall x :: x in front ==> x in s;
      KeepSplit(front, p, q, both);
    }
  }

  /** The values `f` finds in a sequence, in order. */
  function Project<A, B>(t: seq<A>, f: A -> Option<B>): seq<B> {
    if t == [] then []
    else Project(t[..|t| - 1], f) + (if f(t[|t| - 1]).Some? then [f(t[|t| - 1]).value] else [])
  }

  lemma {:induction false} ProjectConcat<A, B>(a: seq<A>, b: seq<A>, f: A -> Option<B>)
    ensures Project(a + b, f) == Project(a, f) + Project(b, f)
  {
    if b == [] {
      assert a + b == a;
    } else {
      ProjectConcat(a, b[..|b| - 1], f);
      assert (a + b)[..|a + b| - 1] == a + b[..|b| - 1];
    }
  }

  lemma Associate<T>(x: seq<T>, y: seq<T>, z: seq<T>)
    ensures x + (y + z) == x + y + z
  {
  }

  lemma Regroup<T>(a: seq<T>, b: seq<T>, k: nat)
    requires k <= |a|
    ensures a[..k] + a[k..] == a && a[..k] + (a[k..] + b) == a + b
  {
  }

  /** How often each element is kept. */
  lemma {:induction false} KeepCount<T>(s: seq<T>, p: T -> bool, e: T)
    ensures multiset(Keep(s, p))[e] == if p(e) then multiset(s)[e] else 0
  {
    if s != [] {
      var front, last := s[..|s| - 1], s[|s| - 1];
      KeepCount(front, p, e);
      assert s == front + [last];
      assert multiset(s) == multiset(front) + multiset{last};
      if p(last) { assert multiset(Keep(s, p)) == multiset(Keep(front, p)) + multiset{last}; }
    }
  }
}
