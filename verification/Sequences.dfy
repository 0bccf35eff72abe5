/** Filtering and mapping a sequence in one pass, and what reordering it does. */
module Sequences {
  import opened Basics

  /** The results of `f` on the elements it accepts, in order. */
  function Collect<A, B>(f: A -> Option<B>, s: seq<A>): seq<B> {
    if s == [] then []
    else Collect(f, s[..|s| - 1]) + Chosen(f, s[|s| - 1])
  }

  function Chosen<A, B>(f: A -> Option<B>, a: A): seq<B> {
    if f(a).Some? then [f(a).value] else []
  }

  lemma {:induction false} CollectConcat<A, B>(f: A -> Option<B>, s: seq<A>, t: seq<A>)
    ensures Collect(f, s + t) == Collect(f, s) + Collect(f, t)
  {
    if t == [] {
      assert s + t == s;
    } else {
      var front, last := t[..|t| - 1], t[|t| - 1];
      assert (s + t)[..|s + t| - 1] == s + front;
      CollectConcat(f, s, front);
      assert Collect(f, s + t) == Collect(f, s + front) + Chosen(f, last);
    }
  }

  /** Everything collected comes from an accepted element, and every accepted element is collected. */
  lemma {:induction false} CollectMembers<A, B>(f: A -> Option<B>, s: seq<A>)
    ensures forall b :: b in Collect(f, s) ==> exists a :: a in s && f(a) == Some(b)
    ensures forall a :: a in s && f(a).Some? ==> f(a).value in Collect(f, s)
  {
    if s != [] {
      var front, last := s[..|s| - 1], s[|s| - 1];
      assert s == front + [last];
      CollectMembers(f, front);
    }
  }

  lemma CollectOne<A, B>(f: A -> Option<B>, a: A)
    ensures Collect(f, [a]) == Chosen(f, a)
  {
    assert [a][..0] == [];
  }

  lemma TakeOut<A>(s: seq<A>, t: seq<A>, k: nat)
    requires s != [] && k < |t| && t[k] == s[|s| - 1] && multiset(s) == multiset(t)
    ensures multiset(s[..|s| - 1]) == multiset(t[..k] + t[k + 1..])
  {
    assert s == s[..|s| - 1] + [t[k]];
    assert t == t[..k] + [t[k]] + t[k + 1..];
    assert multiset(s[..|s| - 1]) == multiset(s) - multiset{t[k]};
    assert multiset(t[..k] + t[k + 1..]) == multiset(t) - multiset{t[k]};
  }

  /** Reordering the input reorders what is collected. */
  lemma {:induction false} CollectPermutes<A, B>(f: A -> Option<B>, s: seq<A>, t: seq<A>)
    requires multiset(s) == multiset(t)
    ensures multiset(Collect(f, s)) == multiset(Collect(f, t))
    decreases |s|
  {
    if s == [] {
      assert |t| == |multiset(t)| == 0;
    } else {
      var last := s[|s| - 1];
      assert last in multiset(t);
      var k :| 0 <= k < |t| && t[k] == last;
      TakeOut(s, t, k);
      CollectPermutes(f, s[..|s| - 1], t[..k] + t[k + 1..]);
      CollectAround(f, t, k);
    }
  }

  lemma CollectAround<A, B>(f: A -> Option<B>, t: seq<A>, k: nat)
    requires k < |t|
    ensures multiset(Collect(f, t)) == multiset(Collect(f, t[..k] + t[k + 1..])) + multiset(Chosen(f, t[k]))
  {
    hide Collect, Chosen;
    var before, after := t[..k], t[k + 1..];
    assert t == before + ([t[k]] + after);
    CollectConcat(f, before, after);
    CollectConcat(f, before, [t[k]] + after);
    CollectConcat(f, [t[k]], after);
    CollectOne(f, t[k]);
    MovedBehind(Collect(f, before), Chosen(f, t[k]), Collect(f, after));
  }

  lemma MovedBehind<B>(a: seq<B>, b: seq<B>, c: seq<B>)
    ensures multiset(a + (b + c)) == multiset(a + c) + multiset(b)
  {
  }

  /** Dropping beforehand what `f` would not accept changes nothing. */
  lemma {:induction false} CollectKept<A(!new), B>(f: A -> Option<B>, keep: A -> Option<A>, s: seq<A>)
    requires forall a :: keep(a) == Some(a) || (keep(a).None? && f(a).None?)
    ensures Collect(f, Collect(keep, s)) == Collect(f, s)
  {
    if s != [] {
      var front, last := s[..|s| - 1], s[|s| - 1];
      CollectKept(f, keep, front);
      CollectConcat(f, Collect(keep, front), Chosen(keep, last));
      CollectOne(f, last);
    }
  }

  lemma Without<A>(a: seq<A>, j: nat)
    requires j < |a|
    ensures multiset(a) == multiset(a[..j] + a[j + 1..]) + multiset{a[j]}
  {
    assert a == a[..j] + [a[j]] + a[j + 1..];
  }

  /** A place of the shortened sequences is a place of the whole ones. */
  lemma PlaceBack<A, B>(a: seq<A>, b: seq<B>, j: nat, i: nat)
    requires |a| == |b| && j < |a| && i < |a| - 1
    ensures var place := if i < j then i else i + 1;
            (a[..j] + a[j + 1..])[i] == a[place] && (b[..j] + b[j + 1..])[i] == b[place]
  {
  }

  /** If `b` goes with `a` place by place and `c` is a reordering of `b`, some reordering of `a` goes with `c`. */
  lemma {:induction false} Rematch<A, B>(a: seq<A>, b: seq<B>, c: seq<B>) returns (p: seq<A>)
    requires |a| == |b| && multiset(b) == multiset(c)
    ensures |p| == |c| && multiset(p) == multiset(a)
    ensures forall k :: 0 <= k < |c| ==> exists j :: 0 <= j < |a| && p[k] == a[j] && c[k] == b[j]
    decreases |c|
  {
    SameLength(b, c);
    if c == [] {
      return [];
    }
    var last := c[|c| - 1];
    assert last in multiset(b);
    var j :| 0 <= j < |b| && b[j] == last;
    TakeOut(c, b, j);
    var front := Rematch(a[..j] + a[j + 1..], b[..j] + b[j + 1..], c[..|c| - 1]);
    p := front + [a[j]];
    Without(a, j);
    MatchesWithLast(a, b, c, j, front);
  }

  lemma MatchesWithLast<A, B>(a: seq<A>, b: seq<B>, c: seq<B>, j: nat, front: seq<A>)
    requires |a| == |b| && c != [] && j < |b| && b[j] == c[|c| - 1] && |front| == |c| - 1
    requires var a', b' := a[..j] + a[j + 1..], b[..j] + b[j + 1..];
             forall k :: 0 <= k < |c| - 1 ==> exists i :: 0 <= i < |a'| && front[k] == a'[i] && c[..|c| - 1][k] == b'[i]
    ensures var p := front + [a[j]];
            forall k :: 0 <= k < |c| ==> exists i :: 0 <= i < |a| && p[k] == a[i] && c[k] == b[i]
  {
    var a', b', p := a[..j] + a[j + 1..], b[..j] + b[j + 1..], front + [a[j]];
    forall k | 0 <= k < |c| ensures exists i :: 0 <= i < |a| && p[k] == a[i] && c[k] == b[i] {
      if k < |c| - 1 {
        var i :| 0 <= i < |a'| && front[k] == a'[i] && c[..|c| - 1][k] == b'[i];
        PlaceBack(a, b, j, i);
        var place := if i < j then i else i + 1;
        assert p[k] == a[place] && c[k] == b[place];
      } else {
        assert p[k] == a[j] && c[k] == b[j];
      }
    }
  }

  lemma SameLength<A>(s: seq<A>, t: seq<A>)
    requires multiset(s) == multiset(t)
    ensures |s| == |t|
  {
    assert |s| == |multiset(s)| == |multiset(t)| == |t|;
  }
}
