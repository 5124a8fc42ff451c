/** A JavaScript `Set` of strings, seen through its iteration order:
    a sequence without duplicates, in the order the elements were first
    added. `Insert` is `set.add`, `Delete` is `set.delete`, and spreading
    `[...new Set(xs)]` is `Dedup(xs)`. */
module OrderedSet {

  /** No element occurs twice. */
  ghost predicate NoDup(s: seq<string>) {
    forall i, j :: 0 <= i < j < |s| ==> s[i] != s[j]
  }

  /** `set.add(x)`: a new element goes to the end; a present one stays where it is. */
  function Insert(s: seq<string>, x: string): (r: seq<string>)
    ensures forall y :: y in r <==> y in s || y == x
    ensures |s| <= |r| <= |s| + 1 && r[..|s|] == s
  {
    if x in s then s else s + [x]
  }

  /** `set.delete(x)`: every other element keeps its place. */
  function Delete(s: seq<string>, x: string): (r: seq<string>)
    ensures forall y :: y in r <==> y in s && y != x
  {
    if s == [] then []
    else if s[0] == x then Delete(s[1..], x)
    else [s[0]] + Delete(s[1..], x)
  }

  /** The iteration order of `new Set(xs)`: each element of `xs` added in turn. */
  function Dedup(xs: seq<string>): (r: seq<string>)
    ensures |r| <= |xs|
    decreases |xs|
  {
    if xs == [] then [] else Insert(Dedup(xs[..|xs| - 1]), xs[|xs| - 1])
  }

  /** The position of the first occurrence of `x` in `s`. */
  function IndexOf(s: seq<string>, x: string): (i: nat)
    requires x in s
    ensures i < |s| && s[i] == x && x !in s[..i]
  {
    if s[0] == x then 0
    else
      var j := IndexOf(s[1..], x);
      assert s[..j + 1] == [s[0]] + s[1..][..j];
      j + 1
  }

  /** `new Set(items)`: the constructor adds the items one after another. */
  method NewSet(items: seq<string>) returns (s: seq<string>)
    ensures s == Dedup(items)
  {
    s := [];
    var i := 0;
    while i < |items|
      invariant 0 <= i <= |items|
      invariant s == Dedup(items[..i])
    {
      assert items[..i + 1][..i] == items[..i];
      s := Insert(s, items[i]);
      i := i + 1;
    }
    assert items[..i] == items;
  }

  lemma SplitLast(xs: seq<string>)
    requires xs != []
    ensures xs == xs[..|xs| - 1] + [xs[|xs| - 1]]
  {
  }

  /** The set holds exactly the elements it was built from. */
  lemma {:induction false} DedupMembers(xs: seq<string>)
    ensures forall y :: y in Dedup(xs) <==> y in xs
  {
    if xs != [] {
      DedupMembers(xs[..|xs| - 1]);
      SplitLast(xs);
    }
  }

  /** ... and holds each of them once. */
  lemma {:induction false} DedupNoDup(xs: seq<string>)
    ensures NoDup(Dedup(xs))
  {
    if xs != [] {
      DedupNoDup(xs[..|xs| - 1]);
    }
  }

  /** A list without duplicates comes back unchanged. */
  lemma {:induction false} DedupOfNoDup(xs: seq<string>)
    requires NoDup(xs)
    ensures Dedup(xs) == xs
  {
    if xs != [] {
      var init := xs[..|xs| - 1];
      assert NoDup(init) by {
        forall i, j | 0 <= i < j < |init| ensures init[i] != init[j] {
          assert init[i] == xs[i] && init[j] == xs[j];
        }
      }
      DedupOfNoDup(init);
      assert xs[|xs| - 1] !in init by {
        forall k | 0 <= k < |init| ensures init[k] != xs[|xs| - 1] {
          assert init[k] == xs[k];
        }
      }
      SplitLast(xs);
    }
  }

  /** Building a set from a set's own iteration gives the same order. */
  lemma DedupIdempotent(xs: seq<string>)
    ensures Dedup(Dedup(xs)) == Dedup(xs)
  {
    DedupNoDup(xs);
    DedupOfNoDup(Dedup(xs));
  }

  /** The first occurrence is the one position holding `x` with no `x` before it. */
  lemma IndexOfUnique(s: seq<string>, x: string, i: nat)
    requires i < |s| && s[i] == x && x !in s[..i]
    ensures IndexOf(s, x) == i
  {
    var j := IndexOf(s, x);
    assert forall k :: 0 <= k < i ==> s[..i][k] == s[k];
    assert forall k :: 0 <= k < j ==> s[..j][k] == s[k];
  }

  /** Appending to a list does not move the first occurrence of an element
      that was already in it. */
  lemma IndexOfExtend(s: seq<string>, y: string, z: string)
    requires z in s
    ensures IndexOf(s + [y], z) == IndexOf(s, z)
  {
    var i := IndexOf(s, z);
    assert (s + [y])[..i] == s[..i];
    IndexOfUnique(s + [y], z, i);
  }

  /** The set iterates in the order in which its elements first occur in
      the list it was built from. */
  lemma {:induction false} DedupFirstOccurrenceOrder(xs: seq<string>)
    ensures forall y :: y in Dedup(xs) <==> y in xs
    ensures forall i, j :: 0 <= i < j < |Dedup(xs)| ==>
      IndexOf(xs, Dedup(xs)[i]) < IndexOf(xs, Dedup(xs)[j])
  {
    DedupMembers(xs);
    if xs != [] {
      var init, y := xs[..|xs| - 1], xs[|xs| - 1];
      SplitLast(xs);
      DedupFirstOccurrenceOrder(init);
      var d0, d := Dedup(init), Dedup(xs);
      assert d == Insert(d0, y);
      forall i, j | 0 <= i < j < |d| ensures IndexOf(xs, d[i]) < IndexOf(xs, d[j]) {
        assert d[i] == d0[i] && d0[i] in init;
        IndexOfExtend(init, y, d[i]);
        if j < |d0| {
          assert d[j] == d0[j] && d0[j] in init;
          IndexOfExtend(init, y, d[j]);
        } else {
          assert d[j] == y && xs[..|init|] == init;
          IndexOfUnique(xs, y, |init|);
        }
      }
    }
  }

  lemma {:induction false} DeleteConcat(a: seq<string>, b: seq<string>, x: string)
    ensures Delete(a + b, x) == Delete(a, x) + Delete(b, x)
  {
    if a == [] {
      assert a + b == b;
    } else {
      DeleteConcat(a[1..], b, x);
      assert (a + b)[0] == a[0] && (a + b)[1..] == a[1..] + b;
    }
  }

  /** Deleting an element that is not there changes nothing. */
  lemma {:induction false} DeleteAbsent(s: seq<string>, x: string)
    requires x !in s
    ensures Delete(s, x) == s
  {
    if s != [] {
      DeleteAbsent(s[1..], x);
      assert s == [s[0]] + s[1..];
    }
  }

  /** Deleting from a set cuts out exactly that element: the remaining ones
      keep their order. */
  lemma DeleteAt(s: seq<string>, x: string)
    requires NoDup(s) && x in s
    ensures Delete(s, x) == s[..IndexOf(s, x)] + s[IndexOf(s, x) + 1..]
  {
    var k := IndexOf(s, x);
    var before, after := s[..k], s[k + 1..];
    assert s == before + [x] + after;
    assert x !in after by {
      forall m | 0 <= m < |after| ensures after[m] != x {
        assert after[m] == s[k + 1 + m];
      }
    }
    DeleteConcat(before + [x], after, x);
    DeleteConcat(before, [x], x);
    DeleteAbsent(before, x);
    DeleteAbsent(after, x);
    assert Delete([x], x) == [];
  }

  /** Deleting keeps a list free of duplicates. */
  lemma {:induction false} DeleteNoDup(s: seq<string>, x: string)
    requires NoDup(s)
    ensures NoDup(Delete(s, x))
  {
    if s != [] {
      var tail := s[1..];
      assert NoDup(tail) by {
        forall i, j | 0 <= i < j < |tail| ensures tail[i] != tail[j] {
          assert tail[i] == s[i + 1] && tail[j] == s[j + 1];
        }
      }
      DeleteNoDup(tail, x);
      assert s[0] !in tail by {
        forall m | 0 <= m < |tail| ensures tail[m] != s[0] {
          assert tail[m] == s[m + 1];
        }
      }
    }
  }

  /** An element of a list without duplicates occurs exactly once. */
  lemma {:induction false} NoDupOnce(s: seq<string>, x: string)
    requires NoDup(s) && x in s
    ensures multiset(s)[x] == 1
  {
    var k := IndexOf(s, x);
    var before, after := s[..k], s[k + 1..];
    assert s == before + [x] + after;
    assert x !in after by {
      forall m | 0 <= m < |after| ensures after[m] != x {
        assert after[m] == s[k + 1 + m];
      }
    }
    assert multiset(s) == multiset(before) + multiset{x} + multiset(after);
  }
}
