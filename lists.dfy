/** `Array.prototype.filter` and `find` on sequences, and what they preserve. */
module Lists {
  import opened Wrappers

  /** The elements of `s` that satisfy `p`, in their original order. */
  function Filter<T>(s: seq<T>, p: T -> bool): (r: seq<T>)
    ensures |r| <= |s|
    ensures forall i :: 0 <= i < |r| ==> r[i] in s && p(r[i])
    ensures forall i :: 0 <= i < |s| && p(s[i]) ==> s[i] in r
  {
    if s == [] then [] else (if p(s[0]) then [s[0]] else []) + Filter(s[1..], p)
  }

  /** Filtering distributes over concatenation. */
  lemma {:induction false} FilterConcat<T>(a: seq<T>, b: seq<T>, p: T -> bool)
    ensures Filter(a + b, p) == Filter(a, p) + Filter(b, p)
  {
    if a != [] {
      assert (a + b)[0] == a[0];
      assert (a + b)[1..] == a[1..] + b;
      FilterConcat(a[1..], b, p);
    } else {
      assert a + b == b;
    }
  }

  /** Filtering a list with one more element at the end. */
  lemma FilterSnoc<T>(s: seq<T>, x: T, p: T -> bool)
    ensures Filter(s + [x], p) == Filter(s, p) + (if p(x) then [x] else [])
  {
    FilterConcat(s, [x], p);
    assert [x][1..] == [];
  }

  /** `f` embeds `r` into `s`: strictly increasing positions of `s` that hold `r`'s elements. */
  ghost predicate Embeds<T>(r: seq<T>, s: seq<T>, f: seq<nat>) {
    && |f| == |r|
    && (forall i :: 0 <= i < |f| ==> f[i] < |s| && r[i] == s[f[i]])
    && (forall i, j :: 0 <= i < j < |f| ==> f[i] < f[j])
  }

  /**
   * The result of a filter is an order-preserving sublist of its input that takes every
   * position whose element satisfies `p`: with `Filter`'s own contract, `f` is exactly the
   * list of those positions, so each qualifying element survives as often as it occurs.
   */
  lemma {:induction false} FilterIsSublist<T>(s: seq<T>, p: T -> bool) returns (f: seq<nat>)
    ensures Embeds(Filter(s, p), s, f)
    ensures forall i :: 0 <= i < |s| && p(s[i]) ==> i in f
  {
    if s == [] {
      f := [];
    } else {
      var g := FilterIsSublist(s[1..], p);
      var shifted := EmbedsInTail(Filter(s[1..], p), s, g);
      if p(s[0]) {
        assert Filter(s, p) == [s[0]] + Filter(s[1..], p);
        f := EmbedsCons(Filter(s[1..], p), s, shifted);
      } else {
        assert Filter(s, p) == [] + Filter(s[1..], p);
        f := shifted;
      }
      forall i | 0 < i < |s| && p(s[i]) ensures i in f {
        assert s[1..][i - 1] == s[i];
        assert i - 1 in g;
      }
    }
  }

  /** An embedding into the tail of `s`, shifted by one, is an embedding into `s` that avoids position 0. */
  lemma EmbedsInTail<T>(r: seq<T>, s: seq<T>, g: seq<nat>) returns (f: seq<nat>)
    requires s != [] && Embeds(r, s[1..], g)
    ensures Embeds(r, s, f) && forall i :: 0 <= i < |f| ==> 0 < f[i]
    ensures forall k :: k in g ==> k + 1 in f
  {
    f := seq(|g|, i requires 0 <= i < |g| => g[i] + 1);
    forall i | 0 <= i < |f| ensures f[i] < |s| && r[i] == s[f[i]] {
      assert r[i] == s[1..][g[i]];
    }
    forall k | k in g ensures k + 1 in f {
      var j :| 0 <= j < |g| && g[j] == k;
      assert f[j] == k + 1;
    }
  }

  /** Putting `s[0]` in front of a sublist that avoids position 0 keeps it a sublist. */
  lemma EmbedsCons<T>(r: seq<T>, s: seq<T>, g: seq<nat>) returns (f: seq<nat>)
    requires s != [] && Embeds(r, s, g) && forall i :: 0 <= i < |g| ==> 0 < g[i]
    ensures Embeds([s[0]] + r, s, f) && f == [0] + g
  {
    f := [0] + g;
    forall i | 0 < i < |f| ensures f[i] < |s| && ([s[0]] + r)[i] == s[f[i]] {
      assert f[i] == g[i - 1];
    }
  }

  /** A predicate that holds of every element keeps the whole sequence. */
  lemma {:induction false} FilterAll<T>(s: seq<T>, p: T -> bool)
    requires forall i :: 0 <= i < |s| ==> p(s[i])
    ensures Filter(s, p) == s
  {
    if s != [] {
      assert forall i :: 0 <= i < |s[1..]| ==> s[1..][i] == s[i + 1];
      FilterAll(s[1..], p);
    }
  }

  /** `find`/`findIndex`: the position of the first element that satisfies `p`. */
  function FindIndex<T>(s: seq<T>, p: T -> bool): (r: Option<nat>)
    ensures r.None? <==> forall i :: 0 <= i < |s| ==> !p(s[i])
    ensures r.Some? ==> r.value < |s| && p(s[r.value]) && forall j :: 0 <= j < r.value ==> !p(s[j])
  {
    if s == [] then None
    else if p(s[0]) then Some(0)
    else
      var r := FindIndex(s[1..], p);
      assert forall i :: 0 < i < |s| ==> s[i] == s[1..][i - 1];
      if r.Some? then Some(r.value + 1) else None
  }
}
