/** The two merge policies of bms.py:212-223. Events are compared by their
    `timing` only, which `key` extracts (notes, tempo changes and stops all
    go through `__merge_item`). */
module Merge {
  import opened BmsTypes

  /** Some element of `s` has key `k`. */
  predicate HasKey<T>(s: seq<T>, key: T -> real, k: real)
  {
    exists i :: 0 <= i < |s| && key(s[i]) == k
  }

  /** No two elements of `s` share a key. */
  predicate UniqueKeys<T>(s: seq<T>, key: T -> real)
  {
    forall i, j :: 0 <= i < j < |s| ==> key(s[i]) != key(s[j])
  }

  /** What `__merge_item` leaves in `dst`: each source event in turn is
      appended unless the destination, as it stands at that moment, already
      has an event at its timing. */
  function MergeSpec<T>(src: seq<T>, dst: seq<T>, key: T -> real): (r: seq<T>)
    ensures |dst| <= |r| && r[..|dst|] == dst
  {
    if src == [] then dst
    else
      var m := MergeSpec(src[..|src| - 1], dst, key);
      var s := src[|src| - 1];
      if HasKey(m, key, key(s)) then m else m + [s]
  }

  /** `__merge_item(src, dst)`, with the source's nested scan. */
  method MergeItem<T>(src: seq<T>, dst: seq<T>, key: T -> real) returns (merged: seq<T>)
    ensures merged == MergeSpec(src, dst, key)
    ensures merged[..|dst|] == dst
    ensures UniqueKeys(dst, key) ==> UniqueKeys(merged, key)
    ensures UniqueKeys(dst, key) ==> merged == KeepFirst(dst + src, key)
  {
    merged := dst;
    for i := 0 to |src|
      invariant merged == MergeSpec(src[..i], dst, key)
    {
      var s := src[i];
      var found := false;
      for j := 0 to |merged|
        invariant found <==> HasKey(merged[..j], key, key(s))
      {
        if key(merged[j]) == key(s) {
          found := true;
          break;
        }
      }
      assert found <==> HasKey(merged, key, key(s));
      assert src[..i + 1][..i] == src[..i];
      if !found {
        merged := merged + [s];
      }
    }
    assert src[..|src|] == src;
    if UniqueKeys(dst, key) {
      MergeKeepsFirst(src, dst, key);
    }
  }

  /** `__merge_all_item(src, dst)` (the background channel): `dst.extend(src)`. */
  function MergeAllItem<T>(src: seq<T>, dst: seq<T>): (r: seq<T>)
    ensures |r| == |dst| + |src|
    ensures r[..|dst|] == dst && r[|dst|..] == src
  {
    dst + src
  }

  /** The reference policy "first occurrence of each timing wins": the
      elements of `s` whose key no earlier element has, in order. */
  function KeepFirst<T>(s: seq<T>, key: T -> real): (r: seq<T>)
  {
    if s == [] then []
    else
      var p := s[..|s| - 1];
      var x := s[|s| - 1];
      if HasKey(p, key, key(x)) then KeepFirst(p, key) else KeepFirst(p, key) + [x]
  }

  /** The reference policy keeps exactly one element per key, and the same keys. */
  lemma {:induction false} KeepFirstKeys<T>(s: seq<T>, key: T -> real)
    ensures UniqueKeys(KeepFirst(s, key), key)
    ensures forall k :: HasKey(KeepFirst(s, key), key, k) <==> HasKey(s, key, k)
  {
    if s != [] {
      var p := s[..|s| - 1];
      var x := s[|s| - 1];
      KeepFirstKeys(p, key);
      forall k
        ensures HasKey(s, key, k) <==> HasKey(p, key, k) || key(x) == k
      {
        if HasKey(s, key, k) {
          var i :| 0 <= i < |s| && key(s[i]) == k;
          if i < |p| { assert key(p[i]) == k; }
        }
        if HasKey(p, key, k) {
          var i :| 0 <= i < |p| && key(p[i]) == k;
          assert key(s[i]) == k;
        }
      }
      var kp := KeepFirst(p, key);
      if !HasKey(p, key, key(x)) {
        var r := kp + [x];
        forall k
          ensures HasKey(r, key, k) <==> HasKey(kp, key, k) || key(x) == k
        {
          if HasKey(r, key, k) {
            var i :| 0 <= i < |r| && key(r[i]) == k;
            if i < |kp| {
              assert r[i] == kp[i];
            } else {
              assert r[i] == x;
            }
          }
          if HasKey(kp, key, k) {
            var i :| 0 <= i < |kp| && key(kp[i]) == k;
            assert r[i] == kp[i];
          }
        }
        forall i, j | 0 <= i < j < |r|
          ensures key(r[i]) != key(r[j])
        {
          if j == |kp| {
            assert !HasKey(kp, key, key(x));
            assert key(kp[i]) != key(x);
          }
        }
      }
    }
  }

  /** A merge holds only events of its two inputs. */
  lemma {:induction false} MergeSpecElements<T>(src: seq<T>, dst: seq<T>, key: T -> real)
    ensures forall x :: x in MergeSpec(src, dst, key) ==> x in dst || x in src
    decreases |src|
  {
    if src != [] {
      MergeSpecElements(src[..|src| - 1], dst, key);
      assert src == src[..|src| - 1] + [src[|src| - 1]];
    }
  }

  /** The keys present after merging are those of `dst` and `src`. */
  lemma {:induction false} MergeSpecKeys<T>(src: seq<T>, dst: seq<T>, key: T -> real)
    ensures forall k :: HasKey(MergeSpec(src, dst, key), key, k) <==> HasKey(dst + src, key, k)
  {
    if src != [] {
      var p := src[..|src| - 1];
      var s := src[|src| - 1];
      var m := MergeSpec(p, dst, key);
      MergeSpecKeys(p, dst, key);
      assert dst + src == (dst + p) + [s];
      HasKeySnoc(dst + p, s, key);
      var r := MergeSpec(src, dst, key);
      if !HasKey(m, key, key(s)) {
        HasKeySnoc(m, s, key);
        assert r == m + [s];
      } else {
        assert r == m;
      }
      forall k
        ensures HasKey(r, key, k) <==> HasKey(dst + src, key, k)
      {
        assert HasKey(dst + src, key, k) <==> HasKey(dst + p, key, k) || key(s) == k;
      }
    } else {
      assert dst + src == dst;
    }
  }

  lemma HasKeySnoc<T>(s: seq<T>, x: T, key: T -> real)
    ensures forall k :: HasKey(s + [x], key, k) <==> HasKey(s, key, k) || key(x) == k
  {
    forall k
      ensures HasKey(s + [x], key, k) <==> HasKey(s, key, k) || key(x) == k
    {
      if HasKey(s + [x], key, k) {
        var i :| 0 <= i < |s| + 1 && key((s + [x])[i]) == k;
        if i < |s| { assert key(s[i]) == k; }
      }
      if HasKey(s, key, k) {
        var i :| 0 <= i < |s| && key(s[i]) == k;
        assert key((s + [x])[i]) == k;
      }
      assert (s + [x])[|s|] == x;
    }
  }

  /** With a destination free of duplicate timings, merging is the
      first-occurrence-wins policy on `dst` followed by `src`: existing
      events keep their order and their place, and a later event never
      displaces an earlier one at the same timing. */
  lemma {:induction false} MergeKeepsFirst<T>(src: seq<T>, dst: seq<T>, key: T -> real)
    requires UniqueKeys(dst, key)
    ensures MergeSpec(src, dst, key) == KeepFirst(dst + src, key)
    ensures UniqueKeys(MergeSpec(src, dst, key), key)
  {
    if src == [] {
      KeepFirstUnique(dst, key);
      assert dst + src == dst;
    } else {
      var p := src[..|src| - 1];
      var s := src[|src| - 1];
      MergeKeepsFirst(p, dst, key);
      var m := MergeSpec(p, dst, key);
      assert dst + src == (dst + p) + [s];
      assert (dst + src)[..|dst + src| - 1] == dst + p;
      MergeSpecKeys(p, dst, key);
      assert HasKey(m, key, key(s)) <==> HasKey(dst + p, key, key(s));
      if !HasKey(m, key, key(s)) {
        KeepFirstKeys(dst + p, key);
        HasKeySnoc(m, s, key);
        forall i, j | 0 <= i < j < |m + [s]|
          ensures key((m + [s])[i]) != key((m + [s])[j])
        {
          if j == |m| {
            assert key(m[i]) != key(s);
          }
        }
      }
    }
  }

  /** A sequence without duplicate keys is its own first occurrences. */
  lemma {:induction false} KeepFirstUnique<T>(s: seq<T>, key: T -> real)
    requires UniqueKeys(s, key)
    ensures KeepFirst(s, key) == s
  {
    if s != [] {
      var p := s[..|s| - 1];
      KeepFirstUnique(p, key);
      assert !HasKey(p, key, key(s[|s| - 1]));
      assert s == p + [s[|s| - 1]];
    }
  }
}
