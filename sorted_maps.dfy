/**
 * A key-sorted map with string keys, the behaviour of java.util.TreeMap under
 * the natural order of String: an association list kept strictly increasing
 * by key, and `Put`, which inserts or replaces one entry.
 */
module SortedMaps {

  /** Lexicographic order on strings, character by character; a proper prefix comes first. */
  predicate Less(a: string, b: string)
    decreases |a|
  {
    if b == [] then false
    else if a == [] then true
    else if a[0] != b[0] then a[0] < b[0]
    else Less(a[1..], b[1..])
  }

  lemma {:induction false} LessTransitive(a: string, b: string, c: string)
    requires Less(a, b) && Less(b, c)
    ensures Less(a, c)
  {
    if a != [] && a[0] == b[0] && b[0] == c[0] {
      LessTransitive(a[1..], b[1..], c[1..]);
    }
  }

  lemma {:induction false} LessTotal(a: string, b: string)
    ensures a == b || Less(a, b) || Less(b, a)
  {
    if a != [] && b != [] && a[0] == b[0] {
      LessTotal(a[1..], b[1..]);
      if a[1..] == b[1..] {
        assert a == [a[0]] + a[1..] && b == [b[0]] + b[1..];
      }
    }
  }

  /** Every key is strictly smaller than every later key (so keys are distinct). */
  ghost predicate Sorted<V>(es: seq<(string, V)>)
  {
    forall i, j | 0 <= i < j < |es| :: Less(es[i].0, es[j].0)
  }

  /** `k` is strictly smaller than every key of `es`. */
  ghost predicate Below<V>(k: string, es: seq<(string, V)>)
  {
    forall i | 0 <= i < |es| :: Less(k, es[i].0)
  }

  /** The map an association list denotes. */
  function ToMap<V>(es: seq<(string, V)>): map<string, V>
  {
    if es == [] then map[] else ToMap(es[1..])[es[0].0 := es[0].1]
  }

  /** TreeMap.put: insert `k` at its place in key order, or replace the value under `k`. */
  function Put<V>(es: seq<(string, V)>, k: string, v: V): (r: seq<(string, V)>)
    requires Sorted(es)
    ensures Sorted(r)
    ensures ToMap(r) == ToMap(es)[k := v]
    ensures forall x :: Below(x, es) && Less(x, k) ==> Below(x, r)
    decreases |es|
  {
    if es == [] then
      [(k, v)]
    else if es[0].0 == k then
      assert Sorted(es[1..]) by {
        forall i, j | 0 <= i < j < |es[1..]| ensures Less(es[1..][i].0, es[1..][j].0) {
          assert es[1..][i] == es[i + 1] && es[1..][j] == es[j + 1];
        }
      }
      var r := [(k, v)] + es[1..];
      assert ToMap(r) == ToMap(es[1..])[k := v];
      assert forall x :: Below(x, es) && Less(x, k) ==> Below(x, r) by {
        forall x | Below(x, es) && Less(x, k) ensures Below(x, r) {
          forall i | 0 <= i < |r| ensures Less(x, r[i].0) {
            if i > 0 { assert r[i] == es[i]; }
          }
        }
      }
      r
    else if Less(k, es[0].0) then
      var r := [(k, v)] + es;
      assert Sorted(r) by {
        forall i, j | 0 <= i < j < |r| ensures Less(r[i].0, r[j].0) {
          if i == 0 {
            if j > 1 { LessTransitive(k, es[0].0, es[j - 1].0); }
          } else {
            assert r[i] == es[i - 1] && r[j] == es[j - 1];
          }
        }
      }
      r
    else
      LessTotal(k, es[0].0);
      var tail := es[1..];
      assert Sorted(tail) by {
        forall i, j | 0 <= i < j < |tail| ensures Less(tail[i].0, tail[j].0) {
          assert tail[i] == es[i + 1] && tail[j] == es[j + 1];
        }
      }
      assert Below(es[0].0, tail) by {
        forall i | 0 <= i < |tail| ensures Less(es[0].0, tail[i].0) {
          assert tail[i] == es[i + 1];
        }
      }
      var rest := Put(tail, k, v);
      var r := [es[0]] + rest;
      assert r[1..] == rest;
      assert Sorted(r) by {
        forall i, j | 0 <= i < j < |r| ensures Less(r[i].0, r[j].0) {
          if i > 0 { assert r[i] == rest[i - 1] && r[j] == rest[j - 1]; }
          else { assert r[j] == rest[j - 1]; }
        }
      }
      assert ToMap(r) == ToMap(es)[k := v] by {
        assert ToMap(r) == ToMap(tail)[k := v][es[0].0 := es[0].1];
        assert ToMap(es) == ToMap(tail)[es[0].0 := es[0].1];
      }
      assert forall x :: Below(x, es) && Less(x, k) ==> Below(x, r) by {
        forall x | Below(x, es) && Less(x, k) ensures Below(x, r) {
          assert Below(x, tail) by {
            forall i | 0 <= i < |tail| ensures Less(x, tail[i].0) { assert tail[i] == es[i + 1]; }
          }
          forall i | 0 <= i < |r| ensures Less(x, r[i].0) {
            if i > 0 { assert r[i] == rest[i - 1]; }
          }
        }
      }
      r
  }
}
