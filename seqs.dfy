/**
 * Order-preserving filtering of sequences, the model of `Array.prototype.filter`.
 * The workspace filters text boxes twice: to delete them and to pick the ones
 * shown on the current page.
 */
module Seqs {

  /** The elements of `s` that satisfy `keep`, in their original order. */
  function Filter<T>(s: seq<T>, keep: T -> bool): (r: seq<T>)
    ensures |r| <= |s|
    ensures forall i :: 0 <= i < |r| ==> r[i] in s && keep(r[i])
    ensures forall i :: 0 <= i < |s| && keep(s[i]) ==> s[i] in r
  {
    if s == [] then []
    else (if keep(s[0]) then [s[0]] else []) + Filter(s[1..], keep)
  }

  /** Filtering distributes over concatenation: the order of the survivors is kept. */
  lemma {:induction false} FilterConcat<T>(a: seq<T>, b: seq<T>, keep: T -> bool)
    ensures Filter(a + b, keep) == Filter(a, keep) + Filter(b, keep)
  {
    if a == [] {
      assert a + b == b;
    } else {
      assert (a + b)[0] == a[0];
      assert (a + b)[1..] == a[1..] + b;
      FilterConcat(a[1..], b, keep);
    }
  }

  /** Appending one element: it survives exactly when it satisfies `keep`. */
  lemma FilterSnoc<T>(s: seq<T>, x: T, keep: T -> bool)
    ensures Filter(s + [x], keep) == Filter(s, keep) + (if keep(x) then [x] else [])
  {
    FilterConcat(s, [x], keep);
    assert Filter([x], keep) == (if keep(x) then [x] else []) + Filter([x][1..], keep);
  }

  /** The complement of a filter predicate. */
  function Not<T>(keep: T -> bool): T -> bool
  {
    x => !keep(x)
  }

  /** Every element goes to exactly one side of a filter and its complement. */
  lemma {:induction false} FilterPartition<T>(s: seq<T>, keep: T -> bool)
    ensures |Filter(s, keep)| + |Filter(s, Not(keep))| == |s|
  {
    if s != [] {
      FilterPartition(s[1..], keep);
    }
  }

  /** An element that satisfies `keep` everywhere is never dropped. */
  lemma {:induction false} FilterAll<T>(s: seq<T>, keep: T -> bool)
    requires forall i :: 0 <= i < |s| ==> keep(s[i])
    ensures Filter(s, keep) == s
  {
    if s != [] {
      FilterAll(s[1..], keep);
    }
  }

  /** Two filters may be applied in either order. */
  lemma {:induction false} FilterCommute<T>(s: seq<T>, f: T -> bool, g: T -> bool)
    ensures Filter(Filter(s, f), g) == Filter(Filter(s, g), f)
  {
    if s != [] {
      var head := if f(s[0]) then [s[0]] else [];
      FilterConcat(head, Filter(s[1..], f), g);
      FilterConcat(if g(s[0]) then [s[0]] else [], Filter(s[1..], g), f);
      assert Filter(head, g) == (if f(s[0]) && g(s[0]) then [s[0]] else []) by {
        if f(s[0]) { assert Filter([s[0]], g) == (if g(s[0]) then [s[0]] else []) + Filter([s[0]][1..], g); }
      }
      var head' := if g(s[0]) then [s[0]] else [];
      assert Filter(head', f) == (if f(s[0]) && g(s[0]) then [s[0]] else []) by {
        if g(s[0]) { assert Filter([s[0]], f) == (if f(s[0]) then [s[0]] else []) + Filter([s[0]][1..], f); }
      }
      FilterCommute(s[1..], f, g);
    }
  }
}
