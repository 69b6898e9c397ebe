/** Order-preserving selections from a history. */
module Sequences {
  /** `a` can be obtained from `b` by leaving elements out. */
  predicate Subsequence<T(==)>(a: seq<T>, b: seq<T>) {
    a == [] ||
    (b != [] &&
     ((a[|a| - 1] == b[|b| - 1] && Subsequence(a[..|a| - 1], b[..|b| - 1])) ||
      Subsequence(a, b[..|b| - 1])))
  }

  lemma {:induction false} SubsequenceInit<T>(a: seq<T>, b: seq<T>)
    requires Subsequence(a, b) && a != []
    ensures Subsequence(a[..|a| - 1], b)
  {
    var n, m := |a| - 1, |b| - 1;
    if a[n] == b[m] && Subsequence(a[..n], b[..m]) {
      if n > 0 {
        SubsequenceWiden(a[..n], b[..m], b[m]);
        assert b[..m] + [b[m]] == b;
      }
    } else {
      SubsequenceInit(a, b[..m]);
    }
  }

  lemma SubsequenceWiden<T>(a: seq<T>, b: seq<T>, x: T)
    requires Subsequence(a, b)
    ensures Subsequence(a, b + [x])
  {
  }

  lemma SubsequenceExtend<T>(a: seq<T>, b: seq<T>, x: T)
    requires Subsequence(a, b)
    ensures Subsequence(a + [x], b + [x])
  {
  }

  /** `at` are the places of the elements of `a` in `b`, in order. */
  predicate Embeds<T(==)>(at: seq<nat>, a: seq<T>, b: seq<T>) {
    && |at| == |a|
    && (forall i :: 0 <= i < |at| ==> at[i] < |b| && b[at[i]] == a[i])
    && (forall i, j :: 0 <= i < j < |at| ==> at[i] < at[j])
  }

  /** A subsequence takes its elements from the longer sequence, and keeps their order. */
  lemma {:induction false} SubsequenceEmbeds<T>(a: seq<T>, b: seq<T>) returns (at: seq<nat>)
    requires Subsequence(a, b)
    ensures Embeds(at, a, b)
  {
    if a == [] {
      at := [];
    } else {
      var n, m := |a| - 1, |b| - 1;
      if a[n] == b[m] && Subsequence(a[..n], b[..m]) {
        var init := SubsequenceEmbeds(a[..n], b[..m]);
        at := init + [m];
      } else {
        at := SubsequenceEmbeds(a, b[..m]);
      }
    }
  }

  // ---- Filters, by the places of what is left ----

  /** `at` are the places of what is left of a list: of everything that is kept, in order. */
  ghost predicate LeavesExactly<T(!new)>(at: seq<nat>, before: seq<T>, after: seq<T>, kept: T -> bool) {
    Embeds(at, after, before) && forall i: nat :: i < |before| ==> (i in at <==> kept(before[i]))
  }

  function Shifted(at: seq<nat>): (r: seq<nat>)
    ensures |r| == |at|
  {
    seq(|at|, k requires 0 <= k < |at| => at[k] + 1)
  }

  lemma {:induction false} ShiftedHas(at: seq<nat>, i: nat)
    ensures i in Shifted(at) <==> i > 0 && i - 1 in at
  {
    if i > 0 && i - 1 in at {
      var k :| 0 <= k < |at| && at[k] == i - 1;
      assert Shifted(at)[k] == i;
    }
  }

  lemma {:induction false} ShiftedEmbeds<T>(head: T, tail: seq<T>, at: seq<nat>, after: seq<T>)
    requires Embeds(at, after, tail)
    ensures Embeds(Shifted(at), after, [head] + tail)
    ensures Embeds([0] + Shifted(at), [head] + after, [head] + tail)
  {
  }

  lemma {:induction false} LeavesMore<T(!new)>(head: T, tail: seq<T>, at: seq<nat>, after: seq<T>, kept: T -> bool)
    returns (more: seq<nat>)
    requires LeavesExactly(at, tail, after, kept)
    ensures LeavesExactly(more, [head] + tail, if kept(head) then [head] + after else after, kept)
  {
    more := if kept(head) then [0] + Shifted(at) else Shifted(at);
    ShiftedEmbeds(head, tail, at, after);
    forall i: nat | i < |tail| + 1 ensures i in more <==> kept(([head] + tail)[i]) {
      ShiftedHas(at, i);
      assert i in more <==> i in Shifted(at) || (i == 0 && kept(head));
    }
  }

  /** One more element at the end, kept or not. */
  lemma {:induction false} LeavesOneMore<T(!new)>(init: seq<T>, last: T, at: seq<nat>, after: seq<T>, kept: T -> bool)
    returns (more: seq<nat>)
    requires LeavesExactly(at, init, after, kept)
    ensures LeavesExactly(more, init + [last], if kept(last) then after + [last] else after, kept)
  {
    more := if kept(last) then at + [|init|] else at;
    forall i: nat | i < |init| + 1 ensures i in more <==> kept((init + [last])[i]) {
      assert i in more <==> i in at || (i == |init| && kept(last));
    }
  }
}
