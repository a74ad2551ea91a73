/** What several parts need to know about sequences. */
module Sequences {
  ghost predicate NoRepeats<T>(drawn: seq<T>) {
    forall i, j | 0 <= i < j < |drawn| :: drawn[i] != drawn[j]
  }

  function Concat<T>(chunks: seq<seq<T>>): seq<T> {
    if chunks == [] then [] else chunks[0] + Concat(chunks[1..])
  }

  lemma {:induction false} ConcatOneMore<T>(chunks: seq<seq<T>>, n: nat)
    requires n < |chunks|
    ensures Concat(chunks[..n + 1]) == Concat(chunks[..n]) + chunks[n]
  {
    if n == 0 {
      assert chunks[..1][1..] == [];
    } else {
      ConcatOneMore(chunks[1..], n - 1);
      assert chunks[..n + 1][1..] == chunks[1..][..n];
      assert chunks[..n][1..] == chunks[1..][..n - 1];
    }
  }

  lemma {:induction false} ConcatSplit<T>(chunks: seq<seq<T>>, n: nat)
    requires n <= |chunks|
    ensures Concat(chunks) == Concat(chunks[..n]) + Concat(chunks[n..])
  {
    if n == 0 {
      assert chunks[0..] == chunks;
    } else {
      ConcatSplit(chunks[1..], n - 1);
      assert chunks[1..][..n - 1] == chunks[..n][1..] && chunks[1..][n - 1..] == chunks[n..];
    }
  }

  lemma ConcatBoth<T>(a: seq<seq<T>>, b: seq<seq<T>>)
    ensures Concat(a + b) == Concat(a) + Concat(b)
  {
    ConcatSplit(a + b, |a|);
    assert (a + b)[..|a|] == a && (a + b)[|a|..] == b;
  }

  lemma ConcatAppend<T>(chunks: seq<seq<T>>, last: seq<T>)
    ensures Concat(chunks + [last]) == Concat(chunks) + last
  {
    ConcatBoth(chunks, [last]);
    assert [last][1..] == [] && last + [] == last;
  }

  /** Each entry of `sent` is the one of `taken` at the place given by `at`, and
      the places only go up. */
  ghost predicate PickedAt<T>(sent: seq<T>, taken: seq<T>, at: seq<int>) {
    && |at| == |sent|
    && (forall i | 0 <= i < |at| :: 0 <= at[i] < |taken| && sent[i] == taken[at[i]])
    && (forall i, j | 0 <= i < j < |at| :: at[i] < at[j])
  }

  /** `sent` is `taken` with some of it left out. */
  ghost predicate Picked<T>(sent: seq<T>, taken: seq<T>) {
    exists at :: PickedAt(sent, taken, at)
  }

  lemma PickedSame<T>(sent: seq<T>, taken: seq<T>, more: seq<T>)
    requires Picked(sent, taken)
    ensures Picked(sent, taken + more)
  {
    var at :| PickedAt(sent, taken, at);
    assert PickedAt(sent, taken + more, at);
  }

  lemma PickedOneMore<T>(sent: seq<T>, taken: seq<T>, x: T)
    requires Picked(sent, taken)
    ensures Picked(sent + [x], taken + [x])
  {
    var at :| PickedAt(sent, taken, at);
    var at' := at + [|taken|];
    forall i | 0 <= i < |at'| ensures 0 <= at'[i] < |taken + [x]| && (sent + [x])[i] == (taken + [x])[at'[i]] {
      if i < |at| {
        assert at'[i] == at[i] && sent[i] == taken[at[i]];
      }
    }
    assert PickedAt(sent + [x], taken + [x], at');
  }

  lemma PickedLonger<T>(sent: seq<T>, taken: seq<T>, longer: seq<T>)
    requires Picked(sent, taken) && taken <= longer
    ensures Picked(sent, longer)
  {
    PickedSame(sent, taken, longer[|taken|..]);
    assert taken + longer[|taken|..] == longer;
  }
}
