// Logs whose entries carry a tag saying what became of them. The entries with
// one tag, in log order, are a subsequence of the log; distinct tags pick
// disjoint sets of positions, so a tagged log is an exact account.
module Ledgers {

  ghost function Pick<T, F>(log: seq<T>, tags: seq<F>, tag: F): seq<T>
    requires |log| == |tags|
  {
    if log == [] then []
    else
      var n := |log| - 1;
      Pick(log[..n], tags[..n], tag) + if tags[n] == tag then [log[n]] else []
  }

  lemma PickAppend<T, F>(log: seq<T>, tags: seq<F>, x: T, f: F, tag: F)
    requires |log| == |tags|
    ensures Pick(log + [x], tags + [f], tag) == Pick(log, tags, tag) + if f == tag then [x] else []
  {
    assert (log + [x])[..|log|] == log && (tags + [f])[..|tags|] == tags;
  }

  lemma {:induction false} PickConcat<T, F>(a: seq<T>, ta: seq<F>, b: seq<T>, tb: seq<F>, tag: F)
    requires |a| == |ta| && |b| == |tb|
    ensures Pick(a + b, ta + tb, tag) == Pick(a, ta, tag) + Pick(b, tb, tag)
  {
    if b == [] {
      assert a + b == a && ta + tb == ta;
    } else {
      var n := |b| - 1;
      PickConcat(a, ta, b[..n], tb[..n], tag);
      assert (a + b)[..|a| + n] == a + b[..n] && (ta + tb)[..|ta| + n] == ta + tb[..n];
    }
  }

  lemma {:induction false} PickNone<T, F>(log: seq<T>, tags: seq<F>, tag: F)
    requires |log| == |tags| && tag !in tags
    ensures Pick(log, tags, tag) == []
  {
    if log != [] { PickNone(log[..|log| - 1], tags[..|log| - 1], tag); }
  }

  // The log split around position i.
  lemma PickSplit<T, F>(log: seq<T>, tags: seq<F>, i: nat, tag: F)
    requires |log| == |tags| && i < |log|
    ensures Pick(log, tags, tag) ==
            Pick(log[..i], tags[..i], tag) + (if tags[i] == tag then [log[i]] else []) + Pick(log[i + 1..], tags[i + 1..], tag)
  {
    assert log == log[..i] + [log[i]] + log[i + 1..] && tags == tags[..i] + [tags[i]] + tags[i + 1..];
    PickConcat(log[..i] + [log[i]], tags[..i] + [tags[i]], log[i + 1..], tags[i + 1..], tag);
    PickAppend(log[..i], tags[..i], log[i], tags[i], tag);
  }

  // The position of the first entry with a tag, or the length of the log.
  ghost function First<F>(tags: seq<F>, tag: F): (i: nat)
    ensures i <= |tags| && tag !in tags[..i] && (i < |tags| ==> tags[i] == tag)
  {
    if tags == [] then 0
    else if tags[0] == tag then 0
    else
      var j := 1 + First(tags[1..], tag);
      assert tags[..j] == [tags[0]] + tags[1..][..j - 1];
      j
  }

  // What one tag picks, around entry i, before and after that entry is retagged.
  lemma RetagSplit<T, F>(log: seq<T>, tags: seq<F>, i: nat, to: F, tag: F)
    requires |log| == |tags| && i < |log|
    ensures var a, z := Pick(log[..i], tags[..i], tag), Pick(log[i + 1..], tags[i + 1..], tag);
            && Pick(log, tags, tag) == a + (if tags[i] == tag then [log[i]] else []) + z
            && Pick(log, tags[i := to], tag) == a + (if to == tag then [log[i]] else []) + z
  {
    var u := tags[i := to];
    assert u[..i] == tags[..i] && u[i + 1..] == tags[i + 1..];
    hide Pick;
    PickSplit(log, tags, i, tag);
    PickSplit(log, u, i, tag);
  }

  // Retagging the first `tag` entry moves the head of one pick to another.
  lemma RetagFirst<T, F>(log: seq<T>, tags: seq<F>, tag: F, to: F, other: F)
    requires |log| == |tags| && tag in tags && to != tag
    ensures var i := First(tags, tag);
            && i < |tags|
            && Pick(log, tags, tag) == [log[i]] + Pick(log, tags[i := to], tag)
            && (other != tag && other != to ==> Pick(log, tags[i := to], other) == Pick(log, tags, other))
            && (to !in tags[i..] ==> Pick(log, tags[i := to], to) == Pick(log, tags, to) + [log[i]])
  {
    var i := First(tags, tag);
    assert i < |tags| by { assert tags[..|tags|] == tags; }
    hide Pick, First;
    PickNone(log[..i], tags[..i], tag);
    RetagSplit(log, tags, i, to, tag);
    RetagSplit(log, tags, i, to, other);
    RetagSplit(log, tags, i, to, to);
    if to !in tags[i..] {
      assert tags[i + 1..] == tags[i..][1..];
      PickNone(log[i + 1..], tags[i + 1..], to);
    }
  }

  lemma {:induction false} PickLength<T, F>(log: seq<T>, tags: seq<F>, tag: F)
    requires |log| == |tags|
    ensures |Pick(log, tags, tag)| <= |log|
    ensures forall x :: x in Pick(log, tags, tag) ==> exists i :: 0 <= i < |log| && log[i] == x && tags[i] == tag
    ensures forall i :: 0 <= i < |log| && tags[i] == tag ==> log[i] in Pick(log, tags, tag)
  {
    if log != [] {
      var n := |log| - 1;
      PickLength(log[..n], tags[..n], tag);
      forall x | x in Pick(log, tags, tag) ensures exists i :: 0 <= i < |log| && log[i] == x && tags[i] == tag {
        if x in Pick(log[..n], tags[..n], tag) {
          var i :| 0 <= i < n && log[..n][i] == x && tags[..n][i] == tag;
          assert log[i] == x && tags[i] == tag;
        } else {
          assert log[n] == x && tags[n] == tag;
        }
      }
    }
  }

  // a is b with some entries left out.
  ghost predicate Subsequence<T>(a: seq<T>, b: seq<T>)
    decreases |b|
  {
    if a == [] then true
    else if b == [] then false
    else if a[|a| - 1] == b[|b| - 1] && Subsequence(a[..|a| - 1], b[..|b| - 1]) then true
    else Subsequence(a, b[..|b| - 1])
  }

  lemma SubsequenceAppend<T>(a: seq<T>, b: seq<T>, x: T)
    requires Subsequence(a, b)
    ensures Subsequence(a + [x], b + [x]) && Subsequence(a, b + [x])
  {
    assert (a + [x])[..|a|] == a && (b + [x])[..|b|] == b;
  }

  lemma {:induction false} PickIsSubsequence<T, F>(log: seq<T>, tags: seq<F>, tag: F)
    requires |log| == |tags|
    ensures Subsequence(Pick(log, tags, tag), log)
  {
    if log != [] {
      var n := |log| - 1;
      PickIsSubsequence(log[..n], tags[..n], tag);
      var p := Pick(log[..n], tags[..n], tag);
      SubsequenceAppend(p, log[..n], log[n]);
      assert log == log[..n] + [log[n]];
      assert Pick(log, tags, tag) == p + if tags[n] == tag then [log[n]] else [];
      assert p + [] == p;
    }
  }

  lemma {:induction false} SubsequenceInit<T>(a: seq<T>, x: T, b: seq<T>)
    requires Subsequence(a + [x], b)
    ensures Subsequence(a, b)
    decreases |b|
  {
    var n := |b| - 1;
    assert (a + [x])[..|a|] == a && b == b[..n] + [b[n]];
    if Subsequence(a + [x], b[..n]) {
      SubsequenceInit(a, x, b[..n]);
    }
    SubsequenceAppend(a, b[..n], b[n]);
  }

  lemma {:induction false} SubsequencePrefix<T>(a: seq<T>, more: seq<T>, b: seq<T>)
    requires Subsequence(a + more, b)
    ensures Subsequence(a, b)
    decreases |more|
  {
    if more == [] {
      assert a + more == a;
    } else {
      var n := |more| - 1;
      assert a + more == a + more[..n] + [more[n]];
      SubsequenceInit(a + more[..n], more[n], b);
      SubsequencePrefix(a, more[..n], b);
    }
  }
}
