/** The option type shared by the models: a pointer or value that may be absent. */
module Common {
  datatype Option<+T> = None | Some(value: T)
}

/** Filtering a list in order, and where the elements that remain come from. */
module Filtering {
  function RemovedAt<T>(s: seq<T>, i: nat): seq<T>
    requires i < |s|
  {
    s[..i] + s[i + 1..]
  }

  function Keep<T>(s: seq<T>, p: T -> bool): seq<T> {
    if s == [] then []
    else Keep(s[..|s| - 1], p) + if p(s[|s| - 1]) then [s[|s| - 1]] else []
  }

  lemma KeepNext<T>(s: seq<T>, i: nat, p: T -> bool)
    requires i < |s|
    ensures Keep(s[..i + 1], p) == Keep(s[..i], p) + if p(s[i]) then [s[i]] else []
  {
    assert s[..i + 1][..i] == s[..i];
  }

  lemma {:induction false} KeepAll<T>(s: seq<T>, p: T -> bool)
    requires forall i :: 0 <= i < |s| ==> p(s[i])
    ensures Keep(s, p) == s
  {
    if s != [] {
      KeepAll(s[..|s| - 1], p);
    }
  }

  lemma {:induction false} KeepSkips<T>(s: seq<T>, i: nat, p: T -> bool)
    requires i < |s| && !p(s[i])
    ensures Keep(RemovedAt(s, i), p) == Keep(s, p)
  {
    var last := |s| - 1;
    if i < last {
      KeepSkips(s[..last], i, p);
      assert RemovedAt(s, i)[..last - 1] == RemovedAt(s[..last], i);
    } else {
      assert RemovedAt(s, i) == s[..last];
    }
  }

  /** `r` consists of the accepted elements of `s`, all of them, in order: `at` lists their positions. */
  ghost predicate ComesFrom<T(!new)>(r: seq<T>, s: seq<T>, p: T -> bool, at: seq<nat>) {
    && |at| == |r|
    && (forall j :: 0 <= j < |at| ==> at[j] < |s| && p(s[at[j]]) && r[j] == s[at[j]])
    && (forall j, k :: 0 <= j < k < |at| ==> at[j] < at[k])
    && (forall i :: 0 <= i < |s| && p(s[i]) ==> exists j :: 0 <= j < |at| && at[j] == i)
  }

  function KeptPositions<T>(s: seq<T>, p: T -> bool): seq<nat> {
    if s == [] then []
    else KeptPositions(s[..|s| - 1], p) + if p(s[|s| - 1]) then [|s| - 1] else []
  }

  lemma {:induction false} KeepInFull<T(!new)>(s: seq<T>, p: T -> bool)
    ensures ComesFrom(Keep(s, p), s, p, KeptPositions(s, p))
  {
    if s != [] {
      var last := |s| - 1;
      KeepInFull(s[..last], p);
      var before, at := KeptPositions(s[..last], p), KeptPositions(s, p);
      forall i | 0 <= i < |s| && p(s[i]) ensures exists j :: 0 <= j < |at| && at[j] == i {
        if i < last {
          assert p(s[..last][i]);
          var j :| 0 <= j < |before| && before[j] == i;
          assert at[j] == i;
        } else {
          assert at[|before|] == i;
        }
      }
    }
  }
}
