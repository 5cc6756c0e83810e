/** Ascending enumeration of a finite set of integers: `sorted(held_pitches)`
    in the synth's arpeggiator. */
module SortedSets {

  ghost predicate StrictlyIncreasing(r: seq<int>)
  {
    forall i, j :: 0 <= i < j < |r| ==> r[i] < r[j]
  }

  /** A set different from the empty set has a member. */
  lemma NonEmptyHasElement(s: set<int>)
    requires s != {}
    ensures exists x :: x in s
  {
    if forall y :: y !in s {
      assert false;
    }
  }

  /** `m` is the least element of `s`. */
  predicate IsMinOf(m: int, s: set<int>)
  {
    m in s && forall q :: q in s ==> m <= q
  }

  lemma {:induction false} SetHasMin(s: set<int>)
    requires s != {}
    ensures exists m :: IsMinOf(m, s)
    decreases |s|
  {
    NonEmptyHasElement(s);
    var x :| x in s;
    var rest := s - {x};
    if rest == {} {
      forall q | q in s ensures x <= q {
        assert q == x || q in rest;
      }
      assert IsMinOf(x, s);
    } else {
      SetHasMin(rest);
      var m :| IsMinOf(m, rest);
      var best := if x < m then x else m;
      forall q | q in s ensures best <= q {
        assert q == x || q in rest;
      }
      assert IsMinOf(best, s);
    }
  }

  function SetMin(s: set<int>): (m: int)
    requires s != {}
    ensures m in s && forall q :: q in s ==> m <= q
  {
    SetHasMin(s);
    var m :| IsMinOf(m, s);
    m
  }

  /** `sorted(list(s))`: the elements of `s` in ascending order, each once. */
  function SortedSeq(s: set<int>): (r: seq<int>)
    ensures |r| == |s|
    ensures forall q :: q in r <==> q in s
    ensures StrictlyIncreasing(r)
    decreases |s|
  {
    if |s| == 0 then []
    else
      var m := SetMin(s);
      var t := SortedSeq(s - {m});
      assert forall j :: 0 <= j < |t| ==> m < t[j] by {
        forall j | 0 <= j < |t| ensures m < t[j] {
          assert t[j] in s - {m};
        }
      }
      [m] + t
  }

  /** The ascending enumeration is unique: any strictly increasing sequence with
      exactly the elements of `s` is `SortedSeq(s)`. */
  lemma {:induction false} SortedSeqUnique(s: set<int>, r: seq<int>)
    requires StrictlyIncreasing(r)
    requires forall q :: q in r <==> q in s
    ensures r == SortedSeq(s)
    decreases |r|
  {
    if r == [] {
      assert s == {};
    } else {
      assert r[0] in r;
      var m := SetMin(s);
      var j :| 0 <= j < |r| && r[j] == m;
      assert r[0] <= r[j];
      TailElems(s, r);
      SortedSeqUnique(s - {m}, r[1..]);
      assert r == [m] + r[1..];
    }
  }

  /** Without its first (least) element, a strictly increasing enumeration of
      `s` enumerates the rest of `s`. */
  lemma TailElems(s: set<int>, r: seq<int>)
    requires StrictlyIncreasing(r) && |r| > 0
    requires forall q :: q in r <==> q in s
    ensures StrictlyIncreasing(r[1..])
    ensures forall q :: q in r[1..] <==> q in s - {r[0]}
  {
    forall q ensures q in r[1..] <==> q in s - {r[0]} {
      if q in r[1..] {
        var j :| 0 <= j < |r| - 1 && r[1..][j] == q;
        assert r[0] < r[j + 1];
      }
      if q in s - {r[0]} {
        var j :| 0 <= j < |r| && r[j] == q;
        assert j != 0 && r[1..][j - 1] == q;
      }
    }
  }
}
