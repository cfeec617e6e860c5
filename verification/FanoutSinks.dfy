/** The fanout that lets several sinks consume one source. Each method is one critical section. */
module FanoutSinks {
  import opened VideoFrames
  import opened TeeProtocol

  predicate Distinct(s: seq<nat>) {
    forall i, j :: 0 <= i < j < |s| ==> s[i] != s[j]
  }

  lemma WithDistinct(s: seq<nat>, x: nat)
    requires Distinct(s)
    ensures Distinct(With(s, x))
  {
  }

  /** Removing keeps the others in their order. */
  lemma {:induction false} WithoutAppend(s: seq<nat>, y: nat, x: nat)
    ensures Without(s + [y], x) == if y == x then Without(s, x) else Without(s, x) + [y]
  {
    assert (s + [y])[..|s|] == s;
  }

  lemma {:induction false} WithoutDistinct(s: seq<nat>, x: nat)
    requires Distinct(s)
    ensures Distinct(Without(s, x))
    ensures x !in s ==> Without(s, x) == s
  {
    if |s| > 0 {
      var init, last := s[..|s| - 1], s[|s| - 1];
      WithoutDistinct(init, x);
      assert s == init + [last];
      WithoutAppend(init, last, x);
      assert last !in init;
    }
  }

  /** Attaching a new sink and detaching it leaves the fanout as it was, in the same order. */
  lemma AddThenRemove(s: seq<nat>, x: nat)
    requires Distinct(s) && x !in s
    ensures Without(With(s, x), x) == s
  {
    WithoutAppend(s, x, x);
    WithoutDistinct(s, x);
  }

  class FanoutSink {
    var sinks: seq<nat>
    /** Every call made into a sink, oldest first. */
    ghost var calls: seq<(nat, VideoFrame)>

    ghost predicate Valid()
      reads this
    {
      Distinct(sinks)
    }

    constructor ()
      ensures Valid() && sinks == [] && calls == []
    {
      sinks, calls := [], [];
    }

    method Contains(x: nat) returns (found: bool)
      ensures found <==> x in sinks
    {
      var i := 0;
      while i < |sinks|
        invariant i <= |sinks| && x !in sinks[..i]
      {
        if sinks[i] == x {
          return true;
        }
        i := i + 1;
      }
      return false;
    }

    method Add(x: nat)
      requires Valid()
      modifies this`sinks
      ensures Valid() && sinks == With(old(sinks), x)
    {
      WithDistinct(sinks, x);
      var found := Contains(x);
      if !found {
        sinks := sinks + [x];
      }
    }

    method Remove(x: nat)
      requires Valid()
      modifies this`sinks
      ensures Valid() && sinks == Without(old(sinks), x)
    {
      WithoutDistinct(sinks, x);
      ghost var before := sinks;
      var kept := [];
      var i := 0;
      assert sinks[..0] == [];
      while i < |sinks|
        invariant sinks == before && i <= |sinks| && kept == Without(sinks[..i], x)
      {
        assert sinks[..i + 1] == sinks[..i] + [sinks[i]];
        WithoutAppend(sinks[..i], sinks[i], x);
        if sinks[i] != x {
          kept := kept + [sinks[i]];
        }
        i := i + 1;
      }
      assert sinks[..|sinks|] == sinks;
      sinks := kept;
    }

    /** Every registered sink gets the frame, once, in order of registration. */
    method OnFrame(f: VideoFrame)
      requires Valid()
      modifies this`calls
      ensures |calls| == |old(calls)| + |sinks| && calls[..|old(calls)|] == old(calls)
      ensures forall k :: 0 <= k < |sinks| ==> calls[|old(calls)| + k] == (sinks[k], f)
      ensures forall i, j :: |old(calls)| <= i < j < |calls| ==> calls[i].0 != calls[j].0
    {
      var i := 0;
      while i < |sinks|
        invariant i <= |sinks| && |calls| == |old(calls)| + i && calls[..|old(calls)|] == old(calls)
        invariant forall k :: 0 <= k < i ==> calls[|old(calls)| + k] == (sinks[k], f)
      {
        calls := calls + [(sinks[i], f)];
        i := i + 1;
      }
      assert forall i :: |old(calls)| <= i < |calls| ==> calls[i] == (sinks[i - |old(calls)|], f);
    }
  }
}
