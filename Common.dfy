/** Values shared by every component: optional values, 3-D points and the
    clamping helpers of Unity's Mathf that the game code uses. Floats are
    modelled as reals. */
module Common {

  datatype Option<T> = None | Some(value: T)

  /** A world position; the core never computes with it, it only stores and
      forwards it (distances are inputs). */
  datatype Vec3 = Vec3(x: real, y: real, z: real)

  /** Mathf.Clamp: below `lo` gives `lo`, above `hi` gives `hi`, otherwise unchanged. */
  function Clamp(v: real, lo: real, hi: real): (r: real)
    requires lo <= hi
    ensures lo <= r <= hi
    ensures lo <= v <= hi ==> r == v
    ensures v < lo ==> r == lo
    ensures v > hi ==> r == hi
  {
    if v < lo then lo else if v > hi then hi else v
  }

  /** Mathf.Clamp01. */
  function Clamp01(v: real): (r: real)
    ensures 0.0 <= r <= 1.0
    ensures 0.0 <= v <= 1.0 ==> r == v
    ensures v <= 0.0 ==> r == 0.0
    ensures v >= 1.0 ==> r == 1.0
  {
    Clamp(v, 0.0, 1.0)
  }

  function Max(a: real, b: real): (r: real)
    ensures r >= a && r >= b && (r == a || r == b)
  {
    if a >= b then a else b
  }

  function Min(a: real, b: real): (r: real)
    ensures r <= a && r <= b && (r == a || r == b)
  {
    if a <= b then a else b
  }

  /** The first index whose distance is minimal: no distance is smaller,
      and every earlier one is strictly larger. */
  predicate IsFirstNearest(dists: seq<real>, k: nat)
  {
    k < |dists|
    && (forall j :: 0 <= j < |dists| ==> dists[k] <= dists[j])
    && (forall j :: 0 <= j < k ==> dists[j] > dists[k])
  }

  /** The forward scan that keeps a candidate and replaces it only by a
      strictly smaller distance. */
  function FirstNearest(dists: seq<real>): (k: nat)
    requires |dists| > 0
    ensures IsFirstNearest(dists, k)
  {
    if |dists| == 1 then 0
    else
      var k := FirstNearest(dists[..|dists| - 1]);
      if dists[|dists| - 1] < dists[k] then |dists| - 1 else k
  }

  /** There is only one first nearest index, so the scan finds it. */
  lemma FirstNearestUnique(dists: seq<real>, k: nat)
    requires IsFirstNearest(dists, k)
    ensures k == FirstNearest(dists)
  {
  }

  /** List.Remove: the first occurrence of `x` is removed; without one the
      list is unchanged. */
  function RemoveFirst<T(==)>(s: seq<T>, x: T): (r: seq<T>)
    ensures x in s ==> |r| == |s| - 1 && multiset(r) == multiset(s) - multiset{x}
    ensures x !in s ==> r == s
  {
    if s == [] then []
    else
      assert s == [s[0]] + s[1..];
      if s[0] == x then s[1..]
      else [s[0]] + RemoveFirst(s[1..], x)
  }

  /** Mathf.Max(0, x) on integers: the non-negative part of `x`. */
  function PositivePart(x: int): (r: nat)
    ensures r >= x
    ensures x >= 0 ==> r == x
    ensures x < 0 ==> r == 0
  {
    if x < 0 then 0 else x
  }
}

/** The navigation collaborator (Unity's NavMeshAgent) as far as the behaviour
    states write it: the stop flag, the speed and the last requested
    destination. Path state (pending, remaining distance, on-mesh) is read by
    the states and is passed to them as inputs. */
module Navigation {
  import opened Common

  class NavAgent {
    var isStopped: bool
    var speed: real
    var destination: Option<Vec3>

    constructor ()
      ensures !isStopped && speed == 0.0 && destination == None
    {
      isStopped := false;
      speed := 0.0;
      destination := None;
    }

    /** The three settings the states write. */
    function State(): Motion
      reads this
    {
      Motion(isStopped, speed, destination)
    }
  }

  /** A snapshot of what the states write on the agent. */
  datatype Motion = Motion(stopped: bool, speed: real, destination: Option<Vec3>)
}

/** The two string operations the game applies to goods labels:
    lower-casing and substring search. */
module Text {

  /** char.ToLower for the letters the labels use: Latin A–Z, Cyrillic А–Я and Ё. */
  function LowerChar(c: char): (r: char)
    ensures 'A' <= c <= 'Z' ==> r as int == c as int + 32
    ensures 'А' <= c <= 'Я' ==> r as int == c as int + 32
    ensures c == 'Ё' ==> r == 'ё'
    ensures !('A' <= c <= 'Z' || 'А' <= c <= 'Я' || c == 'Ё') ==> r == c
  {
    if 'A' <= c <= 'Z' then (c as int + 32) as char
    else if 'А' <= c <= 'Я' then (c as int + 32) as char
    else if c == 'Ё' then 'ё'
    else c
  }

  /** string.ToLower, letter by letter. */
  function ToLower(s: string): (r: string)
    ensures |r| == |s|
    ensures forall i :: 0 <= i < |s| ==> r[i] == LowerChar(s[i])
  {
    if s == [] then [] else [LowerChar(s[0])] + ToLower(s[1..])
  }

  /** Whether `w` occurs in `s` starting at position `i`. */
  predicate OccursAt(s: string, w: string, i: nat)
  {
    i + |w| <= |s| && s[i..i + |w|] == w
  }

  /** Whether `w` occurs at some position at or after `from`, scanning forward. */
  function FindFrom(s: string, w: string, from: nat): (r: bool)
    requires from <= |s| + 1
    ensures r <==> exists i :: from <= i <= |s| && OccursAt(s, w, i)
    decreases |s| + 1 - from
  {
    if from > |s| then false
    else if OccursAt(s, w, from) then true
    else FindFrom(s, w, from + 1)
  }

  /** `w` does not occur in `s` when every window differs from it in its
      first or last letter. */
  lemma AbsentByEnds(s: string, w: string)
    requires w != []
    requires forall i :: 0 <= i && i + |w| <= |s| ==> s[i] != w[0] || s[i + |w| - 1] != w[|w| - 1]
    ensures !Contains(s, w)
  {
    forall i | 0 <= i <= |s|
      ensures !OccursAt(s, w, i)
    {
      if i + |w| <= |s| {
        assert s[i..i + |w|][0] == s[i] && s[i..i + |w|][|w| - 1] == s[i + |w| - 1];
      }
    }
  }

  /** string.Contains (ordinal). */
  function Contains(s: string, w: string): (r: bool)
    ensures r <==> exists i :: 0 <= i <= |s| && OccursAt(s, w, i)
  {
    FindFrom(s, w, 0)
  }
}

/** Calls made on the component-style state-machine API that some
    controllers expect (ResetToFirstState, SetPatrolDestination). The
    runtime in module Fsm does not define them, so only the request is
    recorded. */
module MachineRequests {
  import opened Common

  datatype MachineRequest = ResetToFirstState | SetPatrolDestination(point: Vec3)
}
