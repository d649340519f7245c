/**
 * The child-list edits a Group offers, on the list as a sequence: appending
 * (AddActor), inserting at a position (AddActorAt) and removing an actor
 * (RemoveActor, which takes out its first occurrence).
 */
module Groups {

  /** The position of the first occurrence of `x`. */
  function FirstIndex<T(==)>(s: seq<T>, x: T): (k: nat)
    requires x in s
    ensures k < |s| && s[k] == x && x !in s[..k]
  {
    if s[0] == x then 0
    else
      assert s == [s[0]] + s[1..];
      var k := FirstIndex(s[1..], x);
      assert s[..k + 1] == [s[0]] + s[1..][..k];
      k + 1
  }

  /** RemoveActor: the list without the first occurrence of `x`, the others in order. */
  function RemoveFirst<T(==)>(s: seq<T>, x: T): (r: seq<T>)
    ensures x !in s ==> r == s
    ensures x in s ==> |r| == |s| - 1 && r == s[..FirstIndex(s, x)] + s[FirstIndex(s, x) + 1..]
  {
    if s == [] then []
    else if s[0] == x then s[1..]
    else
      assert s == [s[0]] + s[1..];
      var r := [s[0]] + RemoveFirst(s[1..], x);
      if x in s[1..] then
        var k := FirstIndex(s[1..], x);
        assert s[..k + 1] == [s[0]] + s[1..][..k] && s[k + 2..] == s[1..][k + 1..];
        r
      else r
  }

  /** RemoveActor takes out exactly one occurrence of `x`, if any, and nothing else. */
  lemma {:induction false} RemoveFirstCount<T>(s: seq<T>, x: T)
    ensures multiset(RemoveFirst(s, x)) == multiset(s) - multiset{x}
  {
    if s != [] {
      assert s == [s[0]] + s[1..];
      if s[0] != x {
        RemoveFirstCount(s[1..], x);
      }
    }
  }

  /** Removing `x` from a list that starts with it leaves the rest untouched, in order. */
  lemma {:induction false} RemoveFirstOfFront<T>(x: T, rest: seq<T>)
    ensures RemoveFirst([x] + rest, x) == rest
  {
    assert ([x] + rest)[1..] == rest;
  }

  /** AddActorAt: `x` is placed at index `i`, everything else keeps its order. */
  function InsertAt<T>(s: seq<T>, x: T, i: nat): (r: seq<T>)
    requires i <= |s|
    ensures |r| == |s| + 1 && r[i] == x
    ensures r[..i] == s[..i] && r[i + 1..] == s[i..]
  {
    s[..i] + [x] + s[i..]
  }
}
