/** The JavaScript `Set<HeadshotStyle>` that both selection components keep:
    a collection without duplicates that remembers insertion order, which
    `Array.from` preserves. A set is modelled by the sequence of its elements
    in that order. */
module StyleSet {
  import opened Types

  predicate NoDuplicates(s: seq<HeadshotStyle>) {
    forall i, j :: 0 <= i < j < |s| ==> s[i] != s[j]
  }

  /** `set.delete(x)`: `x` leaves, the others keep their order. */
  function Delete(s: seq<HeadshotStyle>, x: HeadshotStyle): (r: seq<HeadshotStyle>)
    ensures forall y :: y in r <==> y in s && y != x
    ensures NoDuplicates(s) ==> NoDuplicates(r)
    ensures x !in s ==> r == s
  {
    if |s| == 0 then []
    else if s[0] == x then Delete(s[1..], x)
    else
      assert NoDuplicates(s) ==> s[0] !in s[1..] && NoDuplicates(s[1..]);
      [s[0]] + Delete(s[1..], x)
  }

  /** `set.add(x)`: `x` joins at the end unless it is already there. */
  function Add(s: seq<HeadshotStyle>, x: HeadshotStyle): (r: seq<HeadshotStyle>)
    ensures forall y :: y in r <==> y in s || y == x
    ensures NoDuplicates(s) ==> NoDuplicates(r)
  {
    if x in s then s else s + [x]
  }

  /** The body of both `toggleStyle` handlers: copy the set, then delete `x`
      if it is present and add it otherwise. */
  function Toggle(s: seq<HeadshotStyle>, x: HeadshotStyle): (r: seq<HeadshotStyle>)
    ensures x in r <==> x !in s
    ensures forall y :: y != x ==> (y in r <==> y in s)
    ensures NoDuplicates(s) ==> NoDuplicates(r)
  {
    if x in s then Delete(s, x) else Add(s, x)
  }

  /** Deleting the last element of a sequence that holds it once gives back the rest. */
  lemma {:induction false} DeleteAppended(s: seq<HeadshotStyle>, x: HeadshotStyle)
    requires x !in s
    ensures Delete(s + [x], x) == s
  {
    if |s| > 0 {
      assert (s + [x])[1..] == s[1..] + [x];
      DeleteAppended(s[1..], x);
    }
  }

  /** Toggling twice restores the membership of every element. When `x` was
      absent the sequence itself comes back; when it was present, `x` has
      moved to the end, because deleting and re-adding changes its place in
      the insertion order. */
  lemma ToggleTwice(s: seq<HeadshotStyle>, x: HeadshotStyle)
    ensures forall y :: y in Toggle(Toggle(s, x), x) <==> y in s
    ensures x !in s ==> Toggle(Toggle(s, x), x) == s
    ensures x in s ==> Toggle(Toggle(s, x), x) == Delete(s, x) + [x]
  {
    if x !in s {
      DeleteAppended(s, x);
    }
  }

  /** In a sequence without duplicates, toggling changes the size by one. */
  lemma {:induction false} DeleteSize(s: seq<HeadshotStyle>, x: HeadshotStyle)
    requires NoDuplicates(s) && x in s
    ensures |Delete(s, x)| == |s| - 1
  {
    if s[0] != x {
      DeleteSize(s[1..], x);
    } else {
      assert x !in s[1..];
    }
  }
}
