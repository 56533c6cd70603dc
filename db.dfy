/** services/db.ts: the IndexedDB database `ProHeadshotDB` (version 3) with
    its three object stores, each modelled as a map from key to record. */
module Db {
  import opened Types

  // ---------------------------------------------------------------------
  // Key order

  /** IndexedDB's order on string keys: compare code unit by code unit, a
      proper prefix coming first. */
  predicate KeyLess(a: string, b: string) {
    if |a| == 0 then |b| > 0
    else if |b| == 0 then false
    else if a[0] != b[0] then a[0] < b[0]
    else KeyLess(a[1..], b[1..])
  }

  lemma {:induction false} KeyLessIrreflexive(a: string)
    ensures !KeyLess(a, a)
  {
    if |a| > 0 {
      KeyLessIrreflexive(a[1..]);
    }
  }

  lemma {:induction false} KeyLessTransitive(a: string, b: string, c: string)
    requires KeyLess(a, b) && KeyLess(b, c)
    ensures KeyLess(a, c)
  {
    if |a| > 0 && a[0] == b[0] && b[0] == c[0] {
      KeyLessTransitive(a[1..], b[1..], c[1..]);
    }
  }

  lemma {:induction false} KeyLessTotal(a: string, b: string)
    requires a != b
    ensures KeyLess(a, b) || KeyLess(b, a)
  {
    if |a| > 0 && |b| > 0 && a[0] == b[0] {
      assert a == [a[0]] + a[1..] && b == [b[0]] + b[1..];
      KeyLessTotal(a[1..], b[1..]);
    }
  }

  /** Every non-empty finite set of keys has a greatest key. */
  lemma {:induction false} GreatestKeyExists(keys: set<string>)
    requires keys != {}
    ensures exists k :: k in keys && forall k' :: k' in keys && k' != k ==> KeyLess(k', k)
    decreases |keys|
  {
    var x :| x in keys;
    var rest := keys - {x};
    if rest == {} {
      assert keys == {x};
    } else {
      GreatestKeyExists(rest);
      var m :| m in rest && forall k' :: k' in rest && k' != m ==> KeyLess(k', m);
      KeyLessTotal(x, m);
      if KeyLess(x, m) {
        assert forall k' :: k' in keys && k' != m ==> KeyLess(k', m);
      } else {
        forall k' | k' in keys && k' != x
          ensures KeyLess(k', x)
        {
          if k' != m {
            KeyLessTransitive(k', m, x);
          }
        }
      }
    }
  }

  // ---------------------------------------------------------------------
  // The project store's `getAll`

  /** The projects stored under keys below `bound`, in ascending key order:
      what `getAll` yields when every key is below `bound`. */
  function ByAscendingKey(m: map<nat, Project>, bound: nat): seq<Project> {
    if bound == 0 then []
    else ByAscendingKey(m, bound - 1) + (if bound - 1 in m then [m[bound - 1]] else [])
  }

  function Reverse<T>(s: seq<T>): (r: seq<T>)
    ensures |r| == |s| && forall i :: 0 <= i < |s| ==> r[i] == s[|s| - 1 - i]
  {
    if s == [] then [] else Reverse(s[1..]) + [s[0]]
  }

  /** The record stored under each key carries that key as its id. */
  ghost predicate KeysAsIds(m: map<nat, Project>) {
    forall k :: k in m ==> m[k].id == Some(k)
  }

  /** `getAll` lists exactly the stored projects below the bound, with their
      ids strictly ascending. */
  lemma {:induction false} ByAscendingKeyOrdered(m: map<nat, Project>, bound: nat)
    requires KeysAsIds(m)
    ensures forall p :: p in ByAscendingKey(m, bound) <==> exists k :: k in m && k < bound && m[k] == p
    ensures forall i :: 0 <= i < |ByAscendingKey(m, bound)| ==>
              ByAscendingKey(m, bound)[i].id.Some? && ByAscendingKey(m, bound)[i].id.value < bound
    ensures forall i, j :: 0 <= i < j < |ByAscendingKey(m, bound)| ==>
              ByAscendingKey(m, bound)[i].id.value < ByAscendingKey(m, bound)[j].id.value
  {
    if bound > 0 {
      ByAscendingKeyOrdered(m, bound - 1);
    }
  }

  /** Every project has an id, and the ids strictly decrease along the list. */
  predicate NewestFirst(ps: seq<Project>) {
    forall i, j :: 0 <= i < j < |ps| ==> ps[i].id.Some? && ps[j].id.Some? && ps[i].id.value > ps[j].id.value
  }

  /** The reversed `getAll`: exactly the stored projects below the bound,
      ids strictly descending. */
  lemma NewestFirstListing(m: map<nat, Project>, bound: nat, ps: seq<Project>)
    requires KeysAsIds(m) && forall k :: k in m ==> k < bound
    requires ps == Reverse(ByAscendingKey(m, bound))
    ensures forall p :: p in ps <==> p in m.Values
    ensures NewestFirst(ps)
  {
    var all := ByAscendingKey(m, bound);
    ByAscendingKeyOrdered(m, bound);
    forall p ensures p in ps <==> p in m.Values {
      if p in ps {
        var i :| 0 <= i < |ps| && ps[i] == p;
        assert all[|all| - 1 - i] == p;
      }
      if p in all {
        var i :| 0 <= i < |all| && all[i] == p;
        assert ps[|all| - 1 - i] == p;
      }
      if p in m.Values {
        var k :| k in m && m[k] == p;
        assert k < bound;
      }
    }
  }

  /** Adding a record under a key above every stored key appends it to `getAll`. */
  lemma {:induction false} ByAscendingKeyAppend(m: map<nat, Project>, bound: nat, p: Project)
    requires forall k :: k in m ==> k < bound
    ensures ByAscendingKey(m[bound := p], bound + 1) == ByAscendingKey(m, bound) + [p]
  {
    ByAscendingKeyUnaffected(m, bound, bound, p);
  }

  /** Keys at or above `bound` do not affect `getAll` below it. */
  lemma {:induction false} ByAscendingKeyUnaffected(m: map<nat, Project>, bound: nat, key: nat, p: Project)
    requires bound <= key
    ensures ByAscendingKey(m[key := p], bound) == ByAscendingKey(m, bound)
  {
    if bound > 0 {
      ByAscendingKeyUnaffected(m, bound - 1, key, p);
    }
  }

  /** Removing a key drops exactly one record from `getAll` when the key
      was stored below the bound, and leaves the listing as it was
      otherwise. */
  lemma {:induction false} ByAscendingKeyRemove(m: map<nat, Project>, bound: nat, key: nat)
    ensures |ByAscendingKey(m - {key}, bound)| == |ByAscendingKey(m, bound)| - (if key in m && key < bound then 1 else 0)
    ensures key !in m || bound <= key ==> ByAscendingKey(m - {key}, bound) == ByAscendingKey(m, bound)
  {
    if bound > 0 {
      ByAscendingKeyRemove(m, bound - 1, key);
    }
  }

  /** After `deleteProject`, `getProjects` no longer lists the deleted
      project and is one entry shorter. */
  lemma DeletedProjectNotListed(m: map<nat, Project>, bound: nat, key: nat)
    requires KeysAsIds(m) && forall k :: k in m ==> k < bound
    requires key in m
    ensures m[key] !in Reverse(ByAscendingKey(m - {key}, bound))
    ensures |Reverse(ByAscendingKey(m - {key}, bound))| == |Reverse(ByAscendingKey(m, bound))| - 1
  {
    NewestFirstListing(m - {key}, bound, Reverse(ByAscendingKey(m - {key}, bound)));
    ByAscendingKeyRemove(m, bound, key);
    assert m[key] !in (m - {key}).Values;
  }

  // ---------------------------------------------------------------------
  // The database

  const UserKey := "user"

  /** The profile created on the first visit: two free credits. */
  const DefaultProfile := UserProfile(UserKey, 2, false, Some(false), None)

  class Database {
    /** The `projects` store: key path `id`, auto-increment. */
    var projects: map<nat, Project>
    /** The store's key generator: the key the next `add` receives. */
    var nextProjectKey: nat
    /** The `presets` store: key path `id`. */
    var presets: map<string, CustomPreset>
    /** The `user_profile` store: key path `id`. */
    var profiles: map<string, UserProfile>

    ghost predicate Valid()
      reads this
    {
      && 1 <= nextProjectKey
      && (forall k :: k in projects ==> 1 <= k < nextProjectKey)
      && KeysAsIds(projects)
      && (forall k :: k in presets ==> presets[k].id == k)
      && (forall k :: k in profiles ==> profiles[k].id == k)
    }

    /** A freshly created database: empty stores, key generator at 1. */
    constructor ()
      ensures Valid()
      ensures projects == map[] && nextProjectKey == 1
      ensures presets == map[] && profiles == map[]
    {
      projects, nextProjectKey := map[], 1;
      presets, profiles := map[], map[];
    }

    /** `saveProject`: `add` under a fresh key, which it returns. */
    method SaveProject(p: Project) returns (id: nat)
      requires Valid() && p.id.None?
      modifies this
      ensures Valid()
      ensures id == old(nextProjectKey) && id !in old(projects)
      ensures projects == old(projects)[id := p.(id := Some(id))]
      ensures nextProjectKey == id + 1
      ensures presets == old(presets) && profiles == old(profiles)
    {
      id := nextProjectKey;
      projects := projects[id := p.(id := Some(id))];
      nextProjectKey := nextProjectKey + 1;
    }

    /** What `getAll` returns on the project store. */
    function AllProjects(): seq<Project>
      reads this
    {
      ByAscendingKey(projects, nextProjectKey)
    }

    /** `getProjects`: the reversed `getAll`. Keys grow with every `add`, so
        this is newest first: exactly the stored projects, ids strictly
        descending. */
    method GetProjects() returns (ps: seq<Project>)
      requires Valid()
      ensures ps == Reverse(AllProjects())
      ensures forall p :: p in ps <==> p in projects.Values
      ensures NewestFirst(ps)
    {
      ps := Reverse(ByAscendingKey(projects, nextProjectKey));
      NewestFirstListing(projects, nextProjectKey, ps);
    }

    /** `deleteProject`: remove the record under `id`, if any. */
    method DeleteProject(id: nat)
      requires Valid()
      modifies this
      ensures Valid()
      ensures projects == old(projects) - {id}
      ensures nextProjectKey == old(nextProjectKey)
      ensures presets == old(presets) && profiles == old(profiles)
    {
      projects := projects - {id};
    }

    /** `savePreset`: `put` under the preset's id, replacing any preset with
        that id. Returns the key. */
    method SavePreset(p: CustomPreset) returns (key: string)
      requires Valid()
      modifies this
      ensures Valid()
      ensures key == p.id
      ensures presets == old(presets)[p.id := p]
      ensures projects == old(projects) && nextProjectKey == old(nextProjectKey) && profiles == old(profiles)
    {
      presets := presets[p.id := p];
      key := p.id;
    }

    /** `getPresets`: `getAll` lists the presets by ascending key and the
        result is reversed, so the presets come by DESCENDING id. The ids are
        random, so this is not the order in which they were saved. */
    method GetPresets() returns (ps: seq<CustomPreset>)
      requires Valid()
      ensures forall i :: 0 <= i < |ps| ==> ps[i].id in presets && presets[ps[i].id] == ps[i]
      ensures forall k :: k in presets ==> exists i :: 0 <= i < |ps| && ps[i].id == k
      ensures forall i, j :: 0 <= i < j < |ps| ==> KeyLess(ps[j].id, ps[i].id)
    {
      ps := [];
      var remaining := presets.Keys;
      while remaining != {}
        invariant remaining <= presets.Keys
        invariant forall i :: 0 <= i < |ps| ==> ps[i].id in presets && presets[ps[i].id] == ps[i] && ps[i].id !in remaining
        invariant forall k :: k in presets ==> k in remaining || exists i :: 0 <= i < |ps| && ps[i].id == k
        invariant forall i, j :: 0 <= i < j < |ps| ==> KeyLess(ps[j].id, ps[i].id)
        invariant forall i, k :: 0 <= i < |ps| && k in remaining ==> KeyLess(k, ps[i].id)
        decreases remaining
      {
        GreatestKeyExists(remaining);
        var k :| k in remaining && forall k' :: k' in remaining && k' != k ==> KeyLess(k', k);
        ghost var before := ps;
        ghost var pool := remaining;
        ps := ps + [presets[k]];
        remaining := remaining - {k};
        forall i, j | 0 <= i < j < |ps|
          ensures KeyLess(ps[j].id, ps[i].id)
        {
          if j == |before| {
            assert ps[j].id == k && k in pool && ps[i] == before[i];
          } else {
            assert ps[i] == before[i] && ps[j] == before[j];
          }
        }
        forall i, k' | 0 <= i < |ps| && k' in remaining
          ensures KeyLess(k', ps[i].id)
        {
          if i == |before| {
            assert ps[i].id == k && k' in pool && k' != k;
          } else {
            assert ps[i] == before[i] && k' in pool;
          }
        }
        forall k' | k' in presets && k' !in remaining
          ensures exists i :: 0 <= i < |ps| && ps[i].id == k'
        {
          if k' == k {
            assert ps[|before|].id == k';
          } else {
            var i :| 0 <= i < |before| && before[i].id == k';
            assert ps[i].id == k';
          }
        }
      }
    }

    /** `getUserProfile`: the stored profile, or on a miss the default
        profile, which is stored as well. */
    method GetUserProfile() returns (p: UserProfile)
      requires Valid()
      modifies this
      ensures Valid()
      ensures old(UserKey in profiles) ==> p == old(profiles[UserKey]) && profiles == old(profiles)
      ensures old(UserKey !in profiles) ==> p == DefaultProfile && profiles == old(profiles)[UserKey := DefaultProfile]
      ensures UserKey in profiles && profiles[UserKey] == p
      ensures projects == old(projects) && nextProjectKey == old(nextProjectKey) && presets == old(presets)
    {
      if UserKey in profiles {
        p := profiles[UserKey];
      } else {
        p := DefaultProfile;
        profiles := profiles[UserKey := p];
      }
    }

    /** `updateUserProfile`: `put` under the profile's id. */
    method UpdateUserProfile(p: UserProfile)
      requires Valid()
      modifies this
      ensures Valid()
      ensures profiles == old(profiles)[p.id := p]
      ensures projects == old(projects) && nextProjectKey == old(nextProjectKey) && presets == old(presets)
    {
      profiles := profiles[p.id := p];
    }
  }

  /** After `saveProject`, `getProjects` lists the new project first,
      followed by the earlier list. */
  lemma NewestProjectFirst(m: map<nat, Project>, next: nat, p: Project)
    requires forall k :: k in m ==> k < next
    ensures Reverse(ByAscendingKey(m[next := p], next + 1)) == [p] + Reverse(ByAscendingKey(m, next))
  {
    ByAscendingKeyAppend(m, next, p);
    var s := ByAscendingKey(m, next);
    assert forall i :: 0 <= i < |s| + 1 ==> Reverse(s + [p])[i] == ([p] + Reverse(s))[i];
  }
}
