/** The in-memory profile store: a keyed table seeded with three rows and an id counter
    that doubles on every create. */
module Repository {
  import opened Wrappers
  import opened Errors
  import opened Profiles

  /** The counter after n creates: the seed value 3, doubled n times (6, 12, 24, ...). */
  function IdAfter(n: nat): int
  {
    if n == 0 then 3 else IdAfter(n - 1) + IdAfter(n - 1)
  }

  lemma {:induction false} IdAfterAtLeastSeed(n: nat)
    ensures IdAfter(n) >= 3
  {
    if n > 0 {
      IdAfterAtLeastSeed(n - 1);
    }
  }

  /** Each create hands out a larger id than every create before it. */
  lemma {:induction false} IdAfterIncreasing(i: nat, j: nat)
    requires i < j
    ensures IdAfter(i) < IdAfter(j)
  {
    IdAfterAtLeastSeed(j - 1);
    if i < j - 1 {
      IdAfterIncreasing(i, j - 1);
    }
  }

  /** The first three ids create hands out. */
  lemma FirstCreatedIds()
    ensures IdAfter(1) == 6 && IdAfter(2) == 12 && IdAfter(3) == 24
  {
  }

  /** The values of a map, each counted once per key that holds it. */
  ghost function Values<K, V>(m: map<K, V>): multiset<V>
    decreases |m|
  {
    if m == map[] then multiset{}
    else
      var k :| k in m;
      Values(m - {k}) + multiset{m[k]}
  }

  /** Removing any one key takes exactly its value out of Values. */
  lemma {:induction false} ValuesRemove<K, V>(m: map<K, V>, k: K)
    requires k in m
    ensures Values(m) == Values(m - {k}) + multiset{m[k]}
    decreases |m|
  {
    var j :| j in m && Values(m) == Values(m - {j}) + multiset{m[j]};
    if j != k {
      assert (m - {j}) - {k} == (m - {k}) - {j};
      ValuesRemove(m - {j}, k);
      ValuesRemove(m - {k}, j);
    }
  }

  /** Values has one element per key. */
  lemma {:induction false} ValuesSize<K, V>(m: map<K, V>)
    ensures |Values(m)| == |m|
    decreases |m|
  {
    if m != map[] {
      var k :| k in m;
      ValuesRemove(m, k);
      ValuesSize(m - {k});
    }
  }

  /** Something occurs in Values exactly when some key holds it. */
  lemma {:induction false} ValuesMembership<K, V>(m: map<K, V>, v: V)
    ensures v in Values(m) <==> v in m.Values
    decreases |m|
  {
    if m != map[] {
      var k :| k in m;
      ValuesRemove(m, k);
      ValuesMembership(m - {k}, v);
      if v in (m - {k}).Values {
        var j :| j in m - {k} && (m - {k})[j] == v;
        assert m[j] == v;
      }
      if v in m.Values && v != m[k] {
        var j :| j in m && m[j] == v;
        assert j in m - {k};
      }
    }
  }

  class ProfileRepositoryStub {
    var profiles: map<int, Profile>
    var idIndex: int
    /** How many creates have run; only for the specification. */
    ghost var creates: nat

    /** Every key is a seed id or an id handed out so far, so none exceeds the counter,
        and the counter is the seed value doubled once per create. */
    ghost predicate Valid()
      reads this
    {
      && idIndex == IdAfter(creates)
      && forall k :: k in profiles ==> 1 <= k <= idIndex
    }

    /** No object is stored under two keys. */
    ghost predicate Unaliased()
      reads this
    {
      forall j, k :: j in profiles && k in profiles && j != k ==> profiles[j] != profiles[k]
    }

    /** The table as values: each key with the current fields of the object it holds. */
    ghost function Rows(): (rows: map<int, ProfileData>)
      reads this, profiles.Values
      ensures rows.Keys == profiles.Keys
    {
      map k | k in profiles :: profiles[k].Data()
    }

    /** The static initialiser: rows 1, 2 and 3 (Bob, Alice, Eve) and the counter at 3. */
    constructor ()
      ensures Valid() && Unaliased() && creates == 0 && idIndex == 3
      ensures Rows() == map[
        1 := ProfileData(Some(1), Some("Bob"), Some("bob@secure.com")),
        2 := ProfileData(Some(2), Some("Alice"), Some("alice@secure.com")),
        3 := ProfileData(Some(3), Some("Eve"), Some("eve@hacker.com"))]
      ensures forall k :: k in profiles ==> fresh(profiles[k])
    {
      var a := new Profile(Some(1), Some("Bob"), Some("bob@secure.com"));
      var b := new Profile(Some(2), Some("Alice"), Some("alice@secure.com"));
      var c := new Profile(Some(3), Some("Eve"), Some("eve@hacker.com"));
      profiles := map[1 := a, 2 := b, 3 := c];
      idIndex := 3;
      creates := 0;
    }

    /** Every stored profile once per key holding it, in no particular order. */
    method List() returns (r: seq<Profile>)
      ensures multiset(r) == Values(profiles)
      ensures |r| == |profiles|
      ensures forall p :: p in r <==> p in profiles.Values
    {
      r := [];
      var rest := profiles;
      while rest != map[]
        invariant multiset(r) + Values(rest) == Values(profiles)
        decreases |rest|
      {
        if forall j :: j !in rest {
          assert false;  // rest is not empty
        }
        var k :| k in rest;
        ValuesRemove(rest, k);
        r := r + [rest[k]];
        rest := rest - {k};
      }
      ValuesSize(profiles);
      forall p
        ensures p in r <==> p in profiles.Values
      {
        ValuesMembership(profiles, p);
      }
    }

    /** Doubles the counter, gives p the new value as its id and stores p under it. The
        new id is larger than every key, so no row is overwritten. */
    method Create(p: Profile) returns (r: Profile)
      requires Valid()
      modifies this, p
      ensures Valid() && creates == old(creates) + 1
      ensures idIndex == 2 * old(idIndex) && idIndex !in old(profiles)
      ensures r == p && p.GetId() == Some(idIndex)
      ensures p.GetName() == old(p.GetName()) && p.GetEmail() == old(p.GetEmail())
      ensures profiles == old(profiles)[idIndex := p]
      ensures old(Unaliased()) && p !in old(profiles.Values) ==>
                Unaliased() && Rows() == old(Rows())[idIndex := p.Data()]
    {
      IdAfterAtLeastSeed(creates);
      idIndex := idIndex + idIndex;
      creates := creates + 1;
      p.SetId(Some(idIndex));
      profiles := profiles[idIndex := p];
      r := p;
    }

    /** The profile stored under id, or None (Java's null) when there is none. */
    method Get(id: int) returns (r: Option<Profile>)
      ensures r.Some? <==> id in profiles
      ensures r.Some? ==> r.value == profiles[id]
    {
      if id in profiles {
        r := Some(profiles[id]);
      } else {
        r := None;
      }
    }

    /** Overwrites, in the stored object, the name and the email that p provides (non-null)
        and keeps the others; fails on a missing id. The map itself is left as it was: the
        source re-inserts the same object under the same key. */
    method Update(id: int, p: Profile) returns (r: Result<Profile, Error>)
      requires Valid()
      modifies if id in profiles then {profiles[id]} else {}
      ensures profiles == old(profiles) && idIndex == old(idIndex) && Valid()
      ensures id !in profiles ==> r == Failure(CannotFindProfile(id))
      ensures id in profiles ==> r == Success(profiles[id])
      ensures id in profiles ==>
                && profiles[id].GetId() == old(profiles[id].GetId())
                && profiles[id].GetName() == (if old(p.GetName()).Some? then old(p.GetName()) else old(profiles[id].GetName()))
                && profiles[id].GetEmail() == (if old(p.GetEmail()).Some? then old(p.GetEmail()) else old(profiles[id].GetEmail()))
      ensures id in profiles && old(Unaliased()) ==>
                Rows() == old(Rows())[id := profiles[id].Data()]
    {
      if id !in profiles {
        return Failure(CannotFindProfile(id));
      }
      var persisted := profiles[id];
      if p.GetName().Some? {
        persisted.SetName(p.GetName());
      }
      if p.GetEmail().Some? {
        persisted.SetEmail(p.GetEmail());
      }
      r := Success(persisted);
      if old(Unaliased()) {
        forall k | k in profiles
          ensures Rows()[k] == old(Rows())[id := persisted.Data()][k]
        {
          if k != id {
            assert profiles[k] != persisted;
          }
        }
      }
    }

    /** Removes the row under id and returns it; fails on a missing id. The counter is
        untouched, so a deleted id is never handed out again. */
    method Delete(id: int) returns (r: Result<Profile, Error>)
      requires Valid()
      modifies this`profiles
      ensures Valid() && idIndex == old(idIndex)
      ensures id !in old(profiles) ==> r == Failure(CannotFindProfile(id)) && profiles == old(profiles)
      ensures id in old(profiles) ==> r == Success(old(profiles)[id]) && profiles == old(profiles) - {id}
      ensures Rows() == old(Rows()) - {id}
      ensures old(Unaliased()) ==> Unaliased()
    {
      if id !in profiles {
        return Failure(CannotFindProfile(id));
      }
      r := Success(profiles[id]);
      profiles := profiles - {id};
    }
  }
}
