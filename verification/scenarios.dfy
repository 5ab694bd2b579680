/** Calls in sequence against the profile store, showing what its contracts give a caller. */
module Scenarios {
  import opened Wrappers
  import opened Errors
  import opened Profiles
  import opened Repository

  /** Two creates in a row hand out two ids that no row held before, the second larger. */
  method TwoCreates(repo: ProfileRepositoryStub, p: Profile, q: Profile) returns (first: int, second: int)
    requires repo.Valid()
    modifies repo, p, q
    ensures repo.Valid()
    ensures first < second
    ensures first !in old(repo.profiles) && second !in old(repo.profiles)
    ensures first in repo.profiles && second in repo.profiles
  {
    var a := repo.Create(p);
    first := a.GetId().value;
    IdAfterAtLeastSeed(repo.creates);
    var b := repo.Create(q);
    second := b.GetId().value;
  }

  /** Deleting the same id twice: the second call always fails. */
  method DeleteTwice(repo: ProfileRepositoryStub, id: int) returns (first: Result<Profile, Error>, second: Result<Profile, Error>)
    requires repo.Valid()
    modifies repo`profiles
    ensures first.Success? <==> id in old(repo.profiles)
    ensures second == Failure(CannotFindProfile(id))
    ensures id !in repo.profiles
  {
    first := repo.Delete(id);
    second := repo.Delete(id);
  }

  /** An update whose body carries only an email changes the email and keeps the name. */
  method UpdateEmailOnly(repo: ProfileRepositoryStub, id: int, email: string) returns (r: Result<Profile, Error>)
    requires repo.Valid() && id in repo.profiles
    modifies repo.profiles[id]
    ensures r.Success? && r.value == repo.profiles[id]
    ensures r.value.GetEmail() == Some(email)
    ensures r.value.GetName() == old(repo.profiles[id].GetName())
    ensures r.value.GetId() == old(repo.profiles[id].GetId())
  {
    var body := new Profile.Empty();
    body.SetEmail(Some(email));
    r := repo.Update(id, body);
  }

  /** A fresh store answers a lookup of id 1 with Bob and of id 4 with nothing. */
  method SeededLookups() returns (one: Option<Profile>, four: Option<Profile>)
    ensures one.Some? && one.value.GetName() == Some("Bob") && one.value.GetEmail() == Some("bob@secure.com")
    ensures four.None?
  {
    var repo := new ProfileRepositoryStub();
    assert repo.Rows()[1].name == Some("Bob");
    one := repo.Get(1);
    four := repo.Get(4);
  }
}
