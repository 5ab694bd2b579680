/** The secured service of the method-level authorisation example: each method checks its
    guard before its body runs and, when permitted, delegates to the repository. */
module Service {
  import opened Wrappers
  import opened Errors
  import opened Profiles
  import opened Repository
  import opened Authorization

  class ProfileService {
    const repository: ProfileRepositoryStub

    constructor (repository: ProfileRepositoryStub)
      ensures this.repository == repository
    {
      this.repository := repository;
    }

    method List(authorities: set<string>) returns (r: Result<seq<Profile>, Error>)
      ensures !Permits(ListProfiles, authorities) <==> r == Failure(AccessDenied)
      ensures Permits(ListProfiles, authorities) ==> r.Success?
      ensures r.Success? ==> multiset(r.value) == Values(repository.profiles)
    {
      if !Permits(ListProfiles, authorities) {
        return Failure(AccessDenied);
      }
      var profiles := repository.List();
      r := Success(profiles);
    }

    method Create(authorities: set<string>, p: Profile) returns (r: Result<Profile, Error>)
      requires repository.Valid()
      modifies repository, p
      ensures repository.Valid()
      ensures !Permits(CreateProfile, authorities) ==>
                r == Failure(AccessDenied) && unchanged(repository) && unchanged(p)
      ensures Permits(CreateProfile, authorities) ==>
                && r == Success(p)
                && repository.idIndex == 2 * old(repository.idIndex)
                && repository.idIndex !in old(repository.profiles)
                && p.GetId() == Some(repository.idIndex)
                && p.GetName() == old(p.GetName()) && p.GetEmail() == old(p.GetEmail())
                && repository.profiles == old(repository.profiles)[repository.idIndex := p]
    {
      if !Permits(CreateProfile, authorities) {
        return Failure(AccessDenied);
      }
      var created := repository.Create(p);
      r := Success(created);
    }

    method Get(authorities: set<string>, id: int) returns (r: Result<Option<Profile>, Error>)
      ensures !Permits(GetProfile, authorities) <==> r == Failure(AccessDenied)
      ensures Permits(GetProfile, authorities) ==> r.Success?
      ensures r.Success? ==>
                && (r.value.Some? <==> id in repository.profiles)
                && (r.value.Some? ==> r.value.value == repository.profiles[id])
    {
      if !Permits(GetProfile, authorities) {
        return Failure(AccessDenied);
      }
      var found := repository.Get(id);
      r := Success(found);
    }

    method Update(authorities: set<string>, id: int, p: Profile) returns (r: Result<Profile, Error>)
      requires repository.Valid()
      modifies if id in repository.profiles then {repository.profiles[id]} else {}
      ensures repository.Valid() && repository.profiles == old(repository.profiles)
      ensures !Permits(UpdateProfile, authorities) ==>
                r == Failure(AccessDenied) && (id in repository.profiles ==> unchanged(repository.profiles[id]))
      ensures Permits(UpdateProfile, authorities) && id !in repository.profiles ==>
                r == Failure(CannotFindProfile(id))
      ensures Permits(UpdateProfile, authorities) && id in repository.profiles ==>
                && r == Success(repository.profiles[id])
                && r.value.GetId() == old(r.value.GetId())
                && r.value.GetName() == (if old(p.GetName()).Some? then old(p.GetName()) else old(r.value.GetName()))
                && r.value.GetEmail() == (if old(p.GetEmail()).Some? then old(p.GetEmail()) else old(r.value.GetEmail()))
    {
      if !Permits(UpdateProfile, authorities) {
        return Failure(AccessDenied);
      }
      r := repository.Update(id, p);
    }

    method Delete(authorities: set<string>, id: int) returns (r: Result<Profile, Error>)
      requires repository.Valid()
      modifies repository`profiles
      ensures repository.Valid() && repository.idIndex == old(repository.idIndex)
      ensures !Permits(DeleteProfile, authorities) ==>
                r == Failure(AccessDenied) && repository.profiles == old(repository.profiles)
      ensures Permits(DeleteProfile, authorities) && id !in old(repository.profiles) ==>
                r == Failure(CannotFindProfile(id)) && repository.profiles == old(repository.profiles)
      ensures Permits(DeleteProfile, authorities) && id in old(repository.profiles) ==>
                r == Success(old(repository.profiles)[id]) && repository.profiles == old(repository.profiles) - {id}
    {
      if !Permits(DeleteProfile, authorities) {
        return Failure(AccessDenied);
      }
      r := repository.Delete(id);
    }
  }
}
