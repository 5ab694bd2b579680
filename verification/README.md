# Auth0 Spring Security API samples: profile store, method guards and URL rules

This project models, in Dafny, the part of the Auth0 Spring Security API samples that is logic
rather than framework wiring:

- **The in-memory profile store** (`ProfileRepositoryStub`). It is a table from ids to mutable
  `Profile` objects, seeded with Bob (1), Alice (2) and Eve (3). It has an id counter that starts at 3
  and doubles on every create, so new ids are 6, 12, 24 and so on. `update` is partial, and `update`
  and `delete` throw on an unknown id. Module `Repository`, class `ProfileRepositoryStub`.
  - The table holds object references. So the model shows what the Java code does with aliasing:
    `create` stores the caller's own object, and `update` changes the stored object through its
    setters.
  - The ghost function `Rows()` gives the table as values.
  - The ghost predicate `Valid()` is the freshness invariant: every key lies between 1 and the
    counter, and the counter is 3 doubled once per create.
- **The `Profile` bean and its declared constraints.** Module `Profiles`.
  - Class `Profile` has the two constructors, the getters `GetId`/`GetName`/`GetEmail` and the three
    setters. The constructor and setter contracts state what the getters return.
  - The validation annotations are data (`NotNull`, `Size(3, 15)`, `WellFormedEmail`). They are
    evaluated the Bean Validation way: `@NotNull` fails on null, while `@Size` and `@Email` pass on
    null.
  - `Violations` lists the failing (field, constraint) pairs, and `IsValid` states the meaning
    directly.
  - Email syntax belongs to the validator library, so it is a parameter `isEmail`.
- **The role guards of the secured `ProfileService`** (method-level authorisation example).
  - Module `Authorization` models the `@PreAuthorize` expressions as a small expression type
    evaluated over the caller's authority set.
  - Module `Service` has class `ProfileService`. Each of its methods checks its guard first and then
    delegates to the store.
- **The URL access rules of the resource server** (scope-based authorisation example). Module
  `AccessTable` has an ordered rule list closed by `anyRequest()` and a first-match decision
  function `Decide` over a path and an optional principal.
- Module `Scenarios` has client methods that chain store calls.

Throughout, `Option` stands for a nullable Java reference and `Result` for a call that returns or
throws.

## Model

| member | source | states |
|---|---|---|
| Profiles.Profile.Empty | src/main/java/com/auth0/example/Profile.java:20 | the no-argument constructor leaves id, name and email all null |
| Profiles.Profile.constructor | src/main/java/com/auth0/example/Profile.java:22-26 | the three-argument constructor stores exactly the given id, name and email |
| Profiles.Profile.SetId | src/main/java/com/auth0/example/Profile.java:28-34 | afterwards the id getter returns the value passed, and name and email are unchanged |
| Profiles.Profile.SetName | src/main/java/com/auth0/example/Profile.java:36-42 | afterwards the name getter returns the value passed, and id and email are unchanged |
| Profiles.Profile.SetEmail | src/main/java/com/auth0/example/Profile.java:44-50 | afterwards the email getter returns the value passed, and id and name are unchanged |
| Profiles.Violations | src/main/java/com/auth0/example/Profile.java:12-18 | the (field, constraint) pairs a profile fails, from the annotations on name (`@NotNull`, `@Size(3,15)`) and email (`@NotNull`, `@Email`), each checked on its own; its meaning is stated by ValidIffNoViolations, NameViolations and EmailViolations |
| Profiles.IsValid | src/main/java/com/auth0/example/Profile.java:12-18 | the constraints' meaning stated directly: a name of 3 to 15 characters and a well-formed email, both present, and nothing about the id; tied to Violations by ValidIffNoViolations |
| Profiles.ValidIffNoViolations | src/main/java/com/auth0/example/Profile.java:12-18 | the declared annotations report no violation exactly when the name is present with 3 to 15 characters and the email is present and well formed |
| Profiles.NameViolations | src/main/java/com/auth0/example/Profile.java:12-14 | `@NotNull` on name fails exactly on a null name; `@Size(3,15)` fails exactly on a present name shorter than 3 or longer than 15 |
| Profiles.EmailViolations | src/main/java/com/auth0/example/Profile.java:16-18 | `@NotNull` on email fails exactly on a null email; `@Email` fails exactly on a present email that is not well formed |
| Profiles.ShortNameRejected | src/main/java/com/auth0/example/Profile.java:13 | a name of fewer than 3 characters (e.g. "Al") makes the profile invalid, and the size violation names the name field |
| Profiles.IdUnconstrained | src/main/java/com/auth0/example/Profile.java:10 | the id carries no constraint: replacing it, with null or any value, changes neither the violations nor validity |
| Repository.ProfileRepositoryStub.constructor | src/main/java/com/auth0/example/ProfileRepositoryStub.java:13-23 | the initial table is exactly rows 1, 2, 3 holding Bob, Alice and Eve with their emails and ids; the counter is 3; the invariant holds and no object is stored twice |
| Repository.ProfileRepositoryStub.List | src/main/java/com/auth0/example/ProfileRepositoryStub.java:25-27 | the result holds every stored profile once per key holding it (multiset equality with the table's values), so its length is the table's size and it contains exactly the stored objects, in no stated order |
| Repository.ProfileRepositoryStub.Create | src/main/java/com/auth0/example/ProfileRepositoryStub.java:29-34 | the counter doubles; the argument gets the new counter as its id and keeps its name and email; the table gains exactly that key, which was absent before, so no row is overwritten; the same object is returned; the invariant is preserved; on an unaliased table the value rows gain just the new row |
| Repository.ProfileRepositoryStub.Get | src/main/java/com/auth0/example/ProfileRepositoryStub.java:36-38 | returns the stored object for a present id and null (None) for an absent id; it changes nothing |
| Repository.ProfileRepositoryStub.Update | src/main/java/com/auth0/example/ProfileRepositoryStub.java:40-53 | an absent id fails with "cannot find profile" and changes nothing; a present id keeps the key set, the counter and the stored id; the name is overwritten only if the new name is non-null, and likewise the email; the updated stored object is returned; on an unaliased table no other row changes |
| Repository.ProfileRepositoryStub.Delete | src/main/java/com/auth0/example/ProfileRepositoryStub.java:55-60 | an absent id fails and leaves the table as it was; a present id removes exactly that key and returns its object; the counter is unchanged, so deleted ids are never reused; the invariant is preserved |
| Repository.IdAfterAtLeastSeed | src/main/java/com/auth0/example/ProfileRepositoryStub.java:14 | the counter never drops below its seed value 3 |
| Repository.IdAfterIncreasing | src/main/java/com/auth0/example/ProfileRepositoryStub.java:29-34 | the counter strictly increases with the number of creates, so every create hands out an id larger than all earlier ones |
| Repository.FirstCreatedIds | src/main/java/com/auth0/example/ProfileRepositoryStub.java:29-31 | the first three creates hand out ids 6, 12 and 24 |
| Authorization.GuardOf | 03-Authorization/src/main/java/com/auth0/example/ProfileService.java:29-49 | the `@PreAuthorize` expression of each service method: `hasAuthority('ROLE_USER') or hasAuthority('ROLE_ADMIN')` on list and get, `hasAuthority('ROLE_ADMIN')` on create, update and delete |
| Authorization.Permits | 03-Authorization/src/main/java/com/auth0/example/ProfileService.java:29-49 | whether an operation's guard expression holds over the caller's authorities; what it permits is stated by PermitsIff, UserMayOnlyRead and AdminMayDoAll |
| Authorization.PermitsIff | 03-Authorization/src/main/java/com/auth0/example/ProfileService.java:29-49 | `list` and `get` are permitted iff the authorities contain ROLE_USER or ROLE_ADMIN; `create`, `update` and `delete` iff they contain ROLE_ADMIN |
| Authorization.UserMayOnlyRead | 03-Authorization/src/main/java/com/auth0/example/ProfileService.java:29-52 | a caller with ROLE_USER but not ROLE_ADMIN is permitted exactly the reads |
| Authorization.AdminMayDoAll | 03-Authorization/src/main/java/com/auth0/example/ProfileService.java:29-52 | a caller with ROLE_ADMIN is permitted every operation |
| Authorization.HoldsMonotone | 03-Authorization/src/main/java/com/auth0/example/ProfileService.java:29-49 | adding authorities never makes a guard expression false |
| Authorization.WriterMayRead | 03-Authorization/src/main/java/com/auth0/example/ProfileService.java:29-49 | whoever is permitted a write is permitted every read |
| Service.ProfileService.constructor | 03-Authorization/src/main/java/com/auth0/example/ProfileService.java:23-27 | the service delegates to the repository it is given |
| Service.ProfileService.List | 03-Authorization/src/main/java/com/auth0/example/ProfileService.java:29-32 | denied exactly when the guard fails; a permitted call always succeeds and returns the repository's listing, every stored profile once per key |
| Service.ProfileService.Create | 03-Authorization/src/main/java/com/auth0/example/ProfileService.java:34-37 | denied (repository and argument unchanged) when the caller lacks ROLE_ADMIN; otherwise exactly the repository's create |
| Service.ProfileService.Get | 03-Authorization/src/main/java/com/auth0/example/ProfileService.java:39-42 | denied exactly when the guard fails; a permitted call always succeeds with the repository's lookup: the stored object for a present id, null for an absent one |
| Service.ProfileService.Update | 03-Authorization/src/main/java/com/auth0/example/ProfileService.java:44-47 | denied (stored row unchanged) when the caller lacks ROLE_ADMIN; otherwise exactly the repository's update, including its failure on an absent id |
| Service.ProfileService.Delete | 03-Authorization/src/main/java/com/auth0/example/ProfileService.java:49-52 | denied (table unchanged) when the caller lacks ROLE_ADMIN; otherwise exactly the repository's delete, including its failure on an absent id |
| AccessTable.Decide | 01-Authorization/src/main/java/com/auth0/example/AppConfig.java:23-27 | the decision for a request: the requirement of the first matching rule, or of `anyRequest()` when none matches, checked against the principal; applied to the configured table `ResourceServerTable` (the four rules of lines 24-27), its behaviour on every path is stated by the per-path lemmas below |
| AccessTable.FirstMatch | 01-Authorization/src/main/java/com/auth0/example/AppConfig.java:23-27 | returns the position of the first rule whose matcher matches the path: that rule matches and none before it does; the list's length when none matches |
| AccessTable.FirstMatchDecides | 01-Authorization/src/main/java/com/auth0/example/AppConfig.java:23-27 | the first matching rule decides the request, whatever later rules say |
| AccessTable.UnmatchedUsesAnyRequest | 01-Authorization/src/main/java/com/auth0/example/AppConfig.java:27 | a request matched by no listed rule is decided by the `anyRequest()` rule |
| AccessTable.PublicAlwaysGranted | 01-Authorization/src/main/java/com/auth0/example/AppConfig.java:24 | /api/public is granted with or without a principal |
| AccessTable.ScopedNeedsScope | 01-Authorization/src/main/java/com/auth0/example/AppConfig.java:25 | /api/private-scoped is granted iff there is a principal whose token carries the read:messages scope |
| AccessTable.ScopedRuleTakesPrecedence | 01-Authorization/src/main/java/com/auth0/example/AppConfig.java:25-26 | an authenticated caller without the scope is denied /api/private-scoped, although the path also matches the /api rule and would satisfy it |
| AccessTable.ApiNeedsAuthentication | 01-Authorization/src/main/java/com/auth0/example/AppConfig.java:26 | every other path at or below /api is granted iff a principal is present |
| AccessTable.PrivateNeedsAuthentication | 01-Authorization/src/main/java/com/auth0/example/AppConfig.java:26 | /api/private in particular is granted iff a principal is present |
| AccessTable.OutsideApiGranted | 01-Authorization/src/main/java/com/auth0/example/AppConfig.java:27 | every path outside /api is granted regardless of principal, so every request gets a decision |
| Scenarios.TwoCreates | src/main/java/com/auth0/example/ProfileRepositoryStub.java:29-34 | two creates in a row give two ids, both absent from the table before, the second larger than the first, both present afterwards |
| Scenarios.DeleteTwice | src/main/java/com/auth0/example/ProfileRepositoryStub.java:55-60 | the first delete succeeds iff the id was present; the second delete of the same id always fails |
| Scenarios.UpdateEmailOnly | src/main/java/com/auth0/example/ProfileRepositoryStub.java:45-52 | an update whose body has only an email sets the email and leaves the name and id as they were |
| Scenarios.SeededLookups | src/main/java/com/auth0/example/ProfileRepositoryStub.java:16-38 | on a fresh store, `get(1)` returns Bob with bob@secure.com and `get(4)` returns null |

## Left out

- Email syntax: Hibernate Validator's `@Email` check is library code not visible here. The model takes it as a parameter `isEmail`.
- Name length: the model counts Dafny characters. Java's `@Size` counts UTF-16 code units, which differ for characters outside the Basic Multilingual Plane.
- Where validation runs: the controller's `@Validated` request bodies are not part of this model. The store itself never validates, and neither does the model of it.
- Repository.ProfileRepositoryStub.Create: the counter is an unbounded integer. Java's `Long` wraps after about 62 doublings, and then ids repeat. The model does not capture this.
- Repository.ProfileRepositoryStub.List: HashMap iteration order is not modelled. The result is specified up to order, as a multiset.
- Static state: the Java store is one static map shared by every caller. The model makes it one object that callers pass around, and leaves out the unsynchronised concurrent access.
- Null profile arguments: `create` and `update` are never given a null profile, because the controller passes a required request body. In Java, `create(null)` would double the counter and then throw a NullPointerException, and `update(id, null)` on a present id would throw one too. The model does not capture either.
- Null ids: a null `id` argument to `get`, `update` or `delete` is not modelled; the model's ids are always present.
- Service.ProfileService.constructor: the `Auth0Client` argument is not modelled, because no service method uses it.
- Framework outcome of a denial: Spring answers a denied anonymous request with 401 and a denied authenticated one with 403. The model only says granted or denied.
- Path matching: only exact paths and "the base path or anything below it" are modelled. MVC matchers also accept suffixes such as `/api/public.json` or a trailing slash; that is not modelled.
- Principal: only the granted OAuth2 scopes (URL rules) or granted authority strings (method guards) are kept. Token validation, signatures, issuer and audience checks, CORS and filters, entry points and session policy are framework and SDK code not visible here.
- Other configuration: the rule lists of the JWT-based configurations are not modelled. They have no `anyRequest()` rule, and one of them takes its pattern from an external property.
- Other code: controllers, `Auth0Client`, the ping endpoints, application bootstrap and the bare exception type are not part of this model.
