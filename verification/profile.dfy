/** The Profile bean and the Bean Validation constraints declared on its fields. */
module Profiles {
  import opened Wrappers

  /** A snapshot of a profile's three fields; None stands for Java's null. */
  datatype ProfileData = ProfileData(id: Option<int>, name: Option<string>, email: Option<string>)

  /** A mutable profile bean. Its getters are the functions GetId, GetName and GetEmail;
      what they return is stated by the contracts of the constructors and setters. */
  class Profile {
    var id: Option<int>
    var name: Option<string>
    var email: Option<string>

    /** The no-argument constructor used when a request body is deserialised: all fields null. */
    constructor Empty()
      ensures GetId() == None && GetName() == None && GetEmail() == None
    {
      id, name, email := None, None, None;
    }

    constructor (id: Option<int>, name: Option<string>, email: Option<string>)
      ensures GetId() == id && GetName() == name && GetEmail() == email
    {
      this.id, this.name, this.email := id, name, email;
    }

    function GetId(): Option<int> reads this { id }
    function GetName(): Option<string> reads this { name }
    function GetEmail(): Option<string> reads this { email }

    /** The current field values as a value. */
    function Data(): ProfileData reads this { ProfileData(id, name, email) }

    method SetId(id: Option<int>)
      modifies this`id
      ensures GetId() == id && GetName() == old(GetName()) && GetEmail() == old(GetEmail())
    {
      this.id := id;
    }

    method SetName(name: Option<string>)
      modifies this`name
      ensures GetName() == name && GetId() == old(GetId()) && GetEmail() == old(GetEmail())
    {
      this.name := name;
    }

    method SetEmail(email: Option<string>)
      modifies this`email
      ensures GetEmail() == email && GetId() == old(GetId()) && GetName() == old(GetName())
    {
      this.email := email;
    }
  }

  // ---------------------------------------------------------------------------
  // Validation. The constraints are data, evaluated one at a time as Bean
  // Validation does: @NotNull fails on null, while @Size and @Email pass on null
  // (a null is left to @NotNull). The email syntax of @Email belongs to the
  // validator library and is passed in as the predicate isEmail.

  const NameMinLength: nat := 3
  const NameMaxLength: nat := 15

  datatype Field = Name | Email

  datatype Constraint = NotNull | Size(min: nat, max: nat) | WellFormedEmail

  /** The annotations on each field, in declaration order. */
  function Declared(f: Field): seq<Constraint>
  {
    match f
    case Name => [NotNull, Size(NameMinLength, NameMaxLength)]
    case Email => [NotNull, WellFormedEmail]
  }

  function FieldValue(d: ProfileData, f: Field): Option<string>
  {
    match f
    case Name => d.name
    case Email => d.email
  }

  predicate Satisfies(c: Constraint, v: Option<string>, isEmail: string -> bool)
  {
    match c
    case NotNull => v.Some?
    case Size(min, max) => v.None? || min <= |v.value| <= max
    case WellFormedEmail => v.None? || isEmail(v.value)
  }

  /** Every (field, constraint) pair that d fails. */
  function Violations(d: ProfileData, isEmail: string -> bool): set<(Field, Constraint)>
  {
    set f: Field, c: Constraint | f in {Name, Email} && c in Declared(f) && !Satisfies(c, FieldValue(d, f), isEmail) :: (f, c)
  }

  /** What the annotations mean, stated directly: a name of 3 to 15 characters and a
      well-formed email must both be present. The id is unconstrained. */
  predicate IsValid(d: ProfileData, isEmail: string -> bool)
  {
    && d.name.Some? && NameMinLength <= |d.name.value| <= NameMaxLength
    && d.email.Some? && isEmail(d.email.value)
  }

  /** The declared annotations accept exactly the valid profiles. */
  lemma ValidIffNoViolations(d: ProfileData, isEmail: string -> bool)
    ensures IsValid(d, isEmail) <==> Violations(d, isEmail) == {}
  {
    var v := Violations(d, isEmail);
    if !IsValid(d, isEmail) {
      if d.name.None? {
        assert (Name, NotNull) in v;
      } else if !(NameMinLength <= |d.name.value| <= NameMaxLength) {
        assert (Name, Size(NameMinLength, NameMaxLength)) in v;
      } else if d.email.None? {
        assert (Email, NotNull) in v;
      } else {
        assert (Email, WellFormedEmail) in v;
      }
    }
  }

  /** The name's two annotations each report on their own: a missing name is reported by
      @NotNull only, a present name of the wrong length by @Size only. */
  lemma NameViolations(d: ProfileData, isEmail: string -> bool)
    ensures (Name, NotNull) in Violations(d, isEmail) <==> d.name.None?
    ensures (Name, Size(NameMinLength, NameMaxLength)) in Violations(d, isEmail)
            <==> d.name.Some? && !(NameMinLength <= |d.name.value| <= NameMaxLength)
  {
  }

  /** The email's two annotations each report on their own. */
  lemma EmailViolations(d: ProfileData, isEmail: string -> bool)
    ensures (Email, NotNull) in Violations(d, isEmail) <==> d.email.None?
    ensures (Email, WellFormedEmail) in Violations(d, isEmail)
            <==> d.email.Some? && !isEmail(d.email.value)
  {
  }

  /** A two-character name (such as "Al") is rejected, and the rejection names the name field. */
  lemma ShortNameRejected(d: ProfileData, isEmail: string -> bool)
    requires d.name.Some? && |d.name.value| < NameMinLength
    ensures !IsValid(d, isEmail)
    ensures (Name, Size(NameMinLength, NameMaxLength)) in Violations(d, isEmail)
  {
  }

  /** The id carries no constraint: any id, null included, gives the same verdict. */
  lemma IdUnconstrained(d: ProfileData, id: Option<int>, isEmail: string -> bool)
    ensures Violations(d.(id := id), isEmail) == Violations(d, isEmail)
    ensures IsValid(d.(id := id), isEmail) == IsValid(d, isEmail)
  {
  }
}
