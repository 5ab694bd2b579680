/** The @PreAuthorize expressions guarding ProfileService, as data evaluated over the
    caller's granted authorities. */
module Authorization {

  const RoleUser: string := "ROLE_USER"
  const RoleAdmin: string := "ROLE_ADMIN"

  /** The fragment of Spring's expression language the guards use. */
  datatype Guard = HasAuthority(authority: string) | Or(left: Guard, right: Guard)

  predicate Holds(g: Guard, authorities: set<string>)
  {
    match g
    case HasAuthority(a) => a in authorities
    case Or(l, r) => Holds(l, authorities) || Holds(r, authorities)
  }

  datatype Operation = ListProfiles | CreateProfile | GetProfile | UpdateProfile | DeleteProfile
  {
    predicate IsRead() { ListProfiles? || GetProfile? }
  }

  /** The expression annotated on each service method. */
  function GuardOf(op: Operation): Guard
  {
    match op
    case ListProfiles => Or(HasAuthority(RoleUser), HasAuthority(RoleAdmin))
    case GetProfile => Or(HasAuthority(RoleUser), HasAuthority(RoleAdmin))
    case CreateProfile => HasAuthority(RoleAdmin)
    case UpdateProfile => HasAuthority(RoleAdmin)
    case DeleteProfile => HasAuthority(RoleAdmin)
  }

  predicate Permits(op: Operation, authorities: set<string>)
  {
    Holds(GuardOf(op), authorities)
  }

  /** Reads need ROLE_USER or ROLE_ADMIN; writes need ROLE_ADMIN. */
  lemma PermitsIff(op: Operation, authorities: set<string>)
    ensures op.IsRead() ==> (Permits(op, authorities) <==> RoleUser in authorities || RoleAdmin in authorities)
    ensures !op.IsRead() ==> (Permits(op, authorities) <==> RoleAdmin in authorities)
  {
    if op.IsRead() {
      var g := GuardOf(op);
      assert g == Or(HasAuthority(RoleUser), HasAuthority(RoleAdmin));
      assert Holds(g, authorities) == (Holds(g.left, authorities) || Holds(g.right, authorities));
    }
  }

  /** A caller holding ROLE_USER but not ROLE_ADMIN may read and is denied every write. */
  lemma UserMayOnlyRead(op: Operation, authorities: set<string>)
    requires RoleUser in authorities && RoleAdmin !in authorities
    ensures Permits(op, authorities) <==> op.IsRead()
  {
    PermitsIff(op, authorities);
  }

  /** A caller holding ROLE_ADMIN is permitted every operation. */
  lemma AdminMayDoAll(op: Operation, authorities: set<string>)
    requires RoleAdmin in authorities
    ensures Permits(op, authorities)
  {
  }

  /** Granting more authorities never takes a permission away. */
  lemma {:induction false} HoldsMonotone(g: Guard, fewer: set<string>, more: set<string>)
    requires fewer <= more && Holds(g, fewer)
    ensures Holds(g, more)
  {
    match g
    case HasAuthority(a) =>
    case Or(l, r) =>
      if Holds(l, fewer) {
        HoldsMonotone(l, fewer, more);
      } else {
        HoldsMonotone(r, fewer, more);
      }
  }

  /** Whoever may write may also read. */
  lemma WriterMayRead(write: Operation, read: Operation, authorities: set<string>)
    requires !write.IsRead() && read.IsRead() && Permits(write, authorities)
    ensures Permits(read, authorities)
  {
  }
}
