/** Roles in an organization (orgs.go). */
module OrgRoles {
  /** Two roles mean something to the guards; an organization may use any other name besides. */
  datatype Role = Owner | Admin | Named(name: string)

  const MEMBER := Named("member")

  predicate IsManager(r: Role) {
    r.Owner? || r.Admin?
  }
}
