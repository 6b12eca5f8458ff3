/**
 * The eight access levels a rule may name, and the ACCESS_LEVELS table that
 * resolves a configured name to a level (gitlab-protector.py:44-74).
 */
module AccessLevels {
  import opened Wrappers

  datatype AccessLevel =
    | NoAccess | MinimalAccess | Guest | Reporter | Developer | Maintainer | Owner | Admin

  /** The key under which a configuration file names the level. */
  function Name(l: AccessLevel): string
  {
    match l
    case NoAccess => "no_access"
    case MinimalAccess => "minimal_access"
    case Guest => "guest"
    case Reporter => "reporter"
    case Developer => "developer"
    case Maintainer => "maintainer"
    case Owner => "owner"
    case Admin => "admin"
  }

  /** `ACCESS_LEVELS.get(name)`: the level a configured name stands for, if any. */
  function Parse(name: string): (r: Option<AccessLevel>)
    ensures r.Some? ==> Name(r.value) == name
    ensures r.None? ==> forall l :: Name(l) != name
  {
    if name == "no_access" then Some(NoAccess)
    else if name == "minimal_access" then Some(MinimalAccess)
    else if name == "guest" then Some(Guest)
    else if name == "reporter" then Some(Reporter)
    else if name == "developer" then Some(Developer)
    else if name == "maintainer" then Some(Maintainer)
    else if name == "owner" then Some(Owner)
    else if name == "admin" then Some(Admin)
    else None
  }

  /** Every level is found again under its own name, so the table has exactly eight keys. */
  lemma ParseName(l: AccessLevel)
    ensures Parse(Name(l)) == Some(l)
  {
  }

  /** The numeric value of a level that the GitLab API receives (python-gitlab's `gitlab.const.AccessLevel`). */
  function Code(l: AccessLevel): int
  {
    match l
    case NoAccess => 0
    case MinimalAccess => 5
    case Guest => 10
    case Reporter => 20
    case Developer => 30
    case Maintainer => 40
    case Owner => 50
    case Admin => 60
  }

  /** The values the repository's tests pin: reporter 20, developer 30, maintainer 40, each found under its name. */
  lemma TestedCodes()
    ensures Parse("reporter").Some? && Code(Parse("reporter").value) == 20
    ensures Parse("developer").Some? && Code(Parse("developer").value) == 30
    ensures Parse("maintainer").Some? && Code(Parse("maintainer").value) == 40
  {
  }
}
