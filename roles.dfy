/** Bitmask roles: the route guard (roles.guard.ts), and the user presenter (user.presenter.ts)
    with the role names and the profile view (user-profile.presenter.ts) it exposes. */
module Roles {
  import opened Wrappers

  /** A role set is the 32-bit value JavaScript's `&` operates on. */
  type RoleMask = bv32

  const Classic: RoleMask := 1
  const Admin: RoleMask := 2
  const Premium: RoleMask := 4

  /** `RolesGuard.canActivate`: a route without role metadata (absent or 0) is open;
      otherwise the user needs at least one of the required bits. */
  predicate CanActivate(requiredRoles: Option<RoleMask>, userRole: RoleMask)
  {
    if requiredRoles.None? || requiredRoles.value == 0 then true
    else userRole & requiredRoles.value != 0
  }

  /** A route without metadata admits everyone. */
  lemma OpenRoute(requiredRoles: Option<RoleMask>, userRole: RoleMask)
    requires requiredRoles.None? || requiredRoles == Some(0)
    ensures CanActivate(requiredRoles, userRole)
  {
  }

  /** A user without roles is refused by every guarded route. */
  lemma NoRoleDenied(required: RoleMask)
    requires required != 0
    ensures !CanActivate(Some(required), 0)
  {
  }

  /** Granting more roles never revokes access. */
  lemma GrantingKeepsAccess(requiredRoles: Option<RoleMask>, userRole: RoleMask, extra: RoleMask)
    requires CanActivate(requiredRoles, userRole)
    ensures CanActivate(requiredRoles, userRole | extra)
  {
  }

  /** The scenarios the repository's role check script prints. */
  lemma RoleScenarios()
    ensures CanActivate(Some(Classic | Admin | Premium), Classic)
    ensures CanActivate(Some(Classic | Admin | Premium), Premium)
    ensures !CanActivate(Some(Classic | Admin | Premium), 0)
    ensures !CanActivate(Some(Admin), Classic)
    ensures CanActivate(Some(Admin), Admin)
    ensures CanActivate(Some(Admin), Admin | Premium)
  {
  }

  /** The links a profile may list. */
  datatype SocialLinks = SocialLinks(twitter: Option<string>, linkedin: Option<string>, github: Option<string>,
                                     instagram: Option<string>)

  /** A stored user profile: its own identifier, its owner's, the fields shown to others, and
      its creation and last-update times (milliseconds). */
  datatype UserProfile = UserProfile(id: string, userId: string, bio: Option<string>, avatarUrl: Option<string>,
                                     location: Option<string>, website: Option<string>,
                                     socialLinks: Option<SocialLinks>, createdAt: int, updatedAt: int)

  /** What `UserProfilePresenter` exposes of a profile: no identifiers and no timestamps. */
  datatype ProfileView = ProfileView(bio: Option<string>, avatarUrl: Option<string>, location: Option<string>,
                                     website: Option<string>, socialLinks: Option<SocialLinks>)

  /** `new UserProfilePresenter(profile)`. */
  function PresentProfile(p: UserProfile): ProfileView
  {
    ProfileView(p.bio, p.avatarUrl, p.location, p.website, p.socialLinks)
  }

  /** The presented profile hides exactly the bookkeeping fields: two profiles look the same once
      presented if and only if they differ at most in their own id, their owner's id and their
      creation and update times. */
  lemma PresentedProfilesAgree(p: UserProfile, q: UserProfile)
    ensures PresentProfile(p) == PresentProfile(q) <==>
      p.(id := q.id, userId := q.userId, createdAt := q.createdAt, updatedAt := q.updatedAt) == q
  {
  }

  datatype User = User(
    id: string,
    email: string,
    firstName: string,
    lastName: string,
    role: RoleMask,
    hashedRefreshToken: Option<string>,
    createdAt: int,
    updatedAt: int,
    profile: Option<UserProfile>)

  datatype UserView = UserView(
    id: string,
    email: string,
    firstName: string,
    lastName: string,
    roles: seq<string>,
    createdAt: int,
    profile: Option<ProfileView>)

  /** The three conditional pushes of the presenter's constructor, in their order. */
  function RoleNames(role: RoleMask): (names: seq<string>)
    ensures "admin" in names <==> role & Admin == Admin
    ensures "classic" in names <==> role & Classic == Classic
    ensures "premium" in names <==> role & Premium == Premium
    ensures role == 0 ==> names == []
    // only these three names, ordered admin, classic, premium, so none twice
    ensures forall i :: 0 <= i < |names| ==> names[i] in RoleOrder
    ensures forall i, j :: 0 <= i < j < |names| ==> Rank(names[i]) < Rank(names[j])
    ensures |names| <= 3
  {
    var names := [];
    var names := if role & Admin == Admin then names + ["admin"] else names;
    var names := if role & Classic == Classic then names + ["classic"] else names;
    var names := if role & Premium == Premium then names + ["premium"] else names;
    names
  }

  /** The order in which the presenter lists role names. */
  const RoleOrder: seq<string> := ["admin", "classic", "premium"]

  function Rank(name: string): int
  {
    if name == "admin" then 0 else if name == "classic" then 1 else 2
  }

  /** `new UserPresenter(user)`. */
  function PresentUser(user: User): (view: UserView)
    ensures view.id == user.id && view.email == user.email
    ensures view.firstName == user.firstName && view.lastName == user.lastName
    ensures view.createdAt == user.createdAt
    ensures view.profile.Some? <==> user.profile.Some?
    ensures user.profile.Some? ==> view.profile == Some(PresentProfile(user.profile.value))
    ensures view.roles == RoleNames(user.role)
  {
    UserView(user.id, user.email, user.firstName, user.lastName, RoleNames(user.role), user.createdAt,
      if user.profile.Some? then Some(PresentProfile(user.profile.value)) else None)
  }

  /** The presented user carries neither the refresh-token hash nor the update time: users that
      differ only in those present alike. */
  lemma PresentUserHidesSecrets(user: User, token: Option<string>, updatedAt: int)
    ensures PresentUser(user.(hashedRefreshToken := token, updatedAt := updatedAt)) == PresentUser(user)
  {
  }
}
