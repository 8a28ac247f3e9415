/**
 * The role logic of BaseSecurityManager: deriving the Roles flags of an
 * identity from the names of the organisation roles it holds (getRoles),
 * and bringing the memberships of an identity in one organisation in line
 * with a wanted Roles value (updateRoles / updateRolesInSecurityGroup).
 *
 * The organisation service's membership table is a set of (organisation,
 * identity, role) triples held by a class; audit logging is left out.
 */
module SecurityRoles {

  /** The organisation roles this code reads or writes; OtherRole stands for
      every further role name a membership may carry. */
  datatype OrganisationRole =
    | Administrator | Author | GroupManager | UserManager | LearnResourceManager
    | PoolManager | CurriculumManager | User | Guest
    | OtherRole(name: string)

  /** The Roles value object, its flags in the order of its constructor. */
  datatype Roles = Roles(
    admin: bool, userManager: bool, groupManager: bool, author: bool, guestOnly: bool,
    resourceManager: bool, poolManager: bool, curriculumManager: bool, invitee: bool)

  /** getRoles: `held` lists the role names of all memberships of the
      identity; `invitedInStore` is what the invitation table says about it
      (consulted only when the identity is not a user). */
  function GetRoles(held: seq<OrganisationRole>, invitedInStore: bool): Roles
  {
    var admin := Administrator in held;
    var isUser := User in held;
    Roles(
      admin := admin,
      userManager := admin || UserManager in held,
      groupManager := admin || GroupManager in held,
      author := admin || Author in held,
      guestOnly := !isUser && Guest in held,
      resourceManager := LearnResourceManager in held,
      poolManager := admin || PoolManager in held,
      curriculumManager := admin || CurriculumManager in held,
      invitee := !isUser && invitedInStore)
  }

  /** Administrator implies every management flag except resource manager. */
  lemma AdminImpliesManagementRoles(held: seq<OrganisationRole>, invitedInStore: bool)
    ensures var r := GetRoles(held, invitedInStore);
      r.admin <==> Administrator in held
    ensures var r := GetRoles(held, invitedInStore);
      r.admin ==> r.author && r.groupManager && r.userManager && r.poolManager && r.curriculumManager
    ensures var r := GetRoles(held, invitedInStore);
      r.resourceManager <==> LearnResourceManager in held
  {
  }

  /** Administrator alone does not make a resource manager. */
  lemma AdminAloneIsNoResourceManager()
    ensures GetRoles([Administrator], false).admin
    ensures !GetRoles([Administrator], false).resourceManager
  {
  }

  /** Guest-only and invitee are only possible for identities without the
      user role, and a guest-only identity holds the guest role. */
  lemma GuestAndInviteeExcludeUser(held: seq<OrganisationRole>, invitedInStore: bool)
    ensures var r := GetRoles(held, invitedInStore);
      (r.guestOnly || r.invitee) ==> User !in held
    ensures var r := GetRoles(held, invitedInStore);
      r.guestOnly <==> (Guest in held && User !in held)
    ensures var r := GetRoles(held, invitedInStore);
      r.invitee <==> (invitedInStore && User !in held)
  {
  }

  // ---------------------------------------------------------------------
  // updateRoles

  /** The roles updateRoles manages, in the order it handles them. */
  const ManagedRoles: seq<OrganisationRole> :=
    [Guest, User, GroupManager, Author, UserManager, LearnResourceManager,
     PoolManager, CurriculumManager, Administrator]

  /** Whether updateRoles wants the identity to hold `role` afterwards
      (the `isNow` argument it passes for that role). */
  function RoleTarget(roles: Roles, role: OrganisationRole): bool
  {
    var full := !roles.guestOnly && !roles.invitee;
    match role
    case Guest => roles.guestOnly
    case User => !roles.guestOnly
    case GroupManager => roles.groupManager && full
    case Author => (roles.author || roles.resourceManager) && full
    case UserManager => roles.userManager && full
    case LearnResourceManager => roles.resourceManager && full
    case PoolManager => roles.poolManager && full
    case CurriculumManager => roles.curriculumManager && full
    case Administrator => roles.admin && full
    case OtherRole(_) => false
  }

  /** The user role is wanted exactly when the guest role is not; no
      privileged role is wanted for a guest or an invitee; the resource
      manager flag also grants the author role. */
  lemma RoleTargetRules(roles: Roles)
    ensures RoleTarget(roles, User) == !RoleTarget(roles, Guest)
    ensures (roles.guestOnly || roles.invitee) ==>
      forall r :: r in ManagedRoles && r != Guest && r != User ==> !RoleTarget(roles, r)
    ensures roles.resourceManager && !roles.guestOnly && !roles.invitee ==> RoleTarget(roles, Author)
  {
  }

  /** Whether the membership exists after updateRolesInSecurityGroup, given
      whether the identity had the role before (`hasBeen`), whether it is
      wanted now (`isNow`) and whether the membership existed (`present`). */
  function RoleOutcome(hasBeen: bool, isNow: bool, present: bool): bool
  {
    if !hasBeen && isNow then true
    else if hasBeen && !isNow then false
    else present
  }

  /** The role diff: a membership appears only on a false-to-true change and
      disappears only on a true-to-false change; when `hasBeen` agrees with
      the membership, the outcome is the wanted value. */
  lemma RoleDiff(hasBeen: bool, isNow: bool, present: bool)
    ensures RoleOutcome(hasBeen, isNow, present) && !present ==> !hasBeen && isNow
    ensures !RoleOutcome(hasBeen, isNow, present) && present ==> hasBeen && !isNow
    ensures hasBeen == isNow ==> RoleOutcome(hasBeen, isNow, present) == present
    ensures RoleOutcome(hasBeen, isNow, hasBeen) == isNow
  {
  }

  datatype Membership = Membership(organisation: nat, identity: nat, role: OrganisationRole)

  /** The membership table after one updateRolesInSecurityGroup call. */
  function ApplyRoleChange(ms: set<Membership>, organisation: nat, identity: nat,
                           role: OrganisationRole, hasBeen: bool, isNow: bool): set<Membership>
  {
    if !hasBeen && isNow then ms + {Membership(organisation, identity, role)}
    else if hasBeen && !isNow then ms - {Membership(organisation, identity, role)}
    else ms
  }

  /** The membership table after updateRoles has handled the roles of
      `todo` in order, `current` being the roles read before the first. */
  function ApplyRoleChanges(ms: set<Membership>, organisation: nat, identity: nat,
                            current: set<OrganisationRole>, roles: Roles,
                            todo: seq<OrganisationRole>): set<Membership>
  {
    if todo == [] then ms
    else
      var role := todo[|todo| - 1];
      ApplyRoleChange(ApplyRoleChanges(ms, organisation, identity, current, roles, todo[..|todo| - 1]),
                      organisation, identity, role, role in current, RoleTarget(roles, role))
  }

  /** Membership by membership, what the role changes leave in the table:
      a handled role of the identity in the organisation follows the role
      diff, every other membership is untouched. */
  lemma {:induction false} ApplyRoleChangesEffect(ms: set<Membership>, organisation: nat, identity: nat,
                                                  current: set<OrganisationRole>, roles: Roles,
                                                  todo: seq<OrganisationRole>, m: Membership)
    ensures m in ApplyRoleChanges(ms, organisation, identity, current, roles, todo) <==>
      if m.organisation == organisation && m.identity == identity && m.role in todo
      then RoleOutcome(m.role in current, RoleTarget(roles, m.role), m in ms)
      else m in ms
  {
    if todo != [] {
      var init := todo[..|todo| - 1];
      ApplyRoleChangesEffect(ms, organisation, identity, current, roles, init, m);
      assert todo == init + [todo[|todo| - 1]];
    }
  }

  /** When the roles read at the start agree with the memberships in the
      organisation, updateRoles leaves exactly the wanted roles there. */
  lemma UpdateRolesReachesTargets(ms: set<Membership>, organisation: nat, identity: nat,
                                  current: set<OrganisationRole>, roles: Roles, role: OrganisationRole)
    requires role in ManagedRoles
    requires role in current <==> Membership(organisation, identity, role) in ms
    ensures Membership(organisation, identity, role) in
              ApplyRoleChanges(ms, organisation, identity, current, roles, ManagedRoles)
            <==> RoleTarget(roles, role)
  {
    ApplyRoleChangesEffect(ms, organisation, identity, current, roles, ManagedRoles,
                           Membership(organisation, identity, role));
  }

  /** The organisation service's membership table. */
  class OrganisationMemberships {
    var memberships: set<Membership>

    constructor (initial: set<Membership>)
      ensures memberships == initial
    {
      memberships := initial;
    }

    /** getRolesAsString: the roles of an identity over all organisations. */
    function RolesOf(identity: nat): set<OrganisationRole>
      reads this
    {
      set m | m in memberships && m.identity == identity :: m.role
    }

    method AddMember(organisation: nat, identity: nat, role: OrganisationRole)
      modifies this
      ensures memberships == old(memberships) + {Membership(organisation, identity, role)}
    {
      memberships := memberships + {Membership(organisation, identity, role)};
    }

    method RemoveMember(organisation: nat, identity: nat, role: OrganisationRole)
      modifies this
      ensures memberships == old(memberships) - {Membership(organisation, identity, role)}
    {
      memberships := memberships - {Membership(organisation, identity, role)};
    }

    method UpdateRolesInSecurityGroup(organisation: nat, identity: nat, role: OrganisationRole,
                                      hasBeen: bool, isNow: bool)
      modifies this
      ensures memberships == ApplyRoleChange(old(memberships), organisation, identity, role, hasBeen, isNow)
    {
      if !hasBeen && isNow {
        AddMember(organisation, identity, role);
      } else if hasBeen && !isNow {
        RemoveMember(organisation, identity, role);
      }
    }

    /** updateRoles: `hasBeen` is read once, from the roles the identity
        holds in any organisation; the changes are made in `organisation`.
        The source makes one updateRolesInSecurityGroup call per managed
        role, each with the `isNow` value RoleTarget gives; the loop makes
        the same calls in the same order. */
    method UpdateRoles(organisation: nat, identity: nat, roles: Roles)
      modifies this
      ensures memberships ==
        ApplyRoleChanges(old(memberships), organisation, identity, old(RolesOf(identity)), roles, ManagedRoles)
    {
      var current := RolesOf(identity);
      var i := 0;
      while i < |ManagedRoles|
        invariant 0 <= i <= |ManagedRoles|
        invariant memberships ==
          ApplyRoleChanges(old(memberships), organisation, identity, current, roles, ManagedRoles[..i])
      {
        var role := ManagedRoles[i];
        UpdateRolesInSecurityGroup(organisation, identity, role, role in current, RoleTarget(roles, role));
        assert ManagedRoles[..i + 1][..i] == ManagedRoles[..i];
        i := i + 1;
      }
      assert ManagedRoles[..i] == ManagedRoles;
    }
  }
}
