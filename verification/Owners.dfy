/** The last-owner rule (api/routes.py): suspending a member or taking a role away never leaves
    an organization without an active owner. */
module Owners {
  import opened Base

  /** A membership is suspended per organization; `userActive` is the user's global status. */
  datatype Member = Member(active: bool, userActive: bool)

  /** One role held by one member, everywhere or in one branch. Role codes are unique. */
  datatype Assignment = Assignment(member: Id, role: string, branch: Option<Id>)

  datatype Staff = Staff(
    members: map<Id, Member>, grants: map<string, set<string>>, branches: set<Id>, assignments: map<Id, Assignment>)

  /** Permissions held in the whole organization, and those held in single branches. */
  datatype Caller = Caller(member: Id, permissions: set<string>, branchPermissions: map<Id, set<string>>)

  predicate Permits(caller: Caller, permission: string, branch: Id) {
    || permission in caller.permissions
    || (branch in caller.branchPermissions && permission in caller.branchPermissions[branch])
  }

  datatype Error = NotFound | Conflict | Forbidden

  datatype Reply = Done(staff: Staff) | Refused(error: Error)

  const OWNER := "OWNER"

  predicate GlobalOwner(a: Assignment, member: Id) { a.member == member && a.role == OWNER && a.branch.None? }

  /** The rows owner_count counts. */
  predicate Counts(s: Staff, a: Assignment) {
    a.role == OWNER && a.branch.None? && a.member in s.members && s.members[a.member].active
      && s.members[a.member].userActive
  }

  function ActiveOwners(s: Staff): set<Id> { set a | a in s.assignments && Counts(s, s.assignments[a]) }

  function OwnerCount(s: Staff): nat { |ActiveOwners(s)| }

  predicate IsGlobalOwner(s: Staff, member: Id) {
    exists a :: a in s.assignments && GlobalOwner(s.assignments[a], member)
  }

  /** uq_membership_role_scope and the partial index uq_membership_roles_global. */
  ghost predicate UniqueAssignments(s: Staff) {
    forall a, b :: a in s.assignments && b in s.assignments && a != b ==> s.assignments[a] != s.assignments[b]
  }

  // ---------------------------------------------------------------- commands

  function Suspended(s: Staff, member: Id): Staff
    requires member in s.members
  {
    s.(members := s.members[member := s.members[member].(active := false)])
  }

  function Disable(s: Staff, caller: Caller, member: Id): Reply {
    if "users.manage" !in caller.permissions then Refused(Forbidden)
    else if member !in s.members then Refused(NotFound)
    else if IsGlobalOwner(s, member) && OwnerCount(s) <= 1 then Refused(Conflict)
    else Done(Suspended(s, member))
  }

  function Assign(s: Staff, caller: Caller, member: Id, role: string, branch: Option<Id>, id: Id): Reply {
    if "roles.manage" !in caller.permissions then Refused(Forbidden)
    else if member !in s.members || !s.members[member].active || role !in s.grants then Refused(NotFound)
    else if branch.Some? && branch.value !in s.branches then Refused(NotFound)
    else if branch.Some? && !Permits(caller, "branches.read", branch.value) then Refused(Forbidden)
    else if !(s.grants[role] <= caller.permissions) then Refused(Forbidden)
    else if role == OWNER && (branch.Some? || !IsGlobalOwner(s, caller.member)) then Refused(Forbidden)
    else if id in s.assignments
            || exists a :: a in s.assignments && s.assignments[a] == Assignment(member, role, branch)
    then Refused(Conflict)
    else Done(s.(assignments := s.assignments[id := Assignment(member, role, branch)]))
  }

  function Remove(s: Staff, caller: Caller, member: Id, id: Id): Reply {
    if "roles.manage" !in caller.permissions then Refused(Forbidden)
    else if id !in s.assignments || s.assignments[id].member != member || s.assignments[id].role !in s.grants
      then Refused(NotFound)
    else if s.assignments[id].role == OWNER && OwnerCount(s) <= 1 then Refused(Conflict)
    else if !(s.grants[s.assignments[id].role] <= caller.permissions) then Refused(Forbidden)
    else Done(s.(assignments := s.assignments - {id}))
  }

  datatype Command =
    | DoDisable(caller: Caller, member: Id)
    | DoAssign(caller: Caller, member: Id, role: string, branch: Option<Id>, id: Id)
    | DoRemove(caller: Caller, member: Id, id: Id)

  function Apply(s: Staff, cmd: Command): Reply {
    match cmd
    case DoDisable(caller, member) => Disable(s, caller, member)
    case DoAssign(caller, member, role, branch, id) => Assign(s, caller, member, role, branch, id)
    case DoRemove(caller, member, id) => Remove(s, caller, member, id)
  }

  function Run(s: Staff, cmds: seq<Command>): Staff {
    if cmds == [] then s
    else
      var before := Run(s, cmds[..|cmds| - 1]);
      match Apply(before, cmds[|cmds| - 1])
      case Done(after) => after
      case Refused(_) => before
  }

  /** The same commands on the rows themselves. */
  class Membership {
    var staff: Staff

    constructor (staff: Staff)
      ensures this.staff == staff
    {
      this.staff := staff;
    }

    method DisableUser(caller: Caller, member: Id) returns (error: Option<Error>)
      modifies this
      ensures Disable(old(staff), caller, member) == if error.Some? then Refused(error.value) else Done(staff)
      ensures error.Some? ==> staff == old(staff)
    {
      if "users.manage" !in caller.permissions {
        return Some(Forbidden);
      }
      if member !in staff.members {
        return Some(NotFound);
      }
      if IsGlobalOwner(staff, member) {
        if OwnerCount(staff) <= 1 {
          return Some(Conflict);
        }
      }
      staff := Suspended(staff, member);
      error := None;
    }

    method AssignRole(caller: Caller, member: Id, role: string, branch: Option<Id>,
                      id: Id) returns (error: Option<Error>)
      modifies this
      ensures Assign(old(staff), caller, member, role, branch, id) == if error.Some? then Refused(error.value)
              else Done(staff)
      ensures error.Some? ==> staff == old(staff)
    {
      if "roles.manage" !in caller.permissions {
        return Some(Forbidden);
      }
      if member !in staff.members || !staff.members[member].active || role !in staff.grants {
        return Some(NotFound);
      }
      if branch.Some? {
        if branch.value !in staff.branches {
          return Some(NotFound);
        }
        if !Permits(caller, "branches.read", branch.value) {
          return Some(Forbidden);
        }
      }
      if !(staff.grants[role] <= caller.permissions) {
        return Some(Forbidden);
      }
      if role == OWNER && (branch.Some? || !IsGlobalOwner(staff, caller.member)) {
        return Some(Forbidden);
      }
      var assignment := Assignment(member, role, branch);
      if id in staff.assignments || exists a :: a in staff.assignments && staff.assignments[a] == assignment {
        return Some(Conflict);
      }
      staff := staff.(assignments := staff.assignments[id := assignment]);
      error := None;
    }

    method RemoveRole(caller: Caller, member: Id, id: Id) returns (error: Option<Error>)
      modifies this
      ensures Remove(old(staff), caller, member, id) == if error.Some? then Refused(error.value) else Done(staff)
      ensures error.Some? ==> staff == old(staff)
    {
      if "roles.manage" !in caller.permissions {
        return Some(Forbidden);
      }
      if id !in staff.assignments || staff.assignments[id].member != member {
        return Some(NotFound);
      }
      var role := staff.assignments[id].role;
      if role !in staff.grants {
        return Some(NotFound);
      }
      if role == OWNER && OwnerCount(staff) <= 1 {
        return Some(Conflict);
      }
      if !(staff.grants[role] <= caller.permissions) {
        return Some(Forbidden);
      }
      staff := staff.(assignments := staff.assignments - {id});
      error := None;
    }
  }

  // ---------------------------------------------------------------- the rule

  lemma OneMoreThan(s: set<Id>, t: set<Id>, x: Id)
    requires t == s - {x} && |s| >= 2
    ensures |t| >= 1
  {
    if x in s {
      assert |t| == |s| - 1;
    }
  }

  /** At most one counted row belongs to one member, so suspending takes away at most that row. */
  lemma SuspendingTakesOne(s: Staff, member: Id, x: Id)
    requires UniqueAssignments(s) && member in s.members
    requires x in s.assignments && GlobalOwner(s.assignments[x], member)
    ensures ActiveOwners(Suspended(s, member)) == ActiveOwners(s) - {x}
  {
    forall a | a in s.assignments && Counts(s, s.assignments[a]) && a != x
      ensures s.assignments[a].member != member
    {
      assert s.assignments[a] != s.assignments[x];
    }
  }

  lemma DisableKeepsOwner(s: Staff, caller: Caller, member: Id)
    requires UniqueAssignments(s) && OwnerCount(s) >= 1 && Disable(s, caller, member).Done?
    ensures UniqueAssignments(Disable(s, caller, member).staff) && OwnerCount(Disable(s, caller, member).staff) >= 1
  {
    hide ActiveOwners, UniqueAssignments;
    SameAssignments(s, Suspended(s, member));
    if IsGlobalOwner(s, member) {
      var x :| x in s.assignments && GlobalOwner(s.assignments[x], member);
      SuspendingTakesOne(s, member, x);
      OneMoreThan(ActiveOwners(s), ActiveOwners(Suspended(s, member)), x);
    } else {
      SuspendingOthers(s, member);
    }
  }

  lemma SameAssignments(s: Staff, t: Staff)
    requires t.assignments == s.assignments
    ensures UniqueAssignments(t) == UniqueAssignments(s)
  {
  }

  lemma SuspendingOthers(s: Staff, member: Id)
    requires member in s.members && !IsGlobalOwner(s, member)
    ensures ActiveOwners(Suspended(s, member)) == ActiveOwners(s)
  {
    forall a | a in s.assignments && Counts(s, s.assignments[a])
      ensures s.assignments[a].member != member
    {
      assert !GlobalOwner(s.assignments[a], member);
    }
  }

  lemma RemoveKeepsOwner(s: Staff, caller: Caller, member: Id, id: Id)
    requires UniqueAssignments(s) && OwnerCount(s) >= 1 && Remove(s, caller, member, id).Done?
    ensures UniqueAssignments(Remove(s, caller, member, id).staff)
    ensures OwnerCount(Remove(s, caller, member, id).staff) >= 1
  {
    var t := Remove(s, caller, member, id).staff;
    assert ActiveOwners(t) == ActiveOwners(s) - {id};
    if s.assignments[id].role == OWNER {
      OneMoreThan(ActiveOwners(s), ActiveOwners(t), id);
    } else {
      assert ActiveOwners(t) == ActiveOwners(s);
    }
  }

  lemma AssignKeepsOwner(s: Staff, caller: Caller, member: Id, role: string, branch: Option<Id>, id: Id)
    requires UniqueAssignments(s) && OwnerCount(s) >= 1 && Assign(s, caller, member, role, branch, id).Done?
    ensures var t := Assign(s, caller, member, role, branch, id).staff;
            UniqueAssignments(t) && OwnerCount(t) >= OwnerCount(s)
  {
    var t := Assign(s, caller, member, role, branch, id).staff;
    assert ActiveOwners(s) <= ActiveOwners(t);
    var more := ActiveOwners(t) - ActiveOwners(s);
    assert ActiveOwners(t) == ActiveOwners(s) + more;
  }

  /** Over every run of the three commands, an organization that has an active global owner
      keeps one. */
  lemma {:induction false} AlwaysAnOwner(s: Staff, cmds: seq<Command>)
    requires UniqueAssignments(s) && OwnerCount(s) >= 1
    ensures UniqueAssignments(Run(s, cmds)) && OwnerCount(Run(s, cmds)) >= 1
  {
    hide Disable, Assign, Remove, OwnerCount, UniqueAssignments;
    if cmds != [] {
      AlwaysAnOwner(s, cmds[..|cmds| - 1]);
      var before := Run(s, cmds[..|cmds| - 1]);
      if Apply(before, cmds[|cmds| - 1]).Done? {
        match cmds[|cmds| - 1] {
          case DoDisable(caller, member) => DisableKeepsOwner(before, caller, member);
          case DoAssign(caller, member, role, branch, id) => AssignKeepsOwner(before, caller, member, role, branch, id);
          case DoRemove(caller, member, id) => RemoveKeepsOwner(before, caller, member, id);
        }
      }
    }
  }

  /** An active owner is refused suspension exactly when the organization would be left
      without one. */
  lemma LastOwnerExactly(s: Staff, caller: Caller, member: Id, x: Id)
    requires UniqueAssignments(s) && "users.manage" in caller.permissions
    requires x in s.assignments && GlobalOwner(s.assignments[x], member) && Counts(s, s.assignments[x])
    ensures Disable(s, caller, member) ==
            if OwnerCount(Suspended(s, member)) == 0 then Refused(Conflict) else Done(Suspended(s, member))
  {
    hide UniqueAssignments;
    SuspendingTakesOne(s, member, x);
    assert x in ActiveOwners(s);
    assert |ActiveOwners(Suspended(s, member))| == |ActiveOwners(s)| - 1;
  }

  /** The rule rests on the partial unique index: were the only owner's row stored twice, the
      count would be two and the suspension would leave no owner. */
  lemma DuplicateRowsWouldBreakTheRule(caller: Caller)
    requires "users.manage" in caller.permissions
    ensures var s := Staff(map["m" := Member(true, true)], map[], {},
                           map["a" := Assignment("m", OWNER, None), "b" := Assignment("m", OWNER, None)]);
            OwnerCount(s) == 2 && Disable(s, caller, "m").Done? && OwnerCount(Disable(s, caller, "m").staff) == 0
  {
    var s := Staff(map["m" := Member(true, true)], map[], {},
                   map["a" := Assignment("m", OWNER, None), "b" := Assignment("m", OWNER, None)]);
    assert ActiveOwners(s) == {"a", "b"};
    assert "a" != "b";
    var t := Disable(s, caller, "m").staff;
    assert ActiveOwners(t) == {};
  }

  // ---------------------------------------------------------------- over the rows

  /** A role held everywhere by a member who is active in the organization and as a user. */
  ghost predicate ActiveOwner(s: Staff, a: Id) {
    && a in s.assignments && s.assignments[a].role == "OWNER" && s.assignments[a].branch.None?
    && s.assignments[a].member in s.members
    && s.members[s.assignments[a].member] == Member(true, true)
  }

  /** owner_count is at least two exactly when there are two different such rows. */
  lemma TwoOwners(s: Staff)
    ensures OwnerCount(s) > 1 <==> exists a, b :: a != b && ActiveOwner(s, a) && ActiveOwner(s, b)
    ensures forall a :: a in ActiveOwners(s) <==> ActiveOwner(s, a)
  {
    var owners := ActiveOwners(s);
    if |owners| > 1 {
      var a :| a in owners;
      var rest := owners - {a};
      assert |rest| == |owners| - 1;
      var b :| b in rest;
      assert ActiveOwner(s, a) && ActiveOwner(s, b);
    }
    forall a, b | a != b && ActiveOwner(s, a) && ActiveOwner(s, b)
      ensures |owners| > 1
    {
      var pair := {a, b};
      SubsetIsSmaller(pair, owners);
      assert |pair| == 2;
    }
  }

  lemma {:induction false} SubsetIsSmaller(s: set<Id>, t: set<Id>)
    requires s <= t
    ensures |s| <= |t|
  {
    if s != {} {
      var x :| x in s;
      SubsetIsSmaller(s - {x}, t - {x});
    }
  }

  /** A member is suspended exactly by a caller who manages users, and if the member holds the
      owner role everywhere, only while two active owners remain counted; nothing else changes. */
  lemma DisablesExactly(s: Staff, caller: Caller, member: Id)
    ensures Disable(s, caller, member).Done? <==>
            && "users.manage" in caller.permissions && member in s.members
            && ((exists x :: x in s.assignments && s.assignments[x] == Assignment(member, "OWNER", None)) ==>
                  exists a, b :: a != b && ActiveOwner(s, a) && ActiveOwner(s, b))
    ensures Disable(s, caller, member).Done? ==>
              Disable(s, caller, member).staff ==
              s.(members := s.members[member := Member(false, s.members[member].userActive)])
    ensures Disable(s, caller, member) == Refused(NotFound) ==> member !in s.members
    ensures Disable(s, caller, member) == Refused(Forbidden) <==> "users.manage" !in caller.permissions
  {
    hide OwnerCount, ActiveOwners, ActiveOwner;
    TwoOwners(s);
    assert IsGlobalOwner(s, member) <==>
           exists x :: x in s.assignments && s.assignments[x] == Assignment(member, "OWNER", None);
  }

  /** A role is given exactly by a caller who manages roles and holds, in the whole organization,
      everything the role grants; to an active member, once per scope; in a branch only where the
      caller may read branches; and the owner role only everywhere, and only by a holder of it. */
  lemma AssignsExactly(s: Staff, caller: Caller, member: Id, role: string, branch: Option<Id>, id: Id)
    requires id !in s.assignments
    ensures Assign(s, caller, member, role, branch, id).Done? <==>
            && "roles.manage" in caller.permissions
            && member in s.members && s.members[member].active && role in s.grants
            && (forall g :: g in s.grants[role] ==> g in caller.permissions)
            && (branch.Some? ==>
                  && branch.value in s.branches
                  && ("branches.read" in caller.permissions
                      || (branch.value in caller.branchPermissions
                          && "branches.read" in caller.branchPermissions[branch.value])))
            && (role == "OWNER" ==>
                  && branch.None?
                  && exists x :: x in s.assignments && s.assignments[x] == Assignment(caller.member, "OWNER", None))
            && (forall a :: a in s.assignments ==> s.assignments[a] != Assignment(member, role, branch))
    ensures Assign(s, caller, member, role, branch, id).Done? ==>
              Assign(s, caller, member, role, branch, id).staff ==
              s.(assignments := s.assignments[id := Assignment(member, role, branch)])
  {
    assert IsGlobalOwner(s, caller.member) <==>
           exists x :: x in s.assignments && s.assignments[x] == Assignment(caller.member, "OWNER", None);
  }

  /** A role is taken away exactly by a caller who manages roles and holds everything it grants,
      from the member who has it; an owner role of any scope only while two active owners are
      counted; only that row goes. */
  lemma RemovesExactly(s: Staff, caller: Caller, member: Id, id: Id)
    ensures Remove(s, caller, member, id).Done? <==>
            && "roles.manage" in caller.permissions
            && id in s.assignments && s.assignments[id].member == member && s.assignments[id].role in s.grants
            && (forall g :: g in s.grants[s.assignments[id].role] ==> g in caller.permissions)
            && (s.assignments[id].role == "OWNER" ==>
                  exists a, b :: a != b && ActiveOwner(s, a) && ActiveOwner(s, b))
    ensures Remove(s, caller, member, id).Done? ==>
              var t := Remove(s, caller, member, id).staff;
              && t == s.(assignments := t.assignments)
              && t.assignments == map a | a in s.assignments && a != id :: s.assignments[a]
  {
    hide OwnerCount, ActiveOwners, ActiveOwner;
    TwoOwners(s);
  }
}
