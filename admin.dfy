/**
 * The admin page: the profile search, the role lookup, the owner label of a role row and
 * the role-assignment form.
 */
module Admin {
  import opened Wrappers
  import opened Text
  import opened Lists
  import opened Profiles

  /** A `user_roles` row. */
  datatype UserRole = UserRole(id: string, userId: string, role: string)

  /** `field?.toLowerCase().includes(term.toLowerCase())`: a missing field never matches. */
  predicate FieldMatches(field: Option<string>, term: string) {
    field.Some? && ContainsFrom(ToLower(field.value), ToLower(term), 0)
  }

  /** The search predicate: any of the four fields matches. */
  predicate Matches(p: Profile, term: string) {
    FieldMatches(p.firstName, term) || FieldMatches(p.lastName, term)
    || FieldMatches(p.companyName, term) || FieldMatches(p.cvrNumber, term)
  }

  /** `filteredProfiles`. */
  function FilterProfiles(profiles: seq<Profile>, term: string): (r: seq<Profile>)
    ensures |r| <= |profiles|
    ensures forall p :: p in r <==> p in profiles && Matches(p, term)
  {
    Filter(profiles, p => Matches(p, term))
  }

  /** A defined field matches when it contains the term, both lower-cased. */
  lemma FieldMatchesIff(field: Option<string>, term: string)
    ensures FieldMatches(field, term) <==> field.Some? && Contains(ToLower(field.value), ToLower(term))
  {
  }

  /**
   * The list shows exactly the positions whose profile has a defined first name, last
   * name, company name or CVR number containing the term case-insensitively, in order.
   */
  lemma FilterProfilesSpec(profiles: seq<Profile>, term: string) returns (positions: seq<nat>)
    ensures Embeds(FilterProfiles(profiles, term), profiles, positions)
    ensures forall i :: 0 <= i < |profiles| ==> (i in positions <==> Matches(profiles[i], term))
  {
    positions := FilterIsSublist(profiles, p => Matches(p, term));
    forall k | 0 <= k < |positions| ensures Matches(profiles[positions[k]], term) {
      assert FilterProfiles(profiles, term)[k] == profiles[positions[k]];
    }
  }

  /** With an empty search, a field matches exactly when it is defined, even as the empty string. */
  lemma EmptyTermMatchesDefined(field: Option<string>)
    ensures FieldMatches(field, "") <==> field.Some?
  {
    assert ToLower("") == "";
    if field.Some? {
      ContainsEmpty(ToLower(field.value));
    }
  }

  /** An empty search keeps exactly the profiles with at least one of the four fields defined. */
  lemma EmptySearch(profiles: seq<Profile>)
    ensures forall p :: p in FilterProfiles(profiles, "") <==>
              p in profiles && (p.firstName.Some? || p.lastName.Some? || p.companyName.Some? || p.cvrNumber.Some?)
  {
    forall p: Profile
      ensures Matches(p, "") <==> p.firstName.Some? || p.lastName.Some? || p.companyName.Some? || p.cvrNumber.Some?
    {
      EmptyTermMatchesDefined(p.firstName);
      EmptyTermMatchesDefined(p.lastName);
      EmptyTermMatchesDefined(p.companyName);
      EmptyTermMatchesDefined(p.cvrNumber);
    }
  }

  /** The search ignores the case of the term: a term and its lower-cased form match the same profiles. */
  lemma SearchIgnoresTermCase(p: Profile, term: string)
    ensures Matches(p, ToLower(term)) <==> Matches(p, term)
  {
    ToLowerIdempotent(term);
  }

  /**
   * `getUserRole`: the role of the first `user_roles` row of that user, or 'user' when
   * there is none (or its role is empty).
   */
  function GetUserRole(roles: seq<UserRole>, userId: string): (r: string)
    ensures (forall i :: 0 <= i < |roles| ==> roles[i].userId != userId) ==> r == "user"
    ensures forall i :: (0 <= i < |roles| && roles[i].userId == userId
                         && forall j :: 0 <= j < i ==> roles[j].userId != userId) ==> r == OrElse(roles[i].role, "user")
  {
    var k := FindIndex(roles, (x: UserRole) => x.userId == userId);
    if k.None? then "user" else OrElse(roles[k.value].role, "user")
  }

  const UnknownUser := "Ukendt bruger"

  /** `profiles.find(p => p.user_id === userId)`: the first profile of that user. */
  function FindProfile(profiles: seq<Profile>, userId: string): (r: Option<Profile>)
    ensures r.None? <==> forall i :: 0 <= i < |profiles| ==> profiles[i].userId != userId
    ensures forall i :: (0 <= i < |profiles| && profiles[i].userId == userId
                         && forall j :: 0 <= j < i ==> profiles[j].userId != userId) ==> r == Some(profiles[i])
  {
    var k := FindIndex(profiles, (p: Profile) => p.userId == userId);
    if k.None? then None else Some(profiles[k.value])
  }

  /** The user cell of a role row: the display name of the first profile of that user, else 'Ukendt bruger'. */
  function RoleOwnerLabel(profiles: seq<Profile>, role: UserRole): (r: string)
    ensures (forall i :: 0 <= i < |profiles| ==> profiles[i].userId != role.userId) ==> r == UnknownUser
    ensures FindProfile(profiles, role.userId).Some? ==> r == DisplayName(FindProfile(profiles, role.userId).value)
  {
    var p := FindProfile(profiles, role.userId);
    if p.None? then UnknownUser else DisplayName(p.value)
  }

  /** The row `assignRole` inserts into `user_roles`. */
  datatype RoleInsert = RoleInsert(userId: string, role: string)

  /** The role-assignment form: the picked user and role. */
  class RoleForm {
    var selectedUser: string
    var newRole: string

    constructor ()
      ensures selectedUser == "" && newRole == "user"
    {
      selectedUser, newRole := "", "user";
    }

    /**
     * `assignRole`: with no user or no role picked nothing happens. Otherwise the row is
     * inserted; when the insert succeeds the form goes back to no user and role 'user',
     * and when it fails the form keeps its values.
     */
    method AssignRole(insertOk: bool) returns (attempted: Option<RoleInsert>)
      modifies this
      ensures old(selectedUser) == "" || old(newRole) == "" ==>
                attempted == None && selectedUser == old(selectedUser) && newRole == old(newRole)
      ensures old(selectedUser) != "" && old(newRole) != "" ==> attempted == Some(RoleInsert(old(selectedUser), old(newRole)))
      ensures old(selectedUser) != "" && old(newRole) != "" && insertOk ==> selectedUser == "" && newRole == "user"
      ensures old(selectedUser) != "" && old(newRole) != "" && !insertOk ==>
                selectedUser == old(selectedUser) && newRole == old(newRole)
    {
      if selectedUser == "" || newRole == "" {
        return None;
      }
      attempted := Some(RoleInsert(selectedUser, newRole));
      if insertOk {
        selectedUser, newRole := "", "user";
      }
    }
  }
}
