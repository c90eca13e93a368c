/**
 * The second admin page: profiles joined with the e-mail of their auth user, a search
 * that also looks at that e-mail, and the confirmation that guards every delete.
 */
module AdminDashboard {
  import opened Wrappers
  import opened Text
  import opened Lists
  import opened Profiles
  import Admin

  /** What `auth.admin.getUserById` gave for one profile: it threw, or it returned a user whose e-mail may be absent. */
  datatype AuthLookup = LookupThrew | LookupReturned(email: Option<string>)

  /** A profile row with the e-mail the page attached to it. */
  datatype DashboardProfile = DashboardProfile(profile: Profile, email: string)

  const NotAvailable := "N/A"

  /** `authUser.user?.email || 'N/A'`, and 'N/A' when the lookup throws. */
  function EmailOf(lookup: AuthLookup): (r: string)
    ensures r != ""
    ensures r != NotAvailable ==> lookup.LookupReturned? && lookup.email == Some(r)
    ensures lookup.LookupReturned? && lookup.email.Some? && lookup.email.value != "" ==> r == lookup.email.value
  {
    match lookup
    case LookupThrew => NotAvailable
    case LookupReturned(email) => OptOrElse(email, NotAvailable)
  }

  /**
   * The `Promise.all` over the profiles: each profile, in its place, with the e-mail of
   * its own lookup.
   */
  function WithEmails(profiles: seq<Profile>, lookups: seq<AuthLookup>): (r: seq<DashboardProfile>)
    requires |lookups| == |profiles|
    ensures |r| == |profiles|
    ensures forall i :: 0 <= i < |r| ==> r[i].profile == profiles[i] && r[i].email != ""
    ensures forall i :: 0 <= i < |r| ==> r[i].email == EmailOf(lookups[i])
    ensures forall i :: 0 <= i < |r| && (lookups[i].LookupThrew? || lookups[i].email.None?) ==> r[i].email == NotAvailable
    ensures forall i :: 0 <= i < |r| && lookups[i].LookupReturned? && lookups[i].email.Some? && lookups[i].email.value != ""
              ==> r[i].email == lookups[i].email.value
  {
    seq(|profiles|, i requires 0 <= i < |profiles| => DashboardProfile(profiles[i], EmailOf(lookups[i])))
  }

  /**
   * The search predicate: first name, last name, company name and e-mail compared
   * lower-cased, but the CVR number compared as typed.
   */
  predicate Matches(p: DashboardProfile, term: string) {
    Admin.FieldMatches(p.profile.firstName, term) || Admin.FieldMatches(p.profile.lastName, term)
    || Admin.FieldMatches(p.profile.companyName, term) || Admin.FieldMatches(Some(p.email), term)
    || (p.profile.cvrNumber.Some? && ContainsFrom(p.profile.cvrNumber.value, term, 0))
  }

  /** `filteredProfiles`. */
  function FilterProfiles(profiles: seq<DashboardProfile>, term: string): (r: seq<DashboardProfile>)
    ensures |r| <= |profiles|
    ensures forall p :: p in r <==> p in profiles && Matches(p, term)
  {
    Filter(profiles, p => Matches(p, term))
  }

  /** The list shows exactly the positions whose profile matches, in order. */
  lemma FilterProfilesSpec(profiles: seq<DashboardProfile>, term: string) returns (positions: seq<nat>)
    ensures Embeds(FilterProfiles(profiles, term), profiles, positions)
    ensures forall i :: 0 <= i < |profiles| ==> (i in positions <==> Matches(profiles[i], term))
  {
    positions := FilterIsSublist(profiles, p => Matches(p, term));
    forall k | 0 <= k < |positions| ensures Matches(profiles[positions[k]], term) {
      assert FilterProfiles(profiles, term)[k] == profiles[positions[k]];
    }
  }

  /**
   * Searching for "n/a" in any letter case finds every profile whose e-mail lookup failed,
   * because the placeholder is searched like a real address.
   */
  lemma PlaceholderMatches(p: DashboardProfile, term: string)
    requires p.email == NotAvailable && ToLower(term) == "n/a"
    ensures Matches(p, term)
  {
    assert ToLower(NotAvailable) == "n/a";
    assert InfixAt("n/a", "n/a", 0);
  }

  /** Every profile whose lookup gave no e-mail is in the result of a search for "n/a". */
  lemma PlaceholderSearch(profiles: seq<Profile>, lookups: seq<AuthLookup>, term: string, i: nat)
    requires |lookups| == |profiles| && i < |profiles| && ToLower(term) == "n/a"
    requires lookups[i].LookupThrew? || lookups[i].email.None?
    ensures WithEmails(profiles, lookups)[i] in FilterProfiles(WithEmails(profiles, lookups), term)
  {
    var rows := WithEmails(profiles, lookups);
    PlaceholderMatches(rows[i], term);
    var _ := FilterProfilesSpec(rows, term);
  }

  /**
   * The CVR number is the one field compared case-sensitively: a CVR "AB12" is found by
   * "AB12" but not by "ab12", while the other admin page finds it by both.
   */
  lemma CvrCaseSensitive()
    ensures var p := Profile("1", "u", CompanyType, None, None, None, Some("AB12"));
            var d := DashboardProfile(p, NotAvailable);
            Matches(d, "AB12") && !Matches(d, "ab12") && Admin.Matches(p, "ab12") && Admin.Matches(p, "AB12")
  {
    assert InfixAt("AB12", "AB12", 0);
    assert ToLower("AB12") == "ab12" && ToLower("ab12") == "ab12" && ToLower(NotAvailable) == "n/a";
    assert InfixAt("ab12", "ab12", 0);
    assert !ContainsFrom("n/a", "ab12", 0);
    assert !MatchesFrom("AB12", "ab12", 0, 0);
    assert !ContainsFrom("AB12", "ab12", 1);
  }

  /** The tables `deleteRecord` can delete from. */
  datatype Table = Budgets | Debts | ChatConversations

  /** The call a delete button issues. */
  datatype AdminCall = DeleteUser(userId: string) | DeleteRow(table: Table, id: string)

  /**
   * `deleteProfile`: nothing unless the confirmation is accepted; then the auth user is
   * deleted by its user id (the profile id is not used; the profile goes by cascade).
   */
  function DeleteProfile(confirmed: bool, profileId: string, userId: string): (r: Option<AdminCall>)
    ensures r.None? <==> !confirmed
    ensures r.Some? ==> r.value == DeleteUser(userId)
  {
    if !confirmed then None else Some(DeleteUser(userId))
  }

  /** `deleteRecord`: nothing unless the confirmation is accepted; then that row of that table is deleted. */
  function DeleteRecord(confirmed: bool, table: Table, id: string): (r: Option<AdminCall>)
    ensures r.None? <==> !confirmed
    ensures r.Some? ==> r.value == DeleteRow(table, id)
  {
    if !confirmed then None else Some(DeleteRow(table, id))
  }
}
