/**
 * The profile hook: the signed-in user's profile row with a loading flag, the guarded
 * update, and the display name it offers.
 */
module UseProfile {
  import opened Wrappers
  import opened Text
  import opened Profiles

  /** `getDisplayName`: '' without a profile, an individual's full name, anyone else's company name or ''. */
  function GetDisplayName(profile: Option<Profile>): (r: string)
    ensures profile.None? ==> r == ""
  {
    if profile.None? then ""
    else if profile.value.userType == IndividualType then FullName(profile.value)
    else OptOrElse(profile.value.companyName, "")
  }

  /**
   * The hook and the admin pages name a profile alike, except for a company without a
   * company name: the hook shows '' where the admin pages show 'N/A'.
   */
  lemma AgreesWithAdminName(p: Profile)
    ensures GetDisplayName(Some(p)) == DisplayName(p)
            || (p.userType != IndividualType && GetDisplayName(Some(p)) == "" && DisplayName(p) == "N/A")
    ensures GetDisplayName(Some(p)) == "" <==>
              if p.userType == IndividualType then AllWhitespace(First(p)) && AllWhitespace(Last(p))
              else p.companyName.None? || p.companyName.value == ""
  {
    FullNameEmptyIff(p);
  }

  /** How the `profiles` query ended: an error result, a thrown exception, or the row. */
  datatype FetchOutcome = FetchError | FetchThrew | Fetched(row: Profile)

  /** How the update query ended: an error with its message, a thrown exception, or the updated row. */
  datatype UpdateOutcome = UpdateFailed(message: string) | UpdateThrew | Updated(row: Profile)

  /** What `updateProfile` resolves to: `{ error }` or `{ data }`. */
  datatype UpdateResult = UpdateError(error: string) | UpdateData(data: Profile)

  const NoUserOrProfile := "No user or profile found"
  const Unexpected := "An unexpected error occurred"

  /** The profile a finished fetch leaves: the row, or none on an error or an exception. */
  function FetchedProfile(outcome: FetchOutcome): (r: Option<Profile>)
    ensures r.Some? <==> outcome.Fetched?
    ensures r.Some? ==> r.value == outcome.row
  {
    if outcome.Fetched? then Some(outcome.row) else None
  }

  /** The update's answer: the error message, the fixed text for an exception, or the new row. */
  function UpdateAnswer(outcome: UpdateOutcome): (r: UpdateResult)
    ensures r.UpdateData? <==> outcome.Updated?
    ensures outcome.UpdateFailed? ==> r == UpdateError(outcome.message)
    ensures outcome.UpdateThrew? ==> r == UpdateError(Unexpected)
    ensures outcome.Updated? ==> r == UpdateData(outcome.row)
  {
    match outcome
    case UpdateFailed(message) => UpdateError(message)
    case UpdateThrew => UpdateError(Unexpected)
    case Updated(row) => UpdateData(row)
  }

  class ProfileHook {
    var profile: Option<Profile>
    var loading: bool

    constructor ()
      ensures profile.None? && loading
    {
      profile, loading := None, true;
    }

    /**
     * The effect on a change of user, once the fetch it starts has finished: no user means
     * no profile; otherwise the fetched row, or none when the query fails. Loading ends
     * either way.
     */
    method UserChanged(hasUser: bool, outcome: FetchOutcome)
      modifies this
      ensures !loading
      ensures !hasUser ==> profile.None?
      ensures hasUser ==> profile == FetchedProfile(outcome)
    {
      if !hasUser {
        profile := None;
        loading := false;
        return;
      }
      loading := true;
      match outcome {
        case Fetched(row) => profile := Some(row);
        case _ => profile := None;
      }
      loading := false;
    }

    /**
     * `updateProfile`: without a user or a loaded profile it answers 'No user or profile
     * found' and sends nothing. Otherwise the stored profile becomes the returned row on
     * success and stays as it was on failure.
     */
    method UpdateProfile(hasUser: bool, outcome: UpdateOutcome) returns (result: UpdateResult, sent: bool)
      modifies this`profile
      ensures !hasUser || old(profile).None? ==> result == UpdateError(NoUserOrProfile) && !sent && profile == old(profile)
      ensures hasUser && old(profile).Some? ==>
                && sent && result == UpdateAnswer(outcome)
                && profile == (if outcome.Updated? then Some(outcome.row) else old(profile))
    {
      if !hasUser || profile.None? {
        return UpdateError(NoUserOrProfile), false;
      }
      sent := true;
      match outcome {
        case UpdateFailed(message) =>
          result := UpdateError(message);
        case UpdateThrew =>
          result := UpdateError(Unexpected);
        case Updated(row) =>
          profile := Some(row);
          result := UpdateData(row);
      }
    }
  }
}
