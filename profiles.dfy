/**
 * The `profiles` row as the admin pages, the user menu and the profile hook read it, and
 * the two name expressions they share: the trimmed "first last" of an individual, and the
 * display name that falls back to the company name.
 */
module Profiles {
  import opened Wrappers
  import opened Text

  /**
   * A profile row. `userType` is the stored text ('individual' or 'company'); the pages
   * compare it with one of the two literals and send everything else down the other branch.
   * A column that is NULL or absent is `None`.
   */
  datatype Profile = Profile(
    id: string,
    userId: string,
    userType: string,
    firstName: Option<string>,
    lastName: Option<string>,
    companyName: Option<string>,
    cvrNumber: Option<string>)

  const IndividualType := "individual"
  const CompanyType := "company"

  /** `profile.first_name || ''`. */
  function First(p: Profile): string {
    OptOrElse(p.firstName, "")
  }

  /** `profile.last_name || ''`. */
  function Last(p: Profile): string {
    OptOrElse(p.lastName, "")
  }

  /** `` `${first_name || ''} ${last_name || ''}`.trim() ``. */
  function FullName(p: Profile): (r: string)
    ensures Clean(r)
  {
    Trim(First(p) + " " + Last(p))
  }

  lemma AllWhitespaceJoin(a: string, b: string)
    ensures AllWhitespace(a + " " + b) <==> AllWhitespace(a) && AllWhitespace(b)
  {
    var s := a + " " + b;
    assert forall i :: 0 <= i < |a| ==> s[i] == a[i];
    assert forall i :: 0 <= i < |b| ==> s[|a| + 1 + i] == b[i];
    assert s[|a|] == ' ';
    if AllWhitespace(a) && AllWhitespace(b) {
      forall i | 0 <= i < |s| ensures IsWhitespace(s[i]) {
        if i > |a| {
          assert s[i] == b[i - |a| - 1];
        }
      }
    }
  }

  /** The full name is empty exactly when both name parts are missing or nothing but whitespace. */
  lemma FullNameEmptyIff(p: Profile)
    ensures FullName(p) == "" <==> AllWhitespace(First(p)) && AllWhitespace(Last(p))
  {
    TrimEmptyIff(First(p) + " " + Last(p));
    AllWhitespaceJoin(First(p), Last(p));
  }

  /**
   * For name parts without surrounding whitespace the full name is "first last", or the
   * one part that is present, or empty when neither is: no stray space is left.
   */
  lemma FullNameOfCleanParts(p: Profile)
    requires Clean(First(p)) && Clean(Last(p))
    ensures FullName(p) == if First(p) == "" then Last(p) else if Last(p) == "" then First(p) else First(p) + " " + Last(p)
  {
    TrimJoin(First(p), Last(p));
  }

  /**
   * The name column and the user picker of the admin pages: an individual's full name,
   * anyone else's company name, or 'N/A'.
   */
  function DisplayName(p: Profile): (r: string)
    ensures p.userType != IndividualType ==> r != "" && (r == "N/A" || Some(r) == p.companyName)
  {
    if p.userType == IndividualType then FullName(p) else OptOrElse(p.companyName, "N/A")
  }

  /**
   * The company branch can never show an empty name, so an empty display name means an
   * individual whose name parts are missing or whitespace.
   */
  lemma DisplayNameEmptyIff(p: Profile)
    ensures DisplayName(p) == "" <==> p.userType == IndividualType && AllWhitespace(First(p)) && AllWhitespace(Last(p))
  {
    FullNameEmptyIff(p);
  }
}
