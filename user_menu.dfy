/**
 * The signed-in user's menu: an avatar with initials and a label, both derived from the
 * auth user's e-mail and the profile row, and no menu at all without a user.
 */
module UserMenu {
  import opened Wrappers
  import opened Text
  import opened Profiles

  /** The signed-in auth user; its e-mail may be absent. */
  datatype User = User(email: Option<string>)

  /** `s?.slice(0, 2).toUpperCase()`, the empty string standing in for a missing `s`. */
  function UpperPrefix(s: Option<string>, n: nat): string {
    if s.Some? then ToUpper(Take(s.value, n)) else ""
  }

  /** The avatar text (`getDisplayName`). */
  function Initials(user: User, profile: Option<Profile>): (r: string)
    ensures 1 <= |r| <= 2
  {
    if profile.None? then OrElse(UpperPrefix(user.email, 2), "?")
    else if profile.value.userType == CompanyType then OrElse(UpperPrefix(profile.value.companyName, 2), "V")
    else OrElse(ToUpper(Take(First(profile.value), 1) + Take(Last(profile.value), 1)), "?")
  }

  /** Without a profile the avatar shows the first one or two characters of the e-mail upper-cased, or '?'. */
  lemma InitialsWithoutProfile(user: User)
    ensures var r := Initials(user, None);
            && (user.email.None? || user.email.value == "" ==> r == "?")
            && (user.email.Some? && user.email.value != "" ==>
                  |r| == (if |user.email.value| < 2 then |user.email.value| else 2)
                  && forall i :: 0 <= i < |r| ==> r[i] == UpperChar(user.email.value[i]))
  {
    if user.email.Some? {
      ToUpperAt(Take(user.email.value, 2));
    }
  }

  /** A company shows the first one or two characters of its name upper-cased, or 'V'. */
  lemma InitialsOfCompany(user: User, p: Profile)
    requires p.userType == CompanyType
    ensures var r := Initials(user, Some(p));
            && (p.companyName.None? || p.companyName.value == "" ==> r == "V")
            && (p.companyName.Some? && p.companyName.value != "" ==>
                  |r| == (if |p.companyName.value| < 2 then |p.companyName.value| else 2)
                  && forall i :: 0 <= i < |r| ==> r[i] == UpperChar(p.companyName.value[i]))
  {
    if p.companyName.Some? {
      ToUpperAt(Take(p.companyName.value, 2));
    }
  }

  /**
   * Anyone else shows the upper-cased first letters of the first and the last name, the
   * one of them that is present, or '?' when both names are missing or empty.
   */
  lemma InitialsOfIndividual(user: User, p: Profile)
    requires p.userType != CompanyType
    ensures var r := Initials(user, Some(p));
            && (First(p) == "" && Last(p) == "" ==> r == "?")
            && (First(p) != "" && Last(p) != "" ==> r == [UpperChar(First(p)[0]), UpperChar(Last(p)[0])])
            && (First(p) != "" && Last(p) == "" ==> r == [UpperChar(First(p)[0])])
            && (First(p) == "" && Last(p) != "" ==> r == [UpperChar(Last(p)[0])])
  {
    var s := Take(First(p), 1) + Take(Last(p), 1);
    ToUpperAt(s);
    if First(p) != "" && Last(p) == "" {
      assert s == [First(p)[0]];
    }
    if First(p) == "" && Last(p) != "" {
      assert s == [Last(p)[0]];
    }
  }

  /** The label next to the avatar (`getDisplayText`); `None` is the absent e-mail. */
  function DisplayText(user: User, profile: Option<Profile>): (r: Option<string>)
    ensures r == user.email || (r.Some? && r.value != "")
    ensures profile.None? ==> r == user.email
  {
    if profile.None? then user.email
    else if profile.value.userType == CompanyType then
      (if profile.value.companyName.Some? && profile.value.companyName.value != "" then profile.value.companyName else user.email)
    else
      var name := FullName(profile.value);
      if name != "" then Some(name) else user.email
  }

  /** An individual's label is the full name, and the e-mail only when the name parts are blank. */
  lemma DisplayTextOfIndividual(user: User, p: Profile)
    requires p.userType != CompanyType
    ensures AllWhitespace(First(p)) && AllWhitespace(Last(p)) ==> DisplayText(user, Some(p)) == user.email
    ensures !(AllWhitespace(First(p)) && AllWhitespace(Last(p))) ==> DisplayText(user, Some(p)) == Some(FullName(p))
  {
    FullNameEmptyIff(p);
  }

  /** What the component renders: nothing without a user, else the avatar text and the label text. */
  datatype Menu = Menu(initials: string, text: Option<string>)

  function Render(user: Option<User>, profile: Option<Profile>): (r: Option<Menu>)
    ensures r.None? <==> user.None?
    ensures r.Some? ==> 1 <= |r.value.initials| <= 2
  {
    if user.None? then None else Some(Menu(Initials(user.value, profile), DisplayText(user.value, profile)))
  }
}
