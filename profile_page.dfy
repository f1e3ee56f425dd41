/** The profile page (frontend/src/pages/Profile.jsx): the avatar letter and
    account id shown for the signed-in user, loading and saving the four
    profile fields, and deleting the account. */
module ProfilePage {
  import opened Common
  import opened Text

  /** The signed-in Firebase user, as far as the page reads it. */
  datatype User = User(uid: string, email: Option<string>, phoneNumber: Option<string>)

  /** The four profile fields the page edits and merges into `users/{uid}`. */
  datatype Fields = Fields(fullName: string, dob: string, bloodGroup: string, gender: string)

  /** A stored profile document: any of its fields may be missing. */
  datatype StoredProfile = StoredProfile(fullName: Option<string>, dob: Option<string>,
                                         bloodGroup: Option<string>, gender: Option<string>)

  /** A merge write of the profile fields into a user's document. */
  datatype Write = Write(uid: string, fields: Fields)

  const NoEmail := "?"
  const NoId := "N/A"
  const LoginFirst := "Please login first."
  const Saved := "\U{2705} Profile saved successfully!"
  const SaveFailed := "\U{274C} Failed to save profile."
  const DeletionCancelled := "Account deletion cancelled."
  const AccountDeleted := "Your account has been deleted."
  const RecentLoginCode := "auth/requires-recent-login"
  const SignInAgain := "You need to sign in again to delete your account."
  const DeleteFailed := "Failed to delete account. Please try again."
  const LoginPage := "/login"

  /** A present, non-empty string (JavaScript truthiness of a string). */
  predicate Truthy(s: Option<string>) {
    s.Some? && s.value != ""
  }

  /** `avatarLetter`: the upper-cased first character of the full name, else
      of the e-mail address, else "?". Always exactly one character, never a
      lower-case letter. */
  function AvatarLetter(fullName: string, user: Option<User>): (r: string)
    ensures |r| == 1 && !('a' <= r[0] <= 'z')
    ensures fullName != "" ==> r[0] == UpperChar(fullName[0])
    ensures fullName == "" && user.Some? && Truthy(user.value.email) ==> r[0] == UpperChar(user.value.email.value[0])
    ensures fullName == "" && !(user.Some? && Truthy(user.value.email)) ==> r == NoEmail
  {
    if fullName != "" then [UpperChar(fullName[0])]
    else if user.Some? && Truthy(user.value.email) then [UpperChar(user.value.email.value[0])]
    else NoEmail
  }

  /** `userId`: the phone number, else the e-mail address, else "N/A"; never
      empty. */
  function UserId(user: Option<User>): (r: string)
    ensures r != ""
    ensures user.Some? && Truthy(user.value.phoneNumber) ==> r == user.value.phoneNumber.value
    ensures user.Some? && !Truthy(user.value.phoneNumber) && Truthy(user.value.email) ==> r == user.value.email.value
    ensures !(user.Some? && (Truthy(user.value.phoneNumber) || Truthy(user.value.email))) ==> r == NoId
  {
    if user.Some? && Truthy(user.value.phoneNumber) then user.value.phoneNumber.value
    else if user.Some? && Truthy(user.value.email) then user.value.email.value
    else NoId
  }

  /** `data.field || ""`. */
  function OrEmpty(v: Option<string>): (r: string)
    ensures Truthy(v) ==> r == v.value
    ensures !Truthy(v) ==> r == ""
  {
    if Truthy(v) then v.value else ""
  }

  /** The fields `loadProfile` shows for a stored document. */
  function Loaded(data: StoredProfile): (f: Fields)
    ensures f.fullName == OrEmpty(data.fullName) && f.dob == OrEmpty(data.dob)
    ensures f.bloodGroup == OrEmpty(data.bloodGroup) && f.gender == OrEmpty(data.gender)
  {
    Fields(OrEmpty(data.fullName), OrEmpty(data.dob), OrEmpty(data.bloodGroup), OrEmpty(data.gender))
  }

  /** Saving the loaded fields and loading them back gives the same fields. */
  lemma LoadSaveRoundTrip(f: Fields)
    ensures Loaded(StoredProfile(Some(f.fullName), Some(f.dob), Some(f.bloodGroup), Some(f.gender))) == f
  {
  }

  /** The message for a failed account deletion: the sign-in-again one exactly
      for the recent-login error code. */
  function DeleteErrorMessage(code: string): (r: string)
    ensures r == SignInAgain <==> code == RecentLoginCode
    ensures r == DeleteFailed <==> code != RecentLoginCode
  {
    if code == RecentLoginCode then SignInAgain else DeleteFailed
  }

  class Profile {
    var fields: Fields
    var saving: bool
    var deleting: bool
    var error: Option<string>
    /** The `alert` messages shown so far, oldest first. */
    var alerts: seq<string>
    /** Every profile write so far, oldest first. */
    var writes: seq<Write>
    /** The page the browser was sent to, if any. */
    var location: Option<string>

    constructor()
      ensures fields == Fields("", "", "", "") && !saving && !deleting && error == None
      ensures alerts == [] && writes == [] && location == None
    {
      fields := Fields("", "", "", "");
      saving, deleting, error := false, false, None;
      alerts, writes, location := [], [], None;
    }

    /** `loadProfile`: nothing without a user, when the read fails or when
        there is no document; otherwise the stored fields, missing ones as "". */
    method LoadProfile(user: Option<User>, snapshot: Outcome<Option<StoredProfile>>)
      modifies this
      ensures user.Some? && snapshot.Done? && snapshot.value.Some? ==>
        fields == Loaded(snapshot.value.value)
      ensures !(user.Some? && snapshot.Done? && snapshot.value.Some?) ==> fields == old(fields)
      ensures saving == old(saving) && deleting == old(deleting) && error == old(error)
      ensures alerts == old(alerts) && writes == old(writes) && location == old(location)
    {
      if user.Some? && snapshot.Done? && snapshot.value.Some? {
        fields := Loaded(snapshot.value.value);
      }
    }

    /** `handleSave` up to the awaited write: without a user only an alert,
        `saving` untouched; otherwise `saving` is set and exactly the four
        fields are merged into the user's document. */
    method SaveClicked(user: Option<User>)
      modifies this
      ensures user.None? ==>
        alerts == old(alerts) + [LoginFirst] && writes == old(writes) && saving == old(saving)
      ensures user.Some? ==>
        alerts == old(alerts) && writes == old(writes) + [Write(user.value.uid, old(fields))] && saving
      ensures fields == old(fields) && deleting == old(deleting) && error == old(error)
      ensures location == old(location)
    {
      if user.None? {
        alerts := alerts + [LoginFirst];
        return;
      }
      saving := true;
      writes := writes + [Write(user.value.uid, fields)];
    }

    /** The write settles: an alert says how it went, and `saving` ends false
        either way. */
    method SaveSettled(succeeded: bool)
      modifies this
      ensures alerts == old(alerts) + [if succeeded then Saved else SaveFailed]
      ensures !saving
      ensures fields == old(fields) && deleting == old(deleting) && error == old(error)
      ensures writes == old(writes) && location == old(location)
    {
      alerts := alerts + [if succeeded then Saved else SaveFailed];
      saving := false;
    }

    /** `handleDeleteAccount`, run to its end. A declined confirmation does
        nothing. Otherwise: no current user, nothing more; an empty or
        dismissed password prompt cancels; a successful re-authentication and
        deletion alerts and goes to the login page; a failure with code `code`
        sets the matching error. `deleting` ends false in every case. */
    method HandleDeleteAccount(confirmed: bool, current: Option<User>, password: Option<string>,
                               outcome: Result<(), string>)
      modifies this
      ensures !confirmed ==>
        deleting == old(deleting) && error == old(error) && alerts == old(alerts) && location == old(location)
      ensures confirmed ==> !deleting
      ensures confirmed && current.None? ==>
        error == old(error) && alerts == old(alerts) && location == old(location)
      ensures confirmed && current.Some? && !Truthy(password) ==>
        error == old(error) && alerts == old(alerts) + [DeletionCancelled] && location == old(location)
      ensures confirmed && current.Some? && Truthy(password) && outcome.Success? ==>
        error == old(error) && alerts == old(alerts) + [AccountDeleted] && location == Some(LoginPage)
      ensures confirmed && current.Some? && Truthy(password) && outcome.Failure? ==>
        error == Some(DeleteErrorMessage(outcome.error)) && alerts == old(alerts) && location == old(location)
      ensures fields == old(fields) && saving == old(saving) && writes == old(writes)
    {
      if !confirmed {
        return;
      }
      deleting := true;
      if current.Some? {
        if Truthy(password) {
          match outcome {
            case Success(_) =>
              alerts := alerts + [AccountDeleted];
              location := Some(LoginPage);
            case Failure(code) =>
              error := Some(DeleteErrorMessage(code));
          }
        } else {
          alerts := alerts + [DeletionCancelled];
        }
      }
      deleting := false;
    }
  }
}
