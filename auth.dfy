/** The `/auth` router (backend/auth.py): a second bearer-token check, which
    takes the token up to the next space instead of stripping the rest of the
    header, and re-wraps its own prefix rejection, and the `/me` projection. */
module Auth {
  import opened Common
  import opened Text
  import opened Backend
  import MainApi

  const VerificationFailed := "Token verification failed: "

  /** `str(e)` of the `HTTPException(401, "Invalid auth header")` that the
      prefix check raises inside the try. */
  const InvalidAuthHeaderText := "401: Invalid auth header"

  /** `authorization.split(" ")[1]`: after the prefix check it cannot fail, and
      it is the text after "Bearer " up to the next space. */
  function IdToken(authorization: string): (token: string)
    requires BearerPrefix <= authorization
    ensures token == UpToSpace(authorization[|BearerPrefix|..])
    ensures ' ' !in token
  {
    var rest := authorization[|BearerPrefix|..];
    assert authorization == "Bearer" + " " + rest;
    SplitAfterFirst("Bearer", rest);
    Split(authorization, ' ')[1]
  }

  /** `verify_firebase_token`: every failure, the prefix rejection included,
      becomes 401 with a detail that starts "Token verification failed: ". */
  function VerifyFirebaseToken(authorization: string, verify: TokenVerifier): (r: Result<Claims, HttpError>)
    ensures r.Failure? ==> r.error.status == 401 && VerificationFailed <= r.error.detail
    ensures !(BearerPrefix <= authorization) ==>
      r == Failure(HttpError(401, VerificationFailed + InvalidAuthHeaderText))
    ensures r.Success? <==>
      BearerPrefix <= authorization && verify(UpToSpace(authorization[|BearerPrefix|..])).Success?
    ensures r.Success? ==> r.value == verify(UpToSpace(authorization[|BearerPrefix|..])).value
  {
    if !(BearerPrefix <= authorization) then
      Failure(HttpError(401, VerificationFailed + InvalidAuthHeaderText))
    else
      match verify(IdToken(authorization))
      case Success(claims) => Success(claims)
      case Failure(message) => Failure(HttpError(401, VerificationFailed + message))
  }

  /** The `/me` reply. */
  datatype Me = Me(uid: string, email: Option<string>, phone: Option<string>)

  /** `get_current_user`: exactly the uid, the e-mail and the phone number of
      the decoded token, the last two possibly absent. */
  function GetCurrentUser(user: Result<Claims, HttpError>): (r: Result<Me, HttpError>)
    ensures r.Failure? <==> user.Failure?
    ensures r.Failure? ==> r.error == user.error
    ensures r.Success? ==>
      && r.value.uid == user.value.uid
      && r.value.email == user.value.email
      && r.value.phone == user.value.phoneNumber
  {
    match user
    case Failure(e) => Failure(e)
    case Success(claims) => Success(Me(claims.uid, claims.email, claims.phoneNumber))
  }

  /** On a well-formed header, "Bearer " followed by a token without spaces
      or outer whitespace, the two checks extract the same token. */
  lemma ParsersAgree(token: string)
    requires ' ' !in token && NoOuterSpace(token)
    ensures MainApi.IdToken(BearerPrefix + token) == token
    ensures IdToken(BearerPrefix + token) == token
  {
    assert (BearerPrefix + token)[|BearerPrefix|..] == token;
    StripNoOuterSpace(token);
  }

  /** They differ once the header holds a second space. After a double space
      (as in "Bearer  tok") this check sees an empty token where the main one
      sees the token. */
  lemma ParsersDisagreeOnDoubleSpace(token: string)
    requires NoOuterSpace(token)
    ensures MainApi.IdToken(BearerPrefix + " " + token) == token
    ensures IdToken(BearerPrefix + " " + token) == ""
  {
    var header := BearerPrefix + " " + token;
    var rest := " " + token;
    assert header[|BearerPrefix|..] == rest;
    assert rest[1..] == token;
    StripLeadingSpace(rest);
    StripNoOuterSpace(token);
    assert rest == "" + " " + token;
    UpToSpaceAfter("", token);
  }

  /** On a header with two words after the prefix, as "Bearer a b", the main
      check passes both words on ("a b") where this one passes the first ("a"). */
  lemma ParsersDisagreeOnSecondWord(first: string, second: string)
    requires first != [] && second != []
    requires ' ' !in first && NoOuterSpace(first) && NoOuterSpace(second)
    ensures MainApi.IdToken(BearerPrefix + first + " " + second) == first + " " + second
    ensures IdToken(BearerPrefix + first + " " + second) == first
  {
    var rest := first + " " + second;
    assert (BearerPrefix + first + " " + second)[|BearerPrefix|..] == rest;
    assert rest[0] == first[0] && rest[|rest| - 1] == second[|second| - 1];
    StripNoOuterSpace(rest);
    UpToSpaceAfter(first, second);
  }
}
