/**
  `FirebaseRestAuth`: the session held by the REST authentication client
  (user id, ID token, e-mail, anonymous flag) and the JSON body it posts.
  A completed POST is passed in as its decoded response, None for a failed
  request or a raised exception (both end in `return false`). The guid of
  an anonymous sign-in is an input too.
 */
module RestAuth {
  import opened Wrappers
  import opened Strings

  const SIGN_UP_URL := "https://identitytoolkit.googleapis.com/v1/accounts:signUp?key="
  const SIGN_IN_URL := "https://identitytoolkit.googleapis.com/v1/accounts:signInWithPassword?key="
  const ANONYMOUS_PREFIX := "anonymous_"

  /** The four session properties; a null string is None. */
  datatype Session = Session(userId: Option<string>, idToken: Option<string>, email: Option<string>, isAnonymous: bool)

  /** `IsSignedIn`: the token is neither null nor empty. */
  predicate SignedIn(s: Session)
  {
    s.idToken.Some? && s.idToken.value != ""
  }

  /** The session `LoadTokenFromStorage` leaves: empty strings, not anonymous. */
  const INITIAL_SESSION := Session(Some(""), Some(""), Some(""), false)

  /** The decoded `AuthResponse`/`SignUpResponse` of a successful POST. */
  datatype AuthResponse = AuthResponse(idToken: Option<string>, localId: Option<string>, email: Option<string>)

  function AfterAnonymous(s: Session, guid: string): Session
  {
    Session(Some(guid), Some(ANONYMOUS_PREFIX + guid), s.email, true)
  }

  function AfterSignOut(s: Session): Session
  {
    Session(None, None, None, false)
  }

  /** The session after an e-mail sign-up or sign-in, and whether it
      reported success. */
  function AfterAuthResponse(s: Session, response: Option<AuthResponse>): (Session, bool)
  {
    match response
    case None => (s, false)
    case Some(a) => (Session(a.localId, a.idToken, a.email, false), true)
  }

  lemma InitialSessionSignedOut()
    ensures !SignedIn(INITIAL_SESSION) && !INITIAL_SESSION.isAnonymous
  {
  }

  /** An anonymous sign-in always leaves a signed-in, anonymous session
      whose token names its user id. */
  lemma AnonymousSignsIn(s: Session, guid: string)
    ensures var t := AfterAnonymous(s, guid);
      SignedIn(t) && t.isAnonymous && t.idToken == Some(ANONYMOUS_PREFIX + t.userId.value)
  {
  }

  /** Signing out leaves no one signed in, and signing out again changes
      nothing. */
  lemma SignOutIdempotent(s: Session)
    ensures !SignedIn(AfterSignOut(s)) && !AfterSignOut(s).isAnonymous
    ensures AfterSignOut(AfterSignOut(s)) == AfterSignOut(s)
  {
  }

  /** A missing response reports failure and keeps the session; a present
      one copies its three fields and clears the anonymous flag, and the
      session is then signed in exactly when the token is non-empty. */
  lemma AuthResponseEffect(s: Session, response: Option<AuthResponse>)
    ensures response.None? ==> AfterAuthResponse(s, response) == (s, false)
    ensures response.Some? ==>
      var (t, ok) := AfterAuthResponse(s, response);
      ok && t.idToken == response.value.idToken && t.userId == response.value.localId
      && t.email == response.value.email && !t.isAnonymous
      && (SignedIn(t) <==> response.value.idToken.Some? && response.value.idToken.value != "")
  {
  }

  /** A value in a POST body. */
  datatype RequestValue = RString(s: string) | RBool(b: bool) | RRaw(text: string)

  function EncodeRequestValue(v: RequestValue): string
  {
    match v
    case RString(s) => "\"" + s + "\""
    case RBool(b) => if b then "true" else "false"
    case RRaw(t) => t
  }

  function EncodeRequestEntry(e: (string, RequestValue)): string
  {
    "\"" + e.0 + "\":" + EncodeRequestValue(e.1)
  }

  /** The entries joined with commas, in the dictionary's order. */
  function JoinRequestEntries(es: seq<(string, RequestValue)>): string
  {
    if es == [] then ""
    else if |es| == 1 then EncodeRequestEntry(es[0])
    else EncodeRequestEntry(es[0]) + "," + JoinRequestEntries(es[1..])
  }

  /** The body `PostRequest` sends: `{`, the entries, `}`. */
  function RequestBody(data: seq<(string, RequestValue)>): string
  {
    "{" + JoinRequestEntries(data) + "}"
  }

  lemma {:induction false} JoinRequestEntriesSnoc(es: seq<(string, RequestValue)>, e: (string, RequestValue))
    ensures JoinRequestEntries(es + [e]) ==
      if es == [] then EncodeRequestEntry(e) else JoinRequestEntries(es) + "," + EncodeRequestEntry(e)
  {
    if es == [] {
      assert es + [e] == [e];
    } else {
      assert (es + [e])[0] == es[0] && (es + [e])[1..] == es[1..] + [e];
      if |es| == 1 {
        assert es[1..] == [];
        JoinRequestEntriesSnoc(es[1..], e);
      } else {
        JoinRequestEntriesSnoc(es[1..], e);
        var h := EncodeRequestEntry(es[0]);
        var t := JoinRequestEntries(es[1..]);
        CommaAssoc(h, t, EncodeRequestEntry(e));
      }
    }
  }

  /** The credentials request of sign-up and sign-in. */
  function CredentialsRequest(email: string, password: string): seq<(string, RequestValue)>
  {
    [("email", RString(email)), ("password", RString(password)), ("returnSecureToken", RBool(true))]
  }

  /** One pass of PostRequest's loop: appending entry i (and the comma
      when another entry follows) extends the body by that entry. */
  lemma {:induction false} RequestStep(data: seq<(string, RequestValue)>, i: nat, json: string)
    requires i < |data|
    requires i == 0 ==> json == "{" + JoinRequestEntries(data[..i])
    requires 0 < i ==> json == "{" + JoinRequestEntries(data[..i]) + ","
    ensures i + 1 < |data| ==>
      json + EncodeRequestEntry(data[i]) + "," == "{" + JoinRequestEntries(data[..i + 1]) + ","
    ensures i + 1 == |data| ==>
      json + EncodeRequestEntry(data[i]) == "{" + JoinRequestEntries(data[..i + 1])
  {
    assert data[..i + 1] == data[..i] + [data[i]];
    JoinRequestEntriesSnoc(data[..i], data[i]);
    if i == 0 {
      assert data[..i] == [];
    }
    AppendRequestEntry(json, JoinRequestEntries(data[..i]), EncodeRequestEntry(data[i]), i == 0);
  }

  lemma AppendRequestEntry(json: string, j: string, e: string, first: bool)
    requires first ==> json == "{" + j && j == ""
    requires !first ==> json == "{" + j + ","
    ensures json + e == "{" + (if first then e else j + "," + e)
    ensures json + e + "," == "{" + (if first then e else j + "," + e) + ","
  {
    if first {
      assert json == "{";
    }
  }

  class FirebaseRestAuth {
    var apiKey: string
    var userId: Option<string>
    var idToken: Option<string>
    var email: Option<string>
    var isAnonymous: bool

    function State(): Session
      reads this
    {
      Session(userId, idToken, email, isAnonymous)
    }

    predicate IsSignedIn()
      reads this
    {
      SignedIn(State())
    }

    /** The constructor, with `LoadTokenFromStorage`'s reset. */
    constructor(webApiKey: string)
      ensures apiKey == webApiKey && State() == INITIAL_SESSION
    {
      apiKey := webApiKey;
      idToken := Some("");
      userId := Some("");
      email := Some("");
      isAnonymous := false;
    }

    method SignInAnonymously(guid: string) returns (ok: bool)
      modifies this
      ensures ok && State() == AfterAnonymous(old(State()), guid) && apiKey == old(apiKey)
    {
      userId := Some(guid);
      idToken := Some(ANONYMOUS_PREFIX + guid);
      isAnonymous := true;
      ok := true;
    }

    method SignOut()
      modifies this
      ensures State() == AfterSignOut(old(State())) && apiKey == old(apiKey)
    {
      idToken := None;
      userId := None;
      email := None;
      isAnonymous := false;
    }

    /** The response handling shared by sign-up and sign-in. */
    method ApplyAuthResponse(response: Option<AuthResponse>) returns (ok: bool)
      modifies this
      ensures (State(), ok) == AfterAuthResponse(old(State()), response) && apiKey == old(apiKey)
    {
      if response.Some? {
        idToken := response.value.idToken;
        userId := response.value.localId;
        email := response.value.email;
        isAnonymous := false;
        return true;
      }
      return false;
    }

    /** `SignUpWithEmailPassword`: the URL and body posted, then the
        response handling. */
    method SignUpWithEmailPassword(emailText: string, password: string, response: Option<AuthResponse>)
      returns (ok: bool, url: string, body: string)
      modifies this
      ensures url == SIGN_UP_URL + old(apiKey)
      ensures body == RequestBody(CredentialsRequest(emailText, password))
      ensures (State(), ok) == AfterAuthResponse(old(State()), response) && apiKey == old(apiKey)
    {
      url := SIGN_UP_URL + apiKey;
      body := PostRequestBody(CredentialsRequest(emailText, password));
      ok := ApplyAuthResponse(response);
    }

    /** `SignInWithEmailPassword`, which differs only in its URL. */
    method SignInWithEmailPassword(emailText: string, password: string, response: Option<AuthResponse>)
      returns (ok: bool, url: string, body: string)
      modifies this
      ensures url == SIGN_IN_URL + old(apiKey)
      ensures body == RequestBody(CredentialsRequest(emailText, password))
      ensures (State(), ok) == AfterAuthResponse(old(State()), response) && apiKey == old(apiKey)
    {
      url := SIGN_IN_URL + apiKey;
      body := PostRequestBody(CredentialsRequest(emailText, password));
      ok := ApplyAuthResponse(response);
    }
  }

  /** The body loop of `PostRequest`. */
  method PostRequestBody(data: seq<(string, RequestValue)>) returns (json: string)
    ensures json == RequestBody(data)
  {
    json := "{";
    assert data[..0] == [];
    for i := 0 to |data|
      invariant (i == 0 || i == |data|) ==> json == "{" + JoinRequestEntries(data[..i])
      invariant 0 < i < |data| ==> json == "{" + JoinRequestEntries(data[..i]) + ","
    {
      var key := data[i].0;
      var entry := match data[i].1 {
        case RString(s) => "\"" + key + "\":\"" + s + "\""
        case RBool(b) => "\"" + key + "\":" + (if b then "true" else "false")
        case RRaw(t) => "\"" + key + "\":" + t
      };
      assert entry == EncodeRequestEntry(data[i]);
      RequestStep(data, i, json);
      json := json + entry;
      if i < |data| - 1 {
        json := json + ",";
      }
    }
    assert data[..|data|] == data;
    json := json + "}";
  }
}
