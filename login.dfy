/** Staff login: the face-ID capability flag (from storage at mount and from
    the e-mail check on blur), the password login that turns away client
    accounts, and the face-ID (WebAuthn) login with its early exits. */
module StaffLogin {
  import opened Wrappers
  import Text
  import Session

  const AccessDenied: string := "Access Denied: Please use the Client Login portal."
  const InvalidCredentials: string := "Invalid credentials"
  const LoginConnectionError: string := "Connection failed. Please try again."
  const EmailFirst: string := "Enter your email ID first."
  const FaceIdNotFound: string := "Face ID not found."
  const CredentialExpired: string := "Credential expired: Please login with your password and re enable face-id login"
  const VerificationFailed: string := "Verification failed."
  const FaceIdFallback: string := "Face ID login failed"
  const Dashboard: string := "/staff/dashboard"

  /** `checkEmail` asks the backend only for something shaped like an address. */
  predicate LooksLikeEmail(e: string) {
    '@' in e && '.' in e
  }

  /** The role check of both login paths: the staff portal turns away clients. */
  predicate IsClientRole(role: string) {
    role == "client"
  }

  /** The value written under the face-ID key after a password login. */
  function FaceIdFlag(enabled: bool): (r: string)
    ensures r == "true" <==> enabled
    ensures r == "true" || r == "false"
  {
    if enabled then "true" else "false"
  }

  /** `errorText || "Invalid credentials"`. */
  function LoginRejection(text: string): (r: string)
    ensures r != ""
    ensures text != "" ==> r == text
    ensures text == "" ==> r == "Invalid credentials"
  {
    if text != "" then text else InvalidCredentials
  }

  /** `err.message || "Face ID login failed"`. */
  function FaceIdFailure(message: string): (r: string)
    ensures r != ""
    ensures message != "" ==> r == message
    ensures message == "" ==> r == "Face ID login failed"
  {
    if message != "" then message else FaceIdFallback
  }

  /** `options.publicKey`: its plain fields (`challenge_id` among them when the
      backend sends one there; an empty value is JavaScript-falsy) and its
      `allowCredentials` list, which may be missing. */
  datatype PublicKey = PublicKey(fields: map<string, string>, allowCredentials: Option<seq<string>>)

  /** The wipe-recovery guard: a missing or empty `allowCredentials` list. */
  predicate CredentialsMissing(pk: PublicKey) {
    pk.allowCredentials.None? || pk.allowCredentials.value == []
  }

  /** `cleanOptions`: a copy of the public-key options from which
      `challenge_id` is deleted when its value is truthy. Only a falsy value
      (here the empty string) is left in place, and every other field passes
      through unchanged. */
  function CleanOptions(pk: PublicKey): (r: PublicKey)
    ensures r.allowCredentials == pk.allowCredentials
    ensures "challenge_id" in r.fields <==> "challenge_id" in pk.fields && pk.fields["challenge_id"] == ""
    ensures "challenge_id" in r.fields ==> r.fields["challenge_id"] == ""
    ensures r.fields.Keys - {"challenge_id"} == pk.fields.Keys - {"challenge_id"}
    ensures forall k :: k in r.fields ==> k in pk.fields && r.fields[k] == pk.fields[k]
  {
    if "challenge_id" in pk.fields && pk.fields["challenge_id"] != ""
    then PublicKey(pk.fields - {"challenge_id"}, pk.allowCredentials)
    else pk
  }

  /** What `/api/auth/check` came back with: the `faceid_registered` flag (read
      from any parseable body), or a thrown fetch/parse error. */
  datatype CheckReply = CheckAnswer(faceidRegistered: bool) | CheckThrown

  /** The body of `POST /api/login`. */
  datatype Credentials = Credentials(email: string, password: string)

  datatype LoginReply =
    | LoginOk(token: string, role: string, user: string, faceidEnabled: bool)
    | LoginRejected(text: string)
    | LoginThrown

  /** The `login/start` reply: the challenge id and the public-key options. */
  datatype StartReply = StartOk(challengeId: string, publicKey: PublicKey) | StartNotOk | StartThrown(message: string)

  /** The outcome of `startAuthentication`, a call into the browser: an
      assertion response, or a thrown error with its message. */
  datatype AuthReply = Assertion(response: string) | AuthThrown(message: string)

  datatype FinishReply = FinishOk(token: string, role: string, user: string) | FinishNotOk | FinishThrown(message: string)

  /** The body of `login/finish`: the top-level challenge id and the assertion. */
  datatype FinishBody = FinishBody(challengeId: string, response: string)

  /** The login page's state. */
  class StaffLoginPage {
    var email: string
    var password: string
    var error: string
    var loading: bool
    var faceIdAvailable: bool
    var snackbarOpen: bool
    var storage: Session.Storage

    constructor (st: Session.Storage)
      ensures email == "" && password == "" && error == "" && !loading
      ensures !faceIdAvailable && !snackbarOpen && storage == st
    {
      email, password, error, loading := "", "", "", false;
      faceIdAvailable, snackbarOpen, storage := false, false, st;
    }

    /** The mount effect: a stored flag `'true'` turns face-ID on, and a stored
        non-empty e-mail pre-fills the field. */
    method Mount()
      modifies this`faceIdAvailable, this`email
      ensures faceIdAvailable == (old(faceIdAvailable) || Session.GetItem(storage, Session.FaceIdKey) == Some("true"))
      ensures email == (if Session.Truthy(Session.GetItem(storage, Session.EmailKey))
                        then storage[Session.EmailKey] else old(email))
    {
      if Session.GetItem(storage, Session.FaceIdKey) == Some("true") {
        faceIdAvailable := true;
      }
      var lastEmail := Session.GetItem(storage, Session.EmailKey);
      if Session.Truthy(lastEmail) {
        email := lastEmail.value;
      }
    }

    /** `checkEmail(currentEmail)`: `requested` says whether the check was sent. */
    method CheckEmail(currentEmail: string, reply: CheckReply) returns (requested: bool)
      modifies this`faceIdAvailable, this`storage
      ensures requested == LooksLikeEmail(currentEmail)
      ensures requested && reply == CheckAnswer(true) ==>
        faceIdAvailable && storage == old(storage)[Session.FaceIdKey := "true"]
      ensures requested && reply == CheckAnswer(false) ==>
        && storage == old(storage)
        && faceIdAvailable == (old(faceIdAvailable) && Session.GetItem(storage, Session.FaceIdKey) == Some("true"))
      ensures !requested || reply.CheckThrown? ==>
        faceIdAvailable == old(faceIdAvailable) && storage == old(storage)
    {
      requested := LooksLikeEmail(currentEmail);
      if !requested {
        return;
      }
      match reply {
        case CheckAnswer(registered) =>
          if registered {
            faceIdAvailable := true;
            storage := storage[Session.FaceIdKey := "true"];
          } else {
            var stored := Session.GetItem(storage, Session.FaceIdKey);
            if stored != Some("true") {
              faceIdAvailable := false;
            }
          }
        case CheckThrown =>
      }
    }

    /** `handleLogin`, run to completion. */
    method HandleLogin(reply: LoginReply) returns (request: Credentials, route: Option<string>)
      modifies this`loading, this`error, this`storage
      ensures request == Credentials(email, password)
      ensures !loading
      ensures reply.LoginOk? && IsClientRole(reply.role) ==>
        error == AccessDenied && storage == old(storage) && route == None
      ensures reply.LoginOk? && !IsClientRole(reply.role) ==>
        && storage == Session.WriteSession(old(storage), reply.token, reply.role, reply.user, email)
                        [Session.FaceIdKey := FaceIdFlag(reply.faceidEnabled)]
        && error == "" && route == Some(Dashboard)
      ensures reply.LoginRejected? ==>
        error == LoginRejection(reply.text) && storage == old(storage) && route == None
      ensures reply.LoginThrown? ==>
        error == LoginConnectionError && storage == old(storage) && route == None
    {
      loading := true;
      error := "";
      request := Credentials(email, password);
      route := None;
      match reply {
        case LoginOk(token, role, user, faceidEnabled) =>
          if IsClientRole(role) {
            error := AccessDenied;
          } else {
            storage := Session.WriteSession(storage, token, role, user, email);
            storage := storage[Session.FaceIdKey := FaceIdFlag(faceidEnabled)];
            route := Some(Dashboard);
          }
        case LoginRejected(text) =>
          error := LoginRejection(text);
        case LoginThrown =>
          error := LoginConnectionError;
      }
      loading := false;
    }

    /** Record a failure caught by the face-ID handler's `catch`. */
    method FailFaceId(message: string)
      modifies this`error, this`snackbarOpen
      ensures error == FaceIdFailure(message) && snackbarOpen
    {
      error := FaceIdFailure(message);
      snackbarOpen := true;
    }

    /** `handleFaceIdLogin`, run to completion. The out-parameters are the
        requests made: the e-mail sent to `login/start`, the options handed to
        the authenticator and the body sent to `login/finish`. */
    method HandleFaceIdLogin(start: StartReply, auth: AuthReply, finish: FinishReply)
      returns (startRequest: Option<string>, authOptions: Option<PublicKey>,
               finishRequest: Option<FinishBody>, route: Option<string>)
      modifies this`error, this`snackbarOpen, this`storage
      ensures email == "" ==>
        && error == EmailFirst && snackbarOpen == old(snackbarOpen) && storage == old(storage)
        && startRequest == None && authOptions == None && finishRequest == None && route == None
      ensures email != "" ==> startRequest == Some(email)
      ensures authOptions.Some? ==>
        && start.StartOk? && !CredentialsMissing(start.publicKey)
        && authOptions == Some(CleanOptions(start.publicKey))
      ensures email != "" && start.StartThrown? ==>
        error == FaceIdFailure(start.message) && snackbarOpen && authOptions == None
      ensures email != "" && start.StartNotOk? ==>
        error == FaceIdNotFound && snackbarOpen && authOptions == None
      ensures email != "" && start.StartOk? && CredentialsMissing(start.publicKey) ==>
        error == CredentialExpired && snackbarOpen && authOptions == None && finishRequest == None
      ensures email != "" && start.StartOk? && !CredentialsMissing(start.publicKey) ==>
        authOptions.Some?
      ensures finishRequest.Some? ==>
        authOptions.Some? && auth.Assertion? && finishRequest == Some(FinishBody(start.challengeId, auth.response))
      ensures authOptions.Some? && auth.AuthThrown? ==>
        error == FaceIdFailure(auth.message) && snackbarOpen && finishRequest == None
      ensures authOptions.Some? && auth.Assertion? ==> finishRequest.Some?
      ensures finishRequest.Some? && finish.FinishThrown? ==>
        error == FaceIdFailure(finish.message) && snackbarOpen && storage == old(storage)
      ensures finishRequest.Some? && finish.FinishNotOk? ==>
        error == VerificationFailed && snackbarOpen && storage == old(storage)
      ensures finishRequest.Some? && finish.FinishOk? && IsClientRole(finish.role) ==>
        error == AccessDenied && snackbarOpen == old(snackbarOpen) && storage == old(storage) && route == None
      ensures finishRequest.Some? && finish.FinishOk? && !IsClientRole(finish.role) ==>
        && storage == Session.WriteSession(old(storage), finish.token, finish.role, finish.user, email)
                        [Session.FaceIdKey := "true"]
        && error == old(error) && snackbarOpen == old(snackbarOpen) && route == Some(Dashboard)
      ensures route.Some? ==> finishRequest.Some? && finish.FinishOk? && !IsClientRole(finish.role)
      ensures !(finishRequest.Some? && finish.FinishOk? && !IsClientRole(finish.role)) ==> storage == old(storage)
    {
      startRequest, authOptions, finishRequest, route := None, None, None, None;
      if email == "" {
        error := EmailFirst;
        return;
      }
      startRequest := Some(email);
      match start {
        case StartThrown(message) =>
          FailFaceId(message);
        case StartNotOk =>
          FailFaceId(FaceIdNotFound);
        case StartOk(challengeId, publicKey) =>
          if CredentialsMissing(publicKey) {
            FailFaceId(CredentialExpired);
            return;
          }
          authOptions := Some(CleanOptions(publicKey));
          match auth {
            case AuthThrown(message) =>
              FailFaceId(message);
            case Assertion(response) =>
              finishRequest := Some(FinishBody(challengeId, response));
              match finish {
                case FinishThrown(message) =>
                  FailFaceId(message);
                case FinishNotOk =>
                  FailFaceId(VerificationFailed);
                case FinishOk(token, role, user) =>
                  if IsClientRole(role) {
                    error := AccessDenied;
                  } else {
                    storage := Session.WriteSession(storage, token, role, user, email);
                    storage := storage[Session.FaceIdKey := "true"];
                    route := Some(Dashboard);
                  }
              }
          }
      }
    }
  }

  /** A client account never gets a session from the staff portal, by either
      path: after a password login or a face-ID login whose reply carries role
      `client`, no storage key changes and the access-denied message shows. */
  method ClientRoleWritesNothing(st: Session.Storage, email: string, token: string, user: string,
                                 faceid: bool, challengeId: string, pk: PublicKey, response: string)
    returns (kept: bool, denied: bool)
    requires email != "" && !CredentialsMissing(pk)
    ensures kept && denied
  {
    var page := new StaffLoginPage(st);
    var _, _ := page.HandleLogin(LoginOk(token, "client", user, faceid));
    var face := new StaffLoginPage(st);
    face.email := email;
    var _, _, _, _ := face.HandleFaceIdLogin(StartOk(challengeId, pk), Assertion(response),
                                             FinishOk(token, "client", user));
    kept := page.storage == st && face.storage == st;
    denied := page.error == AccessDenied && face.error == AccessDenied;
  }
}
