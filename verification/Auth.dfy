/**
 * The login exchange with the TLauncher authentication service: the request
 * payload, the decoded reply, and how the reply updates the in-memory session.
 */
module Auth {
  import opened Wrappers

  /**
   * The launcher's session fields: whether it is logged in, and the access
   * token, profile id and profile name of the last reply that supplied them
   * (None until one did).
   */
  datatype Session = Session(loggedIn: bool, accessToken: Option<string>, uuid: Option<string>, username: Option<string>)
  {
    /** A logged-in session has all three identity fields. */
    predicate Consistent()
    {
      loggedIn ==> accessToken.Some? && uuid.Some? && username.Some?
    }
  }

  /** The session of a freshly started launcher. */
  const SignedOut := Session(false, None, None, None)

  /** The JSON body posted to the service. */
  datatype AuthPayload = AuthPayload(username: string, password: string, clientToken: string, requestUser: bool)

  /** The decoded "selectedProfile" object; a key the reply lacks is None. */
  datatype Profile = Profile(id: Option<string>, name: Option<string>)

  /** What the exchange produced. */
  datatype AuthReply =
    | HttpFailure(code: int, body: Option<string>)                   // an HTTP error status; body None when reading or decoding it fails
    | OtherFailure                                                   // unreachable service, undecodable body, or any other exception
    | Decoded(accessToken: Option<string>, selectedProfile: Option<Profile>)  // a decoded JSON object

  /** The reply has every key the login reads: accessToken, selectedProfile.id and selectedProfile.name. */
  predicate Complete(reply: AuthReply)
  {
    && reply.Decoded?
    && reply.accessToken.Some?
    && reply.selectedProfile.Some?
    && reply.selectedProfile.value.id.Some?
    && reply.selectedProfile.value.name.Some?
  }

  /**
   * An HTTP error whose body cannot be read or decoded: the exception raised
   * inside the HTTP-error handler leaves the login before either handler
   * resets the logged-in flag.
   */
  predicate Escapes(reply: AuthReply)
  {
    reply.HttpFailure? && reply.body.None?
  }

  /** The lookups of accessToken and selectedProfile.id both succeeded. */
  predicate ReachesId(reply: AuthReply)
  {
    && reply.Decoded?
    && reply.accessToken.Some?
    && reply.selectedProfile.Some?
    && reply.selectedProfile.value.id.Some?
  }

  /**
   * The session after a login with reply `reply`. The fields are assigned one
   * after the other (token, then profile id, then profile name, then the
   * logged-in flag), and the first missing key ends the assignments and logs
   * the launcher out; the fields assigned before it keep their new values.
   * An HTTP error with an unreadable body changes nothing at all.
   */
  function ApplyReply(s: Session, reply: AuthReply): (r: Session)
    ensures s.Consistent() ==> r.Consistent()
    ensures Escapes(reply) ==> r == s
    ensures !Escapes(reply) ==> (r.loggedIn <==> Complete(reply))
    ensures r.accessToken == if reply.Decoded? && reply.accessToken.Some? then reply.accessToken else s.accessToken
    ensures r.uuid == if ReachesId(reply) then reply.selectedProfile.value.id else s.uuid
    ensures r.username == if Complete(reply) then reply.selectedProfile.value.name else s.username
  {
    match reply
    case HttpFailure(_, body) => if body.None? then s else s.(loggedIn := false)
    case OtherFailure => s.(loggedIn := false)
    case Decoded(token, profile) =>
      if token.None? then s.(loggedIn := false)
      else
        var s1 := s.(accessToken := token);
        if profile.None? || profile.value.id.None? then s1.(loggedIn := false)
        else
          var s2 := s1.(uuid := profile.value.id);
          if profile.value.name.None? then s2.(loggedIn := false)
          else s2.(username := profile.value.name, loggedIn := true)
  }

  /**
   * A failed exchange whose error is handled (an HTTP error with a readable
   * body, or any other failure) logs the launcher out, even if it was logged
   * in, and touches nothing else.
   */
  lemma FailureLogsOut(s: Session, reply: AuthReply)
    requires !reply.Decoded? && !Escapes(reply)
    ensures ApplyReply(s, reply) == s.(loggedIn := false)
  {
  }

  /** An HTTP error with an unreadable body leaves the session, logged-in flag included, as it was. */
  lemma UnreadableErrorKeepsSession(s: Session, code: int)
    ensures ApplyReply(s, HttpFailure(code, None)) == s
  {
  }

  /** A successful login holds exactly the identity the reply carried. */
  lemma SuccessAdoptsIdentity(s: Session, token: string, id: string, name: string)
    ensures ApplyReply(s, Decoded(Some(token), Some(Profile(Some(id), Some(name)))))
         == Session(true, Some(token), Some(id), Some(name))
  {
  }

  /**
   * A reply with a token but without a profile still overwrites the stored
   * token, so a logged-in launcher ends logged out with a token that no
   * longer matches its profile.
   */
  lemma PartialReplyOverwritesToken(s: Session, token: string)
    ensures var r := ApplyReply(s, Decoded(Some(token), None));
            !r.loggedIn && r.accessToken == Some(token) && r.uuid == s.uuid && r.username == s.username
  {
  }
}
