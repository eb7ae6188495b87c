/**
 * The authentication session manager, `AuthenticationService`.
 *
 * The service is a class whose fields the two `getSessionID` overloads and
 * the accessors update step by step. Each of its methods is tied, by its
 * postcondition, to a function on a snapshot of those fields
 * (`ServiceState`); the properties of a login are lemmas about those
 * functions. The network is the `Wire` oracle, the JSON parser the
 * `Parser` the service is built with, and the disk a `Disk` object mapping
 * paths to saved records.
 */
module Auth {
  import opened Wrappers
  import opened Java
  import opened Json
  import opened Transport

  const AuthenticateUrl := "https://authserver.mojang.com/authenticate"
  const ValidateUrl := "https://authserver.mojang.com/validate"
  const LastLoginFileName := "lastLogin.json"

  /** The saved session record, with the constructor's argument order. */
  datatype LastLogin = LastLogin(
    username: string,
    name: string,
    accessToken: string,
    profileId: string,
    clientToken: string)

  /** `JsonParser.parse` on a text: `None` when it throws a syntax error. */
  type Parser = string -> Option<Json>

  // ---------------------------------------------------------------------------
  // Requests
  // ---------------------------------------------------------------------------

  /** The "agent" member of the credential request. */
  const Agent := JObject([Member("name", JString("Minecraft")), Member("version", JNumber("1"))])

  /** The credential request `getSSID` builds. */
  function AuthRequest(username: string, password: string): Json
  {
    JObject([Member("agent", Agent), Member("username", JString(username)), Member("password", JString(password))])
  }

  /** The body `isValid` posts. */
  function ValidateRequest(accessToken: string): Json
  {
    JObject([Member("accessToken", JString(accessToken))])
  }

  /**
   * The text of the credential request: the agent member, then the two
   * credentials as string literals, in this order.
   */
  lemma AuthRequestText(username: string, password: string)
    ensures Write(AuthRequest(username, password))
         == "{" + (Quote("agent") + ":" + Write(Agent) + ","
                   + (Quote("username") + ":" + Quote(username) + ","
                      + (Quote("password") + ":" + Quote(password)))) + "}"
  {
    WriteThreeMembers("agent", Agent, "username", JString(username), "password", JString(password));
  }

  lemma RequestShape(qa: string, wa: string, qu: string, u: string, qp: string, p: string)
    ensures "{" + (qa + ":" + wa + "," + (qu + ":" + u + "," + (qp + ":" + p))) + "}"
         == ("{" + qa + ":" + wa + "," + qu + ":") + (u + (("," + qp + ":") + (p + "}")))
  {
  }

  /** The request text determines the credentials: the server reads back what was typed. */
  lemma AuthRequestInjective(u1: string, p1: string, u2: string, p2: string)
    requires Write(AuthRequest(u1, p1)) == Write(AuthRequest(u2, p2))
    ensures u1 == u2 && p1 == p2
  {
    AuthRequestText(u1, p1);
    AuthRequestText(u2, p2);
    var qa, wa, qu, qp := Quote("agent"), Write(Agent), Quote("username"), Quote("password");
    RequestShape(qa, wa, qu, Quote(u1), qp, Quote(p1));
    RequestShape(qa, wa, qu, Quote(u2), qp, Quote(p2));
    var head, mid := "{" + qa + ":" + wa + "," + qu + ":", "," + qp + ":";
    var t1 := Quote(u1) + (mid + (Quote(p1) + "}"));
    var t2 := Quote(u2) + (mid + (Quote(p2) + "}"));
    assert t1 == (head + t1)[|head|..];
    assert t2 == (head + t2)[|head|..];
    QuoteInjective(u1, mid + (Quote(p1) + "}"), u2, mid + (Quote(p2) + "}"));
    var r1, r2 := Quote(p1) + "}", Quote(p2) + "}";
    assert r1 == (mid + r1)[|mid|..];
    assert r2 == (mid + r2)[|mid|..];
    QuoteInjective(p1, "}", p2, "}");
  }

  /** The text of the validation request: its one member, the access token. */
  lemma ValidateRequestText(accessToken: string)
    ensures Write(ValidateRequest(accessToken)) == "{" + (Quote("accessToken") + ":" + Quote(accessToken)) + "}"
  {
    assert WriteMembers(ValidateRequest(accessToken).members) == Quote("accessToken") + ":" + Write(JString(accessToken));
  }

  lemma ValidateShape(qk: string, t: string)
    ensures "{" + (qk + ":" + t) + "}" == ("{" + qk + ":") + (t + "}")
  {
  }

  /** The validation request text determines the access token. */
  lemma ValidateRequestInjective(t1: string, t2: string)
    requires Write(ValidateRequest(t1)) == Write(ValidateRequest(t2))
    ensures t1 == t2
  {
    ValidateRequestText(t1);
    ValidateRequestText(t2);
    var qk := Quote("accessToken");
    ValidateShape(qk, Quote(t1));
    ValidateShape(qk, Quote(t2));
    var head := "{" + qk + ":";
    assert Quote(t1) + "}" == (head + (Quote(t1) + "}"))[|head|..];
    assert Quote(t2) + "}" == (head + (Quote(t2) + "}"))[|head|..];
    QuoteInjective(t1, "}", t2, "}");
  }

  /** What `executePost` returns for the credential request. */
  function CredentialReply(wire: Wire, username: string, password: string): StrRef
  {
    PostResult(wire(AuthenticateUrl, Write(AuthRequest(username, password))))
  }

  /** Whether the validation POST of `accessToken` returns a body. */
  predicate Accepts(wire: Wire, accessToken: string)
  {
    wire(ValidateUrl, Write(ValidateRequest(accessToken))).Some?
  }

  // ---------------------------------------------------------------------------
  // Reading the retained response
  // ---------------------------------------------------------------------------

  /** The session handle both logins return. */
  function SessionHandle(accessToken: string, profileId: string): string
  {
    "token:" + accessToken + ":" + profileId
  }

  /**
   * The test before parsing a credential reply: `mResponse != null &&
   * mResponse != ""`, where `!=` compares references.
   */
  predicate PassesResponseGuard(r: StrRef)
  {
    r != Null && !SameAsLiteral(r, "")
  }

  /**
   * A reply `executePost` produced passes the guard exactly when it is not
   * null, the empty body included: the comparison with `""` never fires.
   * The text it then parses is empty exactly when the reply had no lines.
   */
  lemma GuardOnPostResult(reply: Option<seq<Line>>)
    ensures PassesResponseGuard(PostResult(reply)) <==> reply.Some?
    ensures PassesResponseGuard(PostResult(reply)) && PostResult(reply).text == "" <==> reply == Some([])
  {
    if reply.Some? {
      JoinedEmpty(reply.value);
    }
  }

  /** `(JsonObject) new JsonParser().parse(text)`. */
  function ResponseObject(parser: Parser, r: StrRef): Result<seq<Member>, Exception>
  {
    match r
    case Null => Failure(NullPointer)
    case Str(text, _) =>
      match parser(text)
      case None => Failure(JsonSyntax)
      case Some(JObject(ms)) => Success(ms)
      case Some(_) => Failure(ClassCast)
  }

  /** A top-level string field of the response, such as "accessToken". */
  function ResponseString(parser: Parser, r: StrRef, key: string): Result<string, Exception>
  {
    var ms :- ResponseObject(parser, r);
    StringMember(ms, key)
  }

  /** A string field of the response's "selectedProfile" object, such as "id". */
  function ResponseProfileString(parser: Parser, r: StrRef, key: string): Result<string, Exception>
  {
    var ms :- ResponseObject(parser, r);
    var profile :- ObjectMember(ms, "selectedProfile");
    StringMember(profile, key)
  }

  /** The four values a credential reply carries. */
  datatype Credentials = Credentials(accessToken: string, clientToken: string, profileId: string, name: string)

  /** The credentials in a reply, when all four fields read as strings. */
  function ReadCredentials(parser: Parser, r: StrRef): Option<Credentials>
  {
    match (ResponseString(parser, r, "accessToken"), ResponseString(parser, r, "clientToken"),
           ResponseProfileString(parser, r, "id"), ResponseProfileString(parser, r, "name"))
    case (Success(a), Success(c), Success(i), Success(n)) => Some(Credentials(a, c, i, n))
    case _ => None
  }

  /**
   * Any reply object, with more members and in any order, yields the four
   * fields its members hold under the looked-up keys.
   */
  lemma ReadReplyMembers(parser: Parser, r: StrRef, c: Credentials, ms: seq<Member>, profile: seq<Member>)
    requires r.Str? && parser(r.text) == Some(JObject(ms))
    requires Get(ms, "accessToken") == Some(JString(c.accessToken))
    requires Get(ms, "clientToken") == Some(JString(c.clientToken))
    requires Get(ms, "selectedProfile") == Some(JObject(profile))
    requires Get(profile, "id") == Some(JString(c.profileId))
    requires Get(profile, "name") == Some(JString(c.name))
    ensures ReadCredentials(parser, r) == Some(c)
  {
  }

  /** A reply whose text parses to the documented object yields exactly its four fields. */
  lemma ReadDocumentedReply(parser: Parser, r: StrRef, c: Credentials)
    requires r.Str?
    requires parser(r.text) == Some(JObject([
      Member("accessToken", JString(c.accessToken)),
      Member("clientToken", JString(c.clientToken)),
      Member("selectedProfile", JObject([Member("id", JString(c.profileId)), Member("name", JString(c.name))]))]))
    ensures ReadCredentials(parser, r) == Some(c)
  {
    var profile := [Member("id", JString(c.profileId)), Member("name", JString(c.name))];
    var ms := [Member("accessToken", JString(c.accessToken)), Member("clientToken", JString(c.clientToken)),
               Member("selectedProfile", JObject(profile))];
    assert ResponseObject(parser, r) == Success(ms);
    assert Get(ms, "accessToken") == Some(JString(c.accessToken)) by {
      assert ms[..2][..1] == ms[..1];
      assert Get(ms[..1], "accessToken") == Some(JString(c.accessToken));
      assert Get(ms[..2], "accessToken") == Some(JString(c.accessToken));
    }
    assert Get(ms, "clientToken") == Some(JString(c.clientToken)) by {
      assert Get(ms[..2], "clientToken") == Some(JString(c.clientToken));
    }
    assert ObjectMember(ms, "selectedProfile") == Success(profile);
    assert Get(profile, "id") == Some(JString(c.profileId)) by {
      assert Get(profile[..1], "id") == Some(JString(c.profileId));
    }
    assert ResponseString(parser, r, "accessToken") == Success(c.accessToken);
    assert ResponseString(parser, r, "clientToken") == Success(c.clientToken);
    assert ResponseProfileString(parser, r, "id") == Success(c.profileId);
    assert ResponseProfileString(parser, r, "name") == Success(c.name);
  }

  // ---------------------------------------------------------------------------
  // The service's state and the effect of each of its methods
  // ---------------------------------------------------------------------------

  /** The fields of a service object. */
  datatype ServiceState = ServiceState(
    response: StrRef,
    accessToken: string,
    clientToken: string,
    profileId: string,
    valid: bool,
    lastLogin: Option<LastLogin>)
  {
    /** The record the accessors read while the cached session is valid is there. */
    ghost predicate Valid()
    {
      valid ==> lastLogin.Some?
    }
  }

  /** A new service: the interned "" as its response, empty tokens, not valid, no record. */
  const Initial := ServiceState(Literal(""), "", "", "", false, None)

  /** The state a method leaves and what it returned or threw. */
  datatype Step<T> = Step(state: ServiceState, result: Result<T, Exception>)

  /** `getAccessToken`: from the record while valid, otherwise parsed and cached. */
  function AccessTokenStep(parser: Parser, s: ServiceState): (r: Step<string>)
    requires s.Valid()
    ensures r.state == s.(accessToken := r.state.accessToken) && r.state.Valid()
    ensures r.result.Failure? || s.valid ==> r.state == s
    ensures !s.valid ==> r.result == ResponseString(parser, s.response, "accessToken")
    ensures s.valid ==> r.result == Success(s.lastLogin.value.accessToken)
    ensures !s.valid && r.result.Success? ==> r.state.accessToken == r.result.value
  {
    if s.valid then Step(s, Success(s.lastLogin.value.accessToken))
    else match ResponseString(parser, s.response, "accessToken")
      case Success(t) => Step(s.(accessToken := t), Success(t))
      case Failure(e) => Step(s, Failure(e))
  }

  /** `getClientToken`: from the record while valid, otherwise the field. */
  function ClientTokenOf(s: ServiceState): (r: string)
    requires s.Valid()
    ensures s.valid ==> r == s.lastLogin.value.clientToken
    ensures !s.valid ==> r == s.clientToken
  {
    if s.valid then s.lastLogin.value.clientToken else s.clientToken
  }

  /** `getName`: the record's USERNAME while valid, otherwise the profile name in the response. */
  function NameOf(parser: Parser, s: ServiceState): (r: Result<string, Exception>)
    requires s.Valid()
    ensures s.valid ==> r == Success(s.lastLogin.value.username)
    ensures !s.valid ==> r == ResponseProfileString(parser, s.response, "name")
  {
    if s.valid then Success(s.lastLogin.value.username)
    else ResponseProfileString(parser, s.response, "name")
  }

  /** `setClientTokenFromResponse(text)`: parses its argument. */
  function ClientTokenFromResponseStep(parser: Parser, s: ServiceState, text: StrRef): (r: Step<()>)
    ensures r.state == s.(clientToken := r.state.clientToken)
    ensures r.result.Failure? ==> r.state == s
    ensures r.result.Success? <==> ResponseString(parser, text, "clientToken").Success?
    ensures r.result.Success? ==> r.state.clientToken == ResponseString(parser, text, "clientToken").value
  {
    match ResponseString(parser, text, "clientToken")
    case Success(t) => Step(s.(clientToken := t), Success(()))
    case Failure(e) => Step(s, Failure(e))
  }

  /** `setProfileIDFromRequest`: parses the retained response, whatever its argument. */
  function ProfileIdFromResponseStep(parser: Parser, s: ServiceState): (r: Step<()>)
    ensures r.state == s.(profileId := r.state.profileId)
    ensures r.result.Failure? ==> r.state == s
    ensures r.result.Success? <==> ResponseProfileString(parser, s.response, "id").Success?
    ensures r.result.Success? ==> r.state.profileId == ResponseProfileString(parser, s.response, "id").value
  {
    match ResponseProfileString(parser, s.response, "id")
    case Success(p) => Step(s.(profileId := p), Success(()))
    case Failure(e) => Step(s, Failure(e))
  }

  /** The new state, the new saved files and the result of a login. */
  datatype LoginOutcome = LoginOutcome(
    state: ServiceState,
    files: map<string, LastLogin>,
    result: Result<Option<string>, Exception>)

  /**
   * `getSessionID(username, password)` once the POST has produced `reply`:
   * the guard, the three field reads, the handle, the second round of
   * accessor calls that builds the record, and the save. An exception thrown
   * by any read escapes with the fields set so far.
   */
  function CredentialLogin(parser: Parser, s: ServiceState, reply: StrRef, username: string,
                           files: map<string, LastLogin>, savePath: string): (out: LoginOutcome)
    requires s.Valid()
    ensures out.result.Failure? || out.result == Success(None) ==> out.files == files
    ensures out.result.Success? && out.result.value.Some?
            ==> savePath in out.files && out.files[savePath].username == username
  {
    var s1 := s.(response := reply);
    if !PassesResponseGuard(reply) then LoginOutcome(s1, files, Success(None))
    else
      var c := ClientTokenFromResponseStep(parser, s1, reply);
      if c.result.Failure? then LoginOutcome(c.state, files, Failure(c.result.error))
      else
        var p := ProfileIdFromResponseStep(parser, c.state);
        if p.result.Failure? then LoginOutcome(p.state, files, Failure(p.result.error))
        else
          var a := AccessTokenStep(parser, p.state);
          if a.result.Failure? then LoginOutcome(a.state, files, Failure(a.result.error))
          else
            var handle := SessionHandle(a.result.value, a.state.profileId);
            match NameOf(parser, a.state)
            case Failure(e) => LoginOutcome(a.state, files, Failure(e))
            case Success(name) =>
              var a2 := AccessTokenStep(parser, a.state);
              match a2.result
              case Failure(e) => LoginOutcome(a2.state, files, Failure(e))
              case Success(token) =>
                var login := LastLogin(username, name, token, a2.state.profileId, ClientTokenOf(a2.state));
                LoginOutcome(a2.state, files[savePath := login], Success(Some(handle)))
  }

  /**
   * `getSessionID(login)` once the validation POST has answered: `accepted`
   * is whether it returned a body.
   */
  function CachedLogin(s: ServiceState, login: LastLogin, accepted: bool,
                       files: map<string, LastLogin>, savePath: string): (out: LoginOutcome)
    ensures out.result.Success? && (out.result.value.Some? <==> accepted)
    ensures out.state.valid == accepted && out.state.response == s.response
    ensures !accepted ==> out.files == files && out.state.lastLogin == s.lastLogin
  {
    if accepted then
      LoginOutcome(
        s.(valid := true, lastLogin := Some(login), clientToken := login.clientToken,
           accessToken := login.accessToken, profileId := login.profileId),
        files[savePath := login],
        Success(Some(SessionHandle(login.accessToken, login.profileId))))
    else
      LoginOutcome(s.(valid := false), files, Success(None))
  }

  // ---------------------------------------------------------------------------
  // Properties of the logins
  // ---------------------------------------------------------------------------

  /** Once an access token has been read, reading it again changes nothing and agrees. */
  lemma AccessTokenIdempotent(parser: Parser, s: ServiceState)
    requires s.Valid()
    requires AccessTokenStep(parser, s).result.Success?
    ensures var a := AccessTokenStep(parser, s);
            AccessTokenStep(parser, a.state) == a
  {
  }

  /**
   * A fresh credential login (no valid cached session) on a reply carrying
   * all four credentials returns the handle of the reply's token and profile
   * id, saves the record built from them, and keeps the tokens in its fields.
   */
  lemma CredentialLoginSucceeds(parser: Parser, s: ServiceState, reply: StrRef, username: string,
                                files: map<string, LastLogin>, savePath: string, c: Credentials)
    requires s.Valid() && !s.valid
    requires PassesResponseGuard(reply)
    requires ReadCredentials(parser, reply) == Some(c)
    ensures CredentialLogin(parser, s, reply, username, files, savePath)
         == LoginOutcome(
              s.(response := reply, clientToken := c.clientToken, profileId := c.profileId,
                 accessToken := c.accessToken),
              files[savePath := LastLogin(username, c.name, c.accessToken, c.profileId, c.clientToken)],
              Success(Some(SessionHandle(c.accessToken, c.profileId))))
  {
  }

  /** Without a valid cached session, a non-null reply missing any credential throws and saves nothing. */
  lemma CredentialLoginThrows(parser: Parser, s: ServiceState, reply: StrRef, username: string,
                              files: map<string, LastLogin>, savePath: string)
    requires s.Valid() && !s.valid
    requires PassesResponseGuard(reply)
    requires ReadCredentials(parser, reply).None?
    ensures var out := CredentialLogin(parser, s, reply, username, files, savePath);
            out.result.Failure? && out.files == files
  {
  }

  /** A failed POST returns null, saves nothing and only replaces the retained response. */
  lemma CredentialLoginNullReply(parser: Parser, s: ServiceState, username: string,
                                 files: map<string, LastLogin>, savePath: string)
    requires s.Valid()
    ensures CredentialLogin(parser, s, Null, username, files, savePath)
         == LoginOutcome(s.(response := Null), files, Success(None))
  {
  }

  /**
   * Whatever the reply, a credential login retains it and never touches the
   * valid flag or the cached record.
   */
  lemma CredentialLoginKeepsSession(parser: Parser, s: ServiceState, reply: StrRef, username: string,
                                    files: map<string, LastLogin>, savePath: string)
    requires s.Valid()
    ensures var out := CredentialLogin(parser, s, reply, username, files, savePath);
            && out.state.response == reply
            && out.state.valid == s.valid
            && out.state.lastLogin == s.lastLogin
            && out.state.Valid()
  {
    var s1 := s.(response := reply);
    if PassesResponseGuard(reply) {
      var c := ClientTokenFromResponseStep(parser, s1, reply);
      if c.result.Success? {
        var p := ProfileIdFromResponseStep(parser, c.state);
        if p.result.Success? {
          var a := AccessTokenStep(parser, p.state);
          if a.result.Success? {
            AccessTokenIdempotent(parser, p.state);
          }
        }
      }
    }
  }

  /**
   * Whatever the reply, a credential login returns null exactly when the
   * guard rejects the reply, and it either leaves the files alone or returns
   * a handle and writes one record, for `username`, at the save path.
   */
  lemma CredentialLoginSavesOnlyOnSuccess(parser: Parser, s: ServiceState, reply: StrRef, username: string,
                                          files: map<string, LastLogin>, savePath: string)
    requires s.Valid()
    ensures var out := CredentialLogin(parser, s, reply, username, files, savePath);
            && (out.result == Success(None) <==> !PassesResponseGuard(reply))
            && (out.files == files
                || (out.result.Success? && out.result.value.Some?
                    && savePath in out.files && out.files == files[savePath := out.files[savePath]]
                    && out.files[savePath].username == username))
  {
    var s1 := s.(response := reply);
    if PassesResponseGuard(reply) {
      var c := ClientTokenFromResponseStep(parser, s1, reply);
      if c.result.Success? {
        var p := ProfileIdFromResponseStep(parser, c.state);
        if p.result.Success? {
          var a := AccessTokenStep(parser, p.state);
          if a.result.Success? {
            AccessTokenIdempotent(parser, p.state);
          }
        }
      }
    }
  }

  /**
   * A credential login after a successful cached login does not reset the
   * valid flag, so the handle and the saved record take the access token,
   * the client token and the name (the username) from the cached record;
   * only the profile id comes from the new reply.
   */
  lemma CredentialLoginWhileCached(parser: Parser, s: ServiceState, reply: StrRef, username: string,
                                   files: map<string, LastLogin>, savePath: string, clientToken: string, id: string)
    requires s.Valid() && s.valid
    requires PassesResponseGuard(reply)
    requires ResponseString(parser, reply, "clientToken") == Success(clientToken)
    requires ResponseProfileString(parser, reply, "id") == Success(id)
    ensures var cached := s.lastLogin.value;
            CredentialLogin(parser, s, reply, username, files, savePath)
              == LoginOutcome(
                   s.(response := reply, clientToken := clientToken, profileId := id),
                   files[savePath := LastLogin(username, cached.username, cached.accessToken, id, cached.clientToken)],
                   Success(Some(SessionHandle(cached.accessToken, id))))
  {
  }

  /**
   * An accepted cached login makes the session valid, adopts the record,
   * saves it again, and from then on the accessors answer from it: getName
   * gives the record's username, not its display name.
   */
  lemma CachedLoginAccepted(parser: Parser, s: ServiceState, login: LastLogin,
                            files: map<string, LastLogin>, savePath: string)
    ensures var out := CachedLogin(s, login, true, files, savePath);
            && out.result == Success(Some(SessionHandle(login.accessToken, login.profileId)))
            && out.files == files[savePath := login]
            && out.state.Valid() && out.state.valid && out.state.lastLogin == Some(login)
            && out.state.response == s.response
            && AccessTokenStep(parser, out.state) == Step(out.state, Success(login.accessToken))
            && ClientTokenOf(out.state) == login.clientToken
            && out.state.accessToken == login.accessToken
            && out.state.clientToken == login.clientToken
            && out.state.profileId == login.profileId
            && NameOf(parser, out.state) == Success(login.username)
  {
  }

  /**
   * A rejected cached login returns null, clears the valid flag and changes
   * nothing else: the record on disk and the previously adopted record stay.
   * The accessors then read the retained response again.
   */
  lemma CachedLoginRejected(parser: Parser, s: ServiceState, login: LastLogin,
                            files: map<string, LastLogin>, savePath: string)
    ensures var out := CachedLogin(s, login, false, files, savePath);
            && out == LoginOutcome(s.(valid := false), files, Success(None))
            && out.state.Valid()
            && AccessTokenStep(parser, out.state).result == ResponseString(parser, s.response, "accessToken")
            && NameOf(parser, out.state) == ResponseProfileString(parser, s.response, "name")
            && ClientTokenOf(out.state) == s.clientToken
  {
  }

  /** The path `deleteLastLogin` removes: the file name appended, with a separator unless one ends `dir`. */
  function LastLoginPath(dir: string, sep: string): (path: string)
    ensures StartsWith(path, dir)
    ensures EndsWith(path, sep + LastLoginFileName)
    ensures |path| == |dir| + |LastLoginFileName| + (if EndsWith(dir, sep) then 0 else |sep|)
  {
    if EndsWith(dir, sep) then dir + LastLoginFileName else dir + sep + LastLoginFileName
  }

  /** A directory with or without its trailing separator names the same file. */
  lemma LastLoginPathTrailingSeparator(dir: string, sep: string)
    requires !EndsWith(dir, sep)
    ensures LastLoginPath(dir + sep, sep) == LastLoginPath(dir, sep)
  {
    assert (dir + sep)[|dir + sep| - |sep|..] == sep;
  }

  // ---------------------------------------------------------------------------
  // The disk and the service object
  // ---------------------------------------------------------------------------

  /** The file system as far as the service uses it: saved records by path. */
  class Disk {
    /** `File.separator`. */
    const separator: string
    /** Where `JSONWriter.saveLastLogin` writes the record. */
    const savePath: string
    var files: map<string, LastLogin>

    constructor (separator: string, savePath: string, files: map<string, LastLogin>)
      ensures this.separator == separator && this.savePath == savePath && this.files == files
    {
      this.separator := separator;
      this.savePath := savePath;
      this.files := files;
    }

    /** `JSONWriter.saveLastLogin(login)`. */
    method Save(login: LastLogin)
      modifies this
      ensures files == old(files)[savePath := login]
    {
      files := files[savePath := login];
    }

    /** `new File(path).exists()`. */
    method Exists(path: string) returns (b: bool)
      ensures b <==> path in files
    {
      b := path in files;
    }

    /** `new File(path).delete()`. */
    method Delete(path: string)
      modifies this
      ensures files == old(files) - {path}
    {
      files := files - {path};
    }
  }

  class AuthenticationService {
    /** The JSON parser every read of the response goes through. */
    const parser: Parser

    var response: StrRef
    var accessToken: string
    var clientToken: string
    var profileId: string
    var valid: bool
    var lastLogin: Option<LastLogin>

    function State(): ServiceState
      reads this
    {
      ServiceState(response, accessToken, clientToken, profileId, valid, lastLogin)
    }

    ghost predicate Valid()
      reads this
    {
      State().Valid()
    }

    /** A new service; `parser` stands for the JSON library. */
    constructor (parser: Parser)
      ensures State() == Initial && Valid()
      ensures this.parser == parser
    {
      this.parser := parser;
      response := Literal("");
      accessToken, clientToken, profileId := "", "", "";
      valid := false;
      lastLogin := None;
    }

    /** `getResponse`. */
    function GetResponse(): (r: StrRef)
      reads this
      ensures r == State().response
    {
      response
    }

    method SetAccessToken(value: string)
      modifies this`accessToken
      ensures State() == old(State()).(accessToken := value)
    {
      accessToken := value;
    }

    method SetClientToken(value: string)
      modifies this`clientToken
      ensures State() == old(State()).(clientToken := value)
    {
      clientToken := value;
    }

    method SetProfileId(value: string)
      modifies this`profileId
      ensures State() == old(State()).(profileId := value)
    {
      profileId := value;
    }

    /** `getProfileID`: the field, with no branch on the valid flag. */
    method GetProfileId() returns (r: string)
      ensures r == State().profileId
    {
      r := profileId;
    }

    /** `getClientToken`. */
    method GetClientToken() returns (r: string)
      requires Valid()
      ensures valid ==> r == lastLogin.value.clientToken
      ensures !valid ==> r == clientToken
      ensures r == ClientTokenOf(State())
    {
      if valid {
        return lastLogin.value.clientToken;
      }
      r := clientToken;
    }

    /** `getName`. */
    method GetName() returns (r: Result<string, Exception>)
      requires Valid()
      ensures valid ==> r == Success(lastLogin.value.username)
      ensures !valid ==> r == ResponseProfileString(parser, response, "name")
      ensures r == NameOf(parser, State())
    {
      if valid {
        return Success(lastLogin.value.username);
      }
      var ms :- ResponseObject(parser, response);
      var profile :- ObjectMember(ms, "selectedProfile");
      r := StringMember(profile, "name");
    }

    /** `getAccessToken`: caches a parsed token in its field. */
    method GetAccessToken() returns (r: Result<string, Exception>)
      requires Valid()
      modifies this`accessToken
      ensures Valid()
      ensures Step(State(), r) == AccessTokenStep(parser, old(State()))
    {
      if valid {
        return Success(lastLogin.value.accessToken);
      }
      var ms :- ResponseObject(parser, response);
      var token :- StringMember(ms, "accessToken");
      accessToken := token;
      r := Success(token);
    }

    /** `setClientTokenFromResponse`. */
    method SetClientTokenFromResponse(text: StrRef) returns (r: Result<(), Exception>)
      modifies this`clientToken
      ensures Step(State(), r) == ClientTokenFromResponseStep(parser, old(State()), text)
    {
      var ms :- ResponseObject(parser, text);
      var token :- StringMember(ms, "clientToken");
      clientToken := token;
      r := Success(());
    }

    /** `setProfileIDFromRequest`: its argument is ignored, the retained response is parsed. */
    method SetProfileIdFromRequest(text: StrRef) returns (r: Result<(), Exception>)
      modifies this`profileId
      ensures Step(State(), r) == ProfileIdFromResponseStep(parser, old(State()))
    {
      var ms :- ResponseObject(parser, response);
      var profile :- ObjectMember(ms, "selectedProfile");
      var id :- StringMember(profile, "id");
      profileId := id;
      r := Success(());
    }

    /** `getSSID`: posts the credential request and retains the reply. */
    method GetSsid(wire: Wire, username: string, password: string) returns (r: StrRef)
      modifies this`response
      ensures r == CredentialReply(wire, username, password)
      ensures State() == old(State()).(response := r)
    {
      r := ExecutePost(wire, AuthenticateUrl, Write(AuthRequest(username, password)));
      response := r;
    }

    /** `isValid`: the token is valid exactly when the validation POST returns a body. */
    static method IsValid(wire: Wire, token: string) returns (v: bool)
      ensures v <==> Accepts(wire, token)
    {
      var reply := ExecutePost(wire, ValidateUrl, Write(ValidateRequest(token)));
      v := reply != Null;
    }

    /** `getSessionID(username, password)`. */
    method GetSessionIdWithCredentials(wire: Wire, disk: Disk, username: string, password: string)
      returns (r: Result<Option<string>, Exception>)
      requires Valid()
      modifies this, disk
      ensures Valid()
      ensures var out := CredentialLogin(parser, old(State()),
                           CredentialReply(wire, username, password),
                           username, old(disk.files), disk.savePath);
              State() == out.state && disk.files == out.files && r == out.result
    {
      var reply := GetSsid(wire, username, password);
      if !PassesResponseGuard(response) {
        return Success(None);
      }
      var clientDone :- SetClientTokenFromResponse(response);
      var profileDone :- SetProfileIdFromRequest(response);
      var token :- GetAccessToken();
      var id := GetProfileId();
      var sessionId := SessionHandle(token, id);
      var name :- GetName();
      // The second read cannot throw: the first succeeded and nothing since changed the fields.
      var token2 := GetAccessToken();
      var id2 := GetProfileId();
      var client := GetClientToken();
      disk.Save(LastLogin(username, name, token2.value, id2, client));
      r := Success(Some(sessionId));
    }

    /** `getSessionID(login)`. */
    method GetSessionIdFromLastLogin(wire: Wire, disk: Disk, login: LastLogin) returns (r: Option<string>)
      requires Valid()
      modifies this, disk
      ensures Valid()
      ensures var out := CachedLogin(old(State()), login,
                           Accepts(wire, login.accessToken),
                           old(disk.files), disk.savePath);
              State() == out.state && disk.files == out.files && out.result == Success(r)
    {
      valid := IsValid(wire, login.accessToken);
      r := None;
      if valid {
        lastLogin := Some(login);
        SetClientToken(login.clientToken);
        SetAccessToken(login.accessToken);
        SetProfileId(login.profileId);
        r := Some(SessionHandle(login.accessToken, login.profileId));
        disk.Save(login);
        return r;
      }
      return r;
    }

    /** `deleteLastLogin`: removes the record file under `minecraftDir` if it exists. */
    method DeleteLastLogin(disk: Disk, minecraftDir: string)
      modifies disk
      ensures disk.files == old(disk.files) - {LastLoginPath(minecraftDir, disk.separator)}
      ensures LastLoginPath(minecraftDir, disk.separator) !in old(disk.files) ==> disk.files == old(disk.files)
    {
      var path := LastLoginPath(minecraftDir, disk.separator);
      var present := disk.Exists(path);
      if present {
        disk.Delete(path);
      }
    }
  }
}
