/** The OAuth callback page. On mount it reads `token` and `error` from the
    query string and either logs the user in or sends them back to the sign-in
    page. Decoding the token (`JSON.parse(atob(token))`) is an input: the
    decoded value, or `Err` when either step throws. `sessionStorage` is the
    `stored` input. */
module AuthCallbackPage {
  import opened Wrappers
  import opened JsonValue

  datatype User = User(name: Json, email: Json, id: Json, projectId: Json)

  /** A query parameter or a stored string, `null` when absent; only a
      non-empty string is truthy. */
  predicate Present(p: Option<string>) {
    p.Some? && p.value != ""
  }

  function StoredAsJson(stored: Option<string>): Option<Json> {
    if stored.Some? then Some(JStr(stored.value)) else Some(JNull)
  }

  /** `finalUserData`, built from the decoded token and the stored project id. */
  function FinalUserData(userData: Json, stored: Option<string>): (u: User)
    ensures u.name == JsOr(JsProp(Some(userData), "name"), JStr("SRE User"))
    ensures u.email == JsOr(JsProp(Some(userData), "email"), JStr(""))
    ensures u.id == JsOr(JsProp(Some(userData), "user_id"), JStr("default_user"))
    ensures Present(stored) ==> u.projectId == JStr(stored.value)
    ensures !Present(stored) ==> u.projectId == JsOr(JsProp(Some(userData), "projectId"), JStr("PRJ-DEFAULT"))
  {
    var p := JsOr(JsProp(Some(userData), "projectId"), JStr("PRJ-DEFAULT"));
    User(JsOr(JsProp(Some(userData), "name"), JStr("SRE User")),
         JsOr(JsProp(Some(userData), "email"), JStr("")),
         JsOr(JsProp(Some(userData), "user_id"), JStr("default_user")),
         JsOr(StoredAsJson(stored), p))
  }

  /** A decoded token with none of the fields gives every default. */
  lemma EmptyTokenDefaults()
    ensures FinalUserData(JObj(map[]), None) ==
      User(JStr("SRE User"), JStr(""), JStr("default_user"), JStr("PRJ-DEFAULT"))
  {
  }

  /** The stored project id wins over the token's. */
  lemma StoredProjectWins(userData: Json, stored: string)
    requires stored != ""
    ensures FinalUserData(userData, Some(stored)).projectId == JStr(stored)
  {
  }

  datatype Status = Processing | Success | Failure

  /** What the page does to the outside world, in order. A `Navigate` with
      `delayed` runs from the 2-second timer. */
  datatype Effect = Login(token: string, user: User) | HardRedirect(url: string) | Navigate(path: string, delayed: bool)

  /** Reading `userData.name` on a decoded `null` throws, which lands in the
      same `catch` as a decode failure. */
  predicate DecodeThrows(decoded: Result<Json, string>) {
    decoded.Err? || decoded.value == JNull
  }

  class Page {
    var status: Status
    var effects: seq<Effect>

    constructor ()
      ensures status == Processing && effects == []
    {
      status := Processing;
      effects := [];
    }

    /** The mount effect. A present token takes precedence over `error`. */
    method Mounted(token: Option<string>, error: Option<string>, decoded: Result<Json, string>, stored: Option<string>)
      modifies this
      ensures Present(token) && !DecodeThrows(decoded) ==>
        status == Success && effects == old(effects) + [Login(token.value, FinalUserData(decoded.value, stored)), HardRedirect("/dashboard")]
      ensures Present(token) && DecodeThrows(decoded) ==>
        status == Failure && effects == old(effects) + [Navigate("/auth?error=invalid_token", false)]
      ensures !Present(token) && Present(error) ==>
        status == Failure && effects == old(effects) + [Navigate("/auth?error=" + error.value, true)]
      ensures !Present(token) && !Present(error) ==>
        status == Failure && effects == old(effects) + [Navigate("/auth", true)]
    {
      if Present(token) {
        if DecodeThrows(decoded) {
          status := Failure;
          effects := effects + [Navigate("/auth?error=invalid_token", false)];
        } else {
          status := Success;
          effects := effects + [Login(token.value, FinalUserData(decoded.value, stored)), HardRedirect("/dashboard")];
        }
      } else if Present(error) {
        status := Failure;
        effects := effects + [Navigate("/auth?error=" + error.value, true)];
      } else {
        status := Failure;
        effects := effects + [Navigate("/auth", true)];
      }
    }
  }

  /** A callback carrying both a decodable token and an error logs in. */
  method TokenBeatsError(token: string, error: string, userData: Json) returns (status: Status, loggedIn: bool)
    requires token != "" && userData != JNull
    ensures status == Success && loggedIn
  {
    var p := new Page();
    p.Mounted(Some(token), Some(error), Ok(userData), None);
    status := p.status;
    loggedIn := |p.effects| == 2 && p.effects[0].Login?;
  }

  /** An empty `token=` parameter is ignored, so the error branch runs. */
  method EmptyTokenFallsThrough(error: string) returns (effects: seq<Effect>)
    requires error != ""
    ensures effects == [Navigate("/auth?error=" + error, true)]
  {
    var p := new Page();
    p.Mounted(Some(""), Some(error), Err("unused"), None);
    effects := p.effects;
  }

  /** A token that decodes to `null` is treated as invalid. */
  method NullTokenIsInvalid(token: string) returns (status: Status, effects: seq<Effect>)
    requires token != ""
    ensures status == Failure && effects == [Navigate("/auth?error=invalid_token", false)]
  {
    var p := new Page();
    p.Mounted(Some(token), None, Ok(JNull), None);
    status, effects := p.status, p.effects;
  }
}
