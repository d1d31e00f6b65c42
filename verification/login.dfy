/**
 * The login screen (src/UserLogin.tsx): the credential form, and what an answer from the login
 * service does: on success the whole `data` record is stored under `user`, a truthy token under
 * `token`, and the role picks the landing screen; on a refusal the server's message is shown.
 */
module Login {
  import opened Wrappers
  import opened Js
  import opened Storage
  import Routes

  /**
   * How the login request ended. `Accepted(None)` is an ok answer without a `data` object (the
   * destructuring throws); `Rejected` is a non-ok answer with its parsed body; `Unreachable` is a
   * request or body parse that threw.
   */
  datatype LoginResponse =
    | Accepted(data: Option<Record>)
    | Rejected(body: Record)
    | Unreachable

  datatype LoginOutcome =
    | NavigateTo(path: string)
      /** The "Unknown role" error toast; the user stays on the screen. */
    | UnknownRole
      /** `errorMsg` now holds the server's message. */
    | ShowError
      /** The "Something went wrong" error toast. */
    | SomethingWentWrong

  /** The landing screen for a role compared with `===`: buyers to `/home`, administrators to the dashboard. */
  function Destination(roleId: Value): (r: Option<string>)
    ensures r == Some("/home") <==> roleId == Num(1)
    ensures r == Some("/Product/Dashboard") <==> roleId == Num(0)
    ensures r.None? <==> roleId != Num(0) && roleId != Num(1)
  {
    if roleId == Num(1) then Some("/home")
    else if roleId == Num(0) then Some("/Product/Dashboard")
    else None
  }

  /** Storage after a successful login with `data`: the record under `user`, and the token when it is truthy. */
  function StoredAfterLogin(items: Items, data: Record): (r: Items)
    ensures UserKey in r && r[UserKey] == Json(data)
    ensures Truthy(Get(data, "token")) ==> TokenKey in r && r[TokenKey] == Text(ToText(Get(data, "token")))
    ensures !Truthy(Get(data, "token")) ==>
              (TokenKey in r <==> TokenKey in items) && (TokenKey in items ==> r[TokenKey] == items[TokenKey])
    ensures forall k :: k != UserKey && k != TokenKey ==> (k in r <==> k in items) && (k in r ==> r[k] == items[k])
  {
    var withUser := items[UserKey := Json(data)];
    var token := Get(data, "token");
    if Truthy(token) then withUser[TokenKey := Text(ToText(token))] else withUser
  }

  /** What the handler ends in, once its one-second timer has run. */
  function Outcome(response: LoginResponse): (o: LoginOutcome)
    ensures o.NavigateTo? <==> response.Accepted? && response.data.Some? &&
                               Destination(Get(response.data.value, "roleId")).Some?
    ensures o.NavigateTo? ==> o.path == Destination(Get(response.data.value, "roleId")).value
    ensures o == UnknownRole <==> response.Accepted? && response.data.Some? &&
                                  Destination(Get(response.data.value, "roleId")).None?
    ensures o == ShowError <==> response.Rejected?
    ensures o == SomethingWentWrong <==> response.Unreachable? || (response.Accepted? && response.data.None?)
  {
    match response
    case Accepted(data) =>
      if data.None? then SomethingWentWrong
      else if Destination(Get(data.value, "roleId")).Some? then NavigateTo(Destination(Get(data.value, "roleId")).value)
      else UnknownRole
    case Rejected(_) => ShowError
    case Unreachable => SomethingWentWrong
  }

  /** After a successful login the guard reads back exactly the record the server sent. */
  lemma StoredUserReadsBack(items: Items, data: Record)
    ensures ReadUser(StoredAfterLogin(items, data)) == Some(data)
    ensures Routes.StoredRole(StoredAfterLogin(items, data)) == Get(data, "roleId")
  {
  }

  /**
   * Where login sends role 1 and role 0, the route table admits that role: the landing screen is shown,
   * not the redirect to `/unauthorized`.
   */
  lemma LandingScreenAdmitted(items: Items, data: Record)
    ensures Get(data, "roleId") == Num(1) ==> Outcome(Accepted(Some(data))) == NavigateTo("/home")
    ensures Get(data, "roleId") == Num(1) && !Routes.InitialThrows(data) ==>
              Routes.Visit("/home", StoredAfterLogin(items, data)) == Routes.Show(Routes.HomeScreen, true)
    ensures Get(data, "roleId") == Num(0) ==> Outcome(Accepted(Some(data))) == NavigateTo("/Product/Dashboard")
    ensures Get(data, "roleId") == Num(0) && !Routes.InitialThrows(data) ==>
              Routes.Visit("/Product/Dashboard", StoredAfterLogin(items, data)) ==
              Routes.Show(Routes.ProductDashboardScreen, true)
    ensures Routes.InitialThrows(data) ==>
              Routes.Visit("/home", StoredAfterLogin(items, data)) == Routes.RenderFailed &&
              Routes.Visit("/Product/Dashboard", StoredAfterLogin(items, data)) == Routes.RenderFailed
  {
    var after := StoredAfterLogin(items, data);
    StoredUserReadsBack(items, data);
    Routes.HomeBuyerOnly(after);
    Routes.GuardedSpec([1], Routes.HomeScreen, after);
    Routes.DashboardAdminOnly(after);
    Routes.GuardedSpec([0], Routes.ProductDashboardScreen, after);
  }

  class LoginForm {
    var credentials: map<string, string>
    var errorMsg: Value

    constructor ()
      ensures credentials == map["emailId" := "", "password" := ""]
      ensures errorMsg == Str("")
    {
      credentials := map["emailId" := "", "password" := ""];
      errorMsg := Str("");
    }

    /** An input's change event: only the field the input names changes. */
    method HandleChange(name: string, value: string)
      modifies this
      ensures credentials == old(credentials)[name := value]
      ensures errorMsg == old(errorMsg)
    {
      credentials := credentials[name := value];
    }

    /**
     * `handleLogin` with the service's answer. An ok answer writes `user` and then, when the token is
     * truthy, `token`; any other answer leaves storage alone. A refusal puts the message in `errorMsg`.
     */
    method HandleLogin(storage: BrowserStorage, response: LoginResponse) returns (outcome: LoginOutcome)
      modifies this, storage
      ensures response.Accepted? && response.data.Some? ==>
                storage.items == StoredAfterLogin(old(storage.items), response.data.value)
      ensures !(response.Accepted? && response.data.Some?) ==> storage.items == old(storage.items)
      ensures response.Rejected? ==> errorMsg == Get(response.body, "message")
      ensures !response.Rejected? ==> errorMsg == old(errorMsg)
      ensures credentials == old(credentials)
      ensures outcome == Outcome(response)
    {
      match response {
        case Accepted(data) =>
          if data.None? {
            outcome := SomethingWentWrong;
          } else {
            var roleId := Get(data.value, "roleId");
            var token := Get(data.value, "token");
            storage.SetItem(UserKey, Json(data.value));
            if Truthy(token) {
              storage.SetItem(TokenKey, Text(ToText(token)));
            }
            var destination := Destination(roleId);
            if destination.Some? {
              outcome := NavigateTo(destination.value);
            } else {
              outcome := UnknownRole;
            }
          }
        case Rejected(body) =>
          errorMsg := Get(body, "message");
          outcome := ShowError;
        case Unreachable =>
          outcome := SomethingWentWrong;
      }
    }
  }
}
