/**
 * The `woodpecker_user` data source: an empty login reads the user the token
 * belongs to, any other login reads that user.
 */
module DataSourceUser {
  import opened Wrappers
  import opened GoStrconv
  import opened Framework
  import opened Woodpecker

  /** The data source's attributes. */
  datatype UserDataSourceState = UserDataSourceState(
    id: Val<Int64>, login: Val<string>, email: Val<string>, avatar: Val<string>,
    active: Val<bool>, admin: Val<bool>)

  /** The state recorded for a user that was read: the six attributes, all known. */
  function StateOf(user: User): UserDataSourceState {
    UserDataSourceState(Known(user.id), Known(user.login), Known(user.email), Known(user.avatar),
                        Known(user.active), Known(user.admin))
  }

  /**
   * The state records exactly ID, Login, Email, Avatar, Active and Admin:
   * two users give the same state if and only if they agree on those six,
   * whatever their forge ids.
   */
  lemma StateOfCopiesExactly(u1: User, u2: User)
    ensures StateOf(u1) == StateOf(u2) <==>
      u1.id == u2.id && u1.login == u2.login && u1.email == u2.email && u1.avatar == u2.avatar
      && u1.active == u2.active && u1.admin == u2.admin
  {
  }

  /** `userDataSourceModel`. */
  class UserDataSourceModel {
    var id: Val<Int64>
    var login: Val<string>
    var email: Val<string>
    var avatar: Val<string>
    var active: Val<bool>
    var admin: Val<bool>

    constructor (s: UserDataSourceState)
      ensures State() == s
    {
      id, login, email, avatar, active, admin := s.id, s.login, s.email, s.avatar, s.active, s.admin;
    }

    function State(): UserDataSourceState
      reads this
    {
      UserDataSourceState(id, login, email, avatar, active, admin)
    }

    /** `setValues`: every attribute is overwritten from the user. */
    method SetValues(user: User)
      modifies this
      ensures State() == StateOf(user)
    {
      id := Known(user.id);
      login := Known(user.login);
      email := Known(user.email);
      avatar := Known(user.avatar);
      active := Known(user.active);
      admin := Known(user.admin);
    }
  }

  const ReadError := "Couldn't read user data"

  /** The request `Read` sends for a configured login: `Self()` for the empty login, `User(login)` otherwise. */
  function UserRequest(login: string): (c: Call)
    ensures c == SelfCall <==> login == ""
    ensures c.UserCall? ==> c.login == login
    ensures c.SelfCall? || c.UserCall?
  {
    if login != "" then UserCall(login) else SelfCall
  }

  /** The server's answer to UserRequest(login). */
  function UserAnswer(api: Api, login: string): Result<User, ClientError> {
    if login != "" then api.user(login) else api.self
  }

  /**
   * `Read` with the configuration already decoded: one request, chosen by
   * UserRequest; on an error the diagnostic is added and the state is left
   * alone, otherwise the state is the user that was read.
   */
  method Read(client: Client, config: UserDataSourceState, resp: Response<UserDataSourceState>)
    requires resp.diagnostics == []
    modifies client, resp
    ensures var login := ValueString(config.login);
      client.calls == old(client.calls) + [UserRequest(login)]
      && match UserAnswer(client.api, login)
         case Failure(e) => resp.diagnostics == [Diagnostic(ReadError, e.message)] && resp.state == old(resp.state)
         case Success(user) => resp.diagnostics == [] && resp.state == Some(StateOf(user))
  {
    var data := new UserDataSourceModel(config);
    var user: Result<User, ClientError>;
    var login := ValueString(data.login);
    if login != "" {
      user := client.User(login);
    } else {
      user := client.Self();
    }
    if user.Failure? {
      resp.AddError(ReadError, user.error.message);
      return;
    }
    data.SetValues(user.value);
    resp.SetState(data.State());
  }
}
