/** The user store: the signed-in user's profile and the login configuration,
    each either set or null. */
module Users {
  import opened Outcomes
  import opened Types

  class UserStore {
    var currentUser: Option<User>
    var loginConfig: Option<LoginConfig>

    /** Both fields start out null. */
    constructor ()
      ensures currentUser == None && loginConfig == None
    {
      currentUser := None;
      loginConfig := None;
    }

    /** `setUser`: replaces the user and keeps the login configuration. */
    method SetUser(user: User)
      modifies this
      ensures currentUser == Some(user) && loginConfig == old(loginConfig)
    {
      currentUser := Some(user);
    }

    /** `setLoginConfig`: replaces the login configuration and keeps the user. */
    method SetLoginConfig(config: LoginConfig)
      modifies this
      ensures loginConfig == Some(config) && currentUser == old(currentUser)
    {
      loginConfig := Some(config);
    }

    /** `clearUser`: nulls both fields, whatever they held, so a second call
        changes nothing. */
    method ClearUser()
      modifies this
      ensures currentUser == None && loginConfig == None
      ensures old(currentUser) == None && old(loginConfig) == None ==> unchanged(this)
    {
      currentUser := None;
      loginConfig := None;
    }
  }
}
