/**
 * `AuthService`: the signed-in user and session token. Password hashing is
 * not part of this model.
 */
module Auth {
  import opened Wrappers

  class AuthService {
    var currentUsername: Option<string>
    var sessionToken: Option<string>

    constructor ()
      ensures currentUsername == None && sessionToken == None
      ensures !IsAuthenticated()
    {
      currentUsername := None;
      sessionToken := None;
    }

    /** Signed in: a user name that is neither null nor empty. */
    predicate IsAuthenticated()
      reads this
    {
      currentUsername.Some? && currentUsername.value != ""
    }

    /** Records the user and the token (null when the caller gives none); an empty name does not count as signed in. */
    method SetAuthenticated(username: string, token: Option<string>)
      modifies this
      ensures currentUsername == Some(username) && sessionToken == token
      ensures IsAuthenticated() <==> username != ""
    {
      currentUsername := Some(username);
      sessionToken := token;
    }

    /** Forgets the user and the token. */
    method Logout()
      modifies this
      ensures currentUsername == None && sessionToken == None
      ensures !IsAuthenticated()
    {
      currentUsername := None;
      sessionToken := None;
    }
  }
}
