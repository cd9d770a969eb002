/**
 * `LoginViewModel`: the sign-in form's fields, the loading flag and status
 * line, the two commands and their shared enabling condition, and the
 * handlers for the server's verdict.
 *
 * `accepted` is the server's answer to a connection attempt. `fault` is an
 * exception escaping the command's `try` block, with its message; it is
 * taken to arise before anything is connected or sent.
 */
module Login {
  import opened Wrappers
  import opened Models
  import opened Sockets
  import opened Auth

  const ConnectingStatus: string := "Connecting..."
  const CreatingAccountStatus: string := "Creating account..."
  const LoginSucceededStatus: string := "Login successful!"
  const ConnectionErrorPrefix: string := "Connection error: "
  const SignUpErrorPrefix: string := "Sign up error: "

  /** `auth` with the credentials. */
  function AuthEnvelope(username: string, password: string): (e: Envelope)
    ensures e.typ == "auth" && HasExactly(e, {Type, Username, Password})
    ensures e.username == Some(username) && e.password == Some(password)
  {
    Blank("auth").(username := Some(username), password := Some(password))
  }

  /** `signup` with the credentials and the invite code. */
  function SignUpEnvelope(username: string, password: string, inviteCode: string): (e: Envelope)
    ensures e.typ == "signup" && HasExactly(e, {Type, Username, Password, InviteCode})
    ensures e.username == Some(username) && e.password == Some(password) && e.inviteCode == Some(inviteCode)
  {
    Blank("signup").(username := Some(username), password := Some(password), inviteCode := Some(inviteCode))
  }

  class LoginViewModel {
    const ws: WebSocketService
    const auth: AuthService
    var username: string
    var password: string
    var inviteCode: string
    var statusMessage: string
    var isLoading: bool
    /** How many times `LoginSuccessful` was raised. */
    ghost var loginSuccessfulRaised: nat

    constructor (ws: WebSocketService, auth: AuthService)
      ensures this.ws == ws && this.auth == auth
      ensures username == "" && password == "" && inviteCode == "" && statusMessage == ""
      ensures !isLoading && loginSuccessfulRaised == 0
    {
      this.ws := ws;
      this.auth := auth;
      username := "";
      password := "";
      inviteCode := "";
      statusMessage := "";
      isLoading := false;
      loginSuccessfulRaised := 0;
    }

    /** The enabling condition shared by the Login and Sign Up commands. */
    predicate CanSubmit()
      reads this
      ensures CanSubmit() ==> !isLoading && |username| > 0 && |password| > 0
      ensures IsBlank(username) || IsBlank(password) ==> !CanSubmit()
    {
      !isLoading && !IsBlank(username) && !IsBlank(password)
    }

    /**
     * Shows "Connecting...", connects only if the service reports no
     * connection, then sends one `auth` envelope if the socket is Open. On
     * success the form stays loading, so both commands stay disabled until
     * the server answers; an exception clears the flag and shows its message.
     */
    method LoginAsync(accepted: bool, fault: Option<string>)
      requires ws.Valid()
      modifies this, ws
      ensures ws.Valid()
      ensures username == old(username) && password == old(password) && inviteCode == old(inviteCode)
      ensures loginSuccessfulRaised == old(loginSuccessfulRaised)
      ensures ws.serverUrl == old(ws.serverUrl)
      ensures fault.Some? ==>
        && !isLoading && statusMessage == ConnectionErrorPrefix + fault.value
        && ws.socket == old(ws.socket) && ws.cancellation == old(ws.cancellation) && ws.isConnected == old(ws.isConnected)
        && ws.sent == old(ws.sent) && ws.events == old(ws.events)
      ensures fault.None? ==>
        && isLoading && statusMessage == ConnectingStatus && !CanSubmit()
        && (old(ws.isConnected) ==>
              ws.socket == old(ws.socket) && ws.cancellation == old(ws.cancellation)
              && ws.isConnected && ws.events == old(ws.events))
        && (!old(ws.isConnected) ==>
              ws.socket == Some(if accepted then Open else NotOpen) && ws.cancellation == Some(false)
              && ws.isConnected == accepted && ws.events == old(ws.events) + (if accepted then [Connected] else []))
        && ws.sent == old(ws.sent) + (if ws.IsOpen() then [AuthEnvelope(username, password)] else [])
      ensures fault.None? && !old(ws.isConnected) && accepted ==> ws.sent == old(ws.sent) + [AuthEnvelope(username, password)]
    {
      isLoading := true;
      statusMessage := ConnectingStatus;
      if fault.Some? {
        statusMessage := ConnectionErrorPrefix + fault.value;
        isLoading := false;
        return;
      }
      if !ws.isConnected {
        ws.ConnectAsync(accepted);
      }
      ws.SendMessageAsync(AuthEnvelope(username, password));
    }

    /** As `LoginAsync`, with "Creating account...", one `signup` envelope and the "Sign up error: " prefix. */
    method SignUpAsync(accepted: bool, fault: Option<string>)
      requires ws.Valid()
      modifies this, ws
      ensures ws.Valid()
      ensures username == old(username) && password == old(password) && inviteCode == old(inviteCode)
      ensures loginSuccessfulRaised == old(loginSuccessfulRaised)
      ensures ws.serverUrl == old(ws.serverUrl)
      ensures fault.Some? ==>
        && !isLoading && statusMessage == SignUpErrorPrefix + fault.value
        && ws.socket == old(ws.socket) && ws.cancellation == old(ws.cancellation) && ws.isConnected == old(ws.isConnected)
        && ws.sent == old(ws.sent) && ws.events == old(ws.events)
      ensures fault.None? ==>
        && isLoading && statusMessage == CreatingAccountStatus && !CanSubmit()
        && (old(ws.isConnected) ==>
              ws.socket == old(ws.socket) && ws.cancellation == old(ws.cancellation)
              && ws.isConnected && ws.events == old(ws.events))
        && (!old(ws.isConnected) ==>
              ws.socket == Some(if accepted then Open else NotOpen) && ws.cancellation == Some(false)
              && ws.isConnected == accepted && ws.events == old(ws.events) + (if accepted then [Connected] else []))
        && ws.sent == old(ws.sent) + (if ws.IsOpen() then [SignUpEnvelope(username, password, inviteCode)] else [])
      ensures fault.None? && !old(ws.isConnected) && accepted ==>
        ws.sent == old(ws.sent) + [SignUpEnvelope(username, password, inviteCode)]
    {
      isLoading := true;
      statusMessage := CreatingAccountStatus;
      if fault.Some? {
        statusMessage := SignUpErrorPrefix + fault.value;
        isLoading := false;
        return;
      }
      if !ws.isConnected {
        ws.ConnectAsync(accepted);
      }
      ws.SendMessageAsync(SignUpEnvelope(username, password, inviteCode));
    }

    /** The server accepted the credentials: sign the form's user in (no token), stop loading, raise `LoginSuccessful`. */
    method OnAuthSuccess()
      modifies this, auth
      ensures auth.currentUsername == Some(username) && auth.sessionToken == None
      ensures !isLoading && statusMessage == LoginSucceededStatus
      ensures loginSuccessfulRaised == old(loginSuccessfulRaised) + 1
      ensures username == old(username) && password == old(password) && inviteCode == old(inviteCode)
    {
      auth.SetAuthenticated(username, None);
      isLoading := false;
      statusMessage := LoginSucceededStatus;
      loginSuccessfulRaised := loginSuccessfulRaised + 1;
    }

    /** The server refused: stop loading and show exactly its message. */
    method OnAuthFailed(message: string)
      modifies this
      ensures !isLoading && statusMessage == message
      ensures username == old(username) && password == old(password) && inviteCode == old(inviteCode)
      ensures loginSuccessfulRaised == old(loginSuccessfulRaised)
    {
      isLoading := false;
      statusMessage := message;
    }
  }
}
