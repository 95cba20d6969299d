/**
  * The web front end (interface.py): the session record Streamlit keeps between reruns of
  * the script, the login and registration pages' decisions, the dashboard's Twitter
  * settings and chat history, and the page dispatch of the script's entry point.
  *
  * A key absent from the session state is `None`. Widget values (text fields, button
  * presses, the chat input) are parameters of one rerun; `st.rerun()` ends the rerun at
  * once, so nothing after it happens. Rendering and the success/error banners' styling are
  * not modelled; the banners' texts are returned.
  */
module Interface {
  import opened Wrappers
  import opened Strings
  import Auth

  /** An entry of the chat history: who spoke and what was said. */
  datatype ChatEntry = ChatEntry(role: string, content: string)

  const ResponsePrefix := "AI Response to: "

  /** chat_with_ai: the placeholder answer, the prefix followed by the message itself. */
  function ChatWithAi(message: string): (response: string)
    ensures |response| == |ResponsePrefix| + |message|
    ensures response[..|ResponsePrefix|] == ResponsePrefix
    ensures response[|ResponsePrefix|..] == message
  {
    ResponsePrefix + message
  }

  /** Different messages get different answers. */
  lemma ChatWithAiInjective(a: string, b: string)
    requires ChatWithAi(a) == ChatWithAi(b)
    ensures a == b
  {
    assert a == ChatWithAi(a)[|ResponsePrefix|..];
  }

  const LoginPageName := "login"
  const RegisterPageName := "register"
  const DashboardPageName := "dashboard"

  /** `new_pass` needs at least this many characters. */
  const MinPasswordLength := 8

  const LoginFailed := "Incorrect username or password"
  const PasswordsDiffer := "Passwords do not match"
  const PasswordTooShort := "Password must be at least 8 characters"
  const UsernameTaken := "Username already exists"

  datatype Screen = LoginScreen | RegisterScreen | DashboardScreen

  /**
    * The entry point's choice of page: the dashboard only for a logged-in session on the
    * dashboard page, the registration page for the register page, the login page for
    * every other state.
    */
  function Dispatch(loggedIn: bool, page: string): (screen: Screen)
    ensures screen == DashboardScreen <==> loggedIn && page == DashboardPageName
    ensures screen == RegisterScreen <==> page == RegisterPageName
    ensures screen == LoginScreen <==> page != RegisterPageName && !(loggedIn && page == DashboardPageName)
  {
    if loggedIn && page == DashboardPageName then DashboardScreen
    else if page == LoginPageName then LoginScreen
    else if page == RegisterPageName then RegisterScreen
    else LoginScreen
  }

  /** A registration attempt passes the page's own checks: matching passwords, long enough. */
  predicate PasswordAccepted(newPass: string, confirm: string) {
    newPass == confirm && |newPass| >= MinPasswordLength
  }

  /** The banner a rejected sign-up shows: the checks are made in this order. */
  function RegisterError(newPass: string, confirm: string): string
  {
    if newPass != confirm then PasswordsDiffer
    else if |newPass| < MinPasswordLength then PasswordTooShort
    else UsernameTaken
  }

  /** The message reports the first check that fails, and the store's refusal only when
      the page's own checks pass. */
  lemma RegisterErrorOrder(newPass: string, confirm: string)
    ensures newPass != confirm ==> RegisterError(newPass, confirm) == PasswordsDiffer
    ensures newPass == confirm && |newPass| < MinPasswordLength ==> RegisterError(newPass, confirm) == PasswordTooShort
    ensures RegisterError(newPass, confirm) == UsernameTaken <==> PasswordAccepted(newPass, confirm)
  {
  }

  /** `st.session_state` as the script uses it. */
  class Session {
    var loggedIn: Option<bool>
    var username: Option<string>
    var page: Option<string>
    var chat: Option<seq<ChatEntry>>

    /** A fresh browser session: no keys at all. */
    constructor ()
      ensures loggedIn == None && username == None && page == None && chat == None
    {
      loggedIn, username, page, chat := None, None, None, None;
    }

    /** The entry point's defaults: each of the three keys is set only when absent. */
    method InitDefaults()
      modifies this
      ensures loggedIn == Some(old(loggedIn).GetOr(false))
      ensures username == Some(old(username).GetOr(""))
      ensures page == Some(old(page).GetOr(LoginPageName))
      ensures chat == old(chat)
    {
      if loggedIn.None? {
        loggedIn := Some(false);
      }
      if username.None? {
        username := Some("");
      }
      if page.None? {
        page := Some(LoginPageName);
      }
    }

    /** logout: back to a logged-out session on the login page; the chat history stays. */
    method Logout()
      modifies this
      ensures loggedIn == Some(false) && username == Some("") && page == Some(LoginPageName)
      ensures chat == old(chat)
    {
      loggedIn := Some(false);
      username := Some("");
      page := Some(LoginPageName);
    }

    /**
      * login_page: a submitted form whose credentials log_in accepts logs the session in
      * and moves to the dashboard, ending the rerun; a refused one shows the error and
      * changes nothing. Then the register link, if pressed, moves to the register page.
      */
    method LoginPage(store: Auth.UserStore, name: string, password: string, submitted: bool,
                     registerPressed: bool, kdf: Auth.Kdf, failure: bool)
      returns (success: bool, error: Option<string>)
      requires store.Valid() && store.checkedOut < Auth.MaxConnections
      modifies this, store`checkedOut
      ensures store.Valid() && store.checkedOut == old(store.checkedOut)
      ensures success <==>
                submitted && !failure && name in store.users &&
                Auth.VerifyPassword(store.users[name].password, password, kdf)
      ensures success ==>
                loggedIn == Some(true) && username == Some(name) && page == Some(DashboardPageName)
      ensures !success ==>
                loggedIn == old(loggedIn) && username == old(username) &&
                page == (if registerPressed then Some(RegisterPageName) else old(page))
      ensures error == (if submitted && !success then Some(LoginFailed) else None)
      ensures chat == old(chat)
    {
      success, error := false, None;
      if submitted {
        var ok := store.LoginUser(name, password, kdf, failure);
        if ok {
          loggedIn := Some(true);
          username := Some(name);
          page := Some(DashboardPageName);
          success := true;
          return;
        } else {
          error := Some(LoginFailed);
        }
      }
      if registerPressed {
        page := Some(RegisterPageName);
      }
    }

    /**
      * register_page: on Sign Up, a mismatch and then a short password are refused before
      * the store is asked; a stored user moves the session to the login page and ends the
      * rerun; every refusal leaves the session as it was. Then the back button, if
      * pressed, moves to the login page.
      */
    method RegisterPage(store: Auth.UserStore, newUser: string, newPass: string, confirm: string,
                        signUp: bool, backPressed: bool, salt: seq<Byte>, kdf: Auth.Kdf, failure: bool)
      returns (registered: bool, error: Option<string>)
      requires store.Valid() && store.checkedOut < Auth.MaxConnections
      requires |salt| == Auth.SaltBytes
      modifies this, store
      ensures store.Valid() && store.checkedOut == old(store.checkedOut)
      ensures registered <==>
                signUp && PasswordAccepted(newPass, confirm) && newUser !in old(store.users) && !failure
      ensures store.users ==
                if registered
                then old(store.users)[newUser := Auth.UserRow(Auth.HashPassword(newPass, salt, kdf), None, None, None, None)]
                else old(store.users)
      ensures error == (if signUp && !registered then Some(RegisterError(newPass, confirm)) else None)
      ensures page == (if registered || backPressed then Some(LoginPageName) else old(page))
      ensures loggedIn == old(loggedIn) && username == old(username) && chat == old(chat)
    {
      registered, error := false, None;
      if signUp {
        if newPass != confirm {
          error := Some(PasswordsDiffer);
        } else if |newPass| < MinPasswordLength {
          error := Some(PasswordTooShort);
        } else {
          var ok := store.RegisterUser(newUser, newPass, salt, kdf, failure);
          if ok {
            page := Some(LoginPageName);
            registered := true;
            return;
          } else {
            error := Some(UsernameTaken);
          }
        }
      }
      if backPressed {
        page := Some(LoginPageName);
      }
    }

    /**
      * dashboard: Save stores the four Twitter fields for the session's user; the chat
      * history is created empty when absent, and a non-empty chat input appends the
      * user's entry and then the assistant's answer to it.
      */
    method Dashboard(store: Auth.UserStore, consumerKey: string, consumerSecret: string,
                     accessToken: string, accessSecret: string, savePressed: bool, failure: bool,
                     question: string)
      requires username.Some?
      requires store.Valid() && store.checkedOut < Auth.MaxConnections
      modifies this, store
      ensures loggedIn == old(loggedIn) && username == old(username) && page == old(page)
      ensures store.Valid() && store.checkedOut == old(store.checkedOut)
      ensures !savePressed ==> store.users == old(store.users)
      ensures savePressed ==>
                store.users.Keys == old(store.users).Keys &&
                (forall u :: u in store.users && u != username.value ==> store.users[u] == old(store.users)[u]) &&
                (username.value in store.users && !failure ==>
                   store.users[username.value] ==
                   old(store.users)[username.value].(twitterConsumerKey := Some(consumerKey),
                                                     twitterConsumerSecret := Some(consumerSecret),
                                                     twitterAccessToken := Some(accessToken),
                                                     twitterAccessSecret := Some(accessSecret))) &&
                (failure ==> store.users == old(store.users))
      ensures chat ==
                Some(old(chat).GetOr([]) +
                     if question == "" then []
                     else [ChatEntry("user", question), ChatEntry("assistant", ChatWithAi(question))])
    {
      if savePressed {
        store.UpdateTwitterCredentials(username.value, consumerKey, consumerSecret, accessToken, accessSecret, failure);
      }
      if chat.None? {
        chat := Some([]);
      }
      if question != "" {
        ghost var history := chat.value;
        chat := Some(chat.value + [ChatEntry("user", question)]);
        var response := ChatWithAi(question);
        chat := Some(chat.value + [ChatEntry("assistant", response)]);
        assert chat.value == history + [ChatEntry("user", question), ChatEntry("assistant", response)];
      } else {
        assert chat.value + [] == chat.value;
      }
    }
  }

  /** The widget values of one rerun of the script. */
  datatype Widgets = Widgets(
    loginName: string, loginPassword: string, loginSubmitted: bool, registerPressed: bool,
    newUser: string, newPass: string, newPassConfirm: string, signUpPressed: bool, backPressed: bool,
    consumerKey: string, consumerSecret: string, accessToken: string, accessSecret: string,
    savePressed: bool, question: string)

  /**
    * One rerun of the script's entry point: the defaults, then the page Dispatch chooses
    * for the initialised session.
    */
  method Rerun(session: Session, store: Auth.UserStore, w: Widgets, salt: seq<Byte>, kdf: Auth.Kdf,
               failure: bool)
    returns (screen: Screen)
    requires store.Valid() && store.checkedOut < Auth.MaxConnections
    requires |salt| == Auth.SaltBytes
    modifies session, store
    ensures store.Valid() && store.checkedOut == old(store.checkedOut)
    ensures screen == Dispatch(old(session.loggedIn).GetOr(false), old(session.page).GetOr(LoginPageName))
    ensures screen != DashboardScreen ==> session.chat == old(session.chat)
    ensures screen != RegisterScreen ==> store.users.Keys == old(store.users).Keys
    // the login page: logs in exactly on a submitted form whose password verifies
    ensures screen == LoginScreen ==>
              var success := w.loginSubmitted && !failure && w.loginName in old(store.users) &&
                             Auth.VerifyPassword(old(store.users)[w.loginName].password, w.loginPassword, kdf);
              store.users == old(store.users) &&
              session.loggedIn == Some(success || old(session.loggedIn).GetOr(false)) &&
              session.username == Some(if success then w.loginName else old(session.username).GetOr("")) &&
              session.page == Some(if success then DashboardPageName
                                   else if w.registerPressed then RegisterPageName
                                   else old(session.page).GetOr(LoginPageName))
    // the registration page: adds the user exactly when both checks pass and the name is new
    ensures screen == RegisterScreen ==>
              var registered := w.signUpPressed && PasswordAccepted(w.newPass, w.newPassConfirm) &&
                                w.newUser !in old(store.users) && !failure;
              store.users ==
                (if registered
                 then old(store.users)[w.newUser := Auth.UserRow(Auth.HashPassword(w.newPass, salt, kdf), None, None, None, None)]
                 else old(store.users)) &&
              session.loggedIn == Some(old(session.loggedIn).GetOr(false)) &&
              session.username == Some(old(session.username).GetOr("")) &&
              session.page == Some(if registered || w.backPressed then LoginPageName
                                   else old(session.page).GetOr(LoginPageName))
    // the dashboard: keeps the three keys, saves the session user's Twitter fields, extends the chat
    ensures screen == DashboardScreen ==>
              var user := old(session.username).GetOr("");
              session.loggedIn == Some(true) && session.username == Some(user) &&
              session.page == Some(DashboardPageName) &&
              store.users ==
                (if w.savePressed && !failure && user in old(store.users)
                 then old(store.users)[user := old(store.users)[user].(
                                         twitterConsumerKey := Some(w.consumerKey),
                                         twitterConsumerSecret := Some(w.consumerSecret),
                                         twitterAccessToken := Some(w.accessToken),
                                         twitterAccessSecret := Some(w.accessSecret))]
                 else old(store.users)) &&
              session.chat ==
                Some(old(session.chat).GetOr([]) +
                     if w.question == "" then []
                     else [ChatEntry("user", w.question), ChatEntry("assistant", ChatWithAi(w.question))])
    // only a successful login turns a logged-out session into a logged-in one
    ensures session.loggedIn == Some(true) && old(session.loggedIn) != Some(true) ==>
              screen == LoginScreen && w.loginSubmitted && !failure && w.loginName in old(store.users) &&
              Auth.VerifyPassword(old(store.users)[w.loginName].password, w.loginPassword, kdf)
  {
    session.InitDefaults();
    screen := Dispatch(session.loggedIn.value, session.page.value);
    match screen
    case DashboardScreen =>
      session.Dashboard(store, w.consumerKey, w.consumerSecret, w.accessToken, w.accessSecret,
                        w.savePressed, failure, w.question);
    case RegisterScreen =>
      var _, _ := session.RegisterPage(store, w.newUser, w.newPass, w.newPassConfirm, w.signUpPressed,
                                       w.backPressed, salt, kdf, failure);
    case LoginScreen =>
      var _, _ := session.LoginPage(store, w.loginName, w.loginPassword, w.loginSubmitted,
                                    w.registerPressed, kdf, failure);
  }
}
