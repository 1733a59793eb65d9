/** AuthViewModel: the authentication screen state and how each intent moves it.
    An intent first marks the state as loading and clears the error, then settles
    it with the repository's answer. */
module AuthVM {
  import opened Common
  import opened Model
  import opened AuthRepo

  datatype AuthUiState = AuthUiState(
    isLoading: bool,
    isAuthenticated: bool,
    currentUser: Option<User>,
    errorMessage: Option<string>,
    successMessage: Option<string>)

  const InitialUi: AuthUiState := AuthUiState(false, false, None, None, None)

  datatype Intent = RegisterIntent | EmailLoginIntent | GoogleLoginIntent

  const PasswordText: string := "Contraseña incorrecta"
  const EmailText: string := "Email inválido o no registrado"
  const NetworkText: string := "Error de conexión. Verifica tu internet"
  const InUseText: string := "Este email ya está registrado"
  const UnknownText: string := "Error desconocido"

  /** getErrorMessage: the first matching keyword decides, in the order password,
      email, network, already in use; otherwise the raw message. */
  function ErrorText(message: Option<string>): (r: string)
    ensures message.None? ==> r == UnknownText
    ensures message.Some? && Contains(message.value, "password") ==> r == PasswordText
    ensures message.Some? && !Contains(message.value, "password") && Contains(message.value, "email") ==> r == EmailText
    ensures (message.Some? && !Contains(message.value, "password") && !Contains(message.value, "email")
             && Contains(message.value, "network")) ==> r == NetworkText
    ensures (message.Some? && !Contains(message.value, "password") && !Contains(message.value, "email")
             && !Contains(message.value, "network") && Contains(message.value, "already in use")) ==> r == InUseText
    ensures (message.Some? && !Contains(message.value, "password") && !Contains(message.value, "email")
             && !Contains(message.value, "network") && !Contains(message.value, "already in use")) ==> r == message.value
  {
    match message
    case None => UnknownText
    case Some(m) =>
      if Contains(m, "password") then PasswordText
      else if Contains(m, "email") then EmailText
      else if Contains(m, "network") then NetworkText
      else if Contains(m, "already in use") then InUseText
      else m
  }

  /** A message naming both an email and a collision gets the email text, not the
      "already registered" text. */
  lemma EmailBeforeAlreadyInUse(m: string)
    requires !Contains(m, "password") && Contains(m, "email") && Contains(m, "already in use")
    ensures ErrorText(Some(m)) == EmailText
  {
  }

  /** The "already registered" text comes out exactly for messages that mention a
      collision and none of the earlier keywords. */
  lemma InUseTextExactly(m: string)
    ensures ErrorText(Some(m)) == InUseText <==>
      !Contains(m, "password") && !Contains(m, "email") && !Contains(m, "network") && Contains(m, "already in use")
  {
    if !Contains(m, "email") {
      // the "already registered" text itself names an email
      var head, tail := "Este ", " ya está registrado";
      assert InUseText == head + "email" + tail;
      assert InUseText[|head|..|head| + 5] == "email";
      ContainsAt(InUseText, "email", |head|);
      assert m != InUseText;
    }
  }

  function SuccessText(intent: Intent, user: User): string {
    match intent
    case RegisterIntent => "¡Registro exitoso!"
    case EmailLoginIntent => "¡Bienvenido " + user.nombre + "!"
    case GoogleLoginIntent => "¡Bienvenido " + user.nombre + "!"
  }

  /** The first step of every sign-up or sign-in intent. */
  function Begin(s: AuthUiState): (t: AuthUiState)
    ensures t.isLoading && t.errorMessage == None
    ensures t.isAuthenticated == s.isAuthenticated && t.currentUser == s.currentUser
    ensures t.successMessage == s.successMessage
  {
    s.(isLoading := true, errorMessage := None)
  }

  /** The second step: fold the repository's answer into the state. */
  function Settle(s: AuthUiState, intent: Intent, r: Result<User>): AuthUiState {
    match r
    case Success(user) =>
      s.(isLoading := false, isAuthenticated := true, currentUser := Some(user),
         successMessage := Some(SuccessText(intent, user)))
    case Failure(m) =>
      s.(isLoading := false, errorMessage := Some(ErrorText(Some(m))))
  }

  /** After a successful intent the user is signed in and shown, nothing is loading
      and no error remains. */
  lemma IntentSucceeds(s: AuthUiState, intent: Intent, user: User)
    ensures var t := Settle(Begin(s), intent, Success(user));
      !t.isLoading && t.isAuthenticated && t.currentUser == Some(user)
      && t.errorMessage == None && t.successMessage == Some(SuccessText(intent, user))
  {
  }

  /** After a failed intent nothing is loading, the mapped error is shown and the
      signed-in user and any earlier success message are kept. */
  lemma IntentFails(s: AuthUiState, intent: Intent, m: string)
    ensures var t := Settle(Begin(s), intent, Failure(m));
      !t.isLoading && t.errorMessage == Some(ErrorText(Some(m)))
      && t.isAuthenticated == s.isAuthenticated && t.currentUser == s.currentUser
      && t.successMessage == s.successMessage
  {
  }

  function Cleared(s: AuthUiState): (t: AuthUiState)
    ensures t.errorMessage == None && t.successMessage == None
    ensures t.(errorMessage := s.errorMessage, successMessage := s.successMessage) == s
  {
    s.(errorMessage := None, successMessage := None)
  }

  class AuthViewModel {
    const repository: AuthRepository
    var ui: AuthUiState

    /** Construction runs checkAuthState. */
    constructor(repository: AuthRepository)
      ensures this.repository == repository
      ensures ui == InitialUi.(isAuthenticated := CurrentUserSpec(repository.State()).Some?,
                               currentUser := CurrentUserSpec(repository.State()))
    {
      this.repository := repository;
      ui := InitialUi;
      new;
      CheckAuthState();
    }

    /** The state is authenticated exactly when getCurrentUser found a profile. */
    method CheckAuthState()
      modifies this
      ensures ui == old(ui).(isLoading := false, isAuthenticated := CurrentUserSpec(repository.State()).Some?,
                             currentUser := CurrentUserSpec(repository.State()))
    {
      ui := ui.(isLoading := true);
      var user := repository.GetCurrentUser();
      ui := ui.(isLoading := false, isAuthenticated := user.Some?, currentUser := user);
    }

    method RegisterWithEmail(nombre: string, email: string, answer: ProviderAnswer, now: int)
      modifies this, repository, repository.store
      ensures ui == Settle(Begin(old(ui)), RegisterIntent, RegisterSpec(old(repository.State()), nombre, email, answer, now).result)
      ensures repository.State() == RegisterSpec(old(repository.State()), nombre, email, answer, now).after
    {
      ui := Begin(ui);
      var r := repository.RegisterWithEmail(nombre, email, answer, now);
      ui := Settle(ui, RegisterIntent, r);
    }

    method LoginWithEmail(answer: ProviderAnswer, now: int)
      modifies this, repository
      ensures ui == Settle(Begin(old(ui)), EmailLoginIntent, LoginWithEmailSpec(old(repository.State()), answer, now).result)
      ensures repository.State() == LoginWithEmailSpec(old(repository.State()), answer, now).after
    {
      ui := Begin(ui);
      var r := repository.LoginWithEmail(answer, now);
      ui := Settle(ui, EmailLoginIntent, r);
    }

    method LoginWithGoogle(answer: ProviderAnswer, now: int)
      modifies this, repository, repository.store
      ensures ui == Settle(Begin(old(ui)), GoogleLoginIntent, LoginWithGoogleSpec(old(repository.State()), answer, now).result)
      ensures repository.State() == LoginWithGoogleSpec(old(repository.State()), answer, now).after
    {
      ui := Begin(ui);
      var r := repository.LoginWithGoogle(answer, now);
      ui := Settle(ui, GoogleLoginIntent, r);
    }

    /** signOut: the provider forgets the identity and the state returns to its defaults. */
    method SignOut()
      modifies this, repository
      ensures ui == InitialUi && !repository.IsUserAuthenticated()
    {
      repository.SignOut();
      ui := AuthUiState(false, false, None, None, None);
    }

    method ClearMessages()
      modifies this
      ensures ui == Cleared(old(ui))
    {
      ui := ui.(errorMessage := None, successMessage := None);
    }

    method RefreshCurrentUser()
      modifies this
      ensures ui == old(ui).(currentUser := CurrentUserSpec(repository.State()))
    {
      var user := repository.GetCurrentUser();
      ui := ui.(currentUser := user);
    }
  }
}
