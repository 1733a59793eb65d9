/** AuthRepository: sign-up and sign-in against the identity provider, and the
    get-or-create of the user's profile document. The provider's answer to each
    request is an input; the signed-in identity is the repository's state. */
module AuthRepo {
  import opened Common
  import opened Model
  import opened Remote

  /** The signed-in account as the identity provider reports it. */
  datatype Identity = Identity(uid: string, displayName: Option<string>, email: Option<string>, photoUrl: Option<string>)

  /** How the provider answered: an account, a result without an account, or an error. */
  datatype ProviderAnswer = Signed(identity: Identity) | NoAccount | Rejected(message: string)

  const CreateFailed: string := "Error al crear usuario"
  const UserNotFound: string := "Usuario no encontrado"
  const GoogleFailed: string := "Error al autenticar con Google"

  /** The users collection and the signed-in identity. */
  datatype AuthState = AuthState(users: map<string, User>, current: Option<Identity>)

  datatype AuthOutcome = AuthOutcome(result: Result<User>, after: AuthState)

  function OrEmpty(s: Option<string>): string {
    if s.Some? then s.value else ""
  }

  /** The profile built from the provider's claims when no document exists. */
  function ProfileFromClaims(id: Identity, now: int): (u: User)
    ensures u.id == id.uid && u.nombre == OrEmpty(id.displayName) && u.email == OrEmpty(id.email)
    ensures u.eventosCreados == [] && u.eventosAsistidos == []
  {
    NewUser(id.uid, OrEmpty(id.displayName), OrEmpty(id.email), id.photoUrl, now)
  }

  function RegisterSpec(s: AuthState, nombre: string, email: string, answer: ProviderAnswer, now: int): AuthOutcome {
    match answer
    case Rejected(m) => AuthOutcome(Failure(m), s)
    case NoAccount => AuthOutcome(Failure(CreateFailed), s)
    case Signed(id) =>
      var user := NewUser(id.uid, nombre, email, id.photoUrl, now);
      AuthOutcome(Success(user), AuthState(s.users[id.uid := user], Some(id.(displayName := Some(nombre)))))
  }

  function LoginWithEmailSpec(s: AuthState, answer: ProviderAnswer, now: int): AuthOutcome {
    match answer
    case Rejected(m) => AuthOutcome(Failure(m), s)
    case NoAccount => AuthOutcome(Failure(UserNotFound), s)
    case Signed(id) =>
      var user := if id.uid in s.users then s.users[id.uid] else ProfileFromClaims(id, now);
      AuthOutcome(Success(user), s.(current := Some(id)))
  }

  function LoginWithGoogleSpec(s: AuthState, answer: ProviderAnswer, now: int): AuthOutcome {
    match answer
    case Rejected(m) => AuthOutcome(Failure(m), s)
    case NoAccount => AuthOutcome(Failure(GoogleFailed), s)
    case Signed(id) =>
      if id.uid in s.users then AuthOutcome(Success(s.users[id.uid]), s.(current := Some(id)))
      else
        var user := ProfileFromClaims(id, now);
        AuthOutcome(Success(user), AuthState(s.users[id.uid := user], Some(id)))
  }

  /** getCurrentUser: the signed-in user's stored profile; None when signed out or
      when there is no profile document. */
  function CurrentUserSpec(s: AuthState): (r: Option<User>)
    ensures r.Some? ==> s.current.Some? && s.current.value.uid in s.users
  {
    match s.current
    case None => None
    case Some(id) => if id.uid in s.users then Some(s.users[id.uid]) else None
  }

  /** A refused or empty provider answer changes nothing and is reported. */
  lemma ProviderFailureWritesNothing(s: AuthState, nombre: string, email: string, answer: ProviderAnswer, now: int)
    requires !answer.Signed?
    ensures RegisterSpec(s, nombre, email, answer, now).after == s
    ensures LoginWithEmailSpec(s, answer, now).after == s
    ensures LoginWithGoogleSpec(s, answer, now).after == s
    ensures RegisterSpec(s, nombre, email, answer, now).result.Failure?
    ensures LoginWithEmailSpec(s, answer, now).result.Failure?
    ensures LoginWithGoogleSpec(s, answer, now).result.Failure?
  {
  }

  /** Registering stores a fresh profile under the new uid, which getCurrentUser
      then returns. */
  lemma RegisterStoresProfile(s: AuthState, nombre: string, email: string, id: Identity, now: int)
    ensures var o := RegisterSpec(s, nombre, email, Signed(id), now);
      && o.result.Success?
      && o.after.users[id.uid] == o.result.value
      && o.result.value.id == id.uid && o.result.value.nombre == nombre && o.result.value.email == email
      && o.result.value.eventosCreados == [] && o.result.value.eventosAsistidos == []
      && (forall k :: k in s.users && k != id.uid ==> k in o.after.users && o.after.users[k] == s.users[k])
      && CurrentUserSpec(o.after) == Some(o.result.value)
  {
  }

  /** Email sign-in never writes a profile: it returns the stored one, or one built
      from the claims that getCurrentUser will not find. */
  lemma LoginWithEmailReadsOnly(s: AuthState, id: Identity, now: int)
    ensures var o := LoginWithEmailSpec(s, Signed(id), now);
      && o.after.users == s.users
      && o.result.Success?
      && (id.uid in s.users ==> o.result.value == s.users[id.uid] && CurrentUserSpec(o.after) == Some(o.result.value))
      && (id.uid !in s.users ==> o.result.value == ProfileFromClaims(id, now) && CurrentUserSpec(o.after) == None)
  {
  }

  /** Google sign-in is get-or-create: an existing profile is returned unchanged with
      no write; otherwise a new one is stored under the uid. Either way getCurrentUser
      returns what was returned. */
  lemma LoginWithGoogleGetOrCreate(s: AuthState, id: Identity, now: int)
    ensures var o := LoginWithGoogleSpec(s, Signed(id), now);
      && o.result.Success?
      && (id.uid in s.users ==> o.after.users == s.users && o.result.value == s.users[id.uid])
      && (id.uid !in s.users ==> o.after.users == s.users[id.uid := ProfileFromClaims(id, now)])
      && CurrentUserSpec(o.after) == Some(o.result.value)
  {
  }

  /** Signing in twice with Google yields the same profile and writes once. */
  lemma LoginWithGoogleIdempotent(s: AuthState, id: Identity, now1: int, now2: int)
    ensures var o1 := LoginWithGoogleSpec(s, Signed(id), now1);
      var o2 := LoginWithGoogleSpec(o1.after, Signed(id), now2);
      o2.result == o1.result && o2.after == o1.after
  {
  }

  class AuthRepository {
    const store: Firestore
    var current: Option<Identity>

    /** The session is the one the authentication service already holds, which may
        survive from an earlier launch of the app. */
    constructor(store: Firestore, session: Option<Identity>)
      ensures this.store == store && current == session
    {
      this.store := store;
      current := session;
    }

    function State(): AuthState
      reads this, store
    {
      AuthState(store.users, current)
    }

    /** isUserAuthenticated */
    predicate IsUserAuthenticated()
      reads this
    {
      current.Some?
    }

    method RegisterWithEmail(nombre: string, email: string, answer: ProviderAnswer, now: int) returns (r: Result<User>)
      modifies this, store
      ensures AuthOutcome(r, State()) == RegisterSpec(old(State()), nombre, email, answer, now)
      ensures store.events == old(store.events) && store.comments == old(store.comments)
    {
      match answer
      case Rejected(m) =>
        r := Failure(m);
      case NoAccount =>
        r := Failure(CreateFailed);
      case Signed(id) =>
        current := Some(id.(displayName := Some(nombre)));
        var user := NewUser(id.uid, nombre, email, id.photoUrl, now);
        store.SetUser(user);
        r := Success(user);
    }

    method LoginWithEmail(answer: ProviderAnswer, now: int) returns (r: Result<User>)
      modifies this
      ensures AuthOutcome(r, State()) == LoginWithEmailSpec(old(State()), answer, now)
    {
      match answer
      case Rejected(m) =>
        r := Failure(m);
      case NoAccount =>
        r := Failure(UserNotFound);
      case Signed(id) =>
        current := Some(id);
        var userDoc := store.GetUser(id.uid);
        var user := if userDoc.Some? then userDoc.value else ProfileFromClaims(id, now);
        r := Success(user);
    }

    method LoginWithGoogle(answer: ProviderAnswer, now: int) returns (r: Result<User>)
      modifies this, store
      ensures AuthOutcome(r, State()) == LoginWithGoogleSpec(old(State()), answer, now)
      ensures store.events == old(store.events) && store.comments == old(store.comments)
    {
      match answer
      case Rejected(m) =>
        r := Failure(m);
      case NoAccount =>
        r := Failure(GoogleFailed);
      case Signed(id) =>
        current := Some(id);
        var userDoc := store.GetUser(id.uid);
        if userDoc.Some? {
          r := Success(userDoc.value);
        } else {
          var newUser := ProfileFromClaims(id, now);
          store.SetUser(newUser);
          r := Success(newUser);
        }
    }

    method GetCurrentUser() returns (r: Option<User>)
      ensures r == CurrentUserSpec(State())
    {
      if current.None? {
        return None;
      }
      r := store.GetUser(current.value.uid);
    }

    method SignOut()
      modifies this
      ensures current == None
    {
      current := None;
    }
  }
}
