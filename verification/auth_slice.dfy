/** The authentication slice of src/features/authSlice/authSlice.ts: the
    `AuthState` record, its reducers and the state changes of the `login`,
    `register` and `logoutUser` thunks, and the projection of an identity
    provider user to the serialisable record the state keeps. The thunks'
    calls to the identity provider and to the store are not modelled; what
    they resolve with is a parameter. */
module AuthSlice {
  import opened Wrappers
  import opened Types

  /** The provider's user object: the six fields the state keeps and a few
      it does not. */
  datatype ProviderUser = ProviderUser(
    uid: string,
    email: Option<string>,
    displayName: Option<string>,
    emailVerified: bool,
    photoURL: Option<string>,
    providerId: string,
    isAnonymous: bool,
    phoneNumber: Option<string>,
    tenantId: Option<string>)

  /** `toSerializableUser` */
  function ToSerializableUser(u: ProviderUser): (r: User) {
    User(u.uid, u.email, u.displayName, u.emailVerified, u.photoURL, u.providerId)
  }

  /** The projection keeps exactly the six serialisable fields: two provider
      users project to the same record iff they agree on those. */
  lemma ProjectionKeepsIdentity(a: ProviderUser, b: ProviderUser)
    ensures ToSerializableUser(a) == ToSerializableUser(b) <==>
      && a.uid == b.uid && a.email == b.email && a.displayName == b.displayName
      && a.emailVerified == b.emailVerified && a.photoURL == b.photoURL && a.providerId == b.providerId
  {
  }

  class AuthState {
    var user: Option<User>
    var isLoading: bool
    var error: Option<string>
    var emailForVerification: Option<string>
    var isEmailVerified: bool

    /** `initialState` */
    predicate IsInitial()
      reads this
    {
      user.None? && !isLoading && error.None? && emailForVerification.None? && !isEmailVerified
    }

    constructor ()
      ensures IsInitial()
    {
      user := None;
      isLoading := false;
      error := None;
      emailForVerification := None;
      isEmailVerified := false;
    }

    /** `setUser`: the user, its verification flag (false without a user),
        and the error cleared. */
    method SetUser(payload: Option<User>)
      modifies this
      ensures user == payload
      ensures isEmailVerified == (payload.Some? && payload.value.emailVerified)
      ensures error.None?
      ensures isLoading == old(isLoading) && emailForVerification == old(emailForVerification)
    {
      user := payload;
      isEmailVerified := if payload.Some? then payload.value.emailVerified else false;
      error := None;
    }

    method SetLoading(payload: bool)
      modifies this
      ensures isLoading == payload
      ensures user == old(user) && error == old(error)
      ensures emailForVerification == old(emailForVerification) && isEmailVerified == old(isEmailVerified)
    {
      isLoading := payload;
    }

    method SetError(payload: Option<string>)
      modifies this
      ensures error == payload
      ensures user == old(user) && isLoading == old(isLoading)
      ensures emailForVerification == old(emailForVerification) && isEmailVerified == old(isEmailVerified)
    {
      error := payload;
    }

    method SetEmailForVerification(payload: Option<string>)
      modifies this
      ensures emailForVerification == payload
      ensures user == old(user) && isLoading == old(isLoading) && error == old(error)
      ensures isEmailVerified == old(isEmailVerified)
    {
      emailForVerification := payload;
    }

    /** `verifyEmail`: marks the email verified, but only with a user. */
    method VerifyEmail()
      modifies this
      ensures old(user).Some? ==> isEmailVerified
      ensures old(user).None? ==> isEmailVerified == old(isEmailVerified)
      ensures user == old(user) && isLoading == old(isLoading) && error == old(error)
      ensures emailForVerification == old(emailForVerification)
    {
      if user.Some? {
        isEmailVerified := true;
      }
    }

    /** `resetAuthState` */
    method ResetAuthState()
      modifies this
      ensures IsInitial()
    {
      user := None;
      isLoading := false;
      error := None;
      emailForVerification := None;
      isEmailVerified := false;
    }

    /** `login.pending` and `register.pending` */
    method AuthPending()
      modifies this
      ensures isLoading && error.None?
      ensures user == old(user) && emailForVerification == old(emailForVerification)
      ensures isEmailVerified == old(isEmailVerified)
    {
      isLoading := true;
      error := None;
    }

    /** `login.fulfilled` */
    method LoginFulfilled(payload: User)
      modifies this
      ensures !isLoading && user == Some(payload) && isEmailVerified == payload.emailVerified
      ensures error == old(error) && emailForVerification == old(emailForVerification)
    {
      isLoading := false;
      user := Some(payload);
      isEmailVerified := payload.emailVerified;
    }

    /** `login.rejected` and `register.rejected`: the rejection value is
        the error. */
    method AuthRejected(payload: Option<string>)
      modifies this
      ensures !isLoading && error == payload
      ensures user == old(user) && emailForVerification == old(emailForVerification)
      ensures isEmailVerified == old(isEmailVerified)
    {
      isLoading := false;
      error := payload;
    }

    /** `register.fulfilled`: only the address awaiting verification is
        recorded; the new user is not signed in. */
    method RegisterFulfilled(payload: User)
      modifies this
      ensures !isLoading && emailForVerification == payload.email
      ensures user == old(user) && error == old(error) && isEmailVerified == old(isEmailVerified)
    {
      isLoading := false;
      emailForVerification := payload.email;
    }

    /** `logoutUser.fulfilled` */
    method LogoutFulfilled()
      modifies this
      ensures user.None? && !isEmailVerified
      ensures isLoading == old(isLoading) && error == old(error)
      ensures emailForVerification == old(emailForVerification)
    {
      user := None;
      isEmailVerified := false;
    }
  }

  /** A successful sign-in: the state ends signed in as the provider's user,
      its verification flag copied, not loading and without an error. */
  method SignIn(state: AuthState, signedIn: ProviderUser)
    modifies state
    ensures state.user == Some(ToSerializableUser(signedIn))
    ensures state.isEmailVerified == signedIn.emailVerified
    ensures !state.isLoading && state.error.None?
    ensures state.emailForVerification == old(state.emailForVerification)
  {
    state.AuthPending();
    state.LoginFulfilled(ToSerializableUser(signedIn));
  }

  /** A failed sign-in leaves the previous user in place and shows the
      provider's message. */
  method FailedSignIn(state: AuthState, message: Option<string>)
    modifies state
    ensures state.user == old(state.user) && state.isEmailVerified == old(state.isEmailVerified)
    ensures !state.isLoading && state.error == message
  {
    state.AuthPending();
    state.AuthRejected(message);
  }

  /** A registration: the new address awaits verification and nobody is
      signed in by it. */
  method Register(state: AuthState, created: ProviderUser)
    modifies state
    ensures state.emailForVerification == created.email
    ensures state.user == old(state.user) && state.isEmailVerified == old(state.isEmailVerified)
    ensures !state.isLoading && state.error.None?
  {
    state.AuthPending();
    state.RegisterFulfilled(ToSerializableUser(created));
  }

  /** `logoutUser`: the thunk resets the state, then its fulfilment clears
      the user; whatever the state was, it ends as the initial state. */
  method Logout(state: AuthState)
    modifies state
    ensures state.IsInitial()
  {
    state.ResetAuthState();
    state.LogoutFulfilled();
  }
}
