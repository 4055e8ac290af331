/**
 The session state of ola-frontend/src/redux/userSlice.ts: the token and user profile held by
 the store, mirrored into the browser's local storage by the `setUser` and `logout` reducers and
 read back from it when the page loads. Local storage is a map from keys to strings; JSON
 serialisation is a pair of functions passed in, since `JSON.stringify`/`JSON.parse` are not
 part of this model.
 */
module UserSlice {

  import opened Common

  /** The `user` object the backend returns at login. Only `role` is ever inspected; a missing
      role behaves like any role other than "driver". */
  datatype Profile = Profile(id: string, name: string, email: string, role: string)

  /** `state.user`: `token` and `user` are `null` when absent. */
  datatype UserState = UserState(token: Option<string>, user: Option<Profile>)

  /** `localStorage`. */
  type Storage = map<string, string>

  const TOKEN_KEY := "token"
  const USER_KEY := "user"

  /** `JSON.stringify` on a user value, and `JSON.parse`, which yields a user value (possibly
      `null`) or throws (`None`). */
  datatype Codec = Codec(stringify: Option<Profile> -> string, parse: string -> Option<Option<Profile>>)

  /** What the serialiser promises: a serialised profile is non-empty and parses back to itself,
      and a serialised `null` (or `undefined`) reads back as no user. */
  ghost predicate WellBehaved(codec: Codec)
  {
    && (forall p :: codec.stringify(Some(p)) != "" && codec.parse(codec.stringify(Some(p))) == Some(Some(p)))
    && (codec.parse(codec.stringify(None)).None? || codec.parse(codec.stringify(None)).value.None?)
  }

  datatype Session = Session(state: UserState, storage: Storage)

  /** `getStoredUser()` and `initialState`: the token is the stored string, if any; the user is
      parsed from a non-empty stored string, and a missing, empty or unparsable value gives no
      user. */
  function LoadInitial(storage: Storage, codec: Codec): (st: UserState)
    ensures st.token.Some? <==> TOKEN_KEY in storage
    ensures st.token.Some? ==> st.token.value == storage[TOKEN_KEY]
    ensures (USER_KEY !in storage || storage[USER_KEY] == "") ==> st.user == None
    ensures st.user.Some? ==> USER_KEY in storage && codec.parse(storage[USER_KEY]) == Some(st.user)
    ensures (USER_KEY in storage && storage[USER_KEY] != "" && codec.parse(storage[USER_KEY]).Some?)
      ==> st.user == codec.parse(storage[USER_KEY]).value
    ensures (USER_KEY in storage && codec.parse(storage[USER_KEY]).None?) ==> st.user == None
  {
    var token := if TOKEN_KEY in storage then Some(storage[TOKEN_KEY]) else None;
    var user :=
      if USER_KEY !in storage || storage[USER_KEY] == "" then None
      else match codec.parse(storage[USER_KEY])
        case None => None
        case Some(u) => u;
    UserState(token, user)
  }

  /** `setUser({token, user})`: the state takes the payload, and both keys are written. */
  function SetUser(s: Session, token: string, user: Option<Profile>, codec: Codec): (r: Session)
    ensures r.state == UserState(Some(token), user)
    ensures r.storage.Keys == s.storage.Keys + {TOKEN_KEY, USER_KEY}
    ensures r.storage[TOKEN_KEY] == token && r.storage[USER_KEY] == codec.stringify(user)
    ensures forall k :: k in s.storage && k != TOKEN_KEY && k != USER_KEY ==> r.storage[k] == s.storage[k]
  {
    Session(UserState(Some(token), user), s.storage[TOKEN_KEY := token][USER_KEY := codec.stringify(user)])
  }

  /** `logout()`: the state is cleared and both keys are removed. */
  function Logout(s: Session): (r: Session)
    ensures r.state == UserState(None, None)
    ensures r.storage.Keys == s.storage.Keys - {TOKEN_KEY, USER_KEY}
    ensures forall k :: k in r.storage ==> r.storage[k] == s.storage[k]
  {
    Session(UserState(None, None), s.storage - {TOKEN_KEY, USER_KEY})
  }

  /** Logging out twice is logging out once. */
  lemma LogoutIdempotent(s: Session)
    ensures Logout(Logout(s)) == Logout(s)
  {
  }

  /** State and storage agree when a page load would rebuild exactly this state. */
  ghost predicate Agrees(s: Session, codec: Codec)
  {
    LoadInitial(s.storage, codec) == s.state
  }

  /** After either reducer, reloading the page restores the state the reducer produced: the
      store and local storage agree. */
  lemma ReducersKeepAgreement(s: Session, token: string, user: Option<Profile>, codec: Codec)
    requires WellBehaved(codec)
    ensures Agrees(SetUser(s, token, user, codec), codec)
    ensures Agrees(Logout(s), codec)
  {
    var r := SetUser(s, token, user, codec);
    if user.Some? {
      assert codec.stringify(Some(user.value)) != "";
      assert codec.parse(codec.stringify(Some(user.value))) == Some(Some(user.value));
    }
  }

  /** After `setUser` with no user, the "user" key is present and holds the serialised `null`:
      state and storage still agree, but the key is not removed. */
  lemma SetUserKeepsUserKey(s: Session, token: string, codec: Codec)
    ensures USER_KEY in SetUser(s, token, None, codec).storage
    ensures SetUser(s, token, None, codec).state.user == None
  {
  }
}
