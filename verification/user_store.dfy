/**
 The user store (`src/stores/user.ts`): an in-memory token and user name,
 initialised from storage and written through to it on every change. An
 empty value is never stored: writing `''` removes the key instead.
 */
module UserStore {
  import opened Values
  import opened KeyValue

  /** The in-memory part of the store; an empty token means anonymous. */
  datatype User = User(token: string, username: string)

  /** The store together with the storage it writes through to. */
  datatype UserSession = UserSession(user: User, storage: Storage)

  /** The mutations the store exposes. */
  datatype UserOp = SetTokenOp(token: string) | SetUsernameOp(username: string) | LogoutOp

  /** The value a store initialised from `s` gives to the field kept under `key`. */
  function Restore(s: Storage, key: string): (v: string)
    ensures v != "" <==> Truthy(GetItem(s, key))
    ensures v != "" ==> GetItem(s, key) == Some(v)
  {
    OrElse(GetItem(s, key), "")
  }

  /** A store created from storage `s`. */
  function Init(s: Storage): (u: User)
    ensures u.token != "" <==> Truthy(GetItem(s, TokenKey))
    ensures u.token != "" ==> GetItem(s, TokenKey) == Some(u.token)
    ensures u.username != "" <==> Truthy(GetItem(s, UsernameKey))
    ensures u.username != "" ==> GetItem(s, UsernameKey) == Some(u.username)
  {
    User(Restore(s, TokenKey), Restore(s, UsernameKey))
  }

  /** The write-through rule of both setters: store `v` under `key`, or remove the key when `v` is empty. */
  function Persist(s: Storage, key: string, v: string): (r: Storage)
    ensures Restore(r, key) == v
    ensures GetItem(r, key) != Some("")
    ensures forall k :: k != key ==> GetItem(r, k) == GetItem(s, k)
  {
    if v != "" then SetItem(s, key, v) else RemoveItem(s, key)
  }

  function SetToken(ss: UserSession, t: string): (r: UserSession)
    ensures r.user.token == t
    ensures r.user.username == ss.user.username
    ensures t != "" ==> GetItem(r.storage, TokenKey) == Some(t)
    ensures t == "" ==> TokenKey !in r.storage
    ensures AgreeOutside(r.storage, ss.storage, {TokenKey})
  {
    UserSession(ss.user.(token := t), Persist(ss.storage, TokenKey, t))
  }

  function SetUsername(ss: UserSession, n: string): (r: UserSession)
    ensures r.user.username == n
    ensures r.user.token == ss.user.token
    ensures n != "" ==> GetItem(r.storage, UsernameKey) == Some(n)
    ensures n == "" ==> UsernameKey !in r.storage
    ensures AgreeOutside(r.storage, ss.storage, {UsernameKey})
  {
    UserSession(ss.user.(username := n), Persist(ss.storage, UsernameKey, n))
  }

  function Logout(ss: UserSession): (r: UserSession)
    ensures r.user == User("", "")
    ensures TokenKey !in r.storage && UsernameKey !in r.storage
    ensures AgreeOutside(r.storage, ss.storage, {TokenKey, UsernameKey})
  {
    SetUsername(SetToken(ss, ""), "")
  }

  predicate IsLoggedIn(u: User) {
    u.token != ""
  }

  function Apply(ss: UserSession, op: UserOp): UserSession {
    match op
    case SetTokenOp(t) => SetToken(ss, t)
    case SetUsernameOp(n) => SetUsername(ss, n)
    case LogoutOp => Logout(ss)
  }

  function ApplyAll(ss: UserSession, ops: seq<UserOp>): UserSession
    decreases |ops|
  {
    if |ops| == 0 then ss else ApplyAll(Apply(ss, ops[0]), ops[1..])
  }

  /** Re-initialising the store from its storage reproduces the in-memory state. */
  predicate InSync(ss: UserSession) {
    Init(ss.storage) == ss.user
  }

  lemma LoggedInIffToken(ss: UserSession, t: string)
    ensures IsLoggedIn(SetToken(ss, t).user) <==> t != ""
    ensures !IsLoggedIn(Logout(ss).user)
  {
  }

  lemma ApplyPreservesSync(ss: UserSession, op: UserOp)
    requires InSync(ss)
    ensures InSync(Apply(ss, op))
  {
  }

  /** After any sequence of mutations, a reload from storage restores the same token and user name. */
  lemma {:induction false} ApplyAllPreservesSync(ss: UserSession, ops: seq<UserOp>)
    requires InSync(ss)
    ensures InSync(ApplyAll(ss, ops))
    decreases |ops|
  {
    if |ops| > 0 {
      ApplyPreservesSync(ss, ops[0]);
      ApplyAllPreservesSync(Apply(ss, ops[0]), ops[1..]);
    }
  }

  /** A store created from any storage, then mutated in any way, still agrees with a reload of its storage. */
  lemma FreshStoreStaysInSync(s: Storage, ops: seq<UserOp>)
    ensures InSync(ApplyAll(UserSession(Init(s), s), ops))
  {
    ApplyAllPreservesSync(UserSession(Init(s), s), ops);
  }

  /** The mutations never touch a key other than `token` and `username`. */
  lemma {:induction false} ApplyAllKeepsOtherKeys(ss: UserSession, ops: seq<UserOp>)
    ensures AgreeOutside(ApplyAll(ss, ops).storage, ss.storage, {TokenKey, UsernameKey})
    decreases |ops|
  {
    if |ops| > 0 {
      var next := Apply(ss, ops[0]);
      assert AgreeOutside(next.storage, ss.storage, {TokenKey, UsernameKey});
      ApplyAllKeepsOtherKeys(next, ops[1..]);
    }
  }

  lemma SetTokenIdempotent(ss: UserSession, t: string)
    ensures SetToken(SetToken(ss, t), t) == SetToken(ss, t)
  {
  }

  lemma SetUsernameIdempotent(ss: UserSession, n: string)
    ensures SetUsername(SetUsername(ss, n), n) == SetUsername(ss, n)
  {
  }

  lemma LogoutIdempotent(ss: UserSession)
    ensures Logout(Logout(ss)) == Logout(ss)
  {
  }
}
