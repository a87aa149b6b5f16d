/**
 Properties that cross components: the request layer, the user store and the
 layout store all read and write one `localStorage`. A 401 from the server
 removes the stored token and sends the page to `/login`; that navigation
 reloads the application, so the user store is re-created from storage.
 */
module Session {
  import opened Values
  import opened KeyValue
  import UserStore
  import LayoutStore
  import Http

  /**
   After a 401 the next page load is logged out; it keeps the stored user
   name, the sidebar state and every other key, and the location is set to
   `/login` once for this failure.
   */
  lemma SessionExpiryLogsOut(w: Http.World, bodyMessage: Option<string>)
    ensures var r := Http.OnRejected(w, Http.StatusError(401, bodyMessage));
            && !UserStore.IsLoggedIn(UserStore.Init(r.world.storage))
            && UserStore.Init(r.world.storage).username == UserStore.Init(w.storage).username
            && LayoutStore.Init(r.world.storage) == LayoutStore.Init(w.storage)
            && Http.Navigations(Http.Added(w, r.world)) == [Http.LoginHref]
            && Http.Toasts(Http.Added(w, r.world)) == [Http.SessionExpiredMessage]
  {
    var r := Http.OnRejected(w, Http.StatusError(401, bodyMessage));
    assert GetItem(r.world.storage, UsernameKey) == GetItem(w.storage, UsernameKey);
    assert GetItem(r.world.storage, SidebarKey) == GetItem(w.storage, SidebarKey);
  }

  /**
   The same at the level of a whole call: a call the server answers with 401
   rejects with that error, leaves a storage whose reload is logged out but
   keeps the user name and sidebar state, and navigates to `/login` once.
   */
  lemma SendExpiryLogsOut<T>(w: Http.World, cfg: Http.Config, transport: Http.Config -> Http.Outcome<T>,
                             bodyMessage: Option<string>)
    requires transport(Http.AttachAuth(w.storage, cfg)) == Http.Failed(Http.StatusError(401, bodyMessage))
    ensures var r := Http.Send(w, cfg, transport);
            && r.settled == Http.Rejected(Http.TransportFailure(Http.StatusError(401, bodyMessage)))
            && !UserStore.IsLoggedIn(UserStore.Init(r.world.storage))
            && UserStore.Init(r.world.storage).username == UserStore.Init(w.storage).username
            && LayoutStore.Init(r.world.storage) == LayoutStore.Init(w.storage)
            && Http.Navigations(Http.Added(w, r.world)) == [Http.LoginHref]
  {
    var r := Http.Send(w, cfg, transport);
    assert GetItem(r.world.storage, UsernameKey) == GetItem(w.storage, UsernameKey);
    assert GetItem(r.world.storage, SidebarKey) == GetItem(w.storage, SidebarKey);
  }

  /** Any other failure leaves the stored session exactly as it was. */
  lemma OtherFailuresKeepSession(w: Http.World, err: Http.TransportError)
    requires !Http.IsSessionExpiry(err)
    ensures var r := Http.OnRejected(w, err);
            && UserStore.Init(r.world.storage) == UserStore.Init(w.storage)
            && Http.Navigations(Http.Added(w, r.world)) == []
  {
  }

  /** Two requests failing with 401 one after the other leave the same storage as one. */
  lemma RepeatedExpiryKeepsStorage(w: Http.World, a: Option<string>, b: Option<string>)
    ensures var first := Http.OnRejected(w, Http.StatusError(401, a));
            var second := Http.OnRejected(first.world, Http.StatusError(401, b));
            second.world.storage == first.world.storage
  {
  }

  /** A token set through the store goes out on the next request; an empty one sends nothing. */
  lemma CredentialFollowsToken(ss: UserStore.UserSession, t: string, cfg: Http.Config)
    ensures t != "" ==> Http.Credential(Http.AttachAuth(UserStore.SetToken(ss, t).storage, cfg)) == Some(t)
    ensures t == "" ==> Http.AttachAuth(UserStore.SetToken(ss, t).storage, cfg) == cfg
  {
  }

  /** After logout the request stage leaves every configuration untouched. */
  lemma LogoutSendsNoCredential(ss: UserStore.UserSession, cfg: Http.Config)
    ensures Http.AttachAuth(UserStore.Logout(ss).storage, cfg) == cfg
  {
  }

  /**
   While the store is in sync with storage, the request stage attaches a
   credential exactly when the store reports logged in, and it carries the
   store's token.
   */
  lemma RequestAgreesWithStore(ss: UserStore.UserSession, cfg: Http.Config)
    requires UserStore.InSync(ss)
    ensures UserStore.IsLoggedIn(ss.user) ==>
              Http.Credential(Http.AttachAuth(ss.storage, cfg)) == Some(ss.user.token)
    ensures !UserStore.IsLoggedIn(ss.user) ==> Http.AttachAuth(ss.storage, cfg) == cfg
  {
  }

  /** The user store's mutations never change what the layout store restores. */
  lemma UserOpsKeepSidebar(ss: UserStore.UserSession, ops: seq<UserStore.UserOp>)
    ensures LayoutStore.Init(UserStore.ApplyAll(ss, ops).storage) == LayoutStore.Init(ss.storage)
  {
    UserStore.ApplyAllKeepsOtherKeys(ss, ops);
    assert GetItem(UserStore.ApplyAll(ss, ops).storage, SidebarKey) == GetItem(ss.storage, SidebarKey);
  }

  /** The layout store's mutations never change what the user store restores. */
  lemma LayoutOpsKeepUser(l: LayoutStore.Layout, ops: seq<LayoutStore.LayoutOp>)
    ensures UserStore.Init(LayoutStore.ApplyAll(l, ops).storage) == UserStore.Init(l.storage)
  {
    if |ops| > 0 {
      LayoutStore.ApplyAllPersists(l, ops);
      var s := LayoutStore.ApplyAll(l, ops).storage;
      assert GetItem(s, TokenKey) == GetItem(l.storage, TokenKey);
      assert GetItem(s, UsernameKey) == GetItem(l.storage, UsernameKey);
    }
  }

  /** A token set before a restart is the token after it. */
  lemma TokenSurvivesReload(ss: UserStore.UserSession, t: string)
    ensures UserStore.Init(UserStore.SetToken(ss, t).storage).token == t
  {
  }

  /** A status 500 shows the fixed server-error text even when the body explains the failure. */
  lemma ServerErrorIgnoresBodyExample(w: Http.World)
    ensures var r := Http.OnRejected(w, Http.StatusError(500, Some("db down")));
            && r.reason == Http.TransportFailure(Http.StatusError(500, Some("db down")))
            && Http.Toasts(Http.Added(w, r.world)) == [Http.ServerErrorMessage]
  {
  }
}
