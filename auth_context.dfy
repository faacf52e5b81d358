/**
 * The session policies of the auth provider (src/context/AuthContext.tsx): the
 * backend-restart check over `sessionStorage`, the once-per-load sign-out and
 * the guarded sign-out. Firebase itself is abstract: the provider holds the
 * current user and counts the calls of `auth.signOut()`.
 */
module AuthContext {
  import opened Options
  import opened JsValues
  import Server

  /** The fields of a Firebase user that the pages read. */
  datatype User = User(uid: string, isAnonymous: bool, displayName: Option<string>, email: Option<string>)

  const BootIdKey := "server_boot_id"
  const ReloadKey := "cg_reload_done"

  // ---------------------------------------------------------------------------
  // getServerBootId

  /** What the `/health` fetch produced: a thrown error, or a response. */
  datatype HealthFetch = FetchThrew | Received(response: Server.Response)

  /** `getServerBootId`: the boot id of an OK `/health` reply, otherwise null. */
  function GetServerBootId(fetch: HealthFetch): (r: Option<string>)
    ensures r.Some? ==> r.value != ""
    ensures fetch.FetchThrew? ==> r == None
    ensures fetch.Received? && !(200 <= fetch.response.status <= 299) ==> r == None
    ensures fetch.Received? && !fetch.response.body.HealthReport? ==> r == None
    ensures r.Some? ==> fetch.Received? && fetch.response.body.HealthReport? && r.value == fetch.response.body.bootId
    ensures fetch.Received? && 200 <= fetch.response.status <= 299 && fetch.response.body.HealthReport? ==>
      r == (if fetch.response.body.bootId != "" then Some(fetch.response.body.bootId) else None)
  {
    match fetch
    case FetchThrew => None
    case Received(response) =>
      if !(200 <= response.status <= 299) then None
      else
        match response.body
        // `data.boot_id || null`
        case HealthReport(_, bootId) => if bootId != "" then Some(bootId) else None
        // a JSON body without `boot_id`
        case Message(_, _, _) => None
        case Order(_) => None
        // `res.json()` throws on a non-JSON body; the catch returns null
        case Plain(_) => None
        case DefaultErrorPage => None
  }

  /** The client reads back exactly the boot id the server's `/health` reports. */
  lemma HealthRoundTrip(serverBootId: string)
    requires serverBootId != ""
    ensures GetServerBootId(Received(Server.Health(serverBootId))) == Some(serverBootId)
  {
  }

  // ---------------------------------------------------------------------------
  // The policies as functions of sessionStorage

  /** `sessionStorage.getItem(key)` */
  function Stored(storage: map<string, string>, key: string): (r: Option<string>)
    ensures r.Some? <==> key in storage
    ensures r.Some? ==> r.value == storage[key]
  {
    if key in storage then Some(storage[key]) else None
  }

  /** The stored boot id is set and differs from a non-null server boot id: the backend restarted. */
  predicate BootRestarted(storage: map<string, string>, bootId: Option<string>) {
    Present(Stored(storage, BootIdKey)) && Present(bootId) && Stored(storage, BootIdKey).value != bootId.value
  }

  /** No boot id is stored yet and the server reported one. */
  predicate FirstBoot(storage: map<string, string>, bootId: Option<string>) {
    !Present(Stored(storage, BootIdKey)) && Present(bootId)
  }

  /** `sessionStorage` after the restart check, given the server's boot id. */
  function StorageAfterBoot(storage: map<string, string>, bootId: Option<string>): (r: map<string, string>)
    ensures FirstBoot(storage, bootId) || BootRestarted(storage, bootId) ==> r == storage[BootIdKey := bootId.value]
    ensures !FirstBoot(storage, bootId) && !BootRestarted(storage, bootId) ==> r == storage
    ensures forall k :: k != BootIdKey ==> Stored(r, k) == Stored(storage, k)
  {
    if FirstBoot(storage, bootId) || BootRestarted(storage, bootId) then storage[BootIdKey := bootId.value]
    else storage
  }

  /** After one check, repeating it with the same boot id neither signs out nor changes storage. */
  lemma BootCheckSettles(storage: map<string, string>, bootId: Option<string>)
    ensures !BootRestarted(StorageAfterBoot(storage, bootId), bootId)
    ensures StorageAfterBoot(StorageAfterBoot(storage, bootId), bootId) == StorageAfterBoot(storage, bootId)
  {
  }

  /** A null boot id (the server unreachable) leaves the session as it is. */
  lemma NullBootIdChangesNothing(storage: map<string, string>)
    ensures !BootRestarted(storage, None) && StorageAfterBoot(storage, None) == storage
  {
  }

  /** The reload policy resets the session: `cg_reload_done` is absent (or empty). */
  predicate ReloadResets(storage: map<string, string>) {
    !Present(Stored(storage, ReloadKey))
  }

  /** `sessionStorage.setItem('cg_reload_done', '1')` */
  function StorageAfterReload(storage: map<string, string>): (r: map<string, string>)
    ensures Stored(r, ReloadKey) == Some("1")
    ensures forall k :: k != ReloadKey ==> Stored(r, k) == Stored(storage, k)
  {
    storage[ReloadKey := "1"]
  }

  /** Once the reload policy has run, it never resets the session again in this browser tab. */
  lemma ReloadRunsOnce(storage: map<string, string>)
    ensures !ReloadResets(StorageAfterReload(storage))
    ensures !ReloadResets(StorageAfterReload(StorageAfterBoot(StorageAfterReload(storage), None)))
  {
  }

  /** The two policies use different keys, so neither disturbs the other's record. */
  lemma PoliciesIndependent(storage: map<string, string>, bootId: Option<string>)
    ensures ReloadResets(StorageAfterBoot(storage, bootId)) == ReloadResets(storage)
    ensures BootRestarted(StorageAfterReload(storage), bootId) == BootRestarted(storage, bootId)
    ensures FirstBoot(StorageAfterReload(storage), bootId) == FirstBoot(storage, bootId)
  {
  }

  /** The signed-in user once the mount effects as written have run. */
  function UserAfterMountAsWritten(storage: map<string, string>, bootId: Option<string>, user: Option<User>, mounted: bool)
    : (r: Option<User>)
    ensures r.Some? ==> r == user
    ensures r.None? && user.Some? ==> mounted && BootRestarted(storage, bootId)
    ensures mounted && BootRestarted(storage, bootId) ==> r.None?
  {
    if mounted && BootRestarted(storage, bootId) then None else user
  }

  /** The signed-in user once the mount effects as intended have run. */
  function UserAfterMount(storage: map<string, string>, bootId: Option<string>, user: Option<User>, mounted: bool)
    : (r: Option<User>)
    ensures r.Some? ==> r == user && !ReloadResets(storage)
    ensures ReloadResets(storage) ==> r.None?
    ensures mounted && BootRestarted(storage, bootId) ==> r.None?
    ensures !ReloadResets(storage) && !(mounted && BootRestarted(storage, bootId)) ==> r == user
  {
    if ReloadResets(storage) || (mounted && BootRestarted(storage, bootId)) then None else user
  }

  /** How many times the mount effects as written call `auth.signOut()`: once on a restart. */
  function SignOutsAsWritten(storage: map<string, string>, bootId: Option<string>, mounted: bool): (k: nat)
    ensures k <= 1
    ensures k == 1 <==> mounted && BootRestarted(storage, bootId)
  {
    if mounted && BootRestarted(storage, bootId) then 1 else 0
  }

  /**
   * How many times the mount effects as intended call `auth.signOut()`: once for
   * the reload reset of a signed-in user, and once more on a restart, which
   * signs out whether or not a user is signed in.
   */
  function SignOutsOnMount(storage: map<string, string>, bootId: Option<string>, user: Option<User>, mounted: bool)
    : (k: nat)
    ensures k <= 2
    ensures k == 2 <==> ReloadResets(storage) && user.Some? && mounted && BootRestarted(storage, bootId)
    ensures k == 0 <==> !(ReloadResets(storage) && user.Some?) && !(mounted && BootRestarted(storage, bootId))
  {
    (if ReloadResets(storage) && user.Some? then 1 else 0) + SignOutsAsWritten(storage, bootId, mounted)
  }

  /**
   * On a fresh load in a new tab (no `cg_reload_done`) with no backend restart,
   * a signed-in user stays signed in as written, but is signed out as intended.
   */
  lemma FreshLoadKeepsUserAsWritten(storage: map<string, string>, bootId: Option<string>, user: User, mounted: bool)
    requires ReloadKey !in storage
    requires !BootRestarted(storage, bootId)
    ensures UserAfterMountAsWritten(storage, bootId, Some(user), mounted) == Some(user)
    ensures UserAfterMount(storage, bootId, Some(user), mounted) == None
  {
  }

  /** However often the page is reloaded as intended, the reload policy signs a user out only on the first load. */
  lemma IntendedSignOutOnce(storage: map<string, string>, bootId: Option<string>, user: User)
    requires !BootRestarted(StorageAfterReload(storage), bootId)
    ensures UserAfterMount(StorageAfterBoot(StorageAfterReload(storage), bootId), bootId, Some(user), true) == Some(user)
  {
  }

  // ---------------------------------------------------------------------------
  // The provider's state

  class AuthProvider {
    /** `sessionStorage` */
    var storage: map<string, string>
    /** `auth.currentUser` */
    var currentUser: Option<User>
    var bootChecked: bool
    var reloadChecked: bool
    /** How many times `auth.signOut()` has been called. */
    var signOutCalls: nat

    /** The provider's initial state over an existing session and Firebase user. */
    constructor (storage: map<string, string>, currentUser: Option<User>)
      ensures this.storage == storage && this.currentUser == currentUser
      ensures !bootChecked && !reloadChecked && signOutCalls == 0
    {
      this.storage := storage;
      this.currentUser := currentUser;
      bootChecked := false;
      reloadChecked := false;
      signOutCalls := 0;
    }

    /** `auth.signOut()`; a rejection is swallowed by the callers, so the user is taken to be signed out. */
    method SignOut()
      modifies this
      ensures currentUser == None && signOutCalls == old(signOutCalls) + 1
      ensures storage == old(storage) && bootChecked == old(bootChecked) && reloadChecked == old(reloadChecked)
    {
      currentUser := None;
      signOutCalls := signOutCalls + 1;
    }

    /** The restart check, once `getServerBootId` has resolved to `bootId`. */
    method BootCheck(bootId: Option<string>, mounted: bool)
      modifies this
      ensures !mounted ==>
        storage == old(storage) && currentUser == old(currentUser) && bootChecked == old(bootChecked)
        && signOutCalls == old(signOutCalls)
      ensures mounted ==> storage == StorageAfterBoot(old(storage), bootId) && bootChecked
      ensures mounted && BootRestarted(old(storage), bootId) ==>
        currentUser == None && signOutCalls == old(signOutCalls) + 1
      ensures !(mounted && BootRestarted(old(storage), bootId)) ==>
        currentUser == old(currentUser) && signOutCalls == old(signOutCalls)
      ensures reloadChecked == old(reloadChecked)
    {
      var stored := Stored(storage, BootIdKey);
      if mounted {
        if !Present(stored) && Present(bootId) {
          storage := storage[BootIdKey := bootId.value];
        } else if Present(stored) && Present(bootId) && stored.value != bootId.value {
          SignOut();
          storage := storage[BootIdKey := bootId.value];
        }
        bootChecked := true;
      }
    }

    /** The once-per-load sign-out policy, as the effect body runs it. */
    method ReloadCheck()
      modifies this
      ensures old(reloadChecked) ==>
        storage == old(storage) && currentUser == old(currentUser) && signOutCalls == old(signOutCalls)
        && reloadChecked
      ensures !old(reloadChecked) ==> storage == StorageAfterReload(old(storage)) && reloadChecked
      ensures !old(reloadChecked) && ReloadResets(old(storage)) && old(currentUser).Some? ==>
        currentUser == None && signOutCalls == old(signOutCalls) + 1
      ensures !(!old(reloadChecked) && ReloadResets(old(storage)) && old(currentUser).Some?) ==>
        currentUser == old(currentUser) && signOutCalls == old(signOutCalls)
      ensures bootChecked == old(bootChecked)
    {
      if reloadChecked {
        return;
      }
      var already := Stored(storage, ReloadKey);
      var doReset := !Present(already);
      if doReset && currentUser.Some? {
        SignOut();
      }
      storage := storage[ReloadKey := "1"];
      reloadChecked := true;
    }

    /**
     * The mount effects as written: the restart check runs, and the reload effect,
     * whose `useEffect` call sits inside the restart check's async function, is
     * never registered (a hook called outside render throws, and the rejection
     * of that async function is not observed).
     */
    method MountAsWritten(health: HealthFetch, mounted: bool)
      modifies this
      ensures mounted ==> storage == StorageAfterBoot(old(storage), GetServerBootId(health)) && bootChecked
      ensures !mounted ==> storage == old(storage) && bootChecked == old(bootChecked)
      ensures Stored(storage, ReloadKey) == Stored(old(storage), ReloadKey)
      ensures reloadChecked == old(reloadChecked)
      ensures signOutCalls == old(signOutCalls) + SignOutsAsWritten(old(storage), GetServerBootId(health), mounted)
      ensures currentUser == UserAfterMountAsWritten(old(storage), GetServerBootId(health), old(currentUser), mounted)
    {
      BootCheck(GetServerBootId(health), mounted);
    }

    /**
     * The mount effects as intended: the reload effect registered beside the
     * restart check. Its body runs to completion before the `/health` fetch
     * resolves, then the restart check runs.
     */
    method Mount(health: HealthFetch, mounted: bool)
      modifies this
      requires !reloadChecked
      ensures Stored(storage, ReloadKey) == Some("1") && reloadChecked
      ensures mounted ==> storage == StorageAfterBoot(StorageAfterReload(old(storage)), GetServerBootId(health))
      ensures mounted ==> bootChecked
      ensures !mounted ==> storage == StorageAfterReload(old(storage)) && bootChecked == old(bootChecked)
      ensures signOutCalls
        == old(signOutCalls) + SignOutsOnMount(old(storage), GetServerBootId(health), old(currentUser), mounted)
      ensures currentUser == UserAfterMount(old(storage), GetServerBootId(health), old(currentUser), mounted)
    {
      ReloadCheck();
      PoliciesIndependent(old(storage), GetServerBootId(health));
      BootCheck(GetServerBootId(health), mounted);
    }

    /** `signOutUser`: sign out only when a user is signed in. */
    method SignOutUser()
      modifies this
      ensures old(currentUser).Some? ==> currentUser == None && signOutCalls == old(signOutCalls) + 1
      ensures old(currentUser).None? ==> currentUser == None && signOutCalls == old(signOutCalls)
      ensures storage == old(storage) && bootChecked == old(bootChecked) && reloadChecked == old(reloadChecked)
    {
      if currentUser.Some? {
        SignOut();
      }
    }
  }

  // ---------------------------------------------------------------------------
  // useAuth

  /** The context value the provider publishes. */
  datatype AuthValue = AuthValue(user: Option<User>, loading: bool, bootChecked: bool)

  /** A hook's result: its value, or the error it throws. */
  datatype HookResult<T> = Returned(value: T) | Threw(message: string)

  const OutsideProvider := "useAuth must be used within an AuthProvider"

  /** `useAuth`: the nearest provider's value, or an error outside any provider. */
  function UseAuth(context: Option<AuthValue>): (r: HookResult<AuthValue>)
    ensures context.None? <==> r == Threw(OutsideProvider)
    ensures context.Some? ==> r == Returned(context.value)
  {
    match context
    case None => Threw(OutsideProvider)
    case Some(value) => Returned(value)
  }
}
