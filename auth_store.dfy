/** The identity store: the current user, the loading flag and the one persisted
    slot under the key "bhakti-user" (src/context/AuthContext.tsx). */
module AuthStore {
  import opened Types
  import JsText

  const DefaultAvatar: string := "/lovable-uploads/7bbc1dd2-beed-4ff6-8825-e71a58032e7d.png"

  const AdminUser: User := User("admin-1", "Admin User", "admin@example.com", Admin, Some(DefaultAvatar))

  const LeaderUser: User := User("leader-1", "Team Leader", "leader@example.com", Leader, Some(DefaultAvatar))

  predicate IsAdminPair(email: string, password: string) {
    email == "admin@example.com" && password == "admin123"
  }

  predicate IsLeaderPair(email: string, password: string) {
    email == "leader@example.com" && password == "leader123"
  }

  /** The hard-coded credential check: the admin pair, then the leader pair. */
  function CheckCredentials(email: string, password: string): (r: Option<User>)
    ensures r == Some(AdminUser) <==> IsAdminPair(email, password)
    ensures r == Some(LeaderUser) <==> IsLeaderPair(email, password)
    ensures r.None? <==> !IsAdminPair(email, password) && !IsLeaderPair(email, password)
  {
    if IsAdminPair(email, password) then Some(AdminUser)
    else if IsLeaderPair(email, password) then Some(LeaderUser)
    else None
  }

  /** Only the admin pair logs in with the admin role, only the leader pair with the leader role. */
  lemma LoginRole(email: string, password: string)
    ensures CheckCredentials(email, password).Some? && CheckCredentials(email, password).value.role == Admin
      <==> IsAdminPair(email, password)
    ensures CheckCredentials(email, password).Some? && CheckCredentials(email, password).value.role == Leader
      <==> IsLeaderPair(email, password)
  {
  }

  /** The user register creates: `user-${Date.now()}`, the given name, email and role. */
  function RegisteredUser(name: string, email: string, role: Role, now: nat): (u: User)
    ensures u.name == name && u.email == email && u.role == role
    ensures u.id == "user-" + JsText.DecimalString(now)
  {
    User("user-" + JsText.DecimalString(now), name, email, role, Some(DefaultAvatar))
  }

  class Auth {
    var user: Option<User>
    /** The "bhakti-user" slot of local storage. */
    var stored: Option<User>
    var isLoading: bool

    /** Whether the persisted slot mirrors the current user. */
    predicate Synced()
      reads this
    {
      stored == user
    }

    /** The first render, before the restore effect: no user, loading, and whatever
        an earlier session left in storage. */
    constructor (slot: Option<User>)
      ensures user == None && stored == slot && isLoading
    {
      user := None;
      stored := slot;
      isLoading := true;
    }

    /** The mount effect: restore a stored user, then stop loading. */
    method Restore()
      modifies this`user, this`isLoading
      ensures user == (if stored.Some? then stored else old(user))
      ensures !isLoading
      ensures old(user).None? ==> Synced()
    {
      if stored.Some? {
        user := stored;
      }
      isLoading := false;
    }

    method Login(email: string, password: string) returns (ok: bool)
      modifies this
      ensures ok <==> CheckCredentials(email, password).Some?
      ensures IsAdminPair(email, password) ==> user == stored == Some(AdminUser)
      ensures IsLeaderPair(email, password) ==> user == stored == Some(LeaderUser)
      ensures !ok ==> user == old(user) && stored == old(stored)
      ensures ok ==> Synced()
      ensures !isLoading
    {
      isLoading := true;
      if IsAdminPair(email, password) {
        user := Some(AdminUser);
        stored := Some(AdminUser);
        ok := true;
      } else if IsLeaderPair(email, password) {
        user := Some(LeaderUser);
        stored := Some(LeaderUser);
        ok := true;
      } else {
        ok := false;
      }
      isLoading := false;
    }

    /** Always succeeds; the password is not looked at. */
    method Register(name: string, email: string, password: string, role: Role, now: nat) returns (ok: bool)
      modifies this
      ensures ok
      ensures user == stored == Some(RegisteredUser(name, email, role, now))
      ensures Synced() && !isLoading
    {
      isLoading := true;
      var newUser := RegisteredUser(name, email, role, now);
      user := Some(newUser);
      stored := Some(newUser);
      ok := true;
      isLoading := false;
    }

    method Logout()
      modifies this`user, this`stored
      ensures user == None && stored == None
      ensures Synced()
    {
      user := None;
      stored := None;
    }
  }

  /** After a logout, a fresh start of the application finds nobody logged in. */
  method RestartAfterLogout(a: Auth) returns (restarted: Auth)
    modifies a
    ensures restarted.user == None && !restarted.isLoading
  {
    a.Logout();
    restarted := new Auth(a.stored);
    restarted.Restore();
  }
}
