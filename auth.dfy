/**
 * context/AuthContext.tsx: the signed-in user, credit and plugin
 * bookkeeping with optimistic updates that are reverted when the server
 * rejects them, profile edits, logout and the demo-mode accounts used when
 * no backend is configured.
 */
module Auth {
  import opened Common
  import opened Text
  import opened Storage

  /** `User` */
  datatype User = User(id: string, email: string, name: string, credits: int, avatar: string, ownedPlugins: seq<string>)

  const DemoPrefix: string := "demo-"
  const AvatarBase: string := "https://api.dicebear.com/7.x/avataaars/svg?seed="

  /** The generated avatar for a seed. */
  function AvatarFor(seed: string): string {
    AvatarBase + seed
  }

  /** A local demo account, whose changes never go to the server. */
  predicate IsDemo(u: User) {
    StartsWith(u.id, DemoPrefix)
  }

  /** Whether a change to `u` is written to the `profiles` table. */
  predicate Syncs(configured: bool, u: User) {
    configured && !IsDemo(u)
  }

  /** `Math.max(0, credits + amount)` */
  function NewBalance(credits: int, amount: int): (b: int)
    ensures b >= 0
    ensures b >= credits + amount
    ensures b == credits + amount || b == 0
  {
    if credits + amount > 0 then credits + amount else 0
  }

  /** A write sent to the `profiles` table. */
  datatype ProfileWrite =
    | CreditsWrite(userId: string, credits: int)
    | InfoWrite(userId: string, name: string, avatar: string)
    | PurchaseWrite(userId: string, credits: int, plugins: seq<string>)

  /** How `buyPlugin` decides before any server call. */
  datatype Purchase = Refused | AlreadyOwned | Charge(updated: User)

  /**
   * The first three checks of `buyPlugin` and the user it then sets: no user
   * or too few credits refuses, an owned plugin succeeds without charge,
   * otherwise exactly `cost` is taken and the id appended once.
   */
  function Decide(user: Option<User>, pluginId: string, cost: int): (p: Purchase)
    ensures p.Refused? <==> user.None? || user.value.credits < cost
    ensures p.AlreadyOwned? <==> user.Some? && user.value.credits >= cost && pluginId in user.value.ownedPlugins
    ensures p.Charge? ==>
      var u := user.value;
      p.updated == u.(credits := u.credits - cost, ownedPlugins := u.ownedPlugins + [pluginId])
  {
    match user
    case None => Refused
    case Some(u) =>
      if u.credits < cost then Refused
      else if pluginId in u.ownedPlugins then AlreadyOwned
      else Charge(u.(credits := u.credits - cost, ownedPlugins := u.ownedPlugins + [pluginId]))
  }

  /**
   * A charge leaves a non-negative balance and owns the plugin exactly once;
   * asking for the same plugin again succeeds without a charge only while the
   * balance still covers the asked cost, because the balance is checked
   * before ownership.
   */
  lemma ChargeThenOwned(user: Option<User>, pluginId: string, cost: int, again: int)
    requires Decide(user, pluginId, cost).Charge?
    ensures var u := Decide(user, pluginId, cost).updated;
      && u.credits >= 0 && multiset(u.ownedPlugins)[pluginId] == 1
      && (again <= u.credits ==> Decide(Some(u), pluginId, again) == AlreadyOwned)
      && (again > u.credits ==> Decide(Some(u), pluginId, again) == Refused)
  {
    var before := user.value.ownedPlugins;
    assert multiset(before)[pluginId] == 0;
    assert multiset(before + [pluginId]) == multiset(before) + multiset{pluginId};
  }

  /** The account demo-mode login uses: the stored one if its email matches, else a new demo user. */
  function DemoLoginUser(email: string, stored: Option<User>, idSuffix: string): (u: User)
    ensures stored.Some? && stored.value.email == email ==> u == stored.value
    ensures !(stored.Some? && stored.value.email == email) ==>
      IsDemo(u) && u.email == email && u.name == BeforeFirst(email, '@') && u.credits == 250
      && u.avatar == AvatarFor(email) && u.ownedPlugins == []
  {
    if stored.Some? && stored.value.email == email then stored.value
    else User(DemoPrefix + idSuffix, email, BeforeFirst(email, '@'), 250, AvatarFor(email), [])
  }

  /** The account demo-mode signup creates. */
  function DemoSignupUser(name: string, email: string, idSuffix: string): (u: User)
    ensures IsDemo(u) && u.name == name && u.email == email && u.credits == 100
    ensures u.avatar == AvatarFor(name) && u.ownedPlugins == []
  {
    User(DemoPrefix + idSuffix, email, name, 100, AvatarFor(name), [])
  }

  /**
   * What the backend answers to a sign-up: an error, no error but no
   * account, an account without a session, or a session whose profile was
   * fetched.
   */
  datatype SignupReply = SignupFailed(message: string) | NoAccount | AwaitingConfirmation | SignedIn(profile: User)

  const ConfirmEmailMessage: string := "ثبت نام موفق! لطفاً ایمیل خود را تایید کنید."
  const LoginActivityText: string := "ورود به حساب کاربری"

  /** The activity a successful configured login records: under the current user's id, or "unknown". */
  function LoginEntry(user: Option<User>): Activity {
    Activity(if user.Some? && user.value.id != "" then user.value.id else "unknown", "login", LoginActivityText)
  }

  /** The activity text of a credit increase. */
  function CreditActivityText(amount: int): string {
    "افزایش اعتبار: " + IntToString(amount) + " واحد"
  }

  /**
   * The authentication provider's state: the current user, the account kept
   * in local storage, and the profile writes and activity entries sent to the
   * backend. `configured` is `isSupabaseConfigured`.
   */
  /**
   * What `buyPlugin` does to the provider and what it reports: refused and
   * owned purchases change nothing (only an owned one succeeds); a charge is
   * applied, written and logged for a synced user, and reverted with failure
   * when that write fails.
   */
  twostate predicate BuyEffect(auth: AuthStore, pluginId: string, cost: int, serverOk: bool, ok: bool)
    reads auth
  {
    var d := Decide(old(auth.user), pluginId, cost);
    && (!d.Charge? ==>
          ok == d.AlreadyOwned? && auth.user == old(auth.user) && auth.stored == old(auth.stored)
          && auth.writes == old(auth.writes) && auth.activity == old(auth.activity))
    && (d.Charge? ==>
          var u := old(auth.user).value;
          var sync := Syncs(auth.configured, u);
          && ok == (!sync || serverOk)
          && auth.user == (if ok then Some(d.updated) else Some(u))
          && auth.stored == (if auth.configured then old(auth.stored) else Some(d.updated))
          && auth.writes == old(auth.writes) + (if sync then [PurchaseWrite(u.id, d.updated.credits, d.updated.ownedPlugins)] else [])
          && auth.activity == old(auth.activity) + (if sync && serverOk then [Activity(u.id, "purchase_plugin", "خرید افزونه " + pluginId)] else []))
  }

  /** The provider's user, its stored copy, its writes and its activity are as they were. */
  twostate predicate StoreKept(auth: AuthStore)
    reads auth
  {
    auth.user == old(auth.user) && auth.stored == old(auth.stored)
    && auth.writes == old(auth.writes) && auth.activity == old(auth.activity)
  }

  /**
   * What `updateCredits` does to the provider: nothing without a user;
   * otherwise the balance becomes `NewBalance` (kept in local storage when
   * unconfigured), a synced user's balance is written, a failed write
   * restores the user as it was, and a successful increase is logged.
   */
  twostate predicate CreditsEffect(auth: AuthStore, amount: int, serverOk: bool)
    reads auth
  {
    && (old(auth.user).None? ==> StoreKept(auth))
    && (old(auth.user).Some? ==>
          var u := old(auth.user).value;
          var updated := u.(credits := NewBalance(u.credits, amount));
          var sync := Syncs(auth.configured, u);
          && auth.user == (if sync && !serverOk then Some(u) else Some(updated))
          && auth.stored == (if auth.configured then old(auth.stored) else Some(updated))
          && auth.writes == old(auth.writes) + (if sync then [CreditsWrite(u.id, updated.credits)] else [])
          && auth.activity == old(auth.activity) + (if sync && serverOk && amount > 0 then [Activity(u.id, "credit_update", CreditActivityText(amount))] else []))
  }

  class AuthStore {
    var user: Option<User>
    var stored: Option<User>
    var writes: seq<ProfileWrite>
    var activity: seq<Activity>
    const configured: bool

    constructor (configured: bool, stored: Option<User>)
      ensures this.configured == configured && this.stored == stored
      ensures user == None && writes == [] && activity == []
    {
      this.configured := configured;
      this.stored := stored;
      user := None;
      writes := [];
      activity := [];
    }

    /**
     * `updateCredits`: nothing without a user; otherwise the balance becomes
     * `NewBalance` at once (and in local storage when unconfigured). A synced
     * user's write that fails restores the user as it was; one that succeeds
     * logs an increase.
     */
    method UpdateCredits(amount: int, serverOk: bool)
      modifies this
      ensures CreditsEffect(this, amount, serverOk)
    {
      if user.None? {
        return;
      }
      var u := user.value;
      var balance := NewBalance(u.credits, amount);
      var updated := u.(credits := balance);
      user := Some(updated);
      if !configured {
        stored := Some(updated);
      }
      if configured && !StartsWith(u.id, DemoPrefix) {
        writes := writes + [CreditsWrite(u.id, balance)];
        if !serverOk {
          user := Some(u);
        } else if amount > 0 {
          activity := activity + [Activity(u.id, "credit_update", CreditActivityText(amount))];
        }
      }
    }

    /**
     * `updateProfile`: only name and avatar change, and they stay changed
     * even when the server write fails.
     */
    method UpdateProfile(name: string, avatar: string, serverOk: bool)
      modifies this
      ensures old(user).None? ==> user == old(user) && stored == old(stored) && writes == old(writes) && activity == old(activity)
      ensures old(user).Some? ==>
        var u := old(user).value;
        var updated := u.(name := name, avatar := avatar);
        var sync := Syncs(configured, u);
        && user == Some(updated)
        && stored == (if configured then old(stored) else Some(updated))
        && writes == old(writes) + (if sync then [InfoWrite(u.id, name, avatar)] else [])
        && activity == old(activity) + (if sync && serverOk then [Activity(u.id, "profile_update", "بروزرسانی پروفایل کاربری")] else [])
    {
      if user.None? {
        return;
      }
      var u := user.value;
      var updated := u.(name := name, avatar := avatar);
      user := Some(updated);
      if !configured {
        stored := Some(updated);
      }
      if configured && !StartsWith(u.id, DemoPrefix) {
        writes := writes + [InfoWrite(u.id, name, avatar)];
        if serverOk {
          activity := activity + [Activity(u.id, "profile_update", "بروزرسانی پروفایل کاربری")];
        }
      }
    }

    /**
     * `buyPlugin`: refused and owned purchases change nothing; a charge is
     * applied at once, and a synced user's failed write reverts it and
     * reports failure.
     */
    method BuyPlugin(pluginId: string, cost: int, serverOk: bool) returns (ok: bool)
      modifies this
      ensures BuyEffect(this, pluginId, cost, serverOk, ok)
    {
      if user.None? {
        return false;
      }
      var u := user.value;
      if u.credits < cost {
        return false;
      }
      if pluginId in u.ownedPlugins {
        return true;
      }
      var updated := u.(credits := u.credits - cost, ownedPlugins := u.ownedPlugins + [pluginId]);
      user := Some(updated);
      if !configured {
        stored := Some(updated);
      }
      if configured && !StartsWith(u.id, DemoPrefix) {
        writes := writes + [PurchaseWrite(u.id, updated.credits, updated.ownedPlugins)];
        if !serverOk {
          user := Some(u);
          return false;
        }
        activity := activity + [Activity(u.id, "purchase_plugin", "خرید افزونه " + pluginId)];
      }
      return true;
    }

    /** `logout`: no user, and nothing left in local storage. */
    method Logout()
      modifies this
      ensures user == None && stored == None
      ensures writes == old(writes) && activity == old(activity)
    {
      user := None;
      stored := None;
    }

    /**
     * `login`. Unconfigured: the demo account of `DemoLoginUser` becomes the
     * user; a new one is also stored. Configured: a rejected sign-in is
     * rethrown with its message; an accepted one logs a login under the user
     * current at the call (or "unknown"), and the user arrives later through
     * the auth listener.
     */
    method Login(email: string, server: Outcome, idSuffix: string) returns (r: Outcome)
      modifies this
      ensures writes == old(writes)
      ensures !configured ==>
        var u := DemoLoginUser(email, old(stored), idSuffix);
        r == Pass && user == Some(u) && stored == Some(u) && activity == old(activity)
      ensures configured ==> user == old(user) && stored == old(stored)
      ensures configured && server.Fail? ==> r == server && activity == old(activity)
      ensures configured && server.Pass? ==> r == Pass && activity == old(activity) + [LoginEntry(old(user))]
    {
      if !configured {
        var u := DemoLoginUser(email, stored, idSuffix);
        user := Some(u);
        stored := Some(u);
        return Pass;
      }
      if server.Fail? {
        return server;
      }
      activity := activity + [LoginEntry(user)];
      return Pass;
    }

    /**
     * `signup`. Unconfigured: a new demo account with 100 credits becomes the
     * user and is stored. Configured: a failure is rethrown; a reply with
     * no account resolves with nothing changed; an account awaiting e-mail
     * confirmation is reported as an error; a signed-in account's profile
     * becomes the user.
     */
    method Signup(name: string, email: string, server: SignupReply, idSuffix: string) returns (r: Outcome)
      modifies this
      ensures writes == old(writes) && activity == old(activity)
      ensures !configured ==>
        var u := DemoSignupUser(name, email, idSuffix);
        r == Pass && user == Some(u) && stored == Some(u)
      ensures configured ==> stored == old(stored)
      ensures configured && server.SignupFailed? ==> r == Fail(server.message) && user == old(user)
      ensures configured && server.AwaitingConfirmation? ==> r == Fail(ConfirmEmailMessage) && user == old(user)
      ensures configured && server.NoAccount? ==> r == Pass && user == old(user)
      ensures configured && server.SignedIn? ==> r == Pass && user == Some(server.profile)
    {
      if !configured {
        var u := DemoSignupUser(name, email, idSuffix);
        user := Some(u);
        stored := Some(u);
        return Pass;
      }
      match server
      case SignupFailed(m) =>
        r := Fail(m);
      case NoAccount =>
        r := Pass;
      case AwaitingConfirmation =>
        r := Fail(ConfirmEmailMessage);
      case SignedIn(profile) =>
        user := Some(profile);
        r := Pass;
    }
  }

  /** A demo account's changes never reach the server, configured or not. */
  lemma DemoNeverSyncs(configured: bool, email: string, stored: Option<User>, name: string, idSuffix: string)
    requires stored.Some? ==> IsDemo(stored.value)
    ensures !Syncs(configured, DemoLoginUser(email, stored, idSuffix))
    ensures !Syncs(configured, DemoSignupUser(name, email, idSuffix))
  {
    var newId := DemoPrefix + idSuffix;
    assert newId[..|DemoPrefix|] == DemoPrefix;
  }
}
