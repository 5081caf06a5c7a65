/**
 * The web client's sign-in helpers: the "user" local-storage entry holds the
 * user record as JSON; the helpers read it, rewrite one field of it, or
 * remove it on sign-out, and ask the API client for the cached token.
 */
module Auth {
  import opened Wrappers
  import opened SessionTypes
  import opened ApiClient

  const UserKey: string := "user"

  /** `mapUserTypeToMode`: owners get the business mode, advertisers the
      advertiser mode, everyone else (an undefined type included) the user mode. */
  function MapUserTypeToMode(userType: Option<UserType>): (m: Mode)
    ensures m == BusinessMode <==> userType == Some(BusinessOwner)
    ensures m == AdvertiserMode <==> userType == Some(AdvertiserAccount)
    ensures m == PersonalMode <==> userType == None || userType == Some(NormalUser)
  {
    match userType
    case Some(BusinessOwner) => BusinessMode
    case Some(AdvertiserAccount) => AdvertiserMode
    case _ => PersonalMode
  }

  /**
   * `getUser` over a given storage: null without a window, when nothing is
   * stored, and when the stored text is not the JSON of an object; any
   * stored object is returned, whichever keys it has.
   */
  function StoredUser(storage: map<string, Value>, inBrowser: bool): Option<User> {
    if !inBrowser || UserKey !in storage then None
    else match storage[UserKey]
      case UserJson(u) => Some(u)
      case Text(_) => None
  }

  /** `getUser`. */
  function GetUser(c: Client): Option<User>
    reads c
  {
    StoredUser(c.storage, c.inBrowser)
  }

  /** `getUser` after `setUser(u)` in a browser gives back `u`. */
  lemma StoredUserAfterSet(storage: map<string, Value>, u: User)
    ensures StoredUser(storage[UserKey := UserJson(u)], true) == Some(u)
  {
  }

  /** Writing the token entry does not disturb the stored user. */
  lemma StoredUserIgnoresToken(storage: map<string, Value>, t: string, inBrowser: bool)
    ensures StoredUser(StoreToken(storage, t, inBrowser), inBrowser) == StoredUser(storage, inBrowser)
    ensures StoredUser(RemoveToken(storage, inBrowser), inBrowser) == StoredUser(storage, inBrowser)
  {
  }

  /** The object the sign-up page stores: `{ phone, role }`, with no id or name. */
  function SignupRecord(phone: string, role: Mode): User {
    User(None, None, None, None, None, None, Some(phone), Some(role))
  }

  /** The sign-up page's object is a user to `getUser`, and `setUserMode`
      rewrites it with the new mode, keeping its phone and role. */
  lemma SignupRecordIsUser(storage: map<string, Value>, phone: string, role: Mode, mode: Mode)
    ensures var u := SignupRecord(phone, role);
      var signedUp := storage[UserKey := UserJson(u)];
      && StoredUser(signedUp, true) == Some(u)
      && StoredUser(signedUp[UserKey := UserJson(WithMode(u, mode))], true) ==
        Some(User(None, None, Some(mode), None, None, None, Some(phone), Some(role)))
  {
  }

  /** The profile `setProfileComplete` and `isProfileComplete` speak of. */
  datatype ProfileKind = BusinessProfile | AdvertiserProfile

  function ProfileFlag(u: User, kind: ProfileKind): Option<bool> {
    match kind
    case BusinessProfile => u.businessProfileComplete
    case AdvertiserProfile => u.advertiserProfileComplete
  }

  /** `{ ...user, mode }`. */
  function WithMode(u: User, mode: Mode): (r: User)
    ensures r.mode == Some(mode)
    ensures r.(mode := u.mode) == u
  {
    u.(mode := Some(mode))
  }

  /** `{ ...user, businessProfileComplete: complete }` or the advertiser flag. */
  function WithProfileComplete(u: User, kind: ProfileKind, complete: bool): (r: User)
    ensures ProfileFlag(r, kind) == Some(complete)
    ensures forall k :: k != kind ==> ProfileFlag(r, k) == ProfileFlag(u, k)
    ensures r.id == u.id && r.name == u.name && r.mode == u.mode && r.email == u.email && r.phone == u.phone
    ensures r.role == u.role
  {
    match kind
    case BusinessProfile => u.(businessProfileComplete := Some(complete))
    case AdvertiserProfile => u.(advertiserProfileComplete := Some(complete))
  }

  /** `isProfileComplete` for a given stored user: only an explicit `true` counts. */
  function ProfileComplete(user: Option<User>, kind: ProfileKind): (r: bool)
    ensures r <==> user.Some? && ProfileFlag(user.value, kind) == Some(true)
  {
    match user
    case None => false
    case Some(u) => ProfileFlag(u, kind) == Some(true)
  }

  /** `isProfileComplete`. */
  function IsProfileComplete(c: Client, kind: ProfileKind): bool
    reads c
  {
    ProfileComplete(GetUser(c), kind)
  }

  /** `getUserMode`: the stored user's mode, or null. */
  function GetUserMode(c: Client): (r: Option<Mode>)
    reads c
    ensures GetUser(c).None? ==> r.None?
    ensures GetUser(c).Some? ==> r == GetUser(c).value.mode
  {
    match GetUser(c)
    case None => None
    case Some(u) => u.mode
  }

  /** After `setProfileComplete(kind, true)` on a stored user, the profile is complete;
      the other profile's flag is untouched. */
  lemma ProfileCompleteAfterSet(storage: map<string, Value>, kind: ProfileKind, complete: bool, other: ProfileKind)
    requires StoredUser(storage, true).Some?
    requires other != kind
    ensures var u := StoredUser(storage, true).value;
      var after := storage[UserKey := UserJson(WithProfileComplete(u, kind, complete))];
      && ProfileComplete(StoredUser(after, true), kind) == complete
      && ProfileComplete(StoredUser(after, true), other) == ProfileComplete(StoredUser(storage, true), other)
  {
  }

  /** `setUser`. */
  method SetUser(c: Client, u: User)
    requires c.Valid()
    modifies c
    ensures c.Valid()
    ensures c.storage == if c.inBrowser then old(c.storage)[UserKey := UserJson(u)] else old(c.storage)
    ensures c.accessTokenCache == old(c.accessTokenCache) && c.location == old(c.location)
    ensures c.mockUserType == old(c.mockUserType)
  {
    if !c.inBrowser {
      return;
    }
    c.storage := c.storage[UserKey := UserJson(u)];
  }

  /** `setUserMode`: nothing without a stored user; otherwise only the mode changes. */
  method SetUserMode(c: Client, mode: Mode)
    requires c.Valid()
    modifies c
    ensures c.Valid()
    ensures old(GetUser(c)).None? ==> c.storage == old(c.storage)
    ensures old(GetUser(c)).Some? ==>
      c.storage == old(c.storage)[UserKey := UserJson(WithMode(old(GetUser(c)).value, mode))]
    ensures old(GetUser(c)).Some? ==> GetUserMode(c) == Some(mode)
    ensures c.accessTokenCache == old(c.accessTokenCache) && c.location == old(c.location)
    ensures c.mockUserType == old(c.mockUserType)
  {
    if !c.inBrowser {
      return;
    }
    var user := GetUser(c);
    if user.None? {
      return;
    }
    c.storage := c.storage[UserKey := UserJson(WithMode(user.value, mode))];
  }

  /** `setProfileComplete`: nothing without a stored user; otherwise only the
      flag of `kind` changes. */
  method SetProfileComplete(c: Client, kind: ProfileKind, complete: bool)
    requires c.Valid()
    modifies c
    ensures c.Valid()
    ensures old(GetUser(c)).None? ==> c.storage == old(c.storage)
    ensures old(GetUser(c)).Some? ==>
      c.storage == old(c.storage)[UserKey := UserJson(WithProfileComplete(old(GetUser(c)).value, kind, complete))]
    ensures old(GetUser(c)).Some? ==> IsProfileComplete(c, kind) == complete
    ensures c.accessTokenCache == old(c.accessTokenCache) && c.location == old(c.location)
    ensures c.mockUserType == old(c.mockUserType)
  {
    if !c.inBrowser {
      return;
    }
    var user := GetUser(c);
    if user.None? {
      return;
    }
    c.storage := c.storage[UserKey := UserJson(WithProfileComplete(user.value, kind, complete))];
  }

  /** `isAuthenticated`: a stored user and a non-null token; asking for the
      token may refill the cache from storage. */
  method IsAuthenticated(c: Client) returns (r: bool)
    requires c.Valid()
    modifies c
    ensures c.Valid()
    ensures r <==> old(GetUser(c)).Some? && ReadToken(old(c.accessTokenCache), c.storage, c.inBrowser).Some?
    ensures c.accessTokenCache ==
      if old(GetUser(c)).Some? then ReadToken(old(c.accessTokenCache), c.storage, c.inBrowser) else old(c.accessTokenCache)
    ensures c.storage == old(c.storage) && c.location == old(c.location) && c.mockUserType == old(c.mockUserType)
  {
    if GetUser(c).None? {
      return false;
    }
    var token := c.GetAccessTokenCache();
    r := token.Some?;
  }

  /** `logout`: the API client's logout, then the stored user is removed and
      the browser goes to the sign-in page. */
  method Logout(c: Client)
    requires c.Valid()
    modifies c
    ensures c.Valid()
    ensures c.accessTokenCache == None
    ensures c.storage == if c.inBrowser then old(c.storage) - {AccessTokenKey, UserKey} else old(c.storage)
    ensures GetUser(c) == None
    ensures c.location == if c.inBrowser then Some("/auth") else old(c.location)
    ensures c.mockUserType == old(c.mockUserType)
  {
    c.Logout();
    if c.inBrowser {
      c.storage := c.storage - {UserKey};
      c.location := Some("/auth");
    }
  }
}
