/**
 * The values the web client keeps in the browser's local storage: plain
 * strings (the access token) and the JSON of the signed-in user record.
 */
module SessionTypes {
  import opened Wrappers

  /** The client's mode: "user", "business" or "advertiser". */
  datatype Mode = PersonalMode | BusinessMode | AdvertiserMode

  /** The backend's user type: "normal_user", "business_owner" or "advertiser". */
  datatype UserType = NormalUser | BusinessOwner | AdvertiserAccount

  /**
   * A JSON object read back as a `User`. `JSON.parse` checks no shape, so
   * every key may be missing, including `id` and `name`; `role` is the key
   * the sign-up page writes, which the `User` interface does not declare
   * and the spreads carry along.
   */
  datatype User = User(
    id: Option<string>,
    name: Option<string>,
    mode: Option<Mode>,
    businessProfileComplete: Option<bool>,
    advertiserProfileComplete: Option<bool>,
    email: Option<string>,
    phone: Option<string>,
    role: Option<Mode>)

  /**
   * A local-storage entry: a string written as is, or the text that
   * `JSON.stringify` produced from an object (which `JSON.parse` reads
   * back as that object).
   */
  datatype Value = Text(s: string) | UserJson(u: User)
}
