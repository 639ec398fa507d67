/**
 * The stored profile row (table `user_profiles`) and the eight supported social
 * platforms, in the order of the `SocialIcons` tables of the setup and card pages.
 */
module Profiles {
  import opened Wrappers

  /** The identity provider's user id: an opaque string. */
  type UserId = string

  datatype Platform = Line | WhatsApp | LinkedIn | Instagram | Threads | X | WeChat | Facebook

  /** The key order of `SocialIcons`; `Object.entries` walks it in this order. */
  const AllPlatforms: seq<Platform> := [Line, WhatsApp, LinkedIn, Instagram, Threads, X, WeChat, Facebook]

  /** The object key of a platform in `SocialIcons`, used to build `<key>Url` and `<key>_url`. */
  function Key(p: Platform): string {
    match p
    case Line => "line"
    case WhatsApp => "whatsapp"
    case LinkedIn => "linkedin"
    case Instagram => "instagram"
    case Threads => "threads"
    case X => "x"
    case WeChat => "wechat"
    case Facebook => "facebook"
  }

  /** The display label of a platform in `SocialIcons`. */
  function Label(p: Platform): string {
    match p
    case Line => "LINE"
    case WhatsApp => "WhatsApp"
    case LinkedIn => "LinkedIn"
    case Instagram => "Instagram"
    case Threads => "Threads"
    case X => "X"
    case WeChat => "WeChat"
    case Facebook => "Facebook"
  }

  /** The position of a platform in the fixed `SocialIcons` order. */
  function Rank(p: Platform): (r: nat)
    ensures r < |AllPlatforms| && AllPlatforms[r] == p
  {
    match p
    case Line => 0
    case WhatsApp => 1
    case LinkedIn => 2
    case Instagram => 3
    case Threads => 4
    case X => 5
    case WeChat => 6
    case Facebook => 7
  }

  /** One row of `user_profiles` keyed by `user_id`; nullable columns are options. */
  datatype Profile = Profile(
    name: string, surname: string, title: string, company: string,
    email: string, mobile: string, website: string, bio: string,
    profilePhotoUrl: Option<string>, companyLogoUrl: Option<string>,
    lineUrl: Option<string>, whatsappUrl: Option<string>, linkedinUrl: Option<string>,
    instagramUrl: Option<string>, threadsUrl: Option<string>, xUrl: Option<string>,
    wechatUrl: Option<string>, facebookUrl: Option<string>)

  /** The `<key>_url` column of a row. */
  function SocialUrl(r: Profile, p: Platform): Option<string> {
    match p
    case Line => r.lineUrl
    case WhatsApp => r.whatsappUrl
    case LinkedIn => r.linkedinUrl
    case Instagram => r.instagramUrl
    case Threads => r.threadsUrl
    case X => r.xUrl
    case WeChat => r.wechatUrl
    case Facebook => r.facebookUrl
  }

  /** JavaScript truthiness of a nullable string: neither null nor empty. */
  predicate Truthy(v: Option<string>) {
    v.Some? && v.value != ""
  }

  /** The profile table: at most one row per user id. */
  type Store = map<UserId, Profile>

  /** An error reported by the store's client (`PostgrestError`). */
  datatype StoreError = StoreError(code: string, message: string)

  /** The code `.single()` reports when the query matched no row. */
  const NoRowsCode: string := "PGRST116"
}
