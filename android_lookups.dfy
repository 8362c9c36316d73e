/** The Android plugin's string-to-enum lookups (CapacitorSupabasePlugin.kt
    `getOAuthProvider`, `getEmailOtpType`, `getPhoneOtpType`). Each lowers its
    input first, so names match whatever their case. */
module AndroidLookups {
  import opened Bridge

  /** The supabase-kt OAuth providers the plugin can name: twenty of them
      (there is no WorkOS entry on this platform). */
  datatype OAuthProvider =
    | Apple | Azure | Bitbucket | Discord | Facebook | Figma | Github | Gitlab
    | Google | Kakao | Keycloak | LinkedIn | LinkedInOIDC | Notion | Slack
    | SlackOIDC | Spotify | Twitch | Twitter | Zoom

  /** The lower-case name that selects each provider. */
  function ProviderName(p: OAuthProvider): string {
    match p
    case Apple => "apple"
    case Azure => "azure"
    case Bitbucket => "bitbucket"
    case Discord => "discord"
    case Facebook => "facebook"
    case Figma => "figma"
    case Github => "github"
    case Gitlab => "gitlab"
    case Google => "google"
    case Kakao => "kakao"
    case Keycloak => "keycloak"
    case LinkedIn => "linkedin"
    case LinkedInOIDC => "linkedin_oidc"
    case Notion => "notion"
    case Slack => "slack"
    case SlackOIDC => "slack_oidc"
    case Spotify => "spotify"
    case Twitch => "twitch"
    case Twitter => "twitter"
    case Zoom => "zoom"
  }

  const ProviderNames: set<string> := {
    "apple", "azure", "bitbucket", "discord", "facebook", "figma", "github",
    "gitlab", "google", "kakao", "keycloak", "linkedin", "linkedin_oidc",
    "notion", "slack", "slack_oidc", "spotify", "twitch", "twitter", "zoom"}

  /** The provider spelled exactly `name`, if any. */
  function ProviderByName(name: string): (r: Option<OAuthProvider>)
    ensures r.Some? ==> ProviderName(r.value) == name
  {
    match name
    case "apple" => Some(Apple)
    case "azure" => Some(Azure)
    case "bitbucket" => Some(Bitbucket)
    case "discord" => Some(Discord)
    case "facebook" => Some(Facebook)
    case "figma" => Some(Figma)
    case "github" => Some(Github)
    case "gitlab" => Some(Gitlab)
    case "google" => Some(Google)
    case "kakao" => Some(Kakao)
    case "keycloak" => Some(Keycloak)
    case "linkedin" => Some(LinkedIn)
    case "linkedin_oidc" => Some(LinkedInOIDC)
    case "notion" => Some(Notion)
    case "slack" => Some(Slack)
    case "slack_oidc" => Some(SlackOIDC)
    case "spotify" => Some(Spotify)
    case "twitch" => Some(Twitch)
    case "twitter" => Some(Twitter)
    case "zoom" => Some(Zoom)
    case _ => None
  }

  /** `getOAuthProvider`: the provider whose name is the lowered input, or
      null for any other string. */
  function GetOAuthProvider(provider: string): (r: Option<OAuthProvider>)
    ensures r.Some? ==> ProviderName(r.value) == Lower(provider)
  {
    ProviderByName(Lower(provider))
  }

  /** No name in the provider list is turned away. */
  lemma {:induction false} ProviderFound(provider: string)
    requires Lower(provider) in ProviderNames
    ensures GetOAuthProvider(provider).Some?
  {
  }

  /** Every provider's name is written in lower case. */
  lemma {:induction false} ProviderNameLower(p: OAuthProvider)
    ensures NoUpper(ProviderName(p))
  {
    match p
    case Apple => case Azure => case Bitbucket => case Discord =>
    case Facebook => case Figma => case Github => case Gitlab =>
    case Google => case Kakao => case Keycloak => case LinkedIn =>
    case LinkedInOIDC => case Notion => case Slack => case SlackOIDC =>
    case Spotify => case Twitch => case Twitter => case Zoom =>
  }

  /** Every provider is selected by its exact name. */
  lemma {:induction false} ProviderByNameRoundTrip(p: OAuthProvider)
    ensures ProviderByName(ProviderName(p)) == Some(p)
  {
    match p
    case Apple => case Azure => case Bitbucket => case Discord =>
    case Facebook => case Figma => case Github => case Gitlab =>
    case Google => case Kakao => case Keycloak => case LinkedIn =>
    case LinkedInOIDC => case Notion => case Slack => case SlackOIDC =>
    case Spotify => case Twitch => case Twitter => case Zoom =>
  }

  /** Every provider is found by its own name. */
  lemma {:induction false} ProviderNameRoundTrip(p: OAuthProvider)
    ensures GetOAuthProvider(ProviderName(p)) == Some(p)
  {
    ProviderNameLower(p);
    LowerOfNoUpper(ProviderName(p));
    ProviderByNameRoundTrip(p);
  }

  /** The lookup ignores case: a name and its lower case select the same
      provider. */
  lemma {:induction false} OAuthProviderIgnoresCase(provider: string)
    ensures GetOAuthProvider(provider) == GetOAuthProvider(Lower(provider))
  {
    LowerIdempotent(provider);
  }

  /** WorkOS is not a provider on Android, whatever its spelling. */
  lemma {:induction false} NoWorkOS(provider: string)
    requires Lower(provider) == "workos"
    ensures GetOAuthProvider(provider) == None
  {
  }

  /** supabase-kt `OtpType.Email`. */
  datatype EmailOtpType = Signup | Invite | MagicLink | Recovery | EmailChange | Email

  /** supabase-kt `OtpType.Phone`. */
  datatype PhoneOtpType = Sms | PhoneChange

  /** `getEmailOtpType`: the three named types, and EMAIL for every other
      string (so the lookup never fails, and never yields INVITE or
      EMAIL_CHANGE). */
  function GetEmailOtpType(t: string): (r: EmailOtpType)
    ensures r == Signup <==> Lower(t) == "signup"
    ensures r == MagicLink <==> Lower(t) == "magiclink"
    ensures r == Recovery <==> Lower(t) == "recovery"
    ensures r == Email <==> Lower(t) !in {"signup", "magiclink", "recovery"}
    ensures r != Invite && r != EmailChange
  {
    match Lower(t)
    case "signup" => Signup
    case "magiclink" => MagicLink
    case "recovery" => Recovery
    case "email" => Email
    case _ => Email
  }

  /** `getPhoneOtpType`: SMS whatever the string (never PHONE_CHANGE). */
  function GetPhoneOtpType(t: string): (r: PhoneOtpType)
    ensures r == Sms
  {
    match Lower(t)
    case "sms" => Sms
    case _ => Sms
  }
}
