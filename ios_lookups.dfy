/** The iOS plugin's string-to-enum lookups (CapacitorSupabasePlugin.swift
    `oauthProviderFromString`, `emailOtpTypeFromString`,
    `phoneOtpTypeFromString`). Each lowers its input first. */
module IosLookups {
  import opened Bridge

  /** The supabase-swift OAuth providers the plugin can name: twenty-one of
      them, WorkOS included. */
  datatype Provider =
    | Apple | Azure | Bitbucket | Discord | Facebook | Figma | Github | Gitlab
    | Google | Kakao | Keycloak | Linkedin | LinkedinOIDC | Notion | Slack
    | SlackOIDC | Spotify | Twitch | Twitter | Workos | Zoom

  /** The lower-case name that selects each provider. */
  function ProviderName(p: Provider): string {
    match p
    case Apple => "apple"
    case Azure => "azure"
    case Bitbucket => "bitbucket"
    case Discord => "discord"
    case Facebook => "facebook"
    case Figma => "figma"
    case Github => "github"
    case Gitlab => "gitlab"
    case Google => "google"
    case Kakao => "kakao"
    case Keycloak => "keycloak"
    case Linkedin => "linkedin"
    case LinkedinOIDC => "linkedin_oidc"
    case Notion => "notion"
    case Slack => "slack"
    case SlackOIDC => "slack_oidc"
    case Spotify => "spotify"
    case Twitch => "twitch"
    case Twitter => "twitter"
    case Workos => "workos"
    case Zoom => "zoom"
  }

  const ProviderNames: set<string> := {
    "apple", "azure", "bitbucket", "discord", "facebook", "figma", "github",
    "gitlab", "google", "kakao", "keycloak", "linkedin", "linkedin_oidc",
    "notion", "slack", "slack_oidc", "spotify", "twitch", "twitter", "workos",
    "zoom"}

  /** The provider spelled exactly `name`, if any. */
  function ProviderByName(name: string): (r: Option<Provider>)
    ensures r.Some? ==> ProviderName(r.value) == name
  {
    match name
    case "apple" => Some(Apple)
    case "azure" => Some(Azure)
    case "bitbucket" => Some(Bitbucket)
    case "discord" => Some(Discord)
    case "facebook" => Some(Facebook)
    case "figma" => Some(Figma)
    case "github" => Some(Github)
    case "gitlab" => Some(Gitlab)
    case "google" => Some(Google)
    case "kakao" => Some(Kakao)
    case "keycloak" => Some(Keycloak)
    case "linkedin" => Some(Linkedin)
    case "linkedin_oidc" => Some(LinkedinOIDC)
    case "notion" => Some(Notion)
    case "slack" => Some(Slack)
    case "slack_oidc" => Some(SlackOIDC)
    case "spotify" => Some(Spotify)
    case "twitch" => Some(Twitch)
    case "twitter" => Some(Twitter)
    case "workos" => Some(Workos)
    case "zoom" => Some(Zoom)
    case _ => None
  }

  /** `oauthProviderFromString`: the provider whose name is the lowered
      input, or nil for any other string. */
  function OAuthProviderFromString(provider: string): (r: Option<Provider>)
    ensures r.Some? ==> ProviderName(r.value) == Lower(provider)
  {
    ProviderByName(Lower(provider))
  }

  /** No name in the provider list is turned away. */
  lemma {:induction false} ProviderFound(provider: string)
    requires Lower(provider) in ProviderNames
    ensures OAuthProviderFromString(provider).Some?
  {
  }

  /** Every provider's name is written in lower case. */
  lemma {:induction false} ProviderNameLower(p: Provider)
    ensures NoUpper(ProviderName(p))
  {
    match p
    case Apple => case Azure => case Bitbucket => case Discord =>
    case Facebook => case Figma => case Github => case Gitlab =>
    case Google => case Kakao => case Keycloak => case Linkedin =>
    case LinkedinOIDC => case Notion => case Slack => case SlackOIDC =>
    case Spotify => case Twitch => case Twitter => case Workos =>
    case Zoom =>
  }

  /** Every provider is selected by its exact name. */
  lemma {:induction false} ProviderByNameRoundTrip(p: Provider)
    ensures ProviderByName(ProviderName(p)) == Some(p)
  {
    match p
    case Apple => case Azure => case Bitbucket => case Discord =>
    case Facebook => case Figma => case Github => case Gitlab =>
    case Google => case Kakao => case Keycloak => case Linkedin =>
    case LinkedinOIDC => case Notion => case Slack => case SlackOIDC =>
    case Spotify => case Twitch => case Twitter => case Workos =>
    case Zoom =>
  }

  /** Every provider is found by its own name. */
  lemma {:induction false} ProviderNameRoundTrip(p: Provider)
    ensures OAuthProviderFromString(ProviderName(p)) == Some(p)
  {
    ProviderNameLower(p);
    LowerOfNoUpper(ProviderName(p));
    ProviderByNameRoundTrip(p);
  }

  /** The lookup ignores case. */
  lemma {:induction false} ProviderIgnoresCase(provider: string)
    ensures OAuthProviderFromString(provider) == OAuthProviderFromString(Lower(provider))
  {
    LowerIdempotent(provider);
  }

  /** supabase-swift `EmailOTPType`. */
  datatype EmailOTPType = Signup | Invite | Magiclink | Recovery | EmailChange | Email

  /** supabase-swift `MobileOTPType`. */
  datatype MobileOTPType = Sms | PhoneChange

  /** `emailOtpTypeFromString`: the three named types, and `.email` for
      every other string (never `.invite` or `.emailChange`). */
  function EmailOtpTypeFromString(t: string): (r: EmailOTPType)
    ensures r == Signup <==> Lower(t) == "signup"
    ensures r == Magiclink <==> Lower(t) == "magiclink"
    ensures r == Recovery <==> Lower(t) == "recovery"
    ensures r == Email <==> Lower(t) !in {"signup", "magiclink", "recovery"}
    ensures r != Invite && r != EmailChange
  {
    match Lower(t)
    case "signup" => Signup
    case "magiclink" => Magiclink
    case "recovery" => Recovery
    case "email" => Email
    case _ => Email
  }

  /** `phoneOtpTypeFromString`: `.sms` whatever the string. */
  function PhoneOtpTypeFromString(t: string): (r: MobileOTPType)
    ensures r == Sms
  {
    match Lower(t)
    case "sms" => Sms
    case _ => Sms
  }
}
