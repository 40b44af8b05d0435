/** The operating system the client identifies as when it talks to the
    provider: it fixes the OAuth client id and the User-Agent header. */
module OperatingSystem {

  datatype Os = Android | Ios

  /** The `Display` rendering of an operating system. */
  function Name(os: Os): (s: string)
    ensures |s| > 0 && forall i :: 0 <= i < |s| ==> 'a' <= s[i] <= 'z'
  {
    match os
    case Android => "android"
    case Ios => "ios"
  }

  const ClientIdPrefix: string := "ring_official_"
  const UserAgentSuffix: string := ":com.ringapp"

  /** The OAuth client id sent with token requests. */
  function ClientId(os: Os): (s: string)
    ensures |ClientIdPrefix| < |s| && ClientIdPrefix <= s
  {
    match os
    case Android => "ring_official_android"
    case Ios => "ring_official_ios"
  }

  /** The User-Agent header value sent with every REST request. */
  function UserAgent(os: Os): (s: string)
    ensures |UserAgentSuffix| < |s| && s[|s| - |UserAgentSuffix|..] == UserAgentSuffix
  {
    match os
    case Android => "android:com.ringapp"
    case Ios => "ios:com.ringapp"
  }

  /** The client ids and user agents the source produces for each system, and
      the display strings `Display` writes. */
  lemma KnownIdentities()
    ensures ClientId(Android) == "ring_official_android" && UserAgent(Android) == "android:com.ringapp"
    ensures ClientId(Ios) == "ring_official_ios" && UserAgent(Ios) == "ios:com.ringapp"
    ensures Name(Android) == "android" && Name(Ios) == "ios"
  {
  }

  /** The user agent is the display name followed by `:com.ringapp`. */
  lemma UserAgentIsNameWithSuffix(os: Os)
    ensures UserAgent(os) == Name(os) + UserAgentSuffix
  {
  }

  /** The client id is `ring_official_` followed by the display name. */
  lemma ClientIdIsPrefixedName(os: Os)
    ensures ClientId(os) == ClientIdPrefix + Name(os)
  {
  }

  /** Different operating systems are told apart by both identities. */
  lemma IdentitiesAreDistinct(a: Os, b: Os)
    ensures ClientId(a) == ClientId(b) <==> a == b
    ensures UserAgent(a) == UserAgent(b) <==> a == b
    ensures Name(a) == Name(b) <==> a == b
  {
    if a != b {
      assert |Name(a)| != |Name(b)|;
    }
  }
}
