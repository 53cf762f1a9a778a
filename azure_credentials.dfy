/**
 * The credential types of the Azure SDK: the `AzureAuthType` tag set, the concealed-secret
 * markers, the tagged union of credential variants and the `instanceOfAzureCredential` type guard.
 */
module AzureCredentials {
  import opened Wrappers

  /** The string literals of the `AzureAuthType` union, written as the union lists them
    * ('currentuser' appears twice there, and so here; as a set it counts once). */
  const KnownTags: set<string> :=
    {"currentuser", "msi", "workloadidentity", "clientsecret", "clientsecret-obo", "currentuser", "ad-password"}

  /** A tag string outside the `AzureAuthType` union, as persisted or foreign data may carry. */
  type UnknownTag = s: string | s !in KnownTags witness ""

  /** The value of an `authType` property: one of the six known tags, or any other string. */
  datatype AuthType =
    | CurrentUser
    | Msi
    | WorkloadIdentity
    | ClientSecret
    | ClientSecretObo
    | AdPassword
    | Unknown(tag: UnknownTag)

  /**
   * A secret-bearing property (`string | ConcealedSecret`, optional).
   * `Concealed` and `ConcealedLegacy` are the two unique symbols `concealed` and `concealedLegacy`:
   * they are told apart from each other and from every string by identity, which datatype
   * constructors give for free.
   */
  datatype Secret = Absent | Plain(text: string) | Concealed | ConcealedLegacy

  /**
   * The `AzureCredentials` union. The two client-secret variants carry the same optional fields.
   * `UnsupportedCredentials` is a record whose tag is not in the union; it keeps the only two
   * properties any code here reads from such a record.
   */
  datatype Credentials =
    | CurrentUserCredentials(serviceCredentials: Option<Credentials>, serviceCredentialsEnabled: Option<bool>)
    | ManagedIdentityCredentials
    | WorkloadIdentityCredentials
    | ClientSecretCredentials(azureCloud: Option<string>, tenantId: Option<string>, clientId: Option<string>,
                              clientSecret: Secret)
    | ClientSecretOboCredentials(azureCloud: Option<string>, tenantId: Option<string>, clientId: Option<string>,
                                 clientSecret: Secret)
    | AdPasswordCredentials(userId: Option<string>, clientId: Option<string>, password: Secret)
    | UnsupportedCredentials(tag: UnknownTag, serviceCredentials: Option<Credentials>,
                             serviceCredentialsEnabled: Option<bool>)

  /** The string stored in the `authType` property. */
  function TagName(t: AuthType): (s: string)
    ensures t.Unknown? <==> s !in KnownTags
  {
    match t
    case CurrentUser => "currentuser"
    case Msi => "msi"
    case WorkloadIdentity => "workloadidentity"
    case ClientSecret => "clientsecret"
    case ClientSecretObo => "clientsecret-obo"
    case AdPassword => "ad-password"
    case Unknown(tag) => tag
  }

  /** The set of tags has exactly six members, and there is no certificate tag. */
  lemma KnownTagsCount()
    ensures |KnownTags| == 6
    ensures "clientcertificate" !in KnownTags
  {
    var six := {"currentuser"} + {"msi"} + {"workloadidentity"} + {"clientsecret"} + {"clientsecret-obo"}
               + {"ad-password"};
    assert KnownTags == six;
    assert |{"currentuser"} + {"msi"}| == 2;
    assert |{"currentuser"} + {"msi"} + {"workloadidentity"}| == 3;
    assert |{"currentuser"} + {"msi"} + {"workloadidentity"} + {"clientsecret"}| == 4;
    assert |{"currentuser"} + {"msi"} + {"workloadidentity"} + {"clientsecret"} + {"clientsecret-obo"}| == 5;
  }

  /** Distinct tags are distinct strings, so comparing `authType` strings compares variants. */
  lemma TagNameInjective(t1: AuthType, t2: AuthType)
    ensures TagName(t1) == TagName(t2) <==> t1 == t2
  {
  }

  /** The tag of a credentials value. */
  function AuthTypeOf(c: Credentials): (t: AuthType)
    ensures t.Unknown? <==> c.UnsupportedCredentials?
  {
    match c
    case CurrentUserCredentials(_, _) => CurrentUser
    case ManagedIdentityCredentials => Msi
    case WorkloadIdentityCredentials => WorkloadIdentity
    case ClientSecretCredentials(_, _, _, _) => ClientSecret
    case ClientSecretOboCredentials(_, _, _, _) => ClientSecretObo
    case AdPasswordCredentials(_, _, _) => AdPassword
    case UnsupportedCredentials(tag, _, _) => Unknown(tag)
  }

  /**
   * `instanceOfAzureCredential(authType, object)`: false for a missing object, otherwise a
   * comparison of the object's `authType` string with the given one.
   */
  function InstanceOfAzureCredential(authType: AuthType, obj: Option<Credentials>): (r: bool)
    ensures obj.None? ==> !r
    ensures r <==> obj.Some? && AuthTypeOf(obj.value) == authType
    ensures r && authType == ClientSecret ==> obj.value.ClientSecretCredentials?
    ensures r && authType == CurrentUser ==> obj.value.CurrentUserCredentials?
  {
    if obj.None? then false
    else
      TagNameInjective(AuthTypeOf(obj.value), authType);
      TagName(AuthTypeOf(obj.value)) == TagName(authType)
  }

  /** The credential kinds that `AadCurrentUserCredentials.serviceCredentials` admits. */
  predicate IsServiceCredentials(c: Credentials)
  {
    c.ClientSecretCredentials? || c.ManagedIdentityCredentials? || c.WorkloadIdentityCredentials?
  }

  /**
   * A value of the TypeScript type `AzureCredentials`: a known tag, and a current-user value
   * nests nothing but client-secret, managed-identity or workload-identity credentials.
   */
  predicate WellFormed(c: Credentials)
    ensures WellFormed(c) ==> TagName(AuthTypeOf(c)) in KnownTags
    ensures WellFormed(c) && c.CurrentUserCredentials? && c.serviceCredentials.Some? ==>
              TagName(AuthTypeOf(c.serviceCredentials.value)) in {"clientsecret", "msi", "workloadidentity"}
  {
    && !c.UnsupportedCredentials?
    && (c.CurrentUserCredentials? && c.serviceCredentials.Some? ==> IsServiceCredentials(c.serviceCredentials.value))
  }

  /** JavaScript truthiness of an optional string: present and non-empty. */
  predicate IsSet(s: Option<string>)
  {
    s.Some? && |s.value| > 0
  }

  /** JavaScript truthiness of a secret: a non-empty string, or either (truthy) symbol. */
  predicate IsSecretSet(s: Secret)
  {
    (s.Plain? && |s.text| > 0) || s.Concealed? || s.ConcealedLegacy?
  }
}
