/**
 * The credential reader and writer of the Azure SDK: the secret accessors, the completeness
 * check, `getDatasourceCredentials` (settings to live credentials) and
 * `updateDatasourceCredentials` (edited credentials back into settings).
 *
 * The `@grafana/runtime` global `config.azure` becomes the parameter `azure`, the optional
 * `oboEnabled` argument a `bool` (`undefined` is false), `getDefaultAzureCloud()` the parameter
 * `defaultCloud`, and every `throw new Error(message)` an `Err(message)`.
 */
module AzureCredentialsConfig {
  import opened Wrappers
  import opened AzureCredentials
  import opened Settings

  /** The capability flags of `config.azure`. */
  datatype AzureConfig = AzureConfig(
    managedIdentityEnabled: bool,
    workloadIdentityEnabled: bool,
    userIdentityEnabled: bool)

  /** A cloud name as `getDefaultAzureCloud()` returns it: never empty. */
  type CloudName = s: string | |s| > 0 witness "AzureCloud"

  // Keys of secureJsonData / secureJsonFields.
  const AzureClientSecretKey := "azureClientSecret"
  const LegacyClientSecretKey := "clientSecret"
  const PasswordKey := "password"

  // Keys of jsonData.
  const OauthPassThruKey := "oauthPassThru"
  const DisableGrafanaCacheKey := "disableGrafanaCache"
  const LegacyJsonKeys: set<string> := {"azureAuthType", "cloudName", "tenantId", "clientId"}

  // The messages of the errors the writer throws for a disabled capability.
  const ManagedIdentityDisabled := "Managed Identity authentication is not enabled in Grafana config."
  const WorkloadIdentityDisabled := "Workload Identity authentication is not enabled in Grafana config."
  const ClientSecretOboDisabled := "Client Secret OBO authentication is not enabled in Grafana config."
  const UserIdentityDisabled := "User Identity authentication is not enabled in Grafana config."

  /** The message the reader and the writer throw for a tag they do not support. */
  function UnsupportedAuthType(t: AuthType): string
  {
    "The auth type '" + TagName(t) + "' is not supported."
  }

  /** The message `isCredentialsComplete` throws (it lacks the word "is"). */
  function UnsupportedAuthTypeForCompleteness(t: AuthType): string
  {
    "The auth type '" + TagName(t) + "' not supported."
  }

  // ---------------------------------------------------------------------------------------------
  // Completeness

  /** `isCredentialsComplete(credentials, ignoreSecret)`. */
  function IsCredentialsComplete(credentials: Credentials, ignoreSecret: bool): (r: Result<bool>)
    ensures r.Err? <==> credentials.UnsupportedCredentials?
    ensures r.Err? ==> r.message == UnsupportedAuthTypeForCompleteness(AuthTypeOf(credentials))
    ensures (credentials.ManagedIdentityCredentials? || credentials.WorkloadIdentityCredentials?
             || credentials.CurrentUserCredentials?) ==> r == Ok(true)
    ensures (credentials.ClientSecretCredentials? || credentials.ClientSecretOboCredentials?) ==>
              (r == Ok(true) <==> IsSet(credentials.azureCloud) && IsSet(credentials.tenantId)
                                  && IsSet(credentials.clientId)
                                  && (ignoreSecret || IsSecretSet(credentials.clientSecret)))
    ensures credentials.AdPasswordCredentials? ==>
              (r == Ok(true) <==> IsSet(credentials.clientId) && IsSecretSet(credentials.password)
                                  && IsSet(credentials.userId))
  {
    match credentials
    case ManagedIdentityCredentials => Ok(true)
    case WorkloadIdentityCredentials => Ok(true)
    case CurrentUserCredentials(_, _) => Ok(true)
    case ClientSecretCredentials(azureCloud, tenantId, clientId, clientSecret) =>
      Ok(IsSet(azureCloud) && IsSet(tenantId) && IsSet(clientId) && (ignoreSecret || IsSecretSet(clientSecret)))
    case ClientSecretOboCredentials(azureCloud, tenantId, clientId, clientSecret) =>
      Ok(IsSet(azureCloud) && IsSet(tenantId) && IsSet(clientId) && (ignoreSecret || IsSecretSet(clientSecret)))
    case AdPasswordCredentials(userId, clientId, password) =>
      Ok(IsSet(clientId) && IsSecretSet(password) && IsSet(userId))
    case UnsupportedCredentials(_, _, _) =>
      Err(UnsupportedAuthTypeForCompleteness(AuthTypeOf(credentials)))
  }

  // ---------------------------------------------------------------------------------------------
  // Secret accessors

  /** A plaintext secret from `secureJsonData[key]`, when it is a non-empty string. */
  function PlaintextSecret(data: map<string, string>, key: string): (r: Secret)
    ensures r.Absent? || r.Plain?
    ensures r.Plain? <==> key in data && |data[key]| > 0
    ensures r.Plain? ==> r.text == data[key]
  {
    if key in data && |data[key]| > 0 then Plain(data[key]) else Absent
  }

  /** `getClientSecret`: the current concealment flag, then the legacy flag, then plaintext. */
  function GetClientSecret(options: DataSourceSettings): (r: Secret)
    ensures options.secureJsonFields.None? ==> r == Absent
    ensures r.Concealed? <==>
              options.secureJsonFields.Some? && FieldFlag(options.secureJsonFields.value, AzureClientSecretKey)
    ensures r.ConcealedLegacy? <==>
              && options.secureJsonFields.Some?
              && !FieldFlag(options.secureJsonFields.value, AzureClientSecretKey)
              && FieldFlag(options.secureJsonFields.value, LegacyClientSecretKey)
    ensures r.Plain? <==>
              && options.secureJsonFields.Some?
              && !FieldFlag(options.secureJsonFields.value, AzureClientSecretKey)
              && !FieldFlag(options.secureJsonFields.value, LegacyClientSecretKey)
              && AzureClientSecretKey in options.secureJsonData
              && |options.secureJsonData[AzureClientSecretKey]| > 0
    ensures r.Plain? ==> r.text == options.secureJsonData[AzureClientSecretKey]
  {
    match options.secureJsonFields
    case None => Absent
    case Some(fields) =>
      if FieldFlag(fields, AzureClientSecretKey) then Concealed
      else if FieldFlag(fields, LegacyClientSecretKey) then ConcealedLegacy
      else PlaintextSecret(options.secureJsonData, AzureClientSecretKey)
  }

  /** `getAdPassword`: as `getClientSecret` for the `password` key, without a legacy step. */
  function GetAdPassword(options: DataSourceSettings): (r: Secret)
    ensures !r.ConcealedLegacy?
    ensures options.secureJsonFields.None? ==> r == Absent
    ensures r.Concealed? <==>
              options.secureJsonFields.Some? && FieldFlag(options.secureJsonFields.value, PasswordKey)
    ensures r.Plain? <==>
              && options.secureJsonFields.Some?
              && !FieldFlag(options.secureJsonFields.value, PasswordKey)
              && PasswordKey in options.secureJsonData
              && |options.secureJsonData[PasswordKey]| > 0
    ensures r.Plain? ==> r.text == options.secureJsonData[PasswordKey]
  {
    match options.secureJsonFields
    case None => Absent
    case Some(fields) =>
      if FieldFlag(fields, PasswordKey) then Concealed
      else PlaintextSecret(options.secureJsonData, PasswordKey)
  }

  // ---------------------------------------------------------------------------------------------
  // Reader

  /** `azureCloud || getDefaultAzureCloud()`. */
  function DefaultedCloud(azureCloud: Option<string>, defaultCloud: CloudName): (r: Option<string>)
    ensures IsSet(r)
    ensures IsSet(azureCloud) ==> r == azureCloud
    ensures !IsSet(azureCloud) ==> r == Some(defaultCloud)
  {
    if IsSet(azureCloud) then azureCloud else Some(defaultCloud)
  }

  /** Nested service credentials with the client secret inlined, when they are client-secret ones. */
  function WithServiceSecret(serviceCredentials: Option<Credentials>, secret: Secret): (r: Option<Credentials>)
    ensures r.None? <==> serviceCredentials.None?
    ensures InstanceOfAzureCredential(ClientSecret, serviceCredentials) ==>
              var sc := serviceCredentials.value;
              r == Some(ClientSecretCredentials(sc.azureCloud, sc.tenantId, sc.clientId, secret))
    ensures !InstanceOfAzureCredential(ClientSecret, serviceCredentials) ==> r == serviceCredentials
  {
    if InstanceOfAzureCredential(ClientSecret, serviceCredentials) then
      var sc := serviceCredentials.value;
      Some(ClientSecretCredentials(sc.azureCloud, sc.tenantId, sc.clientId, secret))
    else serviceCredentials
  }

  /**
   * `getDatasourceCredentials`, with the unsupported-tag error the code evidently intends
   * (see `GetDatasourceCredentialsAsWritten` for the code as it stands).
   * `Ok(None)` is the silent fallback to the datasource's own default credentials.
   */
  function GetDatasourceCredentials(options: DataSourceSettings, oboEnabled: bool, azure: AzureConfig,
                                    defaultCloud: CloudName): (r: Result<Option<Credentials>>)
    ensures options.jsonData.azureCredentials.None? ==> r == Ok(None)
    ensures r.Err? <==>
              options.jsonData.azureCredentials.Some? && options.jsonData.azureCredentials.value.UnsupportedCredentials?
    ensures r.Err? ==> r.message == UnsupportedAuthType(AuthTypeOf(options.jsonData.azureCredentials.value))
    ensures r.Ok? && r.value.Some? ==>
              AuthTypeOf(r.value.value) == AuthTypeOf(options.jsonData.azureCredentials.value)
  {
    match options.jsonData.azureCredentials
    case None => Ok(None)
    case Some(credentials) =>
      match credentials
      case ManagedIdentityCredentials =>
        Ok(if azure.managedIdentityEnabled then Some(ManagedIdentityCredentials) else None)
      case WorkloadIdentityCredentials =>
        Ok(if azure.workloadIdentityEnabled then Some(WorkloadIdentityCredentials) else None)
      case ClientSecretCredentials(azureCloud, tenantId, clientId, _) =>
        Ok(Some(ClientSecretCredentials(DefaultedCloud(azureCloud, defaultCloud), tenantId, clientId,
                                        GetClientSecret(options))))
      case ClientSecretOboCredentials(azureCloud, tenantId, clientId, _) =>
        if !oboEnabled then Ok(None)
        else Ok(Some(ClientSecretOboCredentials(DefaultedCloud(azureCloud, defaultCloud), tenantId, clientId,
                                                GetClientSecret(options))))
      case AdPasswordCredentials(userId, clientId, _) =>
        Ok(Some(AdPasswordCredentials(userId, clientId, GetAdPassword(options))))
      case CurrentUserCredentials(serviceCredentials, serviceCredentialsEnabled) =>
        if !azure.userIdentityEnabled then Ok(None)
        else Ok(Some(CurrentUserCredentials(WithServiceSecret(serviceCredentials, GetClientSecret(options)),
                                            serviceCredentialsEnabled)))
      case UnsupportedCredentials(_, _, _) =>
        Err(UnsupportedAuthType(AuthTypeOf(credentials)))
  }

  /**
   * `getDatasourceCredentials` exactly as written: after the switch, the current-user guard is
   * `instanceOfAzureCredential(authType, credentials)` with the record's own tag, so it holds for
   * every remaining record, an unsupported one included, and the final throw is never reached.
   */
  function GetDatasourceCredentialsAsWritten(options: DataSourceSettings, oboEnabled: bool, azure: AzureConfig,
                                             defaultCloud: CloudName): (r: Result<Option<Credentials>>)
    ensures options.jsonData.azureCredentials.None? ==> r == Ok(None)
    ensures (options.jsonData.azureCredentials.Some? && !options.jsonData.azureCredentials.value.UnsupportedCredentials?)
              ==> r == GetDatasourceCredentials(options, oboEnabled, azure, defaultCloud)
  {
    match options.jsonData.azureCredentials
    case None => Ok(None)
    case Some(credentials) =>
      if !(credentials.CurrentUserCredentials? || credentials.UnsupportedCredentials?) then
        // The switch, shared with the corrected reader.
        GetDatasourceCredentials(options, oboEnabled, azure, defaultCloud)
      else if InstanceOfAzureCredential(AuthTypeOf(credentials), Some(credentials)) then
        if !azure.userIdentityEnabled then Ok(None)
        else
          var serviceCredentials := WithServiceSecret(credentials.serviceCredentials, GetClientSecret(options));
          var serviceCredentialsEnabled := credentials.serviceCredentialsEnabled;
          // `{authType, serviceCredentialsEnabled, serviceCredentials}` under the record's own tag.
          Ok(Some(match credentials
                  case UnsupportedCredentials(tag, _, _) =>
                    UnsupportedCredentials(tag, serviceCredentials, serviceCredentialsEnabled)
                  case _ => CurrentUserCredentials(serviceCredentials, serviceCredentialsEnabled)))
      else Err(UnsupportedAuthType(AuthTypeOf(credentials)))
  }

  /** `hasCredentials`: whether `jsonData.azureCredentials` is set. */
  function HasCredentials(options: DataSourceSettings): (r: bool)
    ensures r <==> options.jsonData.azureCredentials.Some?
  {
    options.jsonData.azureCredentials.Some?
  }

  // ---------------------------------------------------------------------------------------------
  // Writer: the specification

  /** `typeof secret === 'string' && secret.length > 0 ? secret : undefined`. */
  function SecretToStore(secret: Secret): (r: Option<string>)
    ensures r.Some? <==> secret.Plain? && |secret.text| > 0
    ensures r.Some? ==> r.value == secret.text
  {
    if secret.Plain? && |secret.text| > 0 then Some(secret.text) else None
  }

  /** `{...data, [key]: value}`, where assigning `undefined` removes the key. */
  function WithSecureValue(data: map<string, string>, key: string, value: Option<string>): (r: map<string, string>)
    ensures value.Some? ==> key in r && r[key] == value.value
    ensures value.None? ==> key !in r
    ensures r.Keys - {key} == data.Keys - {key}
    ensures forall k :: k in data && k != key ==> k in r && r[k] == data[k]
  {
    if value.Some? then data[key := value.value] else data - {key}
  }

  /** The client secret a current-user value nests, which the writer moves out of `jsonData`. */
  function ServiceClientSecret(serviceCredentials: Option<Credentials>): (r: Secret)
    ensures !InstanceOfAzureCredential(ClientSecret, serviceCredentials) ==> r == Absent
    ensures InstanceOfAzureCredential(ClientSecret, serviceCredentials) ==> r == serviceCredentials.value.clientSecret
  {
    if InstanceOfAzureCredential(ClientSecret, serviceCredentials) then serviceCredentials.value.clientSecret
    else Absent
  }

  /** The nested service credentials after `delete serviceCredentials.clientSecret`. */
  function ScrubbedService(serviceCredentials: Option<Credentials>): (r: Option<Credentials>)
    ensures r.None? <==> serviceCredentials.None?
    ensures ServiceClientSecret(r) == Absent
    ensures r.Some? ==> AuthTypeOf(r.value) == AuthTypeOf(serviceCredentials.value)
    ensures WithServiceSecret(r, ServiceClientSecret(serviceCredentials)) == serviceCredentials
  {
    WithServiceSecret(serviceCredentials, Absent)
  }

  /**
   * The caller's credentials after a successful write: a current-user value loses its nested
   * client secret (the writer deletes it from the caller's object); nothing else is touched.
   */
  function ScrubbedCredentials(c: Credentials): (r: Credentials)
    ensures AuthTypeOf(r) == AuthTypeOf(c)
    ensures !c.CurrentUserCredentials? ==> r == c
  {
    match c
    case CurrentUserCredentials(serviceCredentials, serviceCredentialsEnabled) =>
      CurrentUserCredentials(ScrubbedService(serviceCredentials), serviceCredentialsEnabled)
    case _ => c
  }

  /** The error the writer throws for `credentials`, if any. */
  function UpdateError(credentials: Credentials, oboEnabled: bool, azure: AzureConfig): (r: Option<string>)
    ensures r.None? <==>
              match credentials
              case ManagedIdentityCredentials => azure.managedIdentityEnabled
              case WorkloadIdentityCredentials => azure.workloadIdentityEnabled
              case ClientSecretOboCredentials(_, _, _, _) => oboEnabled
              case CurrentUserCredentials(_, _) => azure.userIdentityEnabled
              case UnsupportedCredentials(_, _, _) => false
              case _ => true
  {
    match credentials
    case ManagedIdentityCredentials =>
      if azure.managedIdentityEnabled then None else Some(ManagedIdentityDisabled)
    case WorkloadIdentityCredentials =>
      if azure.workloadIdentityEnabled then None else Some(WorkloadIdentityDisabled)
    case ClientSecretOboCredentials(_, _, _, _) =>
      if oboEnabled then None else Some(ClientSecretOboDisabled)
    case CurrentUserCredentials(_, _) =>
      if azure.userIdentityEnabled then None else Some(UserIdentityDisabled)
    case UnsupportedCredentials(_, _, _) =>
      Some(UnsupportedAuthType(AuthTypeOf(credentials)))
    case _ => None
  }

  /** The value the writer stores under `jsonData.azureCredentials`: no secret, cloud defaulted. */
  function StoredCredentials(credentials: Credentials, defaultCloud: CloudName): (r: Credentials)
    ensures AuthTypeOf(r) == AuthTypeOf(credentials)
  {
    match credentials
    case ClientSecretCredentials(azureCloud, tenantId, clientId, _) =>
      ClientSecretCredentials(DefaultedCloud(azureCloud, defaultCloud), tenantId, clientId, Absent)
    case ClientSecretOboCredentials(azureCloud, tenantId, clientId, _) =>
      ClientSecretOboCredentials(DefaultedCloud(azureCloud, defaultCloud), tenantId, clientId, Absent)
    case AdPasswordCredentials(userId, clientId, _) =>
      AdPasswordCredentials(userId, clientId, Absent)
    case _ => ScrubbedCredentials(credentials)
  }

  /** The `jsonData` flags the writer forces to true. */
  function ForcedJsonFlags(credentials: Credentials): (r: map<string, JsonValue>)
    ensures r.Keys !! LegacyJsonKeys
  {
    match credentials
    case ClientSecretOboCredentials(_, _, _, _) => map[OauthPassThruKey := JBool(true)]
    case CurrentUserCredentials(_, _) => map[OauthPassThruKey := JBool(true), DisableGrafanaCacheKey := JBool(true)]
    case _ => map[]
  }

  /** The secret the writer routes out of `credentials` (absent for the identity variants). */
  function RoutedSecret(credentials: Credentials): Secret
  {
    match credentials
    case ClientSecretCredentials(_, _, _, clientSecret) => clientSecret
    case ClientSecretOboCredentials(_, _, _, clientSecret) => clientSecret
    case AdPasswordCredentials(_, _, password) => password
    case CurrentUserCredentials(serviceCredentials, _) => ServiceClientSecret(serviceCredentials)
    case _ => Absent
  }

  /** The `secureJsonData` key the writer routes that secret to. */
  function SecretKey(credentials: Credentials): string
  {
    if credentials.AdPasswordCredentials? then PasswordKey else AzureClientSecretKey
  }

  /** Whether the writer touches the secure maps at all. */
  predicate WritesSecret(credentials: Credentials)
  {
    credentials.ClientSecretCredentials? || credentials.ClientSecretOboCredentials?
    || credentials.AdPasswordCredentials? || credentials.CurrentUserCredentials?
  }

  /** The `secureJsonFields` flags the writer sets. */
  function FlagKeys(credentials: Credentials): set<string>
  {
    if !WritesSecret(credentials) then {}
    else if credentials.AdPasswordCredentials? then {PasswordKey}
    else {AzureClientSecretKey, LegacyClientSecretKey}
  }

  /** The new `secureJsonData`: each plaintext secret is routed to its key. */
  function UpdatedSecureJsonData(data: map<string, string>, credentials: Credentials): (r: map<string, string>)
    ensures !WritesSecret(credentials) ==> r == data
    ensures WritesSecret(credentials) ==>
              var secret := RoutedSecret(credentials);
              && (SecretKey(credentials) in r <==> secret.Plain? && |secret.text| > 0)
              && (SecretKey(credentials) in r ==> r[SecretKey(credentials)] == secret.text)
    ensures forall k :: k in data && k != SecretKey(credentials) ==> k in r && r[k] == data[k]
    ensures forall k :: k in r ==> k in data || k == SecretKey(credentials)
  {
    match credentials
    case ClientSecretCredentials(_, _, _, clientSecret) =>
      WithSecureValue(data, AzureClientSecretKey, SecretToStore(clientSecret))
    case ClientSecretOboCredentials(_, _, _, clientSecret) =>
      WithSecureValue(data, AzureClientSecretKey, SecretToStore(clientSecret))
    case AdPasswordCredentials(_, _, password) =>
      WithSecureValue(data, PasswordKey, SecretToStore(password))
    case CurrentUserCredentials(serviceCredentials, _) =>
      WithSecureValue(data, AzureClientSecretKey, SecretToStore(ServiceClientSecret(serviceCredentials)))
    case _ => data
  }

  /** The two client-secret flags, from the identity of the marker given. */
  function ClientSecretFields(fields: map<string, bool>, secret: Secret): (r: map<string, bool>)
    ensures AzureClientSecretKey in r && LegacyClientSecretKey in r
    ensures FieldFlag(r, AzureClientSecretKey) <==> secret == Concealed
    ensures FieldFlag(r, LegacyClientSecretKey) <==> secret == ConcealedLegacy
    ensures forall k :: k in fields && k != AzureClientSecretKey && k != LegacyClientSecretKey ==>
              k in r && r[k] == fields[k]
    ensures r.Keys == fields.Keys + {AzureClientSecretKey, LegacyClientSecretKey}
  {
    fields[AzureClientSecretKey := secret == Concealed][LegacyClientSecretKey := secret == ConcealedLegacy]
  }

  /** The new `secureJsonFields`; every secret-bearing variant creates the map. */
  function UpdatedSecureJsonFields(fields: Option<map<string, bool>>, credentials: Credentials)
    : (r: Option<map<string, bool>>)
    ensures !WritesSecret(credentials) ==> r == fields
    ensures WritesSecret(credentials) ==> r.Some? && FlagKeys(credentials) <= r.value.Keys
    ensures WritesSecret(credentials) && !credentials.AdPasswordCredentials? ==>
              && (FieldFlag(r.value, AzureClientSecretKey) <==> RoutedSecret(credentials) == Concealed)
              && (FieldFlag(r.value, LegacyClientSecretKey) <==> RoutedSecret(credentials) == ConcealedLegacy)
    ensures credentials.AdPasswordCredentials? ==>
              (FieldFlag(r.value, PasswordKey) <==> credentials.password.Concealed? || credentials.password.ConcealedLegacy?)
    ensures WritesSecret(credentials) ==>
              && (forall k :: fields.Some? && k in fields.value && k !in FlagKeys(credentials) ==>
                    k in r.value && r.value[k] == fields.value[k])
              && (forall k :: k in r.value ==> (fields.Some? && k in fields.value) || k in FlagKeys(credentials))
  {
    match credentials
    case ClientSecretCredentials(_, _, _, clientSecret) =>
      Some(ClientSecretFields(fields.GetOr(map[]), clientSecret))
    case ClientSecretOboCredentials(_, _, _, clientSecret) =>
      Some(ClientSecretFields(fields.GetOr(map[]), clientSecret))
    case AdPasswordCredentials(_, _, password) =>
      Some(fields.GetOr(map[])[PasswordKey := password.Concealed? || password.ConcealedLegacy?])
    case CurrentUserCredentials(serviceCredentials, _) =>
      Some(ClientSecretFields(fields.GetOr(map[]), ServiceClientSecret(serviceCredentials)))
    case _ => fields
  }

  /**
   * What `updateDatasourceCredentials` returns: the error it throws, or the settings with the
   * legacy `jsonData` keys retired, the credentials stored without secrets, the secrets routed
   * to `secureJsonData` and their flags set in `secureJsonFields`.
   */
  function UpdatedSettings(options: DataSourceSettings, credentials: Credentials, oboEnabled: bool,
                           azure: AzureConfig, defaultCloud: CloudName): (r: Result<DataSourceSettings>)
    ensures r.Err? <==> UpdateError(credentials, oboEnabled, azure).Some?
  {
    match UpdateError(credentials, oboEnabled, azure)
    case Some(message) => Err(message)
    case None =>
      Ok(DataSourceSettings(
        JsonData(Some(StoredCredentials(credentials, defaultCloud)),
                 (options.jsonData.fields - LegacyJsonKeys) + ForcedJsonFlags(credentials)),
        UpdatedSecureJsonData(options.secureJsonData, credentials),
        UpdatedSecureJsonFields(options.secureJsonFields, credentials)))
  }

  // ---------------------------------------------------------------------------------------------
  // Writer: step by step

  /**
   * `updateDatasourceCredentials(options, credentials, oboEnabled)`. Besides the new settings it
   * returns `callerCredentials`, the caller's credentials object as the call leaves it: the
   * current-user branch deletes the nested client secret from it, and stores that same object.
   */
  method UpdateDatasourceCredentials(options: DataSourceSettings, credentials: Credentials, oboEnabled: bool,
                                     azure: AzureConfig, defaultCloud: CloudName)
    returns (result: Result<DataSourceSettings>, callerCredentials: Credentials)
    ensures result == UpdatedSettings(options, credentials, oboEnabled, azure, defaultCloud)
    ensures callerCredentials == if result.Ok? then ScrubbedCredentials(credentials) else credentials
    ensures result.Ok? && credentials.CurrentUserCredentials? ==>
              result.value.jsonData.azureCredentials == Some(callerCredentials)
  {
    callerCredentials := credentials;

    // Clean up any legacy credentials.
    var opts := options.(jsonData := options.jsonData.(fields := options.jsonData.fields - LegacyJsonKeys));

    match credentials {
      case ManagedIdentityCredentials | WorkloadIdentityCredentials =>
        if credentials.ManagedIdentityCredentials? && !azure.managedIdentityEnabled {
          return Err(ManagedIdentityDisabled), callerCredentials;
        }
        if credentials.WorkloadIdentityCredentials? && !azure.workloadIdentityEnabled {
          return Err(WorkloadIdentityDisabled), callerCredentials;
        }
        opts := opts.(jsonData := opts.jsonData.(azureCredentials := Some(credentials)));
        assert opts.jsonData.fields == opts.jsonData.fields + ForcedJsonFlags(credentials);
        return Ok(opts), callerCredentials;

      case ClientSecretCredentials(_, _, _, _) | ClientSecretOboCredentials(_, _, _, _) =>
        if credentials.ClientSecretOboCredentials? && !oboEnabled {
          return Err(ClientSecretOboDisabled), callerCredentials;
        }
        var azureCloud := DefaultedCloud(credentials.azureCloud, defaultCloud);
        var tenantId, clientId := credentials.tenantId, credentials.clientId;
        var stored := if credentials.ClientSecretCredentials?
          then ClientSecretCredentials(azureCloud, tenantId, clientId, Absent)
          else ClientSecretOboCredentials(azureCloud, tenantId, clientId, Absent);
        opts := opts.(
          jsonData := opts.jsonData.(azureCredentials := Some(stored)),
          secureJsonData := WithSecureValue(opts.secureJsonData, AzureClientSecretKey, SecretToStore(credentials.clientSecret)),
          secureJsonFields := Some(opts.secureJsonFields.GetOr(map[])
                                   [AzureClientSecretKey := credentials.clientSecret == Concealed]
                                   [LegacyClientSecretKey := credentials.clientSecret == ConcealedLegacy]));
        var fields: map<string, JsonValue> := opts.jsonData.fields;
        if credentials.ClientSecretOboCredentials? {
          fields := fields[OauthPassThruKey := JBool(true)];
        }
        opts := opts.(jsonData := opts.jsonData.(fields := fields));
        assert opts.jsonData.fields == (options.jsonData.fields - LegacyJsonKeys) + ForcedJsonFlags(credentials);
        return Ok(opts), callerCredentials;

      case AdPasswordCredentials(userId, clientId, password) =>
        opts := opts.(
          jsonData := opts.jsonData.(azureCredentials := Some(AdPasswordCredentials(userId, clientId, Absent))),
          secureJsonData := WithSecureValue(opts.secureJsonData, PasswordKey, SecretToStore(password)),
          secureJsonFields := Some(opts.secureJsonFields.GetOr(map[])
                                   [PasswordKey := password.Concealed? || password.ConcealedLegacy?]));
        assert opts.jsonData.fields == opts.jsonData.fields + ForcedJsonFlags(credentials);
        return Ok(opts), callerCredentials;

      case _ =>
    }

    if InstanceOfAzureCredential(CurrentUser, Some(credentials)) {
      if !azure.userIdentityEnabled {
        return Err(UserIdentityDisabled), callerCredentials;
      }
      var serviceCredentials := credentials.serviceCredentials;
      var clientSecret := Absent;
      if InstanceOfAzureCredential(ClientSecret, serviceCredentials) {
        var sc := serviceCredentials.value;
        clientSecret := sc.clientSecret;
        // The nested secret must not stay in the plaintext `jsonData` tree.
        serviceCredentials := Some(ClientSecretCredentials(sc.azureCloud, sc.tenantId, sc.clientId, Absent));
        callerCredentials := CurrentUserCredentials(serviceCredentials, credentials.serviceCredentialsEnabled);
      }
      opts := opts.(
        jsonData := JsonData(
          Some(CurrentUserCredentials(serviceCredentials, credentials.serviceCredentialsEnabled)),
          opts.jsonData.fields[OauthPassThruKey := JBool(true)][DisableGrafanaCacheKey := JBool(true)]),
        secureJsonData := WithSecureValue(opts.secureJsonData, AzureClientSecretKey, SecretToStore(clientSecret)),
        secureJsonFields := Some(opts.secureJsonFields.GetOr(map[])
                                 [AzureClientSecretKey := clientSecret == Concealed]
                                 [LegacyClientSecretKey := clientSecret == ConcealedLegacy]));
      assert opts.jsonData.fields == (options.jsonData.fields - LegacyJsonKeys) + ForcedJsonFlags(credentials);
      return Ok(opts), callerCredentials;
    }

    return Err(UnsupportedAuthType(AuthTypeOf(credentials))), callerCredentials;
  }
}
