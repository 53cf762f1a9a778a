/**
 * Properties of the credential reader and writer: the secret priority, the reader's fallbacks,
 * what the writer stores where, the read-after-write round trip, and the scenarios of the
 * repository's tests.
 */
module AzureCredentialsConfigProperties {
  import opened Wrappers
  import opened AzureCredentials
  import opened Settings
  import opened AzureCredentialsConfig

  // ---------------------------------------------------------------------------------------------
  // Secret accessor

  /** A concealment flag wins over whatever plaintext `secureJsonData` holds. */
  lemma ConcealmentFlagWins(options: DataSourceSettings, data: map<string, string>)
    requires options.secureJsonFields.Some?
    ensures FieldFlag(options.secureJsonFields.value, AzureClientSecretKey) ==>
              GetClientSecret(options.(secureJsonData := data)) == Concealed
    ensures !FieldFlag(options.secureJsonFields.value, AzureClientSecretKey)
            && FieldFlag(options.secureJsonFields.value, LegacyClientSecretKey) ==>
              GetClientSecret(options.(secureJsonData := data)) == ConcealedLegacy
    ensures FieldFlag(options.secureJsonFields.value, PasswordKey) ==>
              GetAdPassword(options.(secureJsonData := data)) == Concealed
  {
  }

  /** The legacy flag and the legacy key play no part in the password accessor. */
  lemma AdPasswordHasNoLegacyStep(options: DataSourceSettings, legacyFlag: bool)
    requires options.secureJsonFields.Some?
    ensures GetAdPassword(options.(secureJsonFields := Some(options.secureJsonFields.value[LegacyClientSecretKey := legacyFlag])))
            == GetAdPassword(options)
  {
    var fields := options.secureJsonFields.value;
    assert FieldFlag(fields[LegacyClientSecretKey := legacyFlag], PasswordKey) == FieldFlag(fields, PasswordKey);
  }

  // ---------------------------------------------------------------------------------------------
  // Completeness

  /** Ignoring the secret can only make credentials complete, never incomplete. */
  lemma IgnoreSecretOnlyWeakens(c: Credentials)
    requires IsCredentialsComplete(c, false) == Ok(true)
    ensures IsCredentialsComplete(c, true) == Ok(true)
  {
  }

  /** What the reader returns for a client secret always has a cloud, so completeness rests on
    * the tenant, the client id and (unless ignored) the secret. */
  lemma ReadClientSecretCompleteness(options: DataSourceSettings, oboEnabled: bool, azure: AzureConfig,
                                     defaultCloud: CloudName, ignoreSecret: bool)
    requires options.jsonData.azureCredentials.Some?
    requires options.jsonData.azureCredentials.value.ClientSecretCredentials?
             || (options.jsonData.azureCredentials.value.ClientSecretOboCredentials? && oboEnabled)
    ensures var c := options.jsonData.azureCredentials.value;
            var r := GetDatasourceCredentials(options, oboEnabled, azure, defaultCloud);
            r.Ok? && r.value.Some? &&
            (IsCredentialsComplete(r.value.value, ignoreSecret) == Ok(true) <==>
               IsSet(c.tenantId) && IsSet(c.clientId) && (ignoreSecret || IsSecretSet(GetClientSecret(options))))
  {
  }

  // ---------------------------------------------------------------------------------------------
  // Reader

  /** The reader falls back to `undefined` exactly when no credentials are stored or the stored
    * tag's capability is off; it fails exactly on an unsupported tag. */
  lemma ReadFallsBackExactly(options: DataSourceSettings, oboEnabled: bool, azure: AzureConfig,
                             defaultCloud: CloudName)
    ensures GetDatasourceCredentials(options, oboEnabled, azure, defaultCloud) == Ok(None) <==>
              match options.jsonData.azureCredentials
              case None => true
              case Some(c) =>
                || (c.ManagedIdentityCredentials? && !azure.managedIdentityEnabled)
                || (c.WorkloadIdentityCredentials? && !azure.workloadIdentityEnabled)
                || (c.ClientSecretOboCredentials? && !oboEnabled)
                || (c.CurrentUserCredentials? && !azure.userIdentityEnabled)
    ensures !HasCredentials(options) ==> GetDatasourceCredentials(options, oboEnabled, azure, defaultCloud) == Ok(None)
  {
  }

  /** With its flag on, managed or workload identity comes back as the bare variant. */
  lemma ReadIdentityWhenEnabled(options: DataSourceSettings, oboEnabled: bool, azure: AzureConfig,
                                defaultCloud: CloudName)
    requires options.jsonData.azureCredentials.Some?
    ensures options.jsonData.azureCredentials.value.ManagedIdentityCredentials? && azure.managedIdentityEnabled ==>
              GetDatasourceCredentials(options, oboEnabled, azure, defaultCloud) == Ok(Some(ManagedIdentityCredentials))
    ensures options.jsonData.azureCredentials.value.WorkloadIdentityCredentials? && azure.workloadIdentityEnabled ==>
              GetDatasourceCredentials(options, oboEnabled, azure, defaultCloud) == Ok(Some(WorkloadIdentityCredentials))
  {
  }

  /** The client-secret credentials the reader builds: cloud defaulted, ids copied, the secret
    * taken from the accessor and never from `jsonData`. */
  lemma ReadClientSecret(options: DataSourceSettings, oboEnabled: bool, azure: AzureConfig, defaultCloud: CloudName)
    requires options.jsonData.azureCredentials.Some?
    requires options.jsonData.azureCredentials.value.ClientSecretCredentials?
             || (options.jsonData.azureCredentials.value.ClientSecretOboCredentials? && oboEnabled)
    ensures var c := options.jsonData.azureCredentials.value;
            var r := GetDatasourceCredentials(options, oboEnabled, azure, defaultCloud);
            && r.Ok? && r.value.Some? && AuthTypeOf(r.value.value) == AuthTypeOf(c)
            && r.value.value.azureCloud == (if IsSet(c.azureCloud) then c.azureCloud else Some(defaultCloud))
            && r.value.value.tenantId == c.tenantId
            && r.value.value.clientId == c.clientId
            && r.value.value.clientSecret == GetClientSecret(options)
  {
  }

  /** Password credentials come back with their ids copied and the password taken from the
    * accessor, never from `jsonData`; no capability switches this branch off. */
  lemma ReadAdPassword(options: DataSourceSettings, oboEnabled: bool, azure: AzureConfig, defaultCloud: CloudName)
    requires options.jsonData.azureCredentials.Some?
    requires options.jsonData.azureCredentials.value.AdPasswordCredentials?
    ensures var c := options.jsonData.azureCredentials.value;
            GetDatasourceCredentials(options, oboEnabled, azure, defaultCloud)
            == Ok(Some(AdPasswordCredentials(c.userId, c.clientId, GetAdPassword(options))))
  {
  }

  /** For current-user credentials the reader inlines the accessor's secret into nested
    * client-secret credentials, passes other nested credentials through, and keeps
    * `serviceCredentialsEnabled`. */
  lemma ReadCurrentUser(options: DataSourceSettings, oboEnabled: bool, azure: AzureConfig, defaultCloud: CloudName)
    requires options.jsonData.azureCredentials.Some?
    requires options.jsonData.azureCredentials.value.CurrentUserCredentials?
    requires azure.userIdentityEnabled
    ensures var c := options.jsonData.azureCredentials.value;
            var r := GetDatasourceCredentials(options, oboEnabled, azure, defaultCloud);
            && r.Ok? && r.value.Some? && r.value.value.CurrentUserCredentials?
            && r.value.value.serviceCredentialsEnabled == c.serviceCredentialsEnabled
            && (c.serviceCredentials.Some? && c.serviceCredentials.value.ClientSecretCredentials? ==>
                  var sc := c.serviceCredentials.value;
                  r.value.value.serviceCredentials
                    == Some(ClientSecretCredentials(sc.azureCloud, sc.tenantId, sc.clientId, GetClientSecret(options))))
            && (c.serviceCredentials.None? || !c.serviceCredentials.value.ClientSecretCredentials? ==>
                  r.value.value.serviceCredentials == c.serviceCredentials)
  {
  }

  /** Reading keeps a value inside the TypeScript union. */
  lemma ReadKeepsWellFormed(options: DataSourceSettings, oboEnabled: bool, azure: AzureConfig, defaultCloud: CloudName)
    requires options.jsonData.azureCredentials.Some? && WellFormed(options.jsonData.azureCredentials.value)
    ensures var r := GetDatasourceCredentials(options, oboEnabled, azure, defaultCloud);
            r.Ok? && (r.value.Some? ==> WellFormed(r.value.value))
  {
  }

  // ---------------------------------------------------------------------------------------------
  // Writer

  /** The writer throws exactly on a disabled capability or an unsupported tag, with the
    * message for that case. */
  lemma UpdateErrors(options: DataSourceSettings, c: Credentials, oboEnabled: bool, azure: AzureConfig,
                     defaultCloud: CloudName)
    ensures var r := UpdatedSettings(options, c, oboEnabled, azure, defaultCloud);
            && (c.ManagedIdentityCredentials? && !azure.managedIdentityEnabled ==> r == Err(ManagedIdentityDisabled))
            && (c.WorkloadIdentityCredentials? && !azure.workloadIdentityEnabled ==> r == Err(WorkloadIdentityDisabled))
            && (c.ClientSecretOboCredentials? && !oboEnabled ==> r == Err(ClientSecretOboDisabled))
            && (c.CurrentUserCredentials? && !azure.userIdentityEnabled ==> r == Err(UserIdentityDisabled))
            && (c.UnsupportedCredentials? ==> r == Err(UnsupportedAuthType(AuthTypeOf(c))))
            && (c.ClientSecretCredentials? || c.AdPasswordCredentials? ==> r.Ok?)
  {
  }

  /** Every successful write retires the legacy `jsonData` keys, stores credentials of the
    * written tag, and keeps every other `jsonData` key except the flags it forces to true. */
  lemma UpdateRetiresLegacyKeys(options: DataSourceSettings, c: Credentials, oboEnabled: bool, azure: AzureConfig,
                                defaultCloud: CloudName)
    requires UpdatedSettings(options, c, oboEnabled, azure, defaultCloud).Ok?
    ensures var s := UpdatedSettings(options, c, oboEnabled, azure, defaultCloud).value;
            && s.jsonData.fields.Keys !! LegacyJsonKeys
            && HasCredentials(s) && AuthTypeOf(s.jsonData.azureCredentials.value) == AuthTypeOf(c)
            && (forall k :: k in options.jsonData.fields && k !in LegacyJsonKeys
                            && k != OauthPassThruKey && k != DisableGrafanaCacheKey ==>
                  k in s.jsonData.fields && s.jsonData.fields[k] == options.jsonData.fields[k])
            && (forall k :: k in s.jsonData.fields ==>
                  k in options.jsonData.fields || k == OauthPassThruKey || k == DisableGrafanaCacheKey)
            && (c.ClientSecretOboCredentials? || c.CurrentUserCredentials? ==>
                  OauthPassThruKey in s.jsonData.fields && s.jsonData.fields[OauthPassThruKey] == JBool(true))
            && (c.CurrentUserCredentials? ==>
                  DisableGrafanaCacheKey in s.jsonData.fields && s.jsonData.fields[DisableGrafanaCacheKey] == JBool(true))
            && (!c.ClientSecretOboCredentials? && !c.CurrentUserCredentials? ==>
                  forall k :: k in options.jsonData.fields && k !in LegacyJsonKeys ==>
                    k in s.jsonData.fields && s.jsonData.fields[k] == options.jsonData.fields[k])
            && var kept := options.jsonData.fields - LegacyJsonKeys;
            && (!c.ClientSecretOboCredentials? && !c.CurrentUserCredentials? ==> s.jsonData.fields == kept)
            && (c.ClientSecretOboCredentials? ==> s.jsonData.fields == kept[OauthPassThruKey := JBool(true)])
            && (c.CurrentUserCredentials? ==>
                  s.jsonData.fields == kept[OauthPassThruKey := JBool(true)][DisableGrafanaCacheKey := JBool(true)])
  {
  }

  /** Managed and workload identity store the bare variant and leave both secure maps alone. */
  lemma UpdateIdentityLeavesSecretsAlone(options: DataSourceSettings, c: Credentials, oboEnabled: bool,
                                         azure: AzureConfig, defaultCloud: CloudName)
    requires c.ManagedIdentityCredentials? || c.WorkloadIdentityCredentials?
    requires UpdatedSettings(options, c, oboEnabled, azure, defaultCloud).Ok?
    ensures var s := UpdatedSettings(options, c, oboEnabled, azure, defaultCloud).value;
            && s.jsonData.azureCredentials == Some(c)
            && s.secureJsonData == options.secureJsonData
            && s.secureJsonFields == options.secureJsonFields
  {
  }

  /** Client-secret writes: no secret in `jsonData`, plaintext to `secureJsonData`, the flags
    * from the marker's identity, every other secure key kept. */
  lemma UpdateClientSecretRouting(options: DataSourceSettings, c: Credentials, oboEnabled: bool, azure: AzureConfig,
                                  defaultCloud: CloudName)
    requires c.ClientSecretCredentials? || c.ClientSecretOboCredentials?
    requires UpdatedSettings(options, c, oboEnabled, azure, defaultCloud).Ok?
    ensures var s := UpdatedSettings(options, c, oboEnabled, azure, defaultCloud).value;
            var stored := s.jsonData.azureCredentials.value;
            && stored.clientSecret == Absent
            && stored.azureCloud == DefaultedCloud(c.azureCloud, defaultCloud)
            && stored.tenantId == c.tenantId && stored.clientId == c.clientId
            && (AzureClientSecretKey in s.secureJsonData <==> c.clientSecret.Plain? && |c.clientSecret.text| > 0)
            && (AzureClientSecretKey in s.secureJsonData ==> s.secureJsonData[AzureClientSecretKey] == c.clientSecret.text)
            && (forall k :: k in options.secureJsonData && k != AzureClientSecretKey ==>
                  k in s.secureJsonData && s.secureJsonData[k] == options.secureJsonData[k])
            && s.secureJsonFields.Some?
            && (FieldFlag(s.secureJsonFields.value, AzureClientSecretKey) <==> c.clientSecret == Concealed)
            && (FieldFlag(s.secureJsonFields.value, LegacyClientSecretKey) <==> c.clientSecret == ConcealedLegacy)
            && (c.clientSecret.Plain? ==>
                  !FieldFlag(s.secureJsonFields.value, AzureClientSecretKey)
                  && !FieldFlag(s.secureJsonFields.value, LegacyClientSecretKey))
            && (forall k :: options.secureJsonFields.Some? && k in options.secureJsonFields.value
                            && k != AzureClientSecretKey && k != LegacyClientSecretKey ==>
                  k in s.secureJsonFields.value && s.secureJsonFields.value[k] == options.secureJsonFields.value[k])
  {
  }

  /** Password writes: plaintext to `secureJsonData.password`, and the `password` flag set for
    * either marker. */
  lemma UpdateAdPasswordRouting(options: DataSourceSettings, c: Credentials, oboEnabled: bool, azure: AzureConfig,
                                defaultCloud: CloudName)
    requires c.AdPasswordCredentials?
    ensures var r := UpdatedSettings(options, c, oboEnabled, azure, defaultCloud);
            && r.Ok?
            && r.value.jsonData.azureCredentials == Some(AdPasswordCredentials(c.userId, c.clientId, Absent))
            && (PasswordKey in r.value.secureJsonData <==> c.password.Plain? && |c.password.text| > 0)
            && (PasswordKey in r.value.secureJsonData ==> r.value.secureJsonData[PasswordKey] == c.password.text)
            && r.value.secureJsonFields.Some?
            && (FieldFlag(r.value.secureJsonFields.value, PasswordKey) <==> c.password.Concealed? || c.password.ConcealedLegacy?)
            && (forall k :: k in options.secureJsonData && k != PasswordKey ==>
                  k in r.value.secureJsonData && r.value.secureJsonData[k] == options.secureJsonData[k])
            && (forall k :: options.secureJsonFields.Some? && k in options.secureJsonFields.value && k != PasswordKey ==>
                  k in r.value.secureJsonFields.value && r.value.secureJsonFields.value[k] == options.secureJsonFields.value[k])
  {
  }

  /** Current-user writes: the nested client secret leaves the stored tree and is routed to the
    * secure maps as a client secret would be; other nested credentials are stored unchanged. */
  lemma UpdateCurrentUserRouting(options: DataSourceSettings, c: Credentials, oboEnabled: bool, azure: AzureConfig,
                                 defaultCloud: CloudName)
    requires c.CurrentUserCredentials? && azure.userIdentityEnabled
    ensures var r := UpdatedSettings(options, c, oboEnabled, azure, defaultCloud);
            var secret := if c.serviceCredentials.Some? && c.serviceCredentials.value.ClientSecretCredentials?
                          then c.serviceCredentials.value.clientSecret else Absent;
            && r.Ok?
            && r.value.jsonData.azureCredentials.Some?
            && var stored := r.value.jsonData.azureCredentials.value;
            && stored.CurrentUserCredentials?
            && stored.serviceCredentialsEnabled == c.serviceCredentialsEnabled
            && (c.serviceCredentials.Some? && c.serviceCredentials.value.ClientSecretCredentials? ==>
                  var sc := c.serviceCredentials.value;
                  stored.serviceCredentials == Some(ClientSecretCredentials(sc.azureCloud, sc.tenantId, sc.clientId, Absent)))
            && (c.serviceCredentials.None? || !c.serviceCredentials.value.ClientSecretCredentials? ==>
                  stored.serviceCredentials == c.serviceCredentials)
            && (AzureClientSecretKey in r.value.secureJsonData <==> secret.Plain? && |secret.text| > 0)
            && (AzureClientSecretKey in r.value.secureJsonData ==> r.value.secureJsonData[AzureClientSecretKey] == secret.text)
            && r.value.secureJsonFields.Some?
            && (FieldFlag(r.value.secureJsonFields.value, AzureClientSecretKey) <==> secret == Concealed)
            && (FieldFlag(r.value.secureJsonFields.value, LegacyClientSecretKey) <==> secret == ConcealedLegacy)
            && (forall k :: k in options.secureJsonData && k != AzureClientSecretKey ==>
                  k in r.value.secureJsonData && r.value.secureJsonData[k] == options.secureJsonData[k])
            && (forall k :: options.secureJsonFields.Some? && k in options.secureJsonFields.value
                            && k != AzureClientSecretKey && k != LegacyClientSecretKey ==>
                  k in r.value.secureJsonFields.value && r.value.secureJsonFields.value[k] == options.secureJsonFields.value[k])
  {
  }

  /** No secret of any kind is left in a credentials value. */
  predicate CarriesNoSecret(c: Credentials)
  {
    match c
    case ClientSecretCredentials(_, _, _, clientSecret) => clientSecret.Absent?
    case ClientSecretOboCredentials(_, _, _, clientSecret) => clientSecret.Absent?
    case AdPasswordCredentials(_, _, password) => password.Absent?
    case CurrentUserCredentials(Some(inner), _) => CarriesNoSecret(inner)
    case UnsupportedCredentials(_, Some(inner), _) => CarriesNoSecret(inner)
    case _ => true
  }

  /** The writer never leaves a secret inside the plaintext `jsonData` tree, and what it stores
    * is again a value of the TypeScript union. */
  lemma UpdateStoresNoSecret(options: DataSourceSettings, c: Credentials, oboEnabled: bool, azure: AzureConfig,
                             defaultCloud: CloudName)
    requires WellFormed(c)
    requires UpdatedSettings(options, c, oboEnabled, azure, defaultCloud).Ok?
    ensures var s := UpdatedSettings(options, c, oboEnabled, azure, defaultCloud).value;
            CarriesNoSecret(s.jsonData.azureCredentials.value) && WellFormed(s.jsonData.azureCredentials.value)
  {
  }

  /** The guarantee rests on the TypeScript type: a current-user value nesting on-behalf-of
    * credentials (which the type forbids) keeps its plaintext secret in `jsonData`. */
  lemma IllTypedNestingKeepsSecret()
    ensures var c := CurrentUserCredentials(Some(ClientSecretOboCredentials(None, None, None, Plain("s3cret"))), None);
            var options := DataSourceSettings(JsonData(None, map[]), map[], None);
            var r := UpdatedSettings(options, c, true, AzureConfig(true, true, true), "AzureCloud");
            !WellFormed(c) && r.Ok? && !CarriesNoSecret(r.value.jsonData.azureCredentials.value)
  {
  }

  // ---------------------------------------------------------------------------------------------
  // Read after write

  /** The secret a read returns after this secret was written as a client secret: an empty
    * string is not stored, everything else comes back as itself. */
  function PersistedSecret(s: Secret): (r: Secret)
    ensures IsSecretSet(r) <==> IsSecretSet(s)
  {
    if s.Plain? && |s.text| == 0 then Absent else s
  }

  /** The password a read returns after this password was written: both markers come back as
    * the current one. */
  function PersistedPassword(p: Secret): (r: Secret)
    ensures IsSecretSet(r) <==> IsSecretSet(p)
    ensures !r.ConcealedLegacy?
  {
    if p.ConcealedLegacy? then Concealed else PersistedSecret(p)
  }

  /** The credentials a read returns after `c` was written: cloud defaulted, secrets as above. */
  function Persisted(c: Credentials, defaultCloud: CloudName): (r: Credentials)
    ensures AuthTypeOf(r) == AuthTypeOf(c)
  {
    match c
    case ClientSecretCredentials(azureCloud, tenantId, clientId, clientSecret) =>
      ClientSecretCredentials(DefaultedCloud(azureCloud, defaultCloud), tenantId, clientId, PersistedSecret(clientSecret))
    case ClientSecretOboCredentials(azureCloud, tenantId, clientId, clientSecret) =>
      ClientSecretOboCredentials(DefaultedCloud(azureCloud, defaultCloud), tenantId, clientId, PersistedSecret(clientSecret))
    case AdPasswordCredentials(userId, clientId, password) =>
      AdPasswordCredentials(userId, clientId, PersistedPassword(password))
    case CurrentUserCredentials(serviceCredentials, serviceCredentialsEnabled) =>
      CurrentUserCredentials(WithServiceSecret(serviceCredentials, PersistedSecret(ServiceClientSecret(serviceCredentials))),
                             serviceCredentialsEnabled)
    case _ => c
  }

  /** Helper: reading back the client secret of settings the writer produced. */
  lemma ReadBackClientSecret(fields: Option<map<string, bool>>, data: map<string, string>, secret: Secret,
                             jsonData: JsonData)
    ensures var s := DataSourceSettings(jsonData, WithSecureValue(data, AzureClientSecretKey, SecretToStore(secret)),
                                        Some(ClientSecretFields(fields.GetOr(map[]), secret)));
            GetClientSecret(s) == PersistedSecret(secret)
  {
  }

  /** Helper: reading back the password of settings the writer produced. */
  lemma ReadBackPassword(fields: Option<map<string, bool>>, data: map<string, string>, password: Secret,
                         jsonData: JsonData)
    ensures var s := DataSourceSettings(jsonData, WithSecureValue(data, PasswordKey, SecretToStore(password)),
                                        Some(fields.GetOr(map[])[PasswordKey := password.Concealed? || password.ConcealedLegacy?]));
            GetAdPassword(s) == PersistedPassword(password)
  {
  }

  /** Reading what the writer wrote gives back the credentials written, up to the defaulted
    * cloud and the normalisation of the secrets. */
  lemma {:induction false} UpdateThenReadRoundTrip(options: DataSourceSettings, c: Credentials, oboEnabled: bool,
                                                   azure: AzureConfig, defaultCloud: CloudName)
    requires UpdatedSettings(options, c, oboEnabled, azure, defaultCloud).Ok?
    ensures GetDatasourceCredentials(UpdatedSettings(options, c, oboEnabled, azure, defaultCloud).value,
                                     oboEnabled, azure, defaultCloud)
            == Ok(Some(Persisted(c, defaultCloud)))
  {
    var s := UpdatedSettings(options, c, oboEnabled, azure, defaultCloud).value;
    match c
    case ClientSecretCredentials(_, _, _, clientSecret) =>
      ReadBackClientSecret(options.secureJsonFields, options.secureJsonData, clientSecret, s.jsonData);
    case ClientSecretOboCredentials(_, _, _, clientSecret) =>
      ReadBackClientSecret(options.secureJsonFields, options.secureJsonData, clientSecret, s.jsonData);
    case AdPasswordCredentials(_, _, password) =>
      ReadBackPassword(options.secureJsonFields, options.secureJsonData, password, s.jsonData);
    case CurrentUserCredentials(serviceCredentials, _) =>
      ReadBackClientSecret(options.secureJsonFields, options.secureJsonData, ServiceClientSecret(serviceCredentials),
                           s.jsonData);
    case _ =>
  }

  /** A client secret written as plaintext, `concealed` or `concealedLegacy` is read back as
    * exactly that secret. */
  lemma ClientSecretRoundTrip(options: DataSourceSettings, azureCloud: Option<string>, tenantId: Option<string>,
                              clientId: Option<string>, secret: Secret, oboEnabled: bool, azure: AzureConfig,
                              defaultCloud: CloudName)
    requires secret.Concealed? || secret.ConcealedLegacy? || (secret.Plain? && |secret.text| > 0)
    ensures var c := ClientSecretCredentials(azureCloud, tenantId, clientId, secret);
            var s := UpdatedSettings(options, c, oboEnabled, azure, defaultCloud);
            && s.Ok?
            && GetDatasourceCredentials(s.value, oboEnabled, azure, defaultCloud)
               == Ok(Some(ClientSecretCredentials(DefaultedCloud(azureCloud, defaultCloud), tenantId, clientId, secret)))
  {
    UpdateThenReadRoundTrip(options, ClientSecretCredentials(azureCloud, tenantId, clientId, secret), oboEnabled, azure,
                            defaultCloud);
  }

  /** Complete credentials are still complete once saved and read back. */
  lemma CompletenessSurvivesSave(c: Credentials, defaultCloud: CloudName, ignoreSecret: bool)
    requires IsCredentialsComplete(c, ignoreSecret) == Ok(true)
    ensures IsCredentialsComplete(Persisted(c, defaultCloud), ignoreSecret) == Ok(true)
  {
  }

  /** Helper: writing a secret value twice is writing it once. */
  lemma WithSecureValueIdempotent(data: map<string, string>, key: string, value: Option<string>)
    ensures WithSecureValue(WithSecureValue(data, key, value), key, value) == WithSecureValue(data, key, value)
  {
    var once := WithSecureValue(data, key, value);
    assert WithSecureValue(once, key, value).Keys == once.Keys;
  }

  /** Helper: setting the client-secret flags twice is setting them once. */
  lemma ClientSecretFieldsIdempotent(fields: map<string, bool>, secret: Secret)
    ensures ClientSecretFields(ClientSecretFields(fields, secret), secret) == ClientSecretFields(fields, secret)
  {
    var once := ClientSecretFields(fields, secret);
    assert ClientSecretFields(once, secret).Keys == once.Keys;
  }

  /** Saving again, without edits, what the reader returned after a save changes nothing. */
  lemma {:induction false} ResaveIsNoOp(options: DataSourceSettings, c: Credentials, oboEnabled: bool,
                                        azure: AzureConfig, defaultCloud: CloudName)
    requires UpdatedSettings(options, c, oboEnabled, azure, defaultCloud).Ok?
    ensures var s := UpdatedSettings(options, c, oboEnabled, azure, defaultCloud).value;
            UpdatedSettings(s, Persisted(c, defaultCloud), oboEnabled, azure, defaultCloud) == Ok(s)
  {
    var s := UpdatedSettings(options, c, oboEnabled, azure, defaultCloud).value;
    var p := Persisted(c, defaultCloud);
    var forced := ForcedJsonFlags(c);
    assert ForcedJsonFlags(p) == forced;
    var fields := (options.jsonData.fields - LegacyJsonKeys) + forced;
    assert (fields - LegacyJsonKeys) + forced == fields;
    assert StoredCredentials(p, defaultCloud) == StoredCredentials(c, defaultCloud);
    match c
    case ClientSecretCredentials(_, _, _, clientSecret) =>
      WithSecureValueIdempotent(options.secureJsonData, AzureClientSecretKey, SecretToStore(clientSecret));
      ClientSecretFieldsIdempotent(options.secureJsonFields.GetOr(map[]), clientSecret);
    case ClientSecretOboCredentials(_, _, _, clientSecret) =>
      WithSecureValueIdempotent(options.secureJsonData, AzureClientSecretKey, SecretToStore(clientSecret));
      ClientSecretFieldsIdempotent(options.secureJsonFields.GetOr(map[]), clientSecret);
    case AdPasswordCredentials(_, _, password) =>
      WithSecureValueIdempotent(options.secureJsonData, PasswordKey, SecretToStore(password));
      var flags := options.secureJsonFields.GetOr(map[])[PasswordKey := password.Concealed? || password.ConcealedLegacy?];
      assert flags[PasswordKey := password.Concealed? || password.ConcealedLegacy?] == flags;
    case CurrentUserCredentials(serviceCredentials, _) =>
      var secret := ServiceClientSecret(serviceCredentials);
      assert ServiceClientSecret(WithServiceSecret(serviceCredentials, PersistedSecret(secret))) == PersistedSecret(secret);
      WithSecureValueIdempotent(options.secureJsonData, AzureClientSecretKey, SecretToStore(secret));
      ClientSecretFieldsIdempotent(options.secureJsonFields.GetOr(map[]), secret);
    case _ =>
  }

  // ---------------------------------------------------------------------------------------------
  // The reader as written

  /** As written, the reader never throws: its last statement is unreachable. */
  lemma AsWrittenReaderNeverThrows(options: DataSourceSettings, oboEnabled: bool, azure: AzureConfig,
                                   defaultCloud: CloudName)
    ensures GetDatasourceCredentialsAsWritten(options, oboEnabled, azure, defaultCloud).Ok?
  {
  }

  /** As written, an unsupported tag is read as current-user credentials under its own tag;
    * the corrected reader rejects it. */
  lemma AsWrittenReadsUnknownTagAsCurrentUser(options: DataSourceSettings, oboEnabled: bool, azure: AzureConfig,
                                              defaultCloud: CloudName)
    requires options.jsonData.azureCredentials.Some?
    requires options.jsonData.azureCredentials.value.UnsupportedCredentials?
    ensures var c := options.jsonData.azureCredentials.value;
            GetDatasourceCredentialsAsWritten(options, oboEnabled, azure, defaultCloud)
            == if azure.userIdentityEnabled
               then Ok(Some(UnsupportedCredentials(c.tag, WithServiceSecret(c.serviceCredentials, GetClientSecret(options)),
                                                   c.serviceCredentialsEnabled)))
               else Ok(None)
    ensures GetDatasourceCredentials(options, oboEnabled, azure, defaultCloud)
            == Err(UnsupportedAuthType(AuthTypeOf(options.jsonData.azureCredentials.value)))
  {
  }

  /** A record saved as `{authType: 'clientcertificate'}` is returned, not rejected. */
  lemma AsWrittenAcceptsCertificateTag()
    ensures "clientcertificate" !in KnownTags
    ensures var c := UnsupportedCredentials("clientcertificate", None, None);
            var options := DataSourceSettings(JsonData(Some(c), map[]), map[], None);
            && GetDatasourceCredentialsAsWritten(options, false, AzureConfig(false, false, true), "AzureCloud") == Ok(Some(c))
            && GetDatasourceCredentialsAsWritten(options, false, AzureConfig(false, false, false), "AzureCloud") == Ok(None)
            && GetDatasourceCredentials(options, false, AzureConfig(false, false, true), "AzureCloud").Err?
  {
    KnownTagsCount();
  }

  // ---------------------------------------------------------------------------------------------
  // The repository's test scenarios

  const MockCredentials := ClientSecretCredentials(None, Some("testTenantId"), Some("testClientId"), Absent)

  /** `{...baseMockClientSecretCredentials, clientSecret: secret}`, as the writer's tests pass it. */
  function BaseMockCredentialsWith(secret: Secret): Credentials
  {
    ClientSecretCredentials(Some("AzureCloud"), Some("testTenantId"), Some("testClientId"), secret)
  }
  const MsiSettings := DataSourceSettings(JsonData(Some(ManagedIdentityCredentials), map[]), map[], None)
  const SecretInSecureJsonData :=
    DataSourceSettings(JsonData(Some(MockCredentials), map[]), map["azureClientSecret" := "testClientSecret"],
                       Some(map["azureClientSecret" := false]))
  const SecretOnServer :=
    DataSourceSettings(JsonData(Some(MockCredentials), map[]), map[], Some(map["azureClientSecret" := true]))
  const LegacySecretOnServer :=
    DataSourceSettings(JsonData(Some(MockCredentials), map[]), map[], Some(map["clientSecret" := true]))

  /** The reader's tests. */
  lemma ReaderTestScenarios(obo: bool, uid: bool)
    ensures GetDatasourceCredentials(MsiSettings, obo, AzureConfig(true, false, uid), "AzureCloud")
            == Ok(Some(ManagedIdentityCredentials))
    ensures GetDatasourceCredentials(MsiSettings, obo, AzureConfig(false, false, uid), "AzureCloud") == Ok(None)
    ensures GetDatasourceCredentials(SecretInSecureJsonData, obo, AzureConfig(false, false, uid), "AzureCloud")
            == Ok(Some(ClientSecretCredentials(Some("AzureCloud"), Some("testTenantId"), Some("testClientId"),
                                               Plain("testClientSecret"))))
    ensures GetDatasourceCredentials(SecretOnServer, obo, AzureConfig(false, false, uid), "AzureCloud")
            == Ok(Some(ClientSecretCredentials(Some("AzureCloud"), Some("testTenantId"), Some("testClientId"), Concealed)))
    ensures GetDatasourceCredentials(LegacySecretOnServer, obo, AzureConfig(false, false, uid), "AzureCloud")
            == Ok(Some(ClientSecretCredentials(Some("AzureCloud"), Some("testTenantId"), Some("testClientId"),
                                               ConcealedLegacy)))
    ensures GetDatasourceCredentials(DataSourceSettings(JsonData(None, map["azureAuthType" := JString("msi")]), map[], None),
                                     obo, AzureConfig(true, true, uid), "AzureCloud") == Ok(None)
  {
  }

  /** The writer's tests. */
  lemma WriterTestScenarios(obo: bool, uid: bool)
    ensures UpdatedSettings(SecretInSecureJsonData, ManagedIdentityCredentials, obo, AzureConfig(false, false, uid),
                            "AzureCloud") == Err("Managed Identity authentication is not enabled in Grafana config.")
    ensures var r := UpdatedSettings(SecretInSecureJsonData, ManagedIdentityCredentials, obo, AzureConfig(true, false, uid),
                                     "AzureCloud");
            r.Ok? && r.value.jsonData.azureCredentials == Some(ManagedIdentityCredentials)
    ensures var stored := ClientSecretCredentials(Some("AzureCloud"), Some("testTenantId"), Some("testClientId"), Absent);
            var r := UpdatedSettings(MsiSettings, BaseMockCredentialsWith(Plain("testClientSecret")), obo,
                                     AzureConfig(false, false, uid), "AzureCloud");
            && r.Ok? && r.value.jsonData.azureCredentials == Some(stored)
            && r.value.secureJsonData == map["azureClientSecret" := "testClientSecret"]
            && r.value.secureJsonFields == Some(map["azureClientSecret" := false, "clientSecret" := false])
    ensures var stored := ClientSecretCredentials(Some("AzureCloud"), Some("testTenantId"), Some("testClientId"), Absent);
            var r := UpdatedSettings(MsiSettings, BaseMockCredentialsWith(Concealed), obo,
                                     AzureConfig(false, false, uid), "AzureCloud");
            && r.Ok? && r.value.jsonData.azureCredentials == Some(stored)
            && "azureClientSecret" !in r.value.secureJsonData
            && r.value.secureJsonFields == Some(map["azureClientSecret" := true, "clientSecret" := false])
    ensures var stored := ClientSecretCredentials(Some("AzureCloud"), Some("testTenantId"), Some("testClientId"), Absent);
            var r := UpdatedSettings(MsiSettings, BaseMockCredentialsWith(ConcealedLegacy), obo,
                                     AzureConfig(false, false, uid), "AzureCloud");
            && r.Ok? && r.value.jsonData.azureCredentials == Some(stored)
            && "azureClientSecret" !in r.value.secureJsonData
            && r.value.secureJsonFields == Some(map["azureClientSecret" := false, "clientSecret" := true])
  {
  }
}
