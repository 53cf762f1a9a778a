# Azure credential reader and writer — a Dafny model

This project models the credential layer of the Grafana Azure SDK for React
(`src/credentials/AzureCredentialsConfig.ts` and `src/credentials/AzureCredentials.ts`).
It has three parts:

- The secret accessors `getClientSecret` and `getAdPassword`. Each decides whether a secret is
  plaintext, concealed on the server under the current key (`concealed`), concealed under the
  legacy key (`concealedLegacy`), or absent. A concealment flag always wins over plaintext.
- The reader `getDatasourceCredentials`. It turns a datasource settings record into live
  credentials. When there are no credentials, or their capability is switched off, it falls back
  silently to `undefined`.
- The writer `updateDatasourceCredentials`. It turns edited credentials back into settings. It
  retires the legacy `jsonData` keys, moves every secret out of `jsonData` into `secureJsonData`,
  and sets the `secureJsonFields` flags from the identity of the concealed marker. It throws when a
  capability is disabled.

`isCredentialsComplete`, `hasCredentials` and the type guard `instanceOfAzureCredential` are
modelled too.

The files:

- `wrappers.dfy`: `Option` (for `undefined`) and `Result` (for a thrown `Error` and its message).
- `azure_credentials.dfy` (module `AzureCredentials`): the tag set, the `Secret` type, the
  `Credentials` union and the type guard.
- `settings.dfy` (module `Settings`): the settings record.
- `azure_credentials_config.dfy` (module `AzureCredentialsConfig`): the parts listed above. The
  writer has two forms:
  - the function `UpdatedSettings`, which states what the writer produces;
  - the method `UpdateDatasourceCredentials`, which follows the source step by step and is proved
    to equal that function.
- `config_properties.dfy` (module `AzureCredentialsConfigProperties`): lemmas about the model:
  - the reader's fallbacks;
  - where the writer routes each secret;
  - reading after writing returns what was written;
  - re-saving unchanged credentials changes nothing;
  - the scenarios of `AzureCredentialsConfig.test.ts`.

How the model represents the source:

- Outside inputs become parameters. The global `config.azure` is the parameter `azure`. The value
  of `getDefaultAzureCloud()` is the parameter `defaultCloud`, a non-empty string.
- The optional `oboEnabled` argument is a `bool`, with `undefined` read as `false`. The defaulted
  `ignoreSecret = false` of `isCredentialsComplete` is a plain `bool` parameter; a caller that omits
  it passes `false`.
- The two symbols `concealed` and `concealedLegacy` are the constructors `Concealed` and
  `ConcealedLegacy`. Like the symbols, they are told apart by identity.
- A record whose `authType` is not one of the six tags is `UnsupportedCredentials`. Its
  `UnknownTag` type excludes the six known strings. It keeps only the two properties that any code
  here reads from such a record.
- A property set to `undefined` is modelled as a missing key. The only presence test in the source
  is the `hasOwnProperty('secureJsonFields')` check, made by both secret accessors
  (`AzureCredentialsConfig.ts:42` and `:61`). There `secureJsonFields` is an `Option`.
- The other `jsonData` keys form a map whose type excludes the key `azureCredentials`, because that
  key always holds the typed property.

## Model

| member | source | states |
|---|---|---|
| `AzureCredentials.KnownTagsCount` | src/credentials/AzureCredentials.ts:1-8 | The tag union has exactly six values, even though 'currentuser' is listed twice. 'clientcertificate' is not among them. |
| `AzureCredentials.TagName` | src/credentials/AzureCredentials.ts:1-8 | A tag's string is one of the six known strings exactly when the tag is a known one. |
| `AzureCredentials.TagNameInjective` | src/credentials/AzureCredentials.ts:1-8 | Two tags have the same `authType` string exactly when they are the same tag, so a string comparison is a variant comparison. |
| `AzureCredentials.WellFormed` | src/credentials/AzureCredentials.ts:16-62 | A value of the union has one of the six known `authType` strings. A current-user value nests only credentials tagged 'clientsecret', 'msi' or 'workloadidentity'. |
| `AzureCredentials.AuthTypeOf` | src/credentials/AzureCredentials.ts:12-14 | A credentials value's tag is unknown exactly when the value is outside the union. |
| `AzureCredentials.InstanceOfAzureCredential` | src/credentials/AzureCredentials.ts:64-72 | False for a missing object. Otherwise true exactly when the object's tag equals the given tag. A true answer for 'clientsecret' or 'currentuser' fixes the variant. |
| `AzureCredentialsConfig.IsCredentialsComplete` | src/credentials/AzureCredentialsConfig.ts:16-37 | Identity and current-user credentials are always complete. Client-secret and OBO credentials are complete exactly when cloud, tenant and client id are set and either the secret is ignored or set (a marker counts as set). Password credentials are complete exactly when client id, password and user id are set. An unknown tag fails with the message "The auth type '…' not supported.". |
| `AzureCredentialsConfig.PlaintextSecret` | src/credentials/AzureCredentialsConfig.ts:53-54 | A plaintext secret is returned exactly when the key holds a non-empty string, and it is that string. |
| `AzureCredentialsConfig.GetClientSecret` | src/credentials/AzureCredentialsConfig.ts:39-56 | Without own `secureJsonFields` the secret is absent. `concealed` is returned exactly when the current flag is set. `concealedLegacy` is returned exactly when only the legacy flag is set. Plaintext is returned exactly when neither flag is set and `secureJsonData.azureClientSecret` is a non-empty string, and it is that string. |
| `AzureCredentialsConfig.GetAdPassword` | src/credentials/AzureCredentialsConfig.ts:58-72 | The same priority for the `password` key, with no legacy step: the result is never `concealedLegacy`. |
| `AzureCredentialsConfig.DefaultedCloud` | src/credentials/AzureCredentialsConfig.ts:110 | The cloud is always set. A set cloud is kept; an unset or empty one becomes the default. |
| `AzureCredentialsConfig.WithServiceSecret` | src/credentials/AzureCredentialsConfig.ts:130-131 | Nested client-secret credentials get the given secret and keep their other fields. Any other nested value passes through unchanged. |
| `AzureCredentialsConfig.GetDatasourceCredentials` | src/credentials/AzureCredentialsConfig.ts:74-146 | The corrected reader. With no stored credentials it returns `undefined`. It fails exactly on an unsupported tag, with "The auth type '…' is not supported.". A returned value has the stored tag. |
| `AzureCredentialsConfig.GetDatasourceCredentialsAsWritten` | src/credentials/AzureCredentialsConfig.ts:123-145 | The reader as written. It agrees with the corrected reader on every known tag and on a missing value. |
| `AzureCredentialsConfig.HasCredentials` | src/credentials/AzureCredentialsConfig.ts:298-300 | True exactly when `jsonData.azureCredentials` is set. |
| `AzureCredentialsConfig.SecretToStore` | src/credentials/AzureCredentialsConfig.ts:207-210 | Only a non-empty plaintext string is stored. A marker or an empty string stores nothing. |
| `AzureCredentialsConfig.WithSecureValue` | src/credentials/AzureCredentialsConfig.ts:205-211 | The key holds the value, or is removed when the value is undefined. Every other key is unchanged. |
| `AzureCredentialsConfig.ServiceClientSecret` | src/credentials/AzureCredentialsConfig.ts:262-265 | The secret taken out of nested client-secret credentials, and absent for any other nested value. |
| `AzureCredentialsConfig.ScrubbedService` | src/credentials/AzureCredentialsConfig.ts:264-268 | After `delete`, the nested credentials keep their tag and carry no client secret. Putting back the secret that was taken out restores the original value. |
| `AzureCredentialsConfig.ScrubbedCredentials` | src/credentials/AzureCredentialsConfig.ts:262-268 | The caller's credentials after a write keep their tag. Only current-user credentials change. |
| `AzureCredentialsConfig.UpdateError` | src/credentials/AzureCredentialsConfig.ts:165-192 | The writer succeeds exactly when the capability of the written tag is on. Client secret and password need no capability. An unknown tag never succeeds. |
| `AzureCredentialsConfig.StoredCredentials` | src/credentials/AzureCredentialsConfig.ts:194-204 | The value stored in `jsonData` keeps the tag of the credentials written. |
| `AzureCredentialsConfig.ForcedJsonFlags` | src/credentials/AzureCredentialsConfig.ts:219-227 | The forced flags (`oauthPassThru`, `disableGrafanaCache`) never collide with a legacy key. |
| `AzureCredentialsConfig.ClientSecretFields` | src/credentials/AzureCredentialsConfig.ts:212-216 | Both flags are written. Flag `azureClientSecret` is true exactly when the secret is `concealed`. Flag `clientSecret` is true exactly when it is `concealedLegacy`. Every other flag is kept, and no other key is added. |
| `AzureCredentialsConfig.UpdatedSecureJsonData` | src/credentials/AzureCredentialsConfig.ts:205-284 | The identity variants leave `secureJsonData` unchanged. Otherwise the secret's key (`password` for a password, else `azureClientSecret`) is present exactly when the written secret is a non-empty string, and holds that string. Every other key is kept, and no other key is added. |
| `AzureCredentialsConfig.UpdatedSecureJsonFields` | src/credentials/AzureCredentialsConfig.ts:212-289 | The identity variants leave `secureJsonFields` unchanged. Otherwise the map exists and holds the written flags. The two client-secret flags follow the marker's identity. The `password` flag is true for either marker. Every other flag is kept, and no other key is added. |
| `AzureCredentialsConfig.UpdatedSettings` | src/credentials/AzureCredentialsConfig.ts:148-296 | The writer fails exactly when `UpdateError` reports an error. |
| `AzureCredentialsConfig.UpdateDatasourceCredentials` | src/credentials/AzureCredentialsConfig.ts:148-296 | The step-by-step writer returns exactly `UpdatedSettings`. The caller's credentials lose their nested secret exactly when a write succeeds. For current-user credentials, the stored value equals the caller's changed object. |
| `AzureCredentialsConfigProperties.ConcealmentFlagWins` | src/credentials/AzureCredentialsConfig.ts:46-55 | A set concealment flag decides the result whatever plaintext `secureJsonData` holds. |
| `AzureCredentialsConfigProperties.AdPasswordHasNoLegacyStep` | src/credentials/AzureCredentialsConfig.ts:58-72 | The legacy `clientSecret` flag never changes the password. |
| `AzureCredentialsConfigProperties.IgnoreSecretOnlyWeakens` | src/credentials/AzureCredentialsConfig.ts:25-31 | Complete without ignoring the secret implies complete when ignoring it. |
| `AzureCredentialsConfigProperties.ReadClientSecretCompleteness` | src/credentials/AzureCredentialsConfig.ts:108-114 | Client-secret credentials the reader returns, and OBO credentials when OBO is enabled, always have a cloud. They are complete exactly when tenant and client id are set and the secret is ignored or set. |
| `AzureCredentialsConfigProperties.ReadFallsBackExactly` | src/credentials/AzureCredentialsConfig.ts:78-128 | The reader returns `undefined` exactly in four cases: no stored credentials; msi or workload identity with its flag off; OBO with `oboEnabled` off; current user with user identity off. |
| `AzureCredentialsConfigProperties.ReadIdentityWhenEnabled` | src/credentials/AzureCredentialsConfig.ts:87-95 | With its flag on, msi or workload identity is returned as the bare variant. |
| `AzureCredentialsConfigProperties.ReadClientSecret` | src/credentials/AzureCredentialsConfig.ts:101-114 | For client secret, and OBO when enabled, the reader defaults the cloud and copies tenant and client id. The secret comes from `getClientSecret`, never from `jsonData`. |
| `AzureCredentialsConfigProperties.ReadAdPassword` | src/credentials/AzureCredentialsConfig.ts:115-121 | For any settings holding password credentials, the reader returns password credentials with the stored user id and client id. The password comes from `getAdPassword`, never from `jsonData`. No capability switches this branch off. |
| `AzureCredentialsConfigProperties.ReadCurrentUser` | src/credentials/AzureCredentialsConfig.ts:123-142 | Nested client-secret credentials get `getClientSecret`'s secret. Other nested credentials pass through. `serviceCredentialsEnabled` is kept. |
| `AzureCredentialsConfigProperties.ReadKeepsWellFormed` | src/credentials/AzureCredentialsConfig.ts:74-146 | Reading a value of the union never fails. What it returns is again a value of the union. |
| `AzureCredentialsConfigProperties.UpdateErrors` | src/credentials/AzureCredentialsConfig.ts:165-192 | Each disabled capability throws its own message. An unknown tag throws "The auth type '…' is not supported.". Client secret and password always succeed. |
| `AzureCredentialsConfigProperties.UpdateRetiresLegacyKeys` | src/credentials/AzureCredentialsConfig.ts:153-163 | After every successful write: no legacy key is left; credentials of the written tag are stored; every other `jsonData` key is kept; `oauthPassThru` is true for OBO and current user, `disableGrafanaCache` for current user only, and no other key is added. |
| `AzureCredentialsConfigProperties.UpdateIdentityLeavesSecretsAlone` | src/credentials/AzureCredentialsConfig.ts:167-186 | Msi and workload identity store the bare variant and leave both secure maps unchanged. |
| `AzureCredentialsConfigProperties.UpdateClientSecretRouting` | src/credentials/AzureCredentialsConfig.ts:194-227 | The stored credentials have no secret, a defaulted cloud and the given ids. Only a non-empty plaintext is stored in `secureJsonData`. Other secure keys are kept. The flags follow the marker's identity, so fresh plaintext clears both. Every other flag is kept. |
| `AzureCredentialsConfigProperties.UpdateAdPasswordRouting` | src/credentials/AzureCredentialsConfig.ts:231-255 | The password never stays in `jsonData`. Plaintext goes to `secureJsonData.password`. The `password` flag is set for either marker. Every other `secureJsonData` key and every other flag, the client-secret ones included, is kept. |
| `AzureCredentialsConfigProperties.UpdateCurrentUserRouting` | src/credentials/AzureCredentialsConfig.ts:257-292 | The nested client secret leaves the stored tree and is routed and flagged exactly as a client secret. Other nested credentials are stored unchanged. Every other `secureJsonData` key and every other flag is kept. |
| `AzureCredentialsConfigProperties.UpdateStoresNoSecret` | src/credentials/AzureCredentialsConfig.ts:262-277 | For every value of the union, nothing the writer stores in `jsonData` carries a secret, and what it stores is again a value of the union. |
| `AzureCredentialsConfigProperties.IllTypedNestingKeepsSecret` | src/credentials/AzureCredentials.ts:16-23 | That guarantee needs the type's limits on nesting: nesting OBO credentials, which the type forbids, leaves plaintext in `jsonData`. |
| `AzureCredentialsConfigProperties.PersistedSecret` | src/credentials/AzureCredentialsConfig.ts:207-216 | The secret a read returns after a write is set exactly when the one written was set. |
| `AzureCredentialsConfigProperties.PersistedPassword` | src/credentials/AzureCredentialsConfig.ts:244-251 | The same for a password, which is never read back as `concealedLegacy`. |
| `AzureCredentialsConfigProperties.Persisted` | src/credentials/AzureCredentialsConfig.ts:194-290 | Read-back credentials keep their tag. |
| `AzureCredentialsConfigProperties.ReadBackClientSecret` | src/credentials/AzureCredentialsConfig.ts:207-216 | `getClientSecret` on the maps the writer produced returns the secret written, with an empty plaintext read as absent. |
| `AzureCredentialsConfigProperties.ReadBackPassword` | src/credentials/AzureCredentialsConfig.ts:242-252 | `getAdPassword` on the maps the writer produced returns the password written, with either marker read as `concealed`. |
| `AzureCredentialsConfigProperties.UpdateThenReadRoundTrip` | src/credentials/AzureCredentialsConfig.ts:148-296 | For every successful write, reading the result returns the credentials written, with a defaulted cloud and normalised secrets, for every tag. |
| `AzureCredentialsConfigProperties.ClientSecretRoundTrip` | src/credentials/AzureCredentialsConfig.ts:207-216 | A client secret written as plaintext, `concealed` or `concealedLegacy` is read back as exactly that secret. |
| `AzureCredentialsConfigProperties.CompletenessSurvivesSave` | src/credentials/AzureCredentialsConfig.ts:16-37 | Complete credentials are still complete after saving and reading back. |
| `AzureCredentialsConfigProperties.WithSecureValueIdempotent` | src/credentials/AzureCredentialsConfig.ts:205-211 | Writing the same secure value twice equals writing it once. |
| `AzureCredentialsConfigProperties.ClientSecretFieldsIdempotent` | src/credentials/AzureCredentialsConfig.ts:212-216 | Setting the same client-secret flags twice equals setting them once. |
| `AzureCredentialsConfigProperties.ResaveIsNoOp` | src/credentials/AzureCredentialsConfig.ts:148-296 | Saving again, unedited, the credentials the reader returns after a save gives back exactly the same settings. |
| `AzureCredentialsConfigProperties.AsWrittenReaderNeverThrows` | src/credentials/AzureCredentialsConfig.ts:123-145 | As written, the reader never throws: its final `throw` cannot be reached. |
| `AzureCredentialsConfigProperties.AsWrittenReadsUnknownTagAsCurrentUser` | src/credentials/AzureCredentialsConfig.ts:123-145 | As written, an unknown tag is returned as a current-user-shaped record under its own tag, or `undefined` when user identity is off. The corrected reader rejects it. |
| `AzureCredentialsConfigProperties.AsWrittenAcceptsCertificateTag` | src/credentials/AzureCredentialsConfig.ts:123-145 | A stored `{authType: 'clientcertificate'}` is returned by the as-written reader and rejected by the corrected one. |
| `AzureCredentialsConfigProperties.ReaderTestScenarios` | src/credentials/AzureCredentialsConfig.test.ts:28-66 | The reader's test cases: msi enabled and disabled; plaintext, concealed and legacy-concealed secrets; only legacy fields. |
| `AzureCredentialsConfigProperties.WriterTestScenarios` | src/credentials/AzureCredentialsConfig.test.ts:68-122 | The writer's test cases: msi disabled and enabled; then plaintext, concealed and legacy-concealed client secrets written as the base mock with its `azureCloud: 'AzureCloud'`, checking the stored credentials and both secure maps. |

## Left out

- Client-certificate credentials. The code has no such tag or branch.
- The other top-level fields of the settings record (id, name, url, …). The writer copies them
  unchanged, and nothing here reads them.
- The difference between a key set to `undefined` and a missing key. It is not modelled, except for
  `secureJsonFields`, where the code checks `hasOwnProperty`. A missing `secureJsonData` is the
  empty map.
- Non-string values in `secureJsonData` (the `typeof … === 'string'` check), and non-credential
  values under `jsonData.azureCredentials`. The TypeScript types exclude both.
- Object identity. The writer deletes the nested client secret from the caller's own credentials
  object (`AzureCredentialsConfig.ts:267`) and stores that same nested object in `jsonData`. The
  method returns the changed caller value as `callerCredentials`, equal to the stored credentials.
  Later changes through one reference would show in the other; that sharing is not modelled.
- `getDefaultAzureCloud` is not part of this model. Its result is a parameter, the same for reader
  and writer. `src/clouds.ts` holds only a static list of cloud names.
- The `@grafana/runtime` `config` global is read as the parameter `azure`, fixed for one call.
- Symbols other than the two markers. The password branch sets its flag for `typeof === 'symbol'`;
  only the two markers exist, so both count.

## Findings

| source | as written | input that shows it | evidently intended | confidence | as-written member | corrected member |
|---|---|---|---|---|---|---|
| src/credentials/AzureCredentialsConfig.ts:123 | The current-user guard is `instanceOfAzureCredential(authType, credentials)`, where `authType` is the record's own tag. It compares the tag with itself, so every record the switch does not handle takes the current-user path, and the `throw` at line 145 is never reached. | `jsonData.azureCredentials = {authType: 'clientcertificate'}` with user identity enabled: the reader returns `{authType: 'clientcertificate', serviceCredentialsEnabled: undefined, serviceCredentials: undefined}`. With user identity disabled it returns `undefined`. In neither case does it throw. | Compare with `'currentuser'`, as the writer does at line 257, so that an unsupported tag throws "The auth type '…' is not supported." | high; not executed | `AzureCredentialsConfig.GetDatasourceCredentialsAsWritten`, `AzureCredentialsConfigProperties.AsWrittenAcceptsCertificateTag` | `AzureCredentialsConfig.GetDatasourceCredentials` |
