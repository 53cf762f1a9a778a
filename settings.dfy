/**
 * The shape of a datasource settings record (`AzureDataSourceSettings` and
 * `AzureDataSourceInstanceSettings`): plaintext `jsonData`, the write-only secret map
 * `secureJsonData`, and the read-only map `secureJsonFields` of secrets already stored on the server.
 */
module Settings {
  import opened Wrappers
  import opened AzureCredentials

  /** A plaintext JSON value held under some `jsonData` key other than `azureCredentials`. */
  datatype JsonValue = JString(s: string) | JBool(b: bool) | JNumber(n: int)

  /**
   * `AzureDataSourceJsonData`: the typed `azureCredentials` property, and every other key
   * (the legacy `azureAuthType`, `cloudName`, `tenantId`, `clientId`, the flags `oauthPassThru`
   * and `disableGrafanaCache`, and whatever else the datasource keeps there) in `fields`.
   * A key set to `undefined` is modelled as a missing key.
   */
  datatype JsonData = JsonData(azureCredentials: Option<Credentials>, fields: JsonFields)

  /** The key of the typed property, which therefore never appears among the other keys. */
  const AzureCredentialsKey := "azureCredentials"

  /** The untyped `jsonData` keys: everything but `azureCredentials`. */
  type JsonFields = m: map<string, JsonValue> | AzureCredentialsKey !in m witness map[]

  /**
   * The settings record. A missing `secureJsonData` is the empty map; `secureJsonFields` is
   * `None` when the record has no own `secureJsonFields` property (instance settings).
   */
  datatype DataSourceSettings = DataSourceSettings(
    jsonData: JsonData,
    secureJsonData: map<string, string>,
    secureJsonFields: Option<map<string, bool>>)

  /** Truthiness of `secureJsonFields[key]`: a missing key reads as `undefined`. */
  predicate FieldFlag(fields: map<string, bool>, key: string)
  {
    key in fields && fields[key]
  }
}
