/**
 * The provider's Configure (internal/provider/provider.go): where the token and the base URL
 * come from, the empty-token error, and the client handed to resources and data sources.
 */
module SevallaProvider {
  import opened Wrappers
  import opened Models
  import opened Transport

  /** SevallaProviderModel: the provider block's two attributes. */
  datatype ProviderModel = ProviderModel(token: TfString, baseURL: TfString)

  /** The token Configure uses: the configured one unless it is null, else SEVALLA_TOKEN. */
  function ResolvedToken(data: ProviderModel, envToken: string): (token: string)
    ensures data.token.Known? ==> token == data.token.value
    ensures data.token.Null? ==> token == envToken
    ensures data.token.Unknown? ==> token == ""
  {
    if !data.token.IsNull() then ValueString(data.token) else envToken
  }

  /** The base URL Configure passes on: the configured one unless it is null, else the default. */
  function ResolvedBaseURL(data: ProviderModel): (baseURL: string)
    ensures data.baseURL.Known? ==> baseURL == data.baseURL.value
    ensures data.baseURL.Null? ==> baseURL == DefaultBaseURL
    ensures data.baseURL.Unknown? ==> baseURL == ""
  {
    if !data.baseURL.IsNull() then ValueString(data.baseURL) else DefaultBaseURL
  }

  const MissingToken: Diagnostic :=
    Diagnostic("Unable to find token",
               "Token cannot be an empty string. Please set the token in the provider "
               + "configuration or via the SEVALLA_TOKEN environment variable.")

  /** What Configure leaves in the framework's response. */
  datatype ConfigureResponse = ConfigureResponse(
    diagnostics: seq<Diagnostic>,
    dataSourceData: Option<Client>,
    resourceData: Option<Client>)

  /**
   * Configure. `decodeError` is the error reading the provider block produced, if any;
   * `envToken` is SEVALLA_TOKEN.
   */
  method Configure(data: ProviderModel, envToken: string, decodeError: Option<Diagnostic>)
    returns (resp: ConfigureResponse)
    ensures decodeError.Some? ==> resp == ConfigureResponse([decodeError.value], None, None)
    ensures decodeError.None? && ResolvedToken(data, envToken) == "" ==>
              resp == ConfigureResponse([MissingToken], None, None)
    ensures decodeError.None? && ResolvedToken(data, envToken) != "" ==>
              && resp.diagnostics == []
              && resp.resourceData.Some?
              && resp.dataSourceData == resp.resourceData
              && fresh(resp.resourceData.value)
              && resp.resourceData.value.token == ResolvedToken(data, envToken)
              && resp.resourceData.value.baseURL
                 == (if ResolvedBaseURL(data) == "" then DefaultBaseURL else ResolvedBaseURL(data))
              && resp.resourceData.value.timeout == DefaultTimeout
  {
    if decodeError.Some? {
      return ConfigureResponse([decodeError.value], None, None);
    }
    var token := envToken;
    var baseURL := DefaultBaseURL;
    if !data.token.IsNull() {
      token := ValueString(data.token);
    }
    if !data.baseURL.IsNull() {
      baseURL := ValueString(data.baseURL);
    }
    if token == "" {
      return ConfigureResponse([MissingToken], None, None);
    }
    var client := new Client(Config(baseURL, token, 0));
    resp := ConfigureResponse([], Some(client), Some(client));
  }

  /** A configured empty token is not replaced by the environment's: Configure then fails. */
  lemma ConfiguredEmptyTokenWins(envToken: string, baseURL: TfString)
    ensures ResolvedToken(ProviderModel(Known(""), baseURL), envToken) == ""
  {
  }

  /** A base URL configured as "" ends up as the default URL once NewClient has run. */
  lemma EmptyBaseURLBecomesDefault(token: TfString)
    ensures var b := ResolvedBaseURL(ProviderModel(token, Known("")));
            (if b == "" then DefaultBaseURL else b) == DefaultBaseURL
  {
  }
}
