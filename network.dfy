/** Choice of the relay API the process-wide client is configured with,
    made once per run from the origin chain id. */
module Network {

  /** The one chain id treated as a test network (Sepolia). */
  const TestnetChainId: int := 11155111

  /** The tag the client sends as its `source`. */
  const AppSource: string := "my-app"

  /** The two base URLs the relay SDK exports; their text belongs to the SDK. */
  datatype RelayApi = MainnetRelayApi | TestnetRelayApi

  /** The argument of `createClient`. */
  datatype ClientConfig = ClientConfig(baseApiUrl: RelayApi, source: string)

  /** `isTestnet = originChainId === 11155111`, and the configuration built from it. */
  function SelectNetwork(originChainId: int): (cfg: ClientConfig)
    ensures cfg.baseApiUrl == TestnetRelayApi <==> originChainId == TestnetChainId
    ensures cfg.baseApiUrl == MainnetRelayApi <==> originChainId != TestnetChainId
    ensures cfg.source == AppSource
  {
    var isTestnet := originChainId == TestnetChainId;
    ClientConfig(if isTestnet then TestnetRelayApi else MainnetRelayApi, AppSource)
  }
}
