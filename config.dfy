/** SDK configuration (Sources/ContextKit/Core/ContextKitConfig.swift). */
module Config {
  const DefaultBaseUrl := "https://api.contextkit.dev/v1"
  const DefaultUploadInterval: real := 30.0
  const DefaultMaxBatchSize := 20

  datatype ContextKitConfig = ContextKitConfig(
    apiKey: string,
    baseUrl: string,
    uploadInterval: real,
    maxBatchSize: int,
    debugMode: bool,
    enableGeo: bool,
    enableDevice: bool,
    enableTime: bool,
    enableAutoSession: bool)

  /** `ContextKitConfig.default`: no API key, production URL, 30 s interval, batches of 20, all collection on. */
  function Default(): (c: ContextKitConfig)
    ensures c.apiKey == "" && c.baseUrl == DefaultBaseUrl
    ensures c.uploadInterval == 30.0 && c.maxBatchSize == 20 && !c.debugMode
    ensures c.enableGeo && c.enableDevice && c.enableTime && c.enableAutoSession
  {
    ContextKitConfig("", DefaultBaseUrl, DefaultUploadInterval, DefaultMaxBatchSize, false, true, true, true, true)
  }

  /** The public initialiser, with its default arguments. */
  function Make(
    apiKey: string,
    baseUrl: string := DefaultBaseUrl,
    uploadInterval: real := DefaultUploadInterval,
    maxBatchSize: int := DefaultMaxBatchSize,
    debugMode: bool := false,
    enableGeo: bool := true,
    enableDevice: bool := true,
    enableTime: bool := true,
    enableAutoSession: bool := true): (c: ContextKitConfig)
    ensures c.apiKey == apiKey && c.baseUrl == baseUrl && c.uploadInterval == uploadInterval
    ensures c.maxBatchSize == maxBatchSize && c.debugMode == debugMode
    ensures c.enableGeo == enableGeo && c.enableDevice == enableDevice
    ensures c.enableTime == enableTime && c.enableAutoSession == enableAutoSession
  {
    ContextKitConfig(apiKey, baseUrl, uploadInterval, maxBatchSize, debugMode, enableGeo, enableDevice, enableTime, enableAutoSession)
  }

  /** `ContextKitConfig.test(apiKey:)`: the defaults with the given key and debug mode on. */
  function Test(apiKey: string): (c: ContextKitConfig)
    ensures c == Default().(apiKey := apiKey, debugMode := true)
  {
    Make(apiKey, debugMode := true)
  }

  /** The initialiser with only a key gives the default configuration with that key. */
  lemma MakeWithDefaults(apiKey: string)
    ensures Make(apiKey) == Default().(apiKey := apiKey)
    ensures Test(apiKey) == Make(apiKey).(debugMode := true)
  {
  }
}
