/** ClientProvider's own code is not part of this model. This stand-in holds what the HTTP helpers
    ask of it: getConfig() and getSessionToken(). What isSignedIn() answers is an argument of the
    facade operations in module UserClient. */
module Provider {
  import opened Wrappers
  import BridgeConfig

  class ClientProvider {
    const config: BridgeConfig.Config
    var sessionToken: Option<string>

    constructor (config: BridgeConfig.Config, sessionToken: Option<string>)
      ensures this.config == config && this.sessionToken == sessionToken
    {
      this.config := config;
      this.sessionToken := sessionToken;
    }
  }
}
