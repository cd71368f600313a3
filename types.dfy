/**
 The data model of the client factory: the inputs a caller hands over, the
 fingerprint profile a client is built from, the request and response shapes,
 and the external HTTP/TLS library seen only through the oracles it offers.
 */
module FactoryTypes {

  /** Go's fixed-width unsigned integers, as the fields of the inputs use them. */
  newtype UInt8 = x: int | 0 <= x < 0x100
  newtype UInt16 = x: int | 0 <= x < 0x1_0000
  newtype UInt32 = x: int | 0 <= x < 0x1_0000_0000

  /** An HTTP/2 setting identifier (http2.SettingID, a 16-bit number). */
  newtype SettingId = x: int | 0 <= x < 0x1_0000

  /** A Go pointer that may be nil (`*string`, `*CustomTlsClient`). */
  datatype Option<+T> = None | Some(value: T)

  /** The factory's error classes; the message text is not modelled. */
  datatype FactoryError =
    | BothClientChoices       // identifier and custom client both given
    | NoClientChoice          // neither given
    | ProxyChangeRejected     // the live client refused a new proxy
    | Ja3Rejected             // the JA3 string could not be parsed
    | ConstructionFailed      // the library refused to build the client
    | NilClientPanic          // a method call on the nil client a failed construction left behind
    | MissingMethodOrUrl
    | MissingContentType
    | RequestObjectFailed     // the library refused the method or URL
    | BodyReadFailed

  datatype Result<+T> = Ok(value: T) | Err(error: FactoryError)

  /** One priority frame as the caller describes it. */
  datatype PriorityParamInput = PriorityParamInput(streamDep: UInt32, exclusive: bool, weight: UInt8)
  datatype PriorityFrameInput = PriorityFrameInput(streamId: UInt32, priorityParam: PriorityParamInput)

  /** A custom fingerprint definition. */
  datatype CustomTlsClient = CustomTlsClient(
    ja3String: string,
    h2Settings: map<UInt16, UInt32>,
    h2SettingsOrder: seq<UInt16>,
    pseudoHeaderOrder: seq<string>,
    connectionFlow: UInt32,
    priorityFrames: seq<PriorityFrameInput>)

  /** The library's http2.Priority, which the factory fills field by field. */
  datatype PriorityParam = PriorityParam(streamDep: UInt32, exclusive: bool, weight: UInt8)
  datatype Priority = Priority(streamId: UInt32, priorityParam: PriorityParam)

  /** What the JA3 parser returns: an opaque handshake specification factory. */
  datatype SpecFactory = SpecFactory(token: nat)

  /** The handshake identity of a profile (utls ClientHelloID). */
  datatype ClientHelloId = ClientHelloId(
    client: string,
    version: string,
    seed: Option<seq<UInt8>>,
    specFactory: Option<SpecFactory>)

  /** A resolved fingerprint profile (tls_client.ClientProfile). */
  datatype ClientProfile = ClientProfile(
    clientHelloId: ClientHelloId,
    settings: map<SettingId, UInt32>,
    settingsOrder: seq<SettingId>,
    pseudoHeaderOrder: seq<string>,
    connectionFlow: UInt32,
    priorities: seq<Priority>)

  /** The zero value of a Go ClientProfile variable that was never assigned. */
  const ZeroProfile := ClientProfile(ClientHelloId("", "", None, None), map[], [], [], 0, [])

  /** The settings a client is constructed with, as the option list leaves them. */
  datatype ClientConfig = ClientConfig(
    timeoutSeconds: int,
    profile: ClientProfile,
    followRedirects: bool,
    insecureSkipVerify: bool,
    proxyUrl: string)           // "" means no proxy

  /** The constructor options of the library. */
  datatype ClientOption =
    | WithTimeout(seconds: int)
    | WithClientProfile(profile: ClientProfile)
    | WithNotFollowRedirects
    | WithInsecureSkipVerify
    | WithProxyUrl(url: string)

  /** Everything a caller passes in one call. */
  datatype RequestInput = RequestInput(
    sessionId: Option<string>,
    tlsClientIdentifier: string,          // "" means not given
    customTlsClient: Option<CustomTlsClient>,
    proxyUrl: Option<string>,
    followRedirects: bool,
    timeoutSeconds: int,
    insecureSkipVerify: bool,
    requestMethod: string,
    requestUrl: string,
    requestBody: Option<string>,
    headers: map<string, string>,
    headerOrder: seq<string>)

  /** A cookie received with a response; its attributes are opaque here. */
  datatype Cookie = Cookie(name: string, value: string, attributes: seq<string>)

  /**
   The external HTTP/TLS library, reduced to the answers the factory gets from it:
   the named-profile catalog and its default, the default timeout, the header key that
   carries the header order, the JA3 parser, whether it accepts a client configuration,
   a new proxy or a method and URL, and how it serializes a cookie.
   */
  datatype Library = Library(
    catalog: map<string, ClientProfile>,
    defaultProfile: ClientProfile,
    defaultTimeoutSeconds: int,
    headerOrderKey: string,
    parseJa3: string -> Option<SpecFactory>,
    acceptsConfig: ClientConfig -> bool,
    acceptsProxy: string -> bool,
    acceptsRequest: (string, string) -> bool,
    cookieString: Cookie -> string)
}
