/** The values that travel between clients and server, and the server's tunables.
    Frames stand for the messages they serialise: the JSON text is not modelled. */
module Protocol {

  datatype Option<+T> = None | Some(value: T)

  /** Channel names and payloads are UTF-8 text that the server measures in bytes and
      otherwise only compares and copies. */
  newtype Byte = x: int | 0 <= x < 256
  type Channel = seq<Byte>
  type Payload = seq<Byte>
  type Token = seq<Byte>
  type ConnId = nat

  datatype Claims = Claims(subject: string, attributes: map<string, string>)

  datatype Reason = Invalid | Unauthorized | Limit
  datatype Rejected = Rejected(channel: Channel, reason: Reason)

  datatype Frame =
    | Authenticated(subject: string)
    | Subscribed(channels: seq<Channel>, rejected: seq<Rejected>)
    | Unsubscribed(channels: seq<Channel>)
    | Data(channel: Channel, payload: Payload)
    | Snapshot(channel: Channel, payload: Payload)
    | Resync(channels: seq<Channel>)
    | Pong(timestamp: nat)
    | Error(code: string, message: string)

  datatype Config = Config(
    maxConnections: nat,
    maxMessageSize: nat,
    maxSubscriptions: nat,
    maxChannelLen: nat,
    sendQueue: nat,
    maxConsecutiveDrops: nat,
    authTimeout: nat,
    heartbeatInterval: nat,
    heartbeatTimeout: nat)

  /** What the embedding application supplies: tunables, a token validator and an authorizer. */
  datatype Env = Env(
    config: Config,
    validate: Token -> Option<Claims>,
    may: (Claims, Channel) -> bool)
}
