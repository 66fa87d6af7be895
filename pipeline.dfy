/** The message pipeline: the wire types, the outbound decision taken by `send`,
    the inbound per-entry decision taken by the processing loop, the replay
    window, and the remote-config outcome. The protocol-buffers codec and the
    embedder's sign and verify hooks are foreign code: they enter the model as
    functions given by the caller. */
module Pipeline {
  import opened Js

  newtype uint64 = x: int | 0 <= x < 0x1_0000_0000_0000_0000

  /** `Message`: every field optional. */
  datatype Message = Message(
    username: Option<string>,
    channel: Option<string>,
    timestamp: Option<uint64>,
    text: Option<string>)

  /** `SignedMessage`: an optional signature over the encoded inner message. */
  datatype SignedMessage = SignedMessage(signature: Option<seq<byte>>, message: seq<byte>)

  /** The protocol-buffers encoders and decoders; a decoder that throws returns None. */
  datatype Codec = Codec(
    encodeMessage: Message -> seq<byte>,
    decodeMessage: seq<byte> -> Option<Message>,
    encodeSigned: SignedMessage -> seq<byte>,
    decodeSigned: seq<byte> -> Option<SignedMessage>)

  /** What the sign hook passes to its callback: `(err, signature)`. */
  datatype SignReply = SignReply(err: Option<Error>, signature: Option<seq<byte>>)

  /** What the verify hook passes to its callback: `(err, valid)`. */
  datatype VerifyReply = VerifyReply(err: Option<Error>, valid: JsValue)

  type SignHook = seq<byte> -> SignReply

  /** Called with the username, the encoded inner message and the signature. */
  type VerifyHook = (Option<string>, seq<byte>, Option<seq<byte>>) -> VerifyReply

  const DefaultChannel: string := "friends"
  const ReplayDepth: nat := 500

  /** `message.channel || 'friends'`: an absent or empty channel name falls back
      to the default channel, so the target is never empty. */
  function ChannelOf(message: Message): (ch: string)
    ensures ch != ""
    ensures message.channel.Some? && message.channel.value != "" ==> ch == message.channel.value
    ensures message.channel.None? || message.channel.value == "" ==> ch == DefaultChannel
  {
    match message.channel
    case Some(c) => if c != "" then c else DefaultChannel
    case None => DefaultChannel
  }

  /** `Math.max(changes - 500, 0)`: the live read starts far enough back to replay
      the last 500 entries, or from the beginning when there are fewer. */
  function Window(changes: nat): (since: nat)
    ensures since <= changes
    ensures changes - since <= ReplayDepth
    ensures changes >= ReplayDepth ==> changes - since == ReplayDepth
    ensures changes < ReplayDepth ==> since == 0
  {
    if changes > ReplayDepth then changes - ReplayDepth else 0
  }

  /** A legacy payload: its text starts with `{`. In UTF-8 that is exactly a first
      byte of 0x7B; an empty payload is not legacy. */
  predicate IsLegacy(value: seq<byte>) {
    |value| > 0 && value[0] == 0x7B
  }

  /** A message as handed to the processor: the decoded message with the entry's
      `change` and the `valid` flag attached. */
  datatype Delivered = Delivered(message: Message, change: nat, valid: bool)

  /** What the processing loop does with one entry. */
  datatype Step =
    | Ack                   // acknowledged without calling the processor
    | Deliver(d: Delivered) // handed to the processor
    | Throws                // a decoder threw inside the stream transform

  /** The `valid` flag: the truthiness of the verify hook's answer, its error
      ignored; false when no verify hook is installed. */
  function ValidFlag(verify: Option<VerifyHook>, env: SignedMessage, m: Message): (valid: bool)
    ensures verify.None? ==> !valid
    ensures verify.Some? ==> valid == Truthy(verify.value(m.username, env.message, env.signature).valid)
  {
    match verify
    case None => false
    case Some(hook) => Truthy(hook(m.username, env.message, env.signature).valid)
  }

  /** The per-entry transform of the processing loop. */
  function Inbound(codec: Codec, verify: Option<VerifyHook>, change: nat, value: seq<byte>): (r: Step)
    ensures IsLegacy(value) <==> r.Ack?
    ensures r.Throws? <==>
      !IsLegacy(value) &&
      (codec.decodeSigned(value).None? || codec.decodeMessage(codec.decodeSigned(value).value.message).None?)
    ensures r.Deliver? ==>
      var env := codec.decodeSigned(value).value;
      r.d.change == change &&
      Some(r.d.message) == codec.decodeMessage(env.message) &&
      r.d.valid == ValidFlag(verify, env, r.d.message)
  {
    if IsLegacy(value) then Ack
    else match codec.decodeSigned(value)
      case None => Throws
      case Some(env) =>
        match codec.decodeMessage(env.message)
        case None => Throws
        case Some(m) => Deliver(Delivered(m, change, ValidFlag(verify, env, m)))
  }

  /** Without a verify hook no delivered message is ever marked valid. */
  lemma NoVerifyNeverValid(codec: Codec, change: nat, value: seq<byte>)
    ensures Inbound(codec, None, change, value).Deliver? ==> !Inbound(codec, None, change, value).d.valid
  {
  }

  /** The verify hook's error is ignored: two hooks whose answers have the same
      truthiness lead to the same step, whatever errors they report. */
  lemma VerifyErrorIgnored(codec: Codec, h1: VerifyHook, h2: VerifyHook, change: nat, value: seq<byte>)
    requires forall u, b, s :: Truthy(h1(u, b, s).valid) == Truthy(h2(u, b, s).valid)
    ensures Inbound(codec, Some(h1), change, value) == Inbound(codec, Some(h2), change, value)
  {
  }

  /** The envelope `send` appends, together with the channel it is aimed at. */
  datatype Outgoing = Outgoing(channel: string, envelope: SignedMessage)

  /** The outbound decision of `send`: encode, sign the encoded bytes if a sign hook
      is installed, and wrap signature and encoded message in an envelope. */
  function Outbound(codec: Codec, sign: Option<SignHook>, message: Message): (r: Result<Outgoing>)
    ensures sign.Some? && sign.value(codec.encodeMessage(message)).err.Some? ==>
      r == Err(sign.value(codec.encodeMessage(message)).err.value)
    ensures r.Err? <==> sign.Some? && sign.value(codec.encodeMessage(message)).err.Some?
    ensures sign.None? ==> r.Ok? && r.value.envelope.signature.None?
    ensures r.Ok? ==>
      r.value.channel == ChannelOf(message) &&
      r.value.envelope.message == codec.encodeMessage(message) &&
      (sign.Some? ==> r.value.envelope.signature == sign.value(codec.encodeMessage(message)).signature)
  {
    var m := codec.encodeMessage(message);
    match sign
    case None => Ok(Outgoing(ChannelOf(message), SignedMessage(None, m)))
    case Some(hook) =>
      var reply := hook(m);
      if reply.err.Some? then Err(reply.err.value)
      else Ok(Outgoing(ChannelOf(message), SignedMessage(reply.signature, m)))
  }

  /** What the HTTP client reports for the config request. */
  datatype FetchReply =
    | NetError(e: Error)
    | Response(status: int, body: JsValue)

  /** What `getRemoteConfig` passes to its callback: `(err, config)`. */
  datatype ConfigReply = ConfigReply(err: Option<Error>, config: JsValue)

  /** `getRemoteConfig`: the error is always null; the body is passed on only when
      the request succeeded with a status of at most 299, otherwise undefined. */
  function RemoteConfig(reply: FetchReply): (r: ConfigReply)
    ensures r.err.None?
    ensures reply.Response? && reply.status <= 299 ==> r.config == reply.body
    ensures reply.NetError? || reply.status > 299 ==> r.config == Undefined
  {
    match reply
    case NetError(_) => ConfigReply(None, Undefined)
    case Response(status, body) => ConfigReply(None, if status > 299 then Undefined else body)
  }
}
