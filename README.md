# friends-swarm controller model

A Dafny model of the swarm controller that `createSwarm` in `swarm.js` builds:
a registry from channel names to open hyperlogs, each log's list of connected
peers and its single processing stream, the outbound `send` pipeline
(encode, sign, read heads, append) and the inbound per-entry decision of the
processing loop (legacy skip, decode, verify, deliver), together with the
outcome of the remote-config request.

Modules, one per concern:

- `Js` (`js.dfy`): `Option`, `Result`, bytes, and JavaScript values with their
  truthiness (what `!!valid`, `if (config)` and `||` test). Callback errors are
  tested with `if (err)`, so an `Error` is a non-empty string and a falsy `err`
  (`''`, `null`, `0`) is `None`.
- `Hyperlog` (`hyperlog.dfy`): the log as an arena of entries indexed by change
  number, each with the parent set it was appended with; heads are the entries
  no entry names as a parent. Appending with the heads just read leaves one
  head; two appends from the same heads both stay heads until the next append.
- `PeerList` (`peer_list.dfy`): `indexOf` as a loop and `splice` as the removal
  of the first occurrence, against a recursive reference definition.
- `Pipeline` (`pipeline.dfy`): the wire types, the channel default
  `message.channel || 'friends'`, the replay window `max(changes - 500, 0)`,
  the legacy-prefix test, the `valid` flag, the inbound step, the outbound
  envelope and `getRemoteConfig`'s decision. The protocol-buffers codec and the
  sign and verify hooks are foreign code and enter as functions.
- `SwarmController` (`swarm.dfy`): class `Swarm` holding the registry `logs`,
  the durable store `db` (one partition per name, kept when a channel is
  removed), the outstanding config requests, the adopted config, the hooks, the
  open live reads and the peers destroyed so far. `addChannel` is split into
  its synchronous half (`RequestChannel`, the check at swarm.js:88) and its
  config callback (`ConfigArrived`, swarm.js:90-122). Each log carries an
  instance number, because the peer handlers close over the log object rather
  than its name.

Behaviour of swarm.js the model makes explicit:

- `send` to a channel that is not registered yet does not create it lazily:
  `addChannel` only issues the config request, so `logs[ch]` is undefined at
  swarm.js:130 and `log.heads` throws. `Swarm.Send` returns `Thrown` there,
  with the config request left outstanding.
- `getRemoteConfig` discards the body only on a network error or a status above
  299; a status below 200 still yields the body.
- `removeChannel` destroys the peers and the processing stream but never closes
  the channel's discovery swarm; a peer that later joins through it is pushed
  onto the removed log's list, which the model records as no change to the
  registry.

## Model

| member | source | states |
|---|---|---|
| `Hyperlog.Heads` | swarm.js:131 | every head is an existing entry; an empty log has no heads (the heads are defined as the existing entries that no entry names as a parent) |
| `Hyperlog.AppendEntry` | swarm.js:133 | an append adds one entry, the next change number, with exactly the given parents and payload, leaving earlier entries untouched |
| `Hyperlog.AppendWellFormed` | swarm.js:131-133 | appending with parents drawn from existing entries keeps every parent earlier than its child, so the log stays a DAG |
| `Hyperlog.LatestIsHead` | swarm.js:131 | the newest entry of a non-empty log is always a head |
| `Hyperlog.AppendHeads` | swarm.js:131-133 | after an append the heads are the old heads not named as parents, plus the new entry |
| `Hyperlog.AppendAtHeads` | swarm.js:131-133 | appending with exactly the heads just read leaves the new entry as the only head |
| `Hyperlog.ConcurrentAppends` | swarm.js:126-148 | two sends that read the same heads both stay heads, and the next send's entry names both as parents, so neither is dropped |
| `PeerList.IndexOf` | swarm.js:105 | returns the first position holding the peer, or -1 exactly when the peer is not on the list |
| `PeerList.SpliceRemovesFirst` | swarm.js:105-106 | splicing at the index `indexOf` found removes the first occurrence and keeps the other peers in order |
| `PeerList.RemoveAbsent` | swarm.js:105-106 | closing a peer that is not on the list leaves the list unchanged |
| `PeerList.RemoveFirstMultiset` | swarm.js:104-107 | a close removes exactly one copy of the peer when present and no other peer; the list shrinks by one exactly then |
| `PeerList.JoinThenClose` | swarm.js:103-107 | a peer appended on `peer` and removed on `close` leaves the list as it was |
| `Pipeline.ChannelOf` | swarm.js:128 | the target channel is `message.channel` when it is present and non-empty, otherwise `friends`; never empty |
| `Pipeline.Window` | swarm.js:156 | the live read starts at most 500 entries back, exactly 500 when there are that many, otherwise at 0; never after the last entry |
| `Pipeline.ValidFlag` | swarm.js:168-176 | with a verify hook installed, `valid` equals the truthiness of the hook's answer for the message's username, the encoded inner message and the signature; with none it is false |
| `Pipeline.Inbound` | swarm.js:159-178 | a `{` payload is acknowledged and not delivered; otherwise a decoder failure throws, and a delivered message is the decoded inner message with the entry's `change` and the `valid` flag |
| `Pipeline.NoVerifyNeverValid` | swarm.js:176 | with no verify hook no delivered message is valid |
| `Pipeline.VerifyErrorIgnored` | swarm.js:169-170 | the verify hook's error has no effect: hooks whose answers agree in truthiness give the same step |
| `Pipeline.Outbound` | swarm.js:127-147 | the outcome is an error exactly when a sign hook is installed and reports a truthy error, and then it is that error; without a sign hook the signature is absent; otherwise the envelope holds the hook's signature and the encoded message, aimed at `ChannelOf(message)` |
| `Pipeline.RemoteConfig` | swarm.js:186-190 | the reported error is always null; the body is passed on exactly when there was no network error and the status is at most 299, otherwise undefined |
| `SwarmController.Swarm.constructor` | swarm.js:28-38 | a new swarm has an empty registry, no hooks, no processor, no live reads, on the given store, and keeps the caller's `defaultOpts.config` |
| `SwarmController.Swarm.Changes` | swarm.js:49-51 | the registered log's entry count, or 0 for a name not in the registry; total |
| `SwarmController.Swarm.SetSign` | swarm.js:57-59 | installs the sign hook |
| `SwarmController.Swarm.SetVerify` | swarm.js:65-67 | installs the verify hook, and every later entry step, including those of loops already running, uses it |
| `SwarmController.Swarm.StartProcessor` | swarm.js:150-157 | a live read is created only when the log has none, starting at the replay window of its entry count; otherwise nothing changes |
| `SwarmController.Swarm.Process` | swarm.js:69-74 | installs the processor and starts every registered log that was not processing, leaving running loops alone; afterwards every registered log has exactly one live read |
| `SwarmController.Swarm.StartEach` | swarm.js:71-73 | applies `startProcessor` to every registered name, keeping one live read per log |
| `SwarmController.Swarm.RemoveChannel` | swarm.js:76-85 | an unknown name changes nothing; a known one loses only its key, its live read if it had one and every peer on its list, in order; afterwards `changes(name)` is 0 |
| `SwarmController.Swarm.Unregister` | swarm.js:79-81 | removes only the name's key and destroys its live read when one is set, keeping one live read per registered log |
| `SwarmController.Swarm.DestroyPeers` | swarm.js:82-84 | destroys the peers one by one in list order |
| `SwarmController.Swarm.RequestChannel` | swarm.js:87-90 | a registered name issues nothing; otherwise one config request for the name is issued |
| `SwarmController.Swarm.ConfigArrived` | swarm.js:90-122 | adopts the config only when it is truthy; opens the name with a fresh log, an empty peer list and the discovery id `friends-<name>`, started when a processor is installed; a name already registered is left alone (see Findings) |
| `SwarmController.Swarm.Open` | swarm.js:93-98 | registers the fresh log and starts it when a processor is installed, keeping one live read per log |
| `SwarmController.Swarm.ConfigArrivedAsWritten` | swarm.js:90-122 | the callback as written: it always assigns `logs[name]`, replacing a log already registered without destroying its live read |
| `SwarmController.Swarm.PeerJoined` | swarm.js:100-103 | a new peer is appended to the end of the list of the log whose handler fired; a handler of a log no longer registered changes nothing in the registry |
| `SwarmController.Swarm.PeerClosed` | swarm.js:104-107 | a closed peer's first occurrence is removed from its log's list, others kept in order; nothing when it is absent |
| `SwarmController.Swarm.Send` | swarm.js:126-148 | a truthy sign error reaches the callback with no append and no request; otherwise the target channel is requested; an unregistered target throws; a truthy heads or append error reaches the callback with no append; on success the entry, numbered one past the old count, has the heads just read as parents and the encoded envelope as payload, and is then the only head |
| `SwarmController.DuplicateOpenAsWritten` | swarm.js:87-93 | two `addChannel('x')` calls before the config reply leave one channel with two live reads |
| `SwarmController.DuplicateOpenGuarded` | swarm.js:87-93 | the same calls with the corrected callback leave one channel with one live read |

## Left out

- Peer discovery and transport (`signalhub`, `webrtc-swarm`, `p.pipe(stream).pipe(p)`, swarm.js:95-96 and 119): peers are plain identifiers, and a discovery event is a call to `PeerJoined`.
- The default hub list and config URL (swarm.js:40-47): configuration values only.
- The HTTP request of `getRemoteConfig` (swarm.js:187): the request's outcome is a parameter (`FetchReply`); only the decision on it is modelled.
- Hyperlog internals: storage through `subleveldown`, `replicate`, `ready` and the `since` semantics of `createReadStream` (swarm.js:93, 101, 151-157). `ready` is taken to fire at once, `changes` is the partition's entry count, and entries arriving by replication are not modelled.
- The protocol-buffers schema (swarm.js:11-24): the encoders and decoders are functions given with the swarm; no round trip is claimed.
- The processor call and its acknowledgement (swarm.js:171, 177): the model says what each entry becomes (`Step`); the sequential, backpressured stepping through the live stream is not modelled.
- Events and logging (`swarm.emit` of `peer`, `push`, `pull`, and `console.error`, swarm.js:91, 109-117).
- Interleavings of callbacks other than the two-step `addChannel`: `Send` runs as one step with the sign hook, heads lookup and append outcomes known, so a registry change between its callbacks is not modelled.
- `SwarmController.Swarm.Send`: an append error is assumed to append nothing; what hyperlog does on a failed `add` is outside the model.
- `SwarmController.Swarm.Process`: the order in which `Object.keys` visits the names is not modelled; the result does not depend on it.
- Channel names that are properties of `Object.prototype` (`constructor`, `toString`, ...): `logs[name]` is truthy for them in swarm.js; the model treats `logs` as a plain map.
- A destroyed peer's later `close` event acts on the removed log's list, which is no longer observable through the registry.
- JavaScript numbers are modelled as reals plus `NaN`, which is all truthiness needs.

## Findings

| source | as written | input that shows it | evidently intended | confidence | as-written member | corrected member |
|---|---|---|---|---|---|---|
| swarm.js:88-93 | the registration check runs only before the config request, and the callback always assigns `logs[name]` | with a processor installed, `addChannel('x')` twice before the first config reply | a name is registered once: the second callback leaves the registered log alone, so the channel has one log, one discovery swarm and one live read | medium, not executed | `SwarmController.DuplicateOpenAsWritten` | `SwarmController.Swarm.ConfigArrived` |
