/** The swarm controller of `createSwarm`: the registry from channel names to
    open logs, each log's peer list and processing stream, and the operations
    that change them. Discovery, transport and storage are outside the model;
    their callbacks are the methods' parameters. */
module SwarmController {
  import opened Js
  import opened Hyperlog
  import opened PeerList
  import opened Pipeline

  /** A live read of a log, started at change `since`. */
  datatype ReadStream = ReadStream(since: nat)

  /** An open log in the registry. `instance` identifies the log object, which the
      peer handlers of its discovery swarm keep referring to. */
  datatype Channel = Channel(
    instance: nat,
    discoveryId: string,
    peers: seq<PeerId>,
    processing: Option<ReadStream>)

  /** How a `send` ends: its callback gets the new entry or an error, or the call
      throws before any callback. */
  datatype SendOutcome =
    | Appended(change: nat)
    | Failed(error: Error)
    | Thrown

  /** The signalling id a channel's discovery swarm joins. */
  function DiscoveryId(name: string): string {
    "friends-" + name
  }

  /** The log object `instance` is the one currently registered under `name`. */
  predicate Bound(logs: map<string, Channel>, name: string, instance: nat) {
    name in logs && logs[name].instance == instance
  }

  /** The partition `name` opens; a name never written to is empty. */
  function PartitionOf(db: map<string, Log>, name: string): Log {
    if name in db then db[name] else Empty
  }

  /** `ch` after `startProcessor`: a live read from the replay window of its
      partition, unless one is already running. */
  function Started(db: map<string, Log>, name: string, ch: Channel): Channel {
    if ch.processing.Some? then ch
    else ch.(processing := Some(ReadStream(Window(Count(PartitionOf(db, name))))))
  }

  /** The log the config callback opens under `name`: a fresh instance with the
      channel's discovery id and no peers, started when a processor is installed. */
  function Opened(db: map<string, Log>, installed: bool, name: string, instance: nat): Channel {
    var ch := Channel(instance, DiscoveryId(name), [], None);
    if installed then Started(db, name, ch) else ch
  }

  /** Every partition of the store is a DAG. */
  ghost predicate StoreWellFormed(db: map<string, Log>) {
    forall n :: n in db ==> WellFormed(db[n])
  }

  /** Every registered log joined its channel's discovery id and has an instance
      number below `next`. */
  ghost predicate Registered(logs: map<string, Channel>, next: nat) {
    forall n :: n in logs ==> logs[n].instance < next && logs[n].discoveryId == DiscoveryId(n)
  }

  /** The live reads are exactly the registered logs' processing streams, one
      per partition. */
  ghost predicate OneReadEach(logs: map<string, Channel>, streams: multiset<string>) {
    (forall n :: n in logs ==> (n in streams <==> logs[n].processing.Some?)) &&
    (forall n :: n in streams ==> n in logs && streams[n] == 1)
  }

  /** As OneReadEach, and a registered log has a processing stream exactly when a
      processor is installed. */
  ghost predicate StreamsMatch(logs: map<string, Channel>, streams: multiset<string>, installed: bool) {
    OneReadEach(logs, streams) &&
    forall n :: n in logs ==> (logs[n].processing.Some? <==> installed)
  }

  /** Giving a registered log without a processing stream its live read keeps
      live reads one per partition. */
  lemma StartKeepsOneReadEach(logs: map<string, Channel>, streams: multiset<string>, name: string, rs: ReadStream)
    requires OneReadEach(logs, streams) && name in logs && logs[name].processing.None?
    ensures OneReadEach(logs[name := logs[name].(processing := Some(rs))], streams + multiset{name})
  {
  }

  /** Once every registered log has been started, each has exactly one live
      read and the registry keeps its discovery ids and instance numbers. */
  lemma AllStartedMatch(db: map<string, Log>, logs0: map<string, Channel>, logs: map<string, Channel>,
                        streams: multiset<string>, next: nat)
    requires Registered(logs0, next) && logs.Keys == logs0.Keys
    requires forall n :: n in logs ==> logs[n] == Started(db, n, logs0[n])
    requires OneReadEach(logs, streams)
    ensures Registered(logs, next) && StreamsMatch(logs, streams, true)
  {
  }

  /** Registering a new log whose processing matches the installed processor,
      with its live read if it has one, keeps live reads one per partition. */
  lemma OpenKeepsStreams(logs: map<string, Channel>, streams: multiset<string>, installed: bool, name: string, ch: Channel)
    requires StreamsMatch(logs, streams, installed)
    requires name !in logs && (ch.processing.Some? <==> installed)
    ensures StreamsMatch(logs[name := ch], streams + (if installed then multiset{name} else multiset{}), installed)
  {
  }

  /** Registering a new log under a fresh instance number keeps every log's
      discovery id and instance number in order. */
  lemma OpenKeepsRegistered(logs: map<string, Channel>, next: nat, name: string, ch: Channel)
    requires Registered(logs, next)
    requires ch.instance == next && ch.discoveryId == DiscoveryId(name)
    ensures Registered(logs[name := ch], next + 1)
  {
  }

  /** Removing a log keeps the other logs' discovery ids and instance numbers. */
  lemma RemoveKeepsRegistered(logs: map<string, Channel>, next: nat, name: string)
    requires Registered(logs, next)
    ensures Registered(logs - {name}, next)
  {
  }

  /** Removing a log together with its live read keeps live reads one per partition. */
  lemma RemoveKeepsStreams(logs: map<string, Channel>, streams: multiset<string>, installed: bool, name: string)
    requires StreamsMatch(logs, streams, installed) && name in logs
    ensures StreamsMatch(logs - {name},
      if logs[name].processing.Some? then streams - multiset{name} else streams, installed)
  {
  }

  class Swarm {
    const codec: Codec
    /** The registry `logs`. */
    var logs: map<string, Channel>
    /** The durable store: one partition per channel name, kept across removal. */
    var db: map<string, Log>
    /** Channel names whose remote-config request has not called back yet. */
    var pending: seq<string>
    /** `defaultOpts.config`. */
    var config: JsValue
    var sign: Option<SignHook>
    var verify: Option<VerifyHook>
    var processorInstalled: bool
    /** The live read streams not yet destroyed, by partition name. */
    var streams: multiset<string>
    /** Every peer destroyed so far, in order. */
    var destroyedPeers: seq<PeerId>
    var nextInstance: nat

    /** Every stored log is a DAG; every registered log has its discovery id and
        a known instance; live reads match processing streams one to one. */
    ghost predicate Valid()
      reads this
    {
      StoreWellFormed(db) && Registered(logs, nextInstance) &&
      StreamsMatch(logs, streams, processorInstalled)
    }

    /** `changes(name)`: the entry count of the registered log, 0 for a name that
        is not registered; never fails. */
    function Changes(name: string): (r: nat)
      reads this`logs, this`db
      ensures name !in logs ==> r == 0
      ensures name in logs ==> r == Count(PartitionOf(db, name))
    {
      if name in logs then Count(PartitionOf(db, name)) else 0
    }


    /** `createSwarm(db, defaultOpts)`, with `initialConfig` the caller's
        `defaultOpts.config` (Undefined when not given). */
    constructor (codec: Codec, db: map<string, Log>, initialConfig: JsValue)
      requires forall n :: n in db ==> WellFormed(db[n])
      ensures Valid()
      ensures this.db == db && logs == map[] && pending == [] && config == initialConfig
      ensures sign.None? && verify.None? && !processorInstalled
      ensures streams == multiset{} && destroyedPeers == []
    {
      this.codec := codec;
      this.db := db;
      logs := map[];
      pending := [];
      config := initialConfig;
      sign := None;
      verify := None;
      processorInstalled := false;
      streams := multiset{};
      destroyedPeers := [];
      nextInstance := 0;
    }

    /** `swarm.sign(fn)`. */
    method SetSign(hook: Option<SignHook>)
      modifies this`sign
      ensures sign == hook
    {
      sign := hook;
    }

    /** The processing loop's decision for one entry. The loop reads the hook
        variable on every entry, so a hook installed after `process` applies. */
    function EntryStep(change: nat, value: seq<byte>): Step
      reads this`verify
    {
      Inbound(codec, verify, change, value)
    }

    /** `swarm.verify(fn)`: every later entry is checked with the new hook. */
    method SetVerify(hook: Option<VerifyHook>)
      modifies this`verify
      ensures verify == hook
      ensures forall change: nat, value :: EntryStep(change, value) == Inbound(codec, hook, change, value)
    {
      verify := hook;
    }

    /** `startProcessor(log)`: starts a live read at the replay window only when
        none is running, so repeated calls keep a single loop. */
    method StartProcessor(name: string)
      requires name in logs
      modifies this`logs, this`streams
      ensures old(logs[name]).processing.Some? ==> logs == old(logs) && streams == old(streams)
      ensures old(logs[name]).processing.None? ==>
        logs == old(logs)[name := old(logs[name]).(processing := Some(ReadStream(Window(Count(PartitionOf(db, name))))))] &&
        streams == old(streams) + multiset{name}
    {
      var log := logs[name];
      if log.processing.Some? {
        return;
      }
      logs := logs[name := log.(processing := Some(ReadStream(Window(Count(PartitionOf(db, name))))))];
      streams := streams + multiset{name};
    }

    /** `swarm.process(fn)`: installs the processor and starts processing on every
        registered log that is not processing yet. */
    method Process()
      requires Valid()
      modifies this`processorInstalled, this`logs, this`streams
      ensures Valid() && processorInstalled
      ensures logs.Keys == old(logs).Keys
      ensures forall n :: n in logs ==> logs[n] == Started(db, n, old(logs[n]))
    {
      processorInstalled := true;
      ghost var logs0 := logs;
      StartEach();
      AllStartedMatch(db, logs0, logs, streams, nextInstance);
    }

    /** `Object.keys(logs).forEach(name => startProcessor(logs[name]))`. */
    method StartEach()
      requires OneReadEach(logs, streams)
      modifies this`logs, this`streams
      ensures OneReadEach(logs, streams)
      ensures logs.Keys == old(logs).Keys
      ensures forall n :: n in logs ==> logs[n] == Started(db, n, old(logs[n]))
    {
      var todo := logs.Keys;
      while todo != {}
        invariant todo <= logs.Keys && logs.Keys == old(logs).Keys
        invariant forall n :: n in todo ==> logs[n] == old(logs[n])
        invariant forall n :: n in logs && n !in todo ==> logs[n] == Started(db, n, old(logs[n]))
        invariant OneReadEach(logs, streams)
        decreases todo
      {
        var n :| n in todo;
        if logs[n].processing.None? {
          StartKeepsOneReadEach(logs, streams, n, ReadStream(Window(Count(PartitionOf(db, n)))));
        }
        StartProcessor(n);
        todo := todo - {n};
      }
    }

    /** `swarm.removeChannel(name)`: a no-op for an unknown name; otherwise removes
        only that key, destroys its processing stream if one is set and destroys
        every peer on its list, in order. */
    method RemoveChannel(name: string)
      requires Valid()
      modifies this`logs, this`streams, this`destroyedPeers
      ensures Valid()
      ensures Changes(name) == 0
      ensures name !in old(logs) ==>
        logs == old(logs) && streams == old(streams) && destroyedPeers == old(destroyedPeers)
      ensures name in old(logs) ==>
        logs == old(logs) - {name} &&
        streams == (if old(logs[name]).processing.Some? then old(streams) - multiset{name} else old(streams)) &&
        destroyedPeers == old(destroyedPeers) + old(logs[name]).peers
    {
      if name !in logs {
        return;
      }
      var log := logs[name];
      Unregister(name);
      DestroyPeers(log.peers);
    }

    /** `delete logs[name]`, then `log.processing.destroy()` when it is set. */
    method Unregister(name: string)
      requires Valid() && name in logs
      modifies this`logs, this`streams
      ensures Valid()
      ensures logs == old(logs) - {name}
      ensures streams == if old(logs[name]).processing.Some? then old(streams) - multiset{name} else old(streams)
    {
      var log := logs[name];
      RemoveKeepsStreams(logs, streams, processorInstalled, name);
      RemoveKeepsRegistered(logs, nextInstance, name);
      logs := logs - {name};
      if log.processing.Some? {
        streams := streams - multiset{name};
      }
    }

    /** `peers.forEach(p => p.destroy())`. */
    method DestroyPeers(peers: seq<PeerId>)
      modifies this`destroyedPeers
      ensures destroyedPeers == old(destroyedPeers) + peers
    {
      var i := 0;
      while i < |peers|
        invariant 0 <= i <= |peers|
        invariant destroyedPeers == old(destroyedPeers) + peers[..i]
      {
        destroyedPeers := destroyedPeers + [peers[i]];
        i := i + 1;
      }
      assert peers[..i] == peers;
    }

    /** The synchronous half of `swarm.addChannel(name)`: nothing when the name is
        registered, otherwise a remote-config request is issued. */
    method RequestChannel(name: string) returns (issued: bool)
      modifies this`pending
      ensures issued <==> name !in logs
      ensures pending == if issued then old(pending) + [name] else old(pending)
    {
      issued := name !in logs;
      if issued {
        pending := pending + [name];
      }
    }

    /** The config callback of `addChannel`, for the `i`-th outstanding request:
        adopts a truthy config, then opens the log with an empty peer list and
        starts processing when a processor is installed. A name registered in the
        meantime is left as it is. */
    method ConfigArrived(i: nat, reply: FetchReply)
      requires Valid() && i < |pending|
      modifies this`pending, this`config, this`logs, this`streams, this`nextInstance
      ensures Valid()
      ensures pending == old(pending[..i] + pending[i + 1..])
      ensures config == if Truthy(RemoteConfig(reply).config) then RemoteConfig(reply).config else old(config)
      ensures old(pending[i]) in old(logs) ==>
        logs == old(logs) && streams == old(streams) && nextInstance == old(nextInstance)
      ensures old(pending[i]) !in old(logs) ==>
        logs == old(logs)[old(pending[i]) := Opened(db, processorInstalled, old(pending[i]), old(nextInstance))] &&
        nextInstance == old(nextInstance) + 1 &&
        streams == old(streams) + (if processorInstalled then multiset{old(pending[i])} else multiset{})
    {
      var name := pending[i];
      pending := pending[..i] + pending[i + 1..];
      var r := RemoteConfig(reply);
      if Truthy(r.config) {
        config := r.config;
      }
      if name in logs {
        return;
      }
      Open(name);
    }

    /** Opens a log under an unregistered `name`, with processing started when a
        processor is installed. */
    method Open(name: string)
      requires Valid() && name !in logs
      modifies this`logs, this`streams, this`nextInstance
      ensures Valid()
      ensures logs == old(logs)[name := Opened(db, processorInstalled, name, old(nextInstance))]
      ensures nextInstance == old(nextInstance) + 1
      ensures streams == old(streams) + (if processorInstalled then multiset{name} else multiset{})
    {
      var created := Channel(nextInstance, DiscoveryId(name), [], None);
      ghost var logs0, streams0, next0 := logs, streams, nextInstance;
      logs := logs[name := created];
      nextInstance := nextInstance + 1;
      if processorInstalled {
        StartProcessor(name);
      }
      ghost var ch := Opened(db, processorInstalled, name, next0);
      assert logs == logs0[name := ch];
      OpenKeepsStreams(logs0, streams0, processorInstalled, name, ch);
      OpenKeepsRegistered(logs0, next0, name, ch);
    }

    /** The config callback as swarm.js writes it: it opens the log even when
        the name was registered by an earlier callback, replacing that log without
        destroying its processing stream. */
    method ConfigArrivedAsWritten(i: nat, reply: FetchReply)
      requires i < |pending|
      modifies this`pending, this`config, this`logs, this`streams, this`nextInstance
      ensures pending == old(pending[..i] + pending[i + 1..])
      ensures config == if Truthy(RemoteConfig(reply).config) then RemoteConfig(reply).config else old(config)
      ensures logs == old(logs)[old(pending[i]) := Opened(db, processorInstalled, old(pending[i]), old(nextInstance))]
      ensures nextInstance == old(nextInstance) + 1
      ensures streams == old(streams) + (if processorInstalled then multiset{old(pending[i])} else multiset{})
    {
      var name := pending[i];
      pending := pending[..i] + pending[i + 1..];
      var r := RemoteConfig(reply);
      if Truthy(r.config) {
        config := r.config;
      }
      logs := logs[name := Channel(nextInstance, DiscoveryId(name), [], None)];
      nextInstance := nextInstance + 1;
      if processorInstalled {
        StartProcessor(name);
      }
    }

    /** The `peer` handler of log `instance` of `name`: the new peer goes to the end
        of that log's list. A handler of a log no longer registered changes nothing
        in the registry. */
    method PeerJoined(name: string, instance: nat, p: PeerId)
      requires Valid()
      modifies this`logs
      ensures Valid()
      ensures Bound(old(logs), name, instance) ==>
        logs == old(logs)[name := old(logs[name]).(peers := old(logs[name]).peers + [p])]
      ensures !Bound(old(logs), name, instance) ==> logs == old(logs)
    {
      if !Bound(logs, name, instance) {
        return;
      }
      var log := logs[name];
      logs := logs[name := log.(peers := log.peers + [p])];
    }

    /** The `close` handler of peer `p`: removes its first occurrence from the list
        of the log it joined, keeping the other peers in order; nothing when it is
        not on the list. */
    method PeerClosed(name: string, instance: nat, p: PeerId)
      requires Valid()
      modifies this`logs
      ensures Valid()
      ensures Bound(old(logs), name, instance) ==>
        logs == old(logs)[name := old(logs[name]).(peers := RemoveFirst(old(logs[name]).peers, p))]
      ensures !Bound(old(logs), name, instance) ==> logs == old(logs)
    {
      if !Bound(logs, name, instance) {
        return;
      }
      var log := logs[name];
      var i := IndexOf(log.peers, p);
      if i > -1 {
        SpliceRemovesFirst(log.peers, p, i);
        logs := logs[name := log.(peers := log.peers[..i] + log.peers[i + 1..])];
      } else {
        RemoveAbsent(log.peers, p);
      }
    }

    /** `swarm.send(message, cb)`, with the outcomes of the heads lookup and of the
        append given. A sign error ends it with nothing appended. Otherwise the
        target channel is requested; if it is not registered yet the lookup of its
        log throws. A heads or append error is passed on with nothing appended. On
        success the entry's parents are exactly the heads just read, so it becomes
        the log's only head. */
    method Send(message: Message, headsErr: Option<Error>, addErr: Option<Error>) returns (outcome: SendOutcome)
      requires Valid()
      modifies this`pending, this`db
      ensures Valid()
      ensures Outbound(codec, sign, message).Err? ==>
        outcome == Failed(Outbound(codec, sign, message).error) &&
        pending == old(pending) && db == old(db)
      ensures Outbound(codec, sign, message).Ok? ==>
        var out := Outbound(codec, sign, message).value;
        var ch := out.channel;
        (pending == if ch in logs then old(pending) else old(pending) + [ch]) &&
        (ch !in logs ==> outcome == Thrown && db == old(db)) &&
        (ch in logs && headsErr.Some? ==> outcome == Failed(headsErr.value) && db == old(db)) &&
        (ch in logs && headsErr.None? && addErr.Some? ==> outcome == Failed(addErr.value) && db == old(db)) &&
        (ch in logs && headsErr.None? && addErr.None? ==>
          outcome == Appended(Count(PartitionOf(old(db), ch)) + 1) &&
          db == old(db)[ch := Append(PartitionOf(old(db), ch), Heads(PartitionOf(old(db), ch)), codec.encodeSigned(out.envelope))] &&
          Heads(PartitionOf(db, ch)) == {outcome.change})
    {
      var plan := Outbound(codec, sign, message);
      if plan.Err? {
        return Failed(plan.error);
      }
      var ch := plan.value.channel;
      var _ := RequestChannel(ch);
      if ch !in logs {
        return Thrown;
      }
      if headsErr.Some? {
        return Failed(headsErr.value);
      }
      if addErr.Some? {
        return Failed(addErr.value);
      }
      var log := PartitionOf(db, ch);
      var heads := Heads(log);
      AppendAtHeads(log, codec.encodeSigned(plan.value.envelope));
      db := db[ch := Append(log, heads, codec.encodeSigned(plan.value.envelope))];
      outcome := Appended(Count(log) + 1);
    }
  }

  /** Two `addChannel("x")` calls before the first config callback, with a
      processor installed, as swarm.js runs them: one registered channel, but
      two live reads of its partition, so two processing loops run for one channel. */
  method DuplicateOpenAsWritten(codec: Codec) returns (registered: nat, liveReads: nat)
    ensures registered == 1 && liveReads == 2
  {
    var s := new Swarm(codec, map[], Undefined);
    s.Process();
    var first := s.RequestChannel("x");
    var second := s.RequestChannel("x");
    s.ConfigArrivedAsWritten(0, NetError("offline"));
    s.ConfigArrivedAsWritten(0, NetError("offline"));
    registered := |s.logs|;
    liveReads := s.streams["x"];
  }

  /** The same calls with the registration re-checked in the callback: one
      channel and one live read. */
  method DuplicateOpenGuarded(codec: Codec) returns (registered: nat, liveReads: nat)
    ensures registered == 1 && liveReads == 1
  {
    var s := new Swarm(codec, map[], Undefined);
    s.Process();
    var first := s.RequestChannel("x");
    var second := s.RequestChannel("x");
    s.ConfigArrived(0, NetError("offline"));
    s.ConfigArrived(0, NetError("offline"));
    registered := |s.logs|;
    liveReads := s.streams["x"];
  }
}
