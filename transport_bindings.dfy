/**
 * Transport dispatch, from Sources/AsyncAPIBuilder/TransportBindings.swift:
 * the protocol-to-binder registry, `expandOperations` (the operations of a
 * document that belong to one channel, in ascending key order) and
 * `AsyncAPI.bind`, which calls a binder for every server, channel and
 * operation and stops at the first error.
 */
module TransportBindings {
  import opened Wrappers
  import opened References
  import opened AsyncAPIModel
  import opened Strings
  import opened FailFast

  /** The binders; the three shipped ones have empty bodies, any other is known by a name. */
  datatype Binder = WebSocketBinder | HTTPBinder | KafkaBinder | CustomBinder(name: string)

  /** `registerDefaults` applied to a registry map. */
  function WithDefaults(registry: map<string, Binder>): (r: map<string, Binder>)
    ensures r.Keys == registry.Keys + {"ws", "http", "kafka"}
    ensures r["ws"] == WebSocketBinder && r["http"] == HTTPBinder && r["kafka"] == KafkaBinder
    ensures forall p :: p in registry && p != "ws" && p != "http" && p != "kafka" ==> r[p] == registry[p]
  {
    registry["ws" := WebSocketBinder]["http" := HTTPBinder]["kafka" := KafkaBinder]
  }

  /** `BinderRegistry`, taken as a sequential object. */
  class BinderRegistry {
    var registry: map<string, Binder>

    constructor ()
      ensures registry == map[]
    {
      registry := map[];
    }

    /** `binder(for:)`: the binder registered for `proto`, if any. */
    function BinderFor(proto: string): (r: Option<Binder>)
      reads this
      ensures r.Some? <==> proto in registry
      ensures r.Some? ==> r.value == registry[proto]
    {
      if proto in registry then Some(registry[proto]) else None
    }

    /** `register`: afterwards `proto` gives `binder`, and every other protocol what it gave before. */
    method Register(proto: string, binder: Binder)
      modifies this
      ensures BinderFor(proto) == Some(binder)
      ensures forall p :: p != proto ==> BinderFor(p) == old(BinderFor(p))
      ensures registry == old(registry)[proto := binder]
    {
      registry := registry[proto := binder];
    }

    /** `registerDefaults`: overwrites exactly `ws`, `http` and `kafka`. */
    method RegisterDefaults()
      modifies this
      ensures registry == WithDefaults(old(registry))
      ensures forall p :: p != "ws" && p != "http" && p != "kafka" ==> BinderFor(p) == old(BinderFor(p))
    {
      registry := registry["ws" := WebSocketBinder];
      registry := registry["http" := HTTPBinder];
      registry := registry["kafka" := KafkaBinder];
    }
  }

  // ---------------------------------------------------------------------------
  // `expandOperations`.
  // ---------------------------------------------------------------------------

  /**
   * Whether an operation belongs to `channel`: a reference must be
   * `#/channels/` followed by the channel's address (empty when absent); an
   * inline channel must have the same address, both absent counting as equal.
   */
  predicate Matches(channel: Channel, op: Operation) {
    match op.channel
    case Reference(ref) => ref == ChannelRef(channel.address.GetOr(""))
    case Value(v) => v.address == channel.address
  }

  /** The operations under `keys`, in that order, that belong to `channel` (every key is one of `ops`'s). */
  function Select(channel: Channel, ops: map<string, Operation>, keys: seq<string>): seq<Operation>
    decreases |keys|
  {
    if |keys| == 0 then []
    else
      var k := keys[|keys| - 1];
      Select(channel, ops, keys[..|keys| - 1]) + if k in ops && Matches(channel, ops[k]) then [ops[k]] else []
  }

  /** The keys `Select` keeps. */
  function SelectedKeys(channel: Channel, ops: map<string, Operation>, keys: seq<string>): seq<string>
    decreases |keys|
  {
    if |keys| == 0 then []
    else
      var k := keys[|keys| - 1];
      SelectedKeys(channel, ops, keys[..|keys| - 1]) + if k in ops && Matches(channel, ops[k]) then [k] else []
  }

  /** What `expandOperations` returns: the document's operations for `channel`, by ascending key. */
  ghost function Expanded(channel: Channel, doc: AsyncAPI): seq<Operation> {
    if doc.operations.None? then []
    else
      var ops := doc.operations.value;
      Select(channel, ops, SortedKeys(ops.Keys))
  }

  /** The least element of a non-empty set, by one pass over it. */
  method LeastOf(s: set<string>) returns (k: string)
    requires s != {}
    ensures IsLeast(k, s)
  {
    k :| k in s;
    var rest := s - {k};
    while rest != {}
      invariant rest <= s && k in s && k !in rest
      invariant forall y :: y in s - rest && y != k ==> Less(k, y)
      decreases |rest|
    {
      var y :| y in rest;
      if Less(y, k) {
        forall z | z in s - rest && z != y
          ensures Less(y, z)
        {
          if z != k {
            LessTransitive(y, k, z);
          }
        }
        k := y;
      } else {
        LessTotal(y, k);
      }
      rest := rest - {y};
    }
  }

  /** `keys.sorted()`, by repeatedly taking the least remaining key. */
  method SortKeys(s: set<string>) returns (r: seq<string>)
    ensures r == SortedKeys(s)
  {
    r := [];
    var remaining := s;
    while remaining != {}
      invariant r + SortedKeys(remaining) == SortedKeys(s)
      decreases |remaining|
    {
      var k := LeastOf(remaining);
      SortedKeysUnfold(k, remaining);
      r := r + [k];
      remaining := remaining - {k};
    }
  }

  /** `expandOperations(in:document:)` */
  method ExpandOperations(channel: Channel, doc: AsyncAPI) returns (result: seq<Operation>)
    ensures result == Expanded(channel, doc)
    ensures doc.operations.None? ==> result == []
  {
    if doc.operations.None? {
      return [];
    }
    var operations := doc.operations.value;
    var keys := SortKeys(operations.Keys);
    SortedKeysMembers(operations.Keys);
    result := [];
    for i := 0 to |keys|
      invariant result == Select(channel, operations, keys[..i])
    {
      var op := operations[keys[i]];
      assert keys[..i + 1][..i] == keys[..i];
      match op.channel
      case Reference(ref) =>
        if ref == "#/channels/" + channel.address.GetOr("") {
          result := result + [op];
        }
      case Value(value) =>
        if value.address == channel.address {
          result := result + [op];
        }
    }
    assert keys[..|keys|] == keys;
  }

  /** `Select` keeps one entry per kept key, and each kept entry is that key's operation. */
  lemma {:induction false} SelectSpec(channel: Channel, ops: map<string, Operation>, keys: seq<string>)
    ensures |Select(channel, ops, keys)| == |SelectedKeys(channel, ops, keys)|
    ensures forall i :: 0 <= i < |SelectedKeys(channel, ops, keys)| ==>
      SelectedKeys(channel, ops, keys)[i] in ops &&
      Select(channel, ops, keys)[i] == ops[SelectedKeys(channel, ops, keys)[i]]
    decreases |keys|
  {
    if |keys| > 0 {
      SelectSpec(channel, ops, keys[..|keys| - 1]);
    }
  }

  /** `Select` keeps exactly the given keys that name an operation belonging to `channel`. */
  lemma {:induction false} SelectedKeysMembers(channel: Channel, ops: map<string, Operation>, keys: seq<string>)
    ensures forall k :: k in SelectedKeys(channel, ops, keys) <==> k in keys && k in ops && Matches(channel, ops[k])
    decreases |keys|
  {
    if |keys| > 0 {
      var init := keys[..|keys| - 1];
      SelectedKeysMembers(channel, ops, init);
      assert keys == init + [keys[|keys| - 1]];
    }
  }

  /** `Select` keeps the given keys in their order. */
  lemma {:induction false} SelectedKeysAscending(channel: Channel, ops: map<string, Operation>, keys: seq<string>)
    requires StrictlyAscending(keys)
    ensures StrictlyAscending(SelectedKeys(channel, ops, keys))
    decreases |keys|
  {
    if |keys| > 0 {
      var init := keys[..|keys| - 1];
      var last := keys[|keys| - 1];
      assert StrictlyAscending(init) by {
        forall i, j | 0 <= i < j < |init|
          ensures Less(init[i], init[j])
        {
          assert init[i] == keys[i] && init[j] == keys[j];
        }
      }
      SelectedKeysAscending(channel, ops, init);
      SelectedKeysMembers(channel, ops, init);
      var sk := SelectedKeys(channel, ops, init);
      forall x | x in sk
        ensures Less(x, last)
      {
        var i :| 0 <= i < |init| && init[i] == x;
        assert keys[i] == x;
      }
    }
  }

  /**
   * `expandOperations`: empty without operations; otherwise the operations
   * of exactly the keys that belong to `channel`, one each, in ascending key order.
   */
  lemma ExpandedSpec(channel: Channel, doc: AsyncAPI)
    ensures doc.operations.None? ==> Expanded(channel, doc) == []
    ensures doc.operations.Some? ==>
      var ops := doc.operations.value;
      exists ks: seq<string> ::
        && StrictlyAscending(ks)
        && |ks| == |Expanded(channel, doc)|
        && (forall i :: 0 <= i < |ks| ==> ks[i] in ops && Expanded(channel, doc)[i] == ops[ks[i]])
        && (forall k :: k in ks <==> k in ops && Matches(channel, ops[k]))
  {
    if doc.operations.Some? {
      var ops := doc.operations.value;
      SortedKeysSpec(ops.Keys);
      var keys := SortedKeys(ops.Keys);
      SelectSpec(channel, ops, keys);
      SelectedKeysMembers(channel, ops, keys);
      SelectedKeysAscending(channel, ops, keys);
      var ks := SelectedKeys(channel, ops, keys);
      assert StrictlyAscending(ks);
      assert Expanded(channel, doc) == Select(channel, ops, keys);
    }
  }

  /** The two ways an operation can name its channel, as `expandOperations` compares them. */
  lemma MatchesCases(channel: Channel, op: Operation, other: Channel)
    ensures op.channel == Reference(ChannelRef(channel.address.GetOr(""))) ==> Matches(channel, op)
    ensures op.channel.Reference? && Matches(channel, op) ==> op.channel.ref == "#/channels/" + channel.address.GetOr("")
    ensures op.channel == Value(other) ==> (Matches(channel, op) <==> other.address == channel.address)
    ensures channel.address.None? && op.channel == Value(other) && other.address.None? ==> Matches(channel, op)
  {
  }

  // ---------------------------------------------------------------------------
  // `AsyncAPI.bind`.
  // ---------------------------------------------------------------------------

  /** One call `binder.bind(server:channel:operation:using:)`. */
  datatype BindCall = BindCall(binder: Binder, server: Server, channel: Channel, operation: Operation)

  /** The calls for one server and channel: one per expanded operation, in order. */
  function OperationCalls(b: Binder, s: Server, c: Channel, ops: seq<Operation>): (r: seq<BindCall>)
    ensures |r| == |ops|
    ensures forall i :: 0 <= i < |ops| ==> r[i] == BindCall(b, s, c, ops[i])
    decreases |ops|
  {
    if |ops| == 0 then [] else [BindCall(b, s, c, ops[0])] + OperationCalls(b, s, c, ops[1..])
  }

  /** The calls for one server with binder `b`: its channels in order. */
  ghost function ChannelCalls(doc: AsyncAPI, b: Binder, s: Server, cs: seq<Channel>): seq<BindCall>
    decreases |cs|
  {
    if |cs| == 0 then []
    else OperationCalls(b, s, cs[0], Expanded(cs[0], doc)) + ChannelCalls(doc, b, s, cs[1..])
  }

  /** The calls `bind` would make without any error: servers without a binder are skipped. */
  ghost function ServerCalls(doc: AsyncAPI, registry: map<string, Binder>, ss: seq<Server>, cs: seq<Channel>): seq<BindCall>
    decreases |ss|
  {
    if |ss| == 0 then []
    else
      ServerBlock(doc, registry, ss[0], cs) + ServerCalls(doc, registry, ss[1..], cs)
  }

  /** `keys` lists each element of `s` exactly once. */
  predicate Enumerates(keys: seq<string>, s: set<string>) {
    && (forall i :: 0 <= i < |keys| ==> keys[i] in s)
    && (forall k :: k in s ==> k in keys)
    && (forall i, j :: 0 <= i < j < |keys| ==> keys[i] != keys[j])
  }

  /** The values of `m` under `keys`, in that order. */
  function Lookup<V>(m: map<string, V>, keys: seq<string>): (r: seq<V>)
    requires forall i :: 0 <= i < |keys| ==> keys[i] in m
    ensures |r| == |keys|
    ensures forall i :: 0 <= i < |keys| ==> r[i] == m[keys[i]]
    decreases |keys|
  {
    if |keys| == 0 then [] else [m[keys[0]]] + Lookup(m, keys[1..])
  }

  /** One operation further: its call either throws and ends the run or joins the trace. */
  lemma OperationStep(b: Binder, s: Server, c: Channel, ops: seq<Operation>, k: int,
                      trace: seq<BindCall>, fails: BindCall -> bool)
    requires 0 <= k < |ops|
    ensures var call := BindCall(b, s, c, ops[k]);
      Continue(trace, OperationCalls(b, s, c, ops[k..]), fails) ==
        if fails(call) then Outcome(trace + [call], Some(call))
        else Continue(trace + [call], OperationCalls(b, s, c, ops[k + 1..]), fails)
  {
    assert ops[k..][0] == ops[k] && ops[k..][1..] == ops[k + 1..];
    ContinueStep(trace, BindCall(b, s, c, ops[k]), OperationCalls(b, s, c, ops[k + 1..]), fails);
  }

  /** The binder calls for one server and channel, stopping at the first error. */
  method BindChannel(doc: AsyncAPI, b: Binder, server: Server, channel: Channel, fails: BindCall -> bool)
    returns (o: Outcome<BindCall>)
    ensures o == Run(OperationCalls(b, server, channel, Expanded(channel, doc)), fails)
  {
    var operations := ExpandOperations(channel, doc);
    ghost var all := OperationCalls(b, server, channel, operations);
    var trace := [];
    assert operations[0..] == operations;
    for k := 0 to |operations|
      invariant Run(all, fails) == Continue(trace, OperationCalls(b, server, channel, operations[k..]), fails)
    {
      var call := BindCall(b, server, channel, operations[k]);
      OperationStep(b, server, channel, operations, k, trace, fails);
      if fails(call) {
        return Outcome(trace + [call], Some(call));
      }
      trace := trace + [call];
    }
    assert operations[|operations|..] == [];
    o := Outcome(trace, None);
  }

  /** One channel further: its block of calls either ends the run or is made in full. */
  lemma ChannelStep(doc: AsyncAPI, b: Binder, s: Server, cs: seq<Channel>, j: int,
                    trace: seq<BindCall>, fails: BindCall -> bool)
    requires 0 <= j < |cs|
    ensures var here := Run(OperationCalls(b, s, cs[j], Expanded(cs[j], doc)), fails);
      Continue(trace, ChannelCalls(doc, b, s, cs[j..]), fails) ==
        if here.failure.Some? then Outcome(trace + here.trace, here.failure)
        else Continue(trace + here.trace, ChannelCalls(doc, b, s, cs[j + 1..]), fails)
  {
    assert cs[j..][0] == cs[j] && cs[j..][1..] == cs[j + 1..];
    ContinueBlock(trace, OperationCalls(b, s, cs[j], Expanded(cs[j], doc)), ChannelCalls(doc, b, s, cs[j + 1..]), fails);
  }

  /** The calls a server contributes: none when its protocol has no binder. */
  ghost function ServerBlock(doc: AsyncAPI, registry: map<string, Binder>, s: Server, cs: seq<Channel>): seq<BindCall> {
    if s.protocol in registry then ChannelCalls(doc, registry[s.protocol], s, cs) else []
  }

  /** One server further: skipped without a binder, else its block either ends the run or is made in full. */
  lemma ServerStep(doc: AsyncAPI, registry: map<string, Binder>, ss: seq<Server>, cs: seq<Channel>, i: int,
                   trace: seq<BindCall>, fails: BindCall -> bool)
    requires 0 <= i < |ss|
    ensures ss[i].protocol !in registry ==>
      Continue(trace, ServerCalls(doc, registry, ss[i..], cs), fails) ==
      Continue(trace, ServerCalls(doc, registry, ss[i + 1..], cs), fails)
    ensures ss[i].protocol in registry ==>
      var here := Run(ChannelCalls(doc, registry[ss[i].protocol], ss[i], cs), fails);
      Continue(trace, ServerCalls(doc, registry, ss[i..], cs), fails) ==
        if here.failure.Some? then Outcome(trace + here.trace, here.failure)
        else Continue(trace + here.trace, ServerCalls(doc, registry, ss[i + 1..], cs), fails)
  {
    assert ss[i..][0] == ss[i] && ss[i..][1..] == ss[i + 1..];
    ContinueBlock(trace, ServerBlock(doc, registry, ss[i], cs), ServerCalls(doc, registry, ss[i + 1..], cs), fails);
  }

  /** The binder calls for one server, its channels in the order `channelKeys`, stopping at the first error. */
  method BindServer(doc: AsyncAPI, b: Binder, server: Server, channels: map<string, Channel>,
                    channelKeys: seq<string>, fails: BindCall -> bool)
    returns (o: Outcome<BindCall>)
    requires forall i :: 0 <= i < |channelKeys| ==> channelKeys[i] in channels
    ensures o == Run(ChannelCalls(doc, b, server, Lookup(channels, channelKeys)), fails)
  {
    ghost var cs := Lookup(channels, channelKeys);
    ghost var all := ChannelCalls(doc, b, server, cs);
    var trace := [];
    assert cs[0..] == cs;
    for j := 0 to |channelKeys|
      invariant Run(all, fails) == Continue(trace, ChannelCalls(doc, b, server, cs[j..]), fails)
    {
      var channel := channels[channelKeys[j]];
      var c := BindChannel(doc, b, server, channel, fails);
      ChannelStep(doc, b, server, cs, j, trace, fails);
      if c.failure.Some? {
        return Outcome(trace + c.trace, c.failure);
      }
      trace := trace + c.trace;
    }
    assert cs[|channelKeys|..] == [];
    o := Outcome(trace, None);
  }
  /** The server loop of `bind`, with the registry already holding its defaults. */
  method BindServers(doc: AsyncAPI, registry: BinderRegistry, servers: map<string, Server>, serverKeys: seq<string>,
                     channels: map<string, Channel>, channelKeys: seq<string>, fails: BindCall -> bool)
    returns (o: Outcome<BindCall>)
    requires forall i :: 0 <= i < |serverKeys| ==> serverKeys[i] in servers
    requires forall j :: 0 <= j < |channelKeys| ==> channelKeys[j] in channels
    ensures o == Run(ServerCalls(doc, registry.registry, Lookup(servers, serverKeys), Lookup(channels, channelKeys)), fails)
  {
    ghost var ss := Lookup(servers, serverKeys);
    ghost var cs := Lookup(channels, channelKeys);
    ghost var all := ServerCalls(doc, registry.registry, ss, cs);
    var trace := [];
    assert ss[0..] == ss;
    for i := 0 to |serverKeys|
      invariant Run(all, fails) == Continue(trace, ServerCalls(doc, registry.registry, ss[i..], cs), fails)
    {
      var server := servers[serverKeys[i]];
      var binder := registry.BinderFor(server.protocol);
      ServerStep(doc, registry.registry, ss, cs, i, trace, fails);
      if binder.Some? {
        var c := BindServer(doc, binder.value, server, channels, channelKeys, fails);
        if c.failure.Some? {
          return Outcome(trace + c.trace, c.failure);
        }
        trace := trace + c.trace;
      }
    }
    assert ss[|serverKeys|..] == [];
    o := Outcome(trace, None);
  }

  /**
   * `AsyncAPI.bind(using:)`. The registry first gets its defaults; then, for
   * each server (in the enumeration order `serverKeys`) whose protocol has a
   * binder, for each channel (in the order `channelKeys`), for each expanded
   * operation, the binder is called once. `fails` says which calls throw; the
   * first one that does ends the whole call, remaining servers included.
   */
  method Bind(doc: AsyncAPI, registry: BinderRegistry, serverKeys: seq<string>, channelKeys: seq<string>,
              fails: BindCall -> bool)
    returns (trace: seq<BindCall>, failure: Option<BindCall>)
    requires Enumerates(serverKeys, doc.servers.GetOr(map[]).Keys)
    requires Enumerates(channelKeys, doc.channels.GetOr(map[]).Keys)
    modifies registry
    ensures registry.registry == WithDefaults(old(registry.registry))
    ensures Outcome(trace, failure) ==
      Run(ServerCalls(doc, registry.registry, Lookup(doc.servers.GetOr(map[]), serverKeys),
                      Lookup(doc.channels.GetOr(map[]), channelKeys)), fails)
  {
    registry.RegisterDefaults();
    var o := BindServers(doc, registry, doc.servers.GetOr(map[]), serverKeys,
                         doc.channels.GetOr(map[]), channelKeys, fails);
    trace, failure := o.trace, o.failure;
  }
}
