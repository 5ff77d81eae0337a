/**
 * The channel-scoped builder of Sources/AsyncAPIBuilder/ChannelDSL.swift:
 * operations declared inside a channel are `OperationBuilder` objects, shared
 * by reference between the caller and the channel's list, and
 * `buildOperations` expands them into document operations keyed
 * `<channelKey>-<idx>`.
 */
module ChannelDSL {
  import opened Wrappers
  import opened JsonValue
  import opened References
  import opened AsyncAPIModel
  import opened Strings

  /** The fields of an `OperationBuilder` that reach the document; the payload type is an opaque name. */
  datatype OperationDecl = OperationDecl(
    action: Action,
    payloadType: string,
    summary: Option<string>,
    description: Option<string>,
    tags: Option<seq<Tag>>,
    externalDocs: Option<ExternalDoc>,
    bindings: Option<Json>)

  /** `OperationBuilder`: a reference type whose setters update it in place and return it. */
  class OperationBuilder {
    const action: Action
    const payloadType: string
    var summary: Option<string>
    var description: Option<string>
    var tags: Option<seq<Tag>>
    var externalDocs: Option<ExternalDoc>
    var bindings: Option<Json>

    constructor (action: Action, payloadType: string)
      ensures Decl() == OperationDecl(action, payloadType, None, None, None, None, None)
    {
      this.action := action;
      this.payloadType := payloadType;
      summary := None;
      description := None;
      tags := None;
      externalDocs := None;
      bindings := None;
    }

    function Decl(): OperationDecl
      reads this
    {
      OperationDecl(action, payloadType, summary, description, tags, externalDocs, bindings)
    }

    method Summary(value: string) returns (self: OperationBuilder)
      modifies this
      ensures self == this
      ensures Decl() == old(Decl()).(summary := Some(value))
    {
      summary := Some(value);
      self := this;
    }

    method Description(value: string) returns (self: OperationBuilder)
      modifies this
      ensures self == this
      ensures Decl() == old(Decl()).(description := Some(value))
    {
      description := Some(value);
      self := this;
    }

    method Tags(value: seq<Tag>) returns (self: OperationBuilder)
      modifies this
      ensures self == this
      ensures Decl() == old(Decl()).(tags := Some(value))
    {
      tags := Some(value);
      self := this;
    }

    method ExternalDocs(value: ExternalDoc) returns (self: OperationBuilder)
      modifies this
      ensures self == this
      ensures Decl() == old(Decl()).(externalDocs := Some(value))
    {
      externalDocs := Some(value);
      self := this;
    }

    method Bindings(value: Json) returns (self: OperationBuilder)
      modifies this
      ensures self == this
      ensures Decl() == old(Decl()).(bindings := Some(value))
    {
      bindings := Some(value);
      self := this;
    }
  }

  /** The current declarations of a list of builders, in order. */
  function DeclsOf(ops: seq<OperationBuilder>): (r: seq<OperationDecl>)
    reads ops
    ensures |r| == |ops|
    ensures forall i :: 0 <= i < |ops| ==> r[i] == ops[i].Decl()
  {
    if |ops| == 0 then [] else DeclsOf(ops[..|ops| - 1]) + [ops[|ops| - 1].Decl()]
  }

  /** The fields of a `ChannelBuilder` other than its address. */
  datatype ChannelState = ChannelState(
    parameters: map<string, Json>,
    operations: seq<OperationBuilder>,
    summary: Option<string>,
    description: Option<string>,
    tags: Option<seq<Tag>>,
    externalDocs: Option<ExternalDoc>,
    bindings: Option<Json>)

  /** The operation runtime `buildOperations` hands to the runtime registry, without its handler. */
  datatype Registration = Registration(key: string, action: Action, payloadType: string)

  /** `ChannelBuilder`: its mutating methods update it in place. */
  class ChannelBuilder {
    const address: string
    var parameters: map<string, Json>
    var operations: seq<OperationBuilder>
    var summary: Option<string>
    var description: Option<string>
    var tags: Option<seq<Tag>>
    var externalDocs: Option<ExternalDoc>
    var bindings: Option<Json>

    constructor (address: string)
      ensures this.address == address
      ensures State() == ChannelState(map[], [], None, None, None, None, None)
    {
      this.address := address;
      parameters := map[];
      operations := [];
      summary := None;
      description := None;
      tags := None;
      externalDocs := None;
      bindings := None;
    }

    function State(): ChannelState
      reads this
    {
      ChannelState(parameters, operations, summary, description, tags, externalDocs, bindings)
    }

    /** The declarations of the nested operations as they stand now. */
    function Decls(): (r: seq<OperationDecl>)
      reads this, operations
      ensures |r| == |operations|
    {
      DeclsOf(operations)
    }

    /** `parameter(_:_:)`: sets or overwrites the one entry `name`. */
    method Parameter(name: string, schema: Json)
      modifies this
      ensures State() == old(State()).(parameters := old(parameters)[name := schema])
    {
      parameters := parameters[name := schema];
    }

    /** `subscribe`: appends one new `receive` builder and returns that same object. */
    method Subscribe(payloadType: string) returns (op: OperationBuilder)
      modifies this
      ensures fresh(op)
      ensures op.Decl() == OperationDecl(Receive, payloadType, None, None, None, None, None)
      ensures State() == old(State()).(operations := old(operations) + [op])
    {
      op := new OperationBuilder(Receive, payloadType);
      operations := operations + [op];
    }

    /** `publish`: appends one new `send` builder and returns that same object. */
    method Publish(payloadType: string) returns (op: OperationBuilder)
      modifies this
      ensures fresh(op)
      ensures op.Decl() == OperationDecl(Send, payloadType, None, None, None, None, None)
      ensures State() == old(State()).(operations := old(operations) + [op])
    {
      op := new OperationBuilder(Send, payloadType);
      operations := operations + [op];
    }

    method Summary(value: string)
      modifies this
      ensures State() == old(State()).(summary := Some(value))
    {
      summary := Some(value);
    }

    method Description(value: string)
      modifies this
      ensures State() == old(State()).(description := Some(value))
    {
      description := Some(value);
    }

    method Tags(value: seq<Tag>)
      modifies this
      ensures State() == old(State()).(tags := Some(value))
    {
      tags := Some(value);
    }

    method ExternalDocs(value: ExternalDoc)
      modifies this
      ensures State() == old(State()).(externalDocs := Some(value))
    {
      externalDocs := Some(value);
    }

    method Bindings(value: Json)
      modifies this
      ensures State() == old(State()).(bindings := Some(value))
    {
      bindings := Some(value);
    }

    /** `finish`: the channel's own fields; parameters and nested operations are never written. */
    function Finish(): (c: Channel)
      reads this
      ensures c.address == Some(address)
      ensures c.parameters.None? && c.messages.None? && c.servers.None? && c.title.None?
      ensures c.summary == summary && c.description == description && c.tags == tags
      ensures c.externalDocs == externalDocs && c.bindings == bindings
    {
      Channel(Some(address), None, summary, description, None, tags, externalDocs, bindings, None, None)
    }

    /** `buildOperations(channelKey:)`: one operation per nested builder, in declaration order. */
    method BuildOperations(channelKey: string) returns (result: map<string, Operation>, registrations: seq<Registration>)
      ensures result == Expand(channelKey, Decls())
      ensures registrations == Registrations(channelKey, Decls())
    {
      result := map[];
      registrations := [];
      ghost var ds := Decls();
      for i := 0 to |operations|
        invariant result == Expand(channelKey, ds[..i])
        invariant registrations == Registrations(channelKey, ds[..i])
      {
        var op := operations[i];
        var key := channelKey + "-" + NatToString(i);
        var operation := Operation(op.action, Reference("#/channels/" + channelKey), None, None, None, None,
                                   op.summary, op.description, None, op.tags, op.externalDocs, op.bindings);
        assert ds[i] == op.Decl();
        assert ds[..i + 1][..i] == ds[..i];
        assert operation == ToOperation(channelKey, ds[i]);
        result := result[key := operation];
        registrations := registrations + [Registration(key, op.action, op.payloadType)];
      }
      assert ds[..|operations|] == ds;
    }
  }

  // ---------------------------------------------------------------------------
  // What `buildOperations` computes.
  // ---------------------------------------------------------------------------

  /** `"\(channelKey)-\(idx)"` */
  function OperationKey(channelKey: string, idx: nat): string {
    channelKey + "-" + NatToString(idx)
  }

  /** The document operation built from one nested declaration. */
  function ToOperation(channelKey: string, d: OperationDecl): (o: Operation)
    ensures o.action == d.action && o.channel == Reference(ChannelRef(channelKey))
    ensures o.summary == d.summary && o.description == d.description && o.tags == d.tags
    ensures o.externalDocs == d.externalDocs && o.bindings == d.bindings
    ensures o.messages.None? && o.reply.None? && o.traits.None? && o.title.None? && o.security.None?
  {
    Operation(d.action, Reference(ChannelRef(channelKey)), None, None, None, None,
              d.summary, d.description, None, d.tags, d.externalDocs, d.bindings)
  }

  function Expand(channelKey: string, ds: seq<OperationDecl>): map<string, Operation>
    decreases |ds|
  {
    if |ds| == 0 then map[]
    else Expand(channelKey, ds[..|ds| - 1])[OperationKey(channelKey, |ds| - 1) := ToOperation(channelKey, ds[|ds| - 1])]
  }

  function Registrations(channelKey: string, ds: seq<OperationDecl>): (r: seq<Registration>)
    ensures |r| == |ds|
    ensures forall i :: 0 <= i < |ds| ==> r[i] == Registration(OperationKey(channelKey, i), ds[i].action, ds[i].payloadType)
    decreases |ds|
  {
    if |ds| == 0 then []
    else
      var last := ds[|ds| - 1];
      Registrations(channelKey, ds[..|ds| - 1]) + [Registration(OperationKey(channelKey, |ds| - 1), last.action, last.payloadType)]
  }

  lemma OperationKeyInjective(channelKey: string, a: nat, b: nat)
    requires OperationKey(channelKey, a) == OperationKey(channelKey, b)
    ensures a == b
  {
    var n := |channelKey| + 1;
    assert OperationKey(channelKey, a)[n..] == NatToString(a);
    assert OperationKey(channelKey, b)[n..] == NatToString(b);
    NatToStringInjective(a, b);
  }

  /** The keys `<channelKey>-<i>` of the first `n` declarations. */
  ghost function KeysUpTo(channelKey: string, n: nat): set<string> {
    set i | 0 <= i < n :: OperationKey(channelKey, i)
  }

  /** Adding the next index adds exactly its key. */
  lemma KeysUpToNext(channelKey: string, n: nat)
    ensures KeysUpTo(channelKey, n + 1) == KeysUpTo(channelKey, n) + {OperationKey(channelKey, n)}
  {
    var k := OperationKey(channelKey, n);
    forall x | x in KeysUpTo(channelKey, n + 1)
      ensures x in KeysUpTo(channelKey, n) + {k}
    {
      var i :| 0 <= i < n + 1 && OperationKey(channelKey, i) == x;
      if i < n {
        assert x in KeysUpTo(channelKey, n);
      }
    }
    forall x | x in KeysUpTo(channelKey, n) + {k}
      ensures x in KeysUpTo(channelKey, n + 1)
    {
      if x != k {
        var i :| 0 <= i < n && OperationKey(channelKey, i) == x;
        assert 0 <= i < n + 1;
      }
    }
  }

  /**
   * The operations built for `channelKey`: exactly one key `<channelKey>-<i>`
   * per nested declaration `i`, holding the operation built from it.
   */
  lemma {:induction false} ExpandSpec(channelKey: string, ds: seq<OperationDecl>)
    ensures Expand(channelKey, ds).Keys == KeysUpTo(channelKey, |ds|)
    ensures forall i :: 0 <= i < |ds| ==> Expand(channelKey, ds)[OperationKey(channelKey, i)] == ToOperation(channelKey, ds[i])
    decreases |ds|
  {
    if |ds| > 0 {
      var init := ds[..|ds| - 1];
      var n := |ds| - 1;
      ExpandSpec(channelKey, init);
      var m := Expand(channelKey, init);
      var k := OperationKey(channelKey, n);
      var m' := m[k := ToOperation(channelKey, ds[n])];
      assert Expand(channelKey, ds) == m';
      KeysUpToNext(channelKey, n);
      assert m'.Keys == KeysUpTo(channelKey, |ds|);
      forall i | 0 <= i < |ds|
        ensures m'[OperationKey(channelKey, i)] == ToOperation(channelKey, ds[i])
      {
        if i < n {
          if OperationKey(channelKey, i) == k {
            OperationKeyInjective(channelKey, i, n);
          }
          assert init[i] == ds[i];
          assert m'[OperationKey(channelKey, i)] == m[OperationKey(channelKey, i)];
        }
      }
    }
  }

  /** Distinct indices give distinct keys, so there are as many keys as declarations. */
  lemma {:induction false} KeysUpToSize(channelKey: string, n: nat)
    ensures |KeysUpTo(channelKey, n)| == n
    decreases n
  {
    if n > 0 {
      KeysUpToSize(channelKey, n - 1);
      var k := OperationKey(channelKey, n - 1);
      KeysUpToNext(channelKey, n - 1);
      if k in KeysUpTo(channelKey, n - 1) {
        var i :| 0 <= i < n - 1 && OperationKey(channelKey, i) == k;
        OperationKeyInjective(channelKey, i, n - 1);
      }
    }
  }

  /** `buildOperations` yields exactly as many operations as there are nested builders. */
  lemma ExpandSize(channelKey: string, ds: seq<OperationDecl>)
    ensures |Expand(channelKey, ds)| == |ds|
  {
    ExpandSpec(channelKey, ds);
    KeysUpToSize(channelKey, |ds|);
    assert |Expand(channelKey, ds).Keys| == |Expand(channelKey, ds)|;
  }

  /**
   * The builder returned by `subscribe` is the object stored in the channel,
   * so a setter called on it afterwards shows in the channel's declarations.
   */
  method SubscribeWithSummary(ch: ChannelBuilder, payloadType: string, s: string) returns (op: OperationBuilder)
    modifies ch
    ensures |ch.operations| == |old(ch.operations)| + 1 && ch.operations[|ch.operations| - 1] == op
    ensures ch.Decls() == old(ch.Decls()) + [OperationDecl(Receive, payloadType, Some(s), None, None, None, None)]
  {
    ghost var before := ch.Decls();
    op := ch.Subscribe(payloadType);
    var same := op.Summary(s);
    assert ch.operations[..|ch.operations| - 1] == old(ch.operations);
    forall i | 0 <= i < |ch.operations| - 1
      ensures ch.operations[i].Decl() == before[i]
    {
      assert ch.operations[i] == old(ch.operations)[i];
    }
  }
}
