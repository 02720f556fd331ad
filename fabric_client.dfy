/**
 * The client half of the fabric RPC transport: the hooks a fabric client adds
 * to the generic RPC client, namely handshake validation, connection
 * creation and finalisation, close-handler composition and message dispatch.
 */
module Fabric {
  import opened Wrappers
  import opened Decimal

  /** The protocol version this build speaks, `FabricRpcConfig.RPC_VERSION`. */
  const RPC_VERSION: int := 1

  /** An endpoint of the fabric, as exchanged in the handshake. */
  datatype FabricIdentity = FabricIdentity(address: string, port: int)

  /** The handshake a peer answers with: its protocol version and its identity. */
  datatype FabricHandshake = FabricHandshake(rpcVersion: int, identity: FabricIdentity)

  /** The exceptions the client's hooks throw: a checked RpcException, or the unchecked UnsupportedOperationException. */
  datatype ClientException = RpcException(message: string) | UnsupportedOperationException

  // Opaque collaborators, known only by identity.
  datatype SocketChannel = SocketChannel(channelId: nat)
  datatype BufferAllocator = BufferAllocator(allocatorId: nat)
  datatype FabricMessageHandler = FabricMessageHandler(handlerId: nat)
  datatype CloseHandlerCreator = CloseHandlerCreator(creatorId: nat)
  datatype ResponseSender = ResponseSender(senderId: nat)
  datatype ByteBuf = ByteBuf(bytes: seq<bv8>)
  datatype Response = Response(rpcType: int, body: seq<bv8>)

  /** A protobuf message prototype: the default instance of the named message type. */
  datatype MessagePrototype = DefaultInstance(typeName: string)

  /** A listener run when a channel closes; a creator may wrap the handler of the layer below. */
  datatype CloseHandler =
    | BasicCloseHandler(channel: SocketChannel, connection: FabricConnection)
    | CreatedCloseHandler(creator: CloseHandlerCreator, connection: FabricConnection, inner: CloseHandler)

  /** One invocation of the application's message handler, with every argument it receives. */
  datatype HandlerCall = HandlerCall(
    handler: FabricMessageHandler,
    remote: FabricIdentity,
    local: FabricIdentity,
    connection: FabricConnection,
    rpcType: int,
    pBody: seq<bv8>,
    dBody: Option<ByteBuf>,
    sender: ResponseSender)

  /** The format of the version-mismatch message: "Invalid rpc version.  Expected %d, actual %d." */
  function VersionMismatchMessage(expected: int, actual: int): string
  {
    "Invalid rpc version.  Expected " + (IntToDecimal(expected) + (", actual " + (IntToDecimal(actual) + ".")))
  }

  /** Two strings that start with comma-free heads followed by a comma split there alike. */
  lemma SplitAtComma(x: string, u: string, y: string, v: string)
    requires ',' !in x && ',' !in y
    requires |u| > 0 && u[0] == ',' && |v| > 0 && v[0] == ','
    requires x + u == y + v
    ensures x == y && u == v
  {
    assert x == (x + u)[..|x|];
    assert y == (y + v)[..|y|];
  }

  lemma CancelPrefix(p: string, s: string, t: string)
    requires p + s == p + t
    ensures s == t
  {
    assert s == (p + s)[|p|..];
    assert t == (p + t)[|p|..];
  }

  lemma CancelLast(s: string, t: string, c: string)
    requires s + c == t + c
    ensures s == t
  {
    assert s == (s + c)[..|s|];
    assert t == (t + c)[..|t|];
  }

  /** The mismatch message names its two versions unambiguously: reading it back gives them. */
  lemma MismatchMessageDeterminesVersions(a: int, b: int, c: int, d: int)
    requires VersionMismatchMessage(a, b) == VersionMismatchMessage(c, d)
    ensures a == c && b == d
  {
    var u := ", actual " + (IntToDecimal(b) + ".");
    var v := ", actual " + (IntToDecimal(d) + ".");
    CancelPrefix("Invalid rpc version.  Expected ", IntToDecimal(a) + u, IntToDecimal(c) + v);
    NumeralHasNo(a, ',');
    NumeralHasNo(c, ',');
    SplitAtComma(IntToDecimal(a), u, IntToDecimal(c), v);
    IntToDecimalInjective(a, c);
    CancelPrefix(", actual ", IntToDecimal(b) + ".", IntToDecimal(d) + ".");
    CancelLast(IntToDecimal(b), IntToDecimal(d), ".");
    IntToDecimalInjective(b, d);
  }

  /**
   * `validateHandshake` as written: the peer's version must equal RPC_VERSION
   * exactly; the message prints the peer's version after "Expected".
   */
  function ValidateHandshake(handshake: FabricHandshake): (r: Outcome<ClientException>)
    ensures r.Pass? <==> handshake.rpcVersion == RPC_VERSION
    ensures r.Fail? ==> r.error.RpcException?
  {
    if handshake.rpcVersion != RPC_VERSION then
      Fail(RpcException(VersionMismatchMessage(handshake.rpcVersion, RPC_VERSION)))
    else
      Pass
  }

  /** The rejection as written labels the peer's version "Expected" and the local one "actual". */
  lemma RejectionLabelsSwapped(handshake: FabricHandshake, expected: int, actual: int)
    requires ValidateHandshake(handshake) == Fail(RpcException(VersionMismatchMessage(expected, actual)))
    ensures expected == handshake.rpcVersion && actual == RPC_VERSION
    ensures expected != RPC_VERSION
  {
    MismatchMessageDeterminesVersions(expected, actual, handshake.rpcVersion, RPC_VERSION);
  }

  /** A peer that speaks version 2 is told that 2 was expected. */
  lemma RejectionOfVersionTwo(identity: FabricIdentity)
    ensures ValidateHandshake(FabricHandshake(2, identity))
         == Fail(RpcException("Invalid rpc version.  Expected 2, actual 1."))
  {
    assert IntToDecimal(2) == "2" && IntToDecimal(1) == "1";
    var written := VersionMismatchMessage(2, 1);
    var expected := "Invalid rpc version.  Expected 2, actual 1.";
    assert written == "Invalid rpc version.  Expected " + ("2" + (", actual " + ("1" + ".")));
    assert |written| == |expected|;
    forall i | 0 <= i < |written|
      ensures written[i] == expected[i]
    {
    }
    assert written == expected;
    assert ValidateHandshake(FabricHandshake(2, identity)) == Fail(RpcException(written));
  }

  /** `validateHandshake` with the arguments of the message in the order its labels name them. */
  function ValidateHandshakeCorrected(handshake: FabricHandshake): (r: Outcome<ClientException>)
    ensures r.Pass? <==> handshake.rpcVersion == RPC_VERSION
    ensures r.Fail? ==> r.error.RpcException?
  {
    if handshake.rpcVersion != RPC_VERSION then
      Fail(RpcException(VersionMismatchMessage(RPC_VERSION, handshake.rpcVersion)))
    else
      Pass
  }

  /** The corrected rejection labels the local version "Expected" and the peer's "actual". */
  lemma CorrectedRejectionLabels(handshake: FabricHandshake, expected: int, actual: int)
    requires ValidateHandshakeCorrected(handshake) == Fail(RpcException(VersionMismatchMessage(expected, actual)))
    ensures expected == RPC_VERSION && actual == handshake.rpcVersion
  {
    MismatchMessageDeterminesVersions(expected, actual, RPC_VERSION, handshake.rpcVersion);
  }

  /** A connection of the fabric: its peer's identity is known once the handshake is finalised. */
  class FabricConnection {
    const name: string
    const channel: SocketChannel
    const bus: FabricClient
    const allocator: BufferAllocator
    var identity: Option<FabricIdentity>

    constructor (name: string, channel: SocketChannel, bus: FabricClient, allocator: BufferAllocator)
      ensures this.name == name && this.channel == channel && this.bus == bus && this.allocator == allocator
      ensures identity == None
    {
      this.name := name;
      this.channel := channel;
      this.bus := bus;
      this.allocator := allocator;
      identity := None;
    }

    method SetIdentity(id: FabricIdentity)
      modifies this`identity
      ensures identity == Some(id)
    {
      identity := Some(id);
    }
  }

  /** The fabric client: fixed identities and collaborators, and the most recent connection. */
  class FabricClient {
    const handler: FabricMessageHandler
    const remoteIdentity: FabricIdentity
    const closeHandlerFactory: CloseHandlerCreator
    const localIdentity: FabricIdentity
    const allocator: BufferAllocator
    var connection: FabricConnection?

    constructor (allocator: BufferAllocator, remoteIdentity: FabricIdentity, localIdentity: FabricIdentity,
                 handler: FabricMessageHandler, closeHandlerFactory: CloseHandlerCreator)
      ensures this.allocator == allocator && this.handler == handler && this.closeHandlerFactory == closeHandlerFactory
      ensures this.remoteIdentity == remoteIdentity && this.localIdentity == localIdentity
      ensures connection == null
    {
      this.localIdentity := localIdentity;
      this.remoteIdentity := remoteIdentity;
      this.handler := handler;
      this.closeHandlerFactory := closeHandlerFactory;
      this.allocator := allocator;
      connection := null;
    }

    /** Creates the connection for a new channel, remembers it, and returns that same object. */
    method InitRemoteConnection(channel: SocketChannel) returns (c: FabricConnection)
      modifies this`connection
      ensures fresh(c) && connection == c
      ensures c.name == "fabric client" && c.channel == channel && c.bus == this && c.allocator == allocator
      ensures c.identity == None
    {
      connection := new FabricConnection("fabric client", channel, this, allocator);
      c := connection;
    }

    /** The close handler is the factory's handler wrapped around the base client's handler. */
    function GetCloseHandler(ch: SocketChannel, clientConnection: FabricConnection): (h: CloseHandler)
      ensures h.CreatedCloseHandler? && h.creator == closeHandlerFactory && h.connection == clientConnection
      ensures h.inner == BasicCloseHandler(ch, clientConnection)
    {
      CreatedCloseHandler(closeHandlerFactory, clientConnection, BasicCloseHandler(ch, clientConnection))
    }

    /** Every response type decodes with the prototype of FabricMessage, whatever the rpc type. */
    function GetResponseDefaultInstance(rpcType: int): (m: Result<MessagePrototype, ClientException>)
      ensures m.Success? && m.value.typeName == "FabricMessage"
    {
      Success(DefaultInstance("FabricMessage"))
    }

    /** Inbound requests go to the application handler with this client's fixed identities. */
    function Handle(conn: FabricConnection, rpcType: int, pBody: seq<bv8>, dBody: Option<ByteBuf>,
                    sender: ResponseSender): (call: HandlerCall)
      ensures call.handler == handler
      ensures call.remote == remoteIdentity && call.local == localIdentity
      ensures call.connection == conn && call.rpcType == rpcType && call.pBody == pBody
      ensures call.dBody == dBody && call.sender == sender
    {
      HandlerCall(handler, remoteIdentity, localIdentity, conn, rpcType, pBody, dBody, sender)
    }

    /** The synchronous, response-returning dispatch is not supported by the fabric client. */
    function HandleForResponse(conn: FabricConnection, rpcType: int, pBody: seq<bv8>, dBody: Option<ByteBuf>)
      : (r: Result<Response, ClientException>)
      ensures r == Failure(UnsupportedOperationException)
    {
      Failure(UnsupportedOperationException)
    }

    /** Stores the identity the peer announced in its handshake on the connection, and nothing else. */
    method FinalizeConnection(handshake: FabricHandshake, conn: FabricConnection)
      modifies conn`identity
      ensures conn.identity == Some(handshake.identity)
    {
      conn.SetIdentity(handshake.identity);
    }
  }

  /** The response prototype does not depend on the rpc type. */
  lemma ResponsePrototypeIgnoresType(client: FabricClient, a: int, b: int)
    ensures client.GetResponseDefaultInstance(a) == client.GetResponseDefaultInstance(b)
  {
  }
}
