/** The inbound side of a Kademlia DHT node (dht/dht.go): the tag dispatch of
    decoded datagrams, the request handler with its per-method checks, the
    response and error handlers, and the argument formatting used in logs.

    The routing table and the peer store are collaborators whose code is not
    part of this model. Each is kept as the sequence of calls it received
    (`Update` and `Insert`), and its queries (`FindClosest`, `Get`) are
    functions of that sequence, supplied from outside. Sending appends to an
    output log. */
module Dht {
  import opened Wrappers
  import opened Bytes
  import Hex

  // Kademlia parameters.
  const Alpha := 3
  /** Bytes in a node id or key (the identifier width B, in bytes). */
  const NodeIDLength := 48
  /** The bucket size k, and the number of contacts a lookup answer carries. */
  const BucketSize := 20

  // Time constants in seconds. Nothing in the handlers reads them.
  const TExpire := 86400
  const TRefresh := 3600
  const TReplicate := 3600
  const TRepublish := 86400

  /** One bucket per bit of an identifier. */
  const NumBuckets := NodeIDLength * 8
  /** A contact on the wire: the identifier, a 4-byte IPv4 address and a 2-byte port. */
  const CompactNodeInfoLength := NodeIDLength + 6

  /** The wire type tags of the three message shapes (the LBRY DHT protocol's values). */
  const RequestType := 0
  const ResponseType := 1
  const ErrorType := 2

  // ---------------------------------------------------------------------
  // Configuration

  /** `Config`: the bind address, the seed nodes, and a hex node id (empty: random). */
  datatype Config = Config(address: Bytes, seedNodes: seq<Bytes>, nodeID: Bytes)

  /** The default configuration: listen on port 4444, join through three
      seeds that also listen on 4444, and leave the node id to be generated. */
  function NewStandardConfig(): (c: Config)
    ensures c.nodeID == []
    ensures EndsWith(c.address, Ascii(":4444"))
    ensures |c.seedNodes| == 3
    ensures forall i | 0 <= i < |c.seedNodes| :: EndsWith(c.seedNodes[i], c.address)
    ensures forall i, j | 0 <= i < j < |c.seedNodes| :: c.seedNodes[i] != c.seedNodes[j]
  {
    var address := Ascii(":4444");
    var h1, h2, h3 := Ascii("lbrynet1.lbry.io"), Ascii("lbrynet2.lbry.io"), Ascii("lbrynet3.lbry.io");
    assert h1[7] != h2[7] && h1[7] != h3[7] && h2[7] != h3[7];
    var seeds := [h1 + address, h2 + address, h3 + address];
    assert seeds[0][7] != seeds[1][7] && seeds[0][7] != seeds[2][7] && seeds[1][7] != seeds[2][7];
    assert seeds[0][16..] == address && seeds[1][16..] == address && seeds[2][16..] == address;
    Config(address, seeds, [])
  }

  // ---------------------------------------------------------------------
  // Messages

  /** `Node`: a peer's identifier and network address. */
  datatype Contact = Contact(id: Bytes, ip: Bytes, port: int)

  /** The source address of a datagram; `ip` is its printed form. */
  datatype UdpAddr = UdpAddr(ip: Bytes, port: int)

  /** The request methods the handler knows, and any other method name. */
  datatype Method = Ping | Store | FindNode | FindValue | Unknown(name: Bytes)

  /** The structured payload of a store request: the content key and the publisher. */
  datatype StoreArgs = StoreArgs(blobHash: Bytes, nodeID: Bytes)

  datatype Request = Request(id: Bytes, nodeID: Bytes, rpc: Method, args: seq<Bytes>, storeArgs: StoreArgs)

  /** A response's `Data` string: one of the two fixed success markers, or any other text. */
  datatype Payload = PingSuccess | StoreSuccess | Text(text: Bytes)

  datatype Response = Response(id: Bytes, nodeID: Bytes, data: Payload, findNodeData: seq<Contact>)

  /** A remote error: its id, the sender, the exception text and the original arguments. */
  datatype Error = Error(id: Bytes, nodeID: Bytes, exceptionType: Bytes, response: seq<Bytes>)

  /** One call of the peer store's `Insert`. */
  datatype StoreInsert = StoreInsert(key: Bytes, publisher: Bytes)

  /** One datagram handed to `send`. */
  datatype Outgoing = Outgoing(to: UdpAddr, response: Response)

  /** The contact `handleRequest`, `handleResponse` and `handleError` record
      for a sender: the id it claims and the address the datagram came from. */
  function SenderContact(nodeID: Bytes, addr: UdpAddr): (c: Contact)
  {
    Contact(nodeID, addr.ip, addr.port)
  }

  // ---------------------------------------------------------------------
  // The request handler's decisions

  /** The argument check of findNode and findValue: a first argument exactly one identifier long. */
  predicate HasTarget(args: seq<Bytes>)
  {
    |args| >= 1 && |args[0]| == NodeIDLength
  }

  /** The identifier a findNode or findValue request looks up. */
  function Target(req: Request): (target: Bytes)
  {
    if |req.args| > 0 then req.args[0] else []
  }

  /** Whether `handleRequest` gets past every check for `req`: the sender is
      not this node, and the method is known and its own check passes. */
  predicate Accepts(localID: Bytes, req: Request)
  {
    && req.nodeID != localID
    && match req.rpc
       case Ping => true
       case Store => req.storeArgs.blobHash != []
       case FindNode => HasTarget(req.args)
       case FindValue => HasTarget(req.args)
       case Unknown(_) => false
  }

  /** The response `handleRequest` sends for `req`, if any, where `closest` is
      what the routing table's `FindClosest(Target(req), BucketSize)` answers.
      findValue answers exactly as findNode does: the stored values are looked
      up and then not used. */
  function Reply(localID: Bytes, closest: seq<Contact>, req: Request): (r: Option<Response>)
    ensures r.Some? <==> Accepts(localID, req)
    ensures r.Some? ==> r.value.id == req.id && r.value.nodeID == localID
    ensures r.Some? && (req.rpc.FindNode? || req.rpc.FindValue?) ==>
              r.value.findNodeData == closest && r.value.data == Text([])
    ensures r.Some? && req.rpc.Ping? ==> r.value.data == PingSuccess && r.value.findNodeData == []
    ensures r.Some? && req.rpc.Store? ==> r.value.data == StoreSuccess && r.value.findNodeData == []
  {
    if !Accepts(localID, req) then None
    else match req.rpc
      case Ping => Some(Response(req.id, localID, PingSuccess, []))
      case Store => Some(Response(req.id, localID, StoreSuccess, []))
      case _ => Some(Response(req.id, localID, Text([]), closest))
  }

  /** A request that claims to come from this node is never answered. */
  lemma SelfRequestIgnored(localID: Bytes, closest: seq<Contact>, req: Request)
    requires req.nodeID == localID
    ensures Reply(localID, closest, req) == None
  {
  }

  /** findNode and findValue without a first argument of identifier length are not answered. */
  lemma MissingTargetIgnored(localID: Bytes, closest: seq<Contact>, req: Request)
    requires req.rpc.FindNode? || req.rpc.FindValue?
    requires !HasTarget(req.args)
    ensures Reply(localID, closest, req) == None
  {
  }

  /** A store request with an empty key is not answered. */
  lemma EmptyKeyIgnored(localID: Bytes, closest: seq<Contact>, req: Request)
    requires req.rpc.Store? && req.storeArgs.blobHash == []
    ensures Reply(localID, closest, req) == None
  {
  }

  /** findValue produces the very response findNode produces for the same target. */
  lemma FindValueRepliesAsFindNode(localID: Bytes, closest: seq<Contact>, req: Request)
    requires req.rpc.FindValue?
    ensures Reply(localID, closest, req) == Reply(localID, closest, req.(rpc := FindNode))
  {
  }

  // ---------------------------------------------------------------------
  // Decoded datagrams and the tag dispatch of `handle`

  /** A bencoded value, as the decoder hands over an element of an argument list. */
  datatype Value = BString(s: Bytes) | BInteger(i: int) | BList(items: seq<Value>) | BDict(entries: map<Bytes, Value>)

  /** The decimal digits of `n` (`strconv.FormatInt(n, 10)` for n >= 0). */
  function Digits(n: nat): (r: Bytes)
    ensures |r| > 0
  {
    if n < 10 then ['0' as byte + n as byte]
    else Digits(n / 10) + ['0' as byte + (n % 10) as byte]
  }

  /** `cast.ToString` on a decoded value: strings as they are, integers in
      decimal, lists and dictionaries (which it cannot convert) as "". */
  function CastToString(v: Value): (r: Bytes)
  {
    match v
    case BString(s) => s
    case BInteger(i) => if i < 0 then ['-' as byte] + Digits(-i) else Digits(i)
    case _ => []
  }

  /** What `getArgs` makes of a list: every element converted to a string, in order. */
  function ArgStrings(items: seq<Value>): (r: seq<Bytes>)
    ensures |r| == |items|
    ensures forall i | 0 <= i < |items| :: r[i] == CastToString(items[i])
  {
    if items == [] then [] else [CastToString(items[0])] + ArgStrings(items[1..])
  }

  /** `getArgs` on a list value: appends the converted elements one by one. */
  method GetArgs(items: seq<Value>) returns (args: seq<Bytes>)
    ensures args == ArgStrings(items)
  {
    args := [];
    for i := 0 to |items|
      invariant |args| == i
      invariant forall j | 0 <= j < i :: args[j] == CastToString(items[j])
    {
      args := args + [CastToString(items[i])];
    }
  }

  /** A datagram after bencode decoding. `Undecodable`: not a dictionary.
      Otherwise `typeTag` is the type field (None when absent), `asRequest`
      and `asResponse` are the same bytes decoded as a Request or a Response
      (None when that decode fails), and the `error...` fields are the
      dictionary's id, node id, payload and argument fields. */
  datatype Datagram =
    | Undecodable
    | Decoded(typeTag: Option<int>, asRequest: Option<Request>, asResponse: Option<Response>,
              errorID: Bytes, errorNodeID: Bytes, errorException: Bytes, errorArgs: seq<Value>)

  /** The handler a datagram goes to, or none. */
  datatype Route = ToRequest(req: Request) | ToResponse(resp: Response) | ToError(err: Error) | Dropped

  /** A datagram `handle` drops: it does not decode, it has no type tag, its
      tag is none of the three, or it does not decode as the shape its tag names. */
  predicate DropsDatagram(d: Datagram)
  {
    || d.Undecodable?
    || d.typeTag.None?
    || d.typeTag.value !in {RequestType, ResponseType, ErrorType}
    || (d.typeTag.value == RequestType && d.asRequest.None?)
    || (d.typeTag.value == ResponseType && d.asResponse.None?)
  }

  /** The tag dispatch of `handle`, without its debug log lines. */
  function Dispatch(d: Datagram): (r: Route)
    ensures r.Dropped? <==> DropsDatagram(d)
    ensures r.ToRequest? ==> d.Decoded? && d.typeTag == Some(RequestType) && d.asRequest == Some(r.req)
    ensures r.ToResponse? ==> d.Decoded? && d.typeTag == Some(ResponseType) && d.asResponse == Some(r.resp)
    ensures r.ToError? ==>
              && d.Decoded? && d.typeTag == Some(ErrorType)
              && r.err == Error(d.errorID, d.errorNodeID, d.errorException, ArgStrings(d.errorArgs))
  {
    if d.Undecodable? || d.typeTag.None? then Dropped
    else if d.typeTag.value == RequestType then
      (if d.asRequest.Some? then ToRequest(d.asRequest.value) else Dropped)
    else if d.typeTag.value == ResponseType then
      (if d.asResponse.Some? then ToResponse(d.asResponse.value) else Dropped)
    else if d.typeTag.value == ErrorType then
      ToError(Error(d.errorID, d.errorNodeID, d.errorException, ArgStrings(d.errorArgs)))
    else Dropped
  }

  /** The debug log line of each branch prints `hex(id)[:8]`: a slice that
      needs at least eight hex characters, that is four bytes. */
  predicate Loggable(id: Bytes)
  {
    |Hex.Encode(id)| >= 8
  }

  /** `handle` as written: the dispatch, where every delivering branch first
      evaluates its debug log line on the message id and the sender id. None
      stands for the panic that slicing a shorter string raises. */
  function DispatchAsWritten(d: Datagram): (r: Option<Route>)
    ensures r.Some? ==> r.value == Dispatch(d)
    ensures r.None? <==> match Dispatch(d)
                         case ToRequest(q) => |q.id| < 4 || |q.nodeID| < 4
                         case ToResponse(p) => |p.id| < 4 || |p.nodeID| < 4
                         case ToError(e) => |e.id| < 4 || |e.nodeID| < 4
                         case Dropped => false
  {
    var route := Dispatch(d);
    match route
    case ToRequest(q) => if Loggable(q.id) && Loggable(q.nodeID) then Some(route) else None
    case ToResponse(p) => if Loggable(p.id) && Loggable(p.nodeID) then Some(route) else None
    case ToError(e) => if Loggable(e.id) && Loggable(e.nodeID) then Some(route) else None
    case Dropped => Some(route)
  }

  /** A well-formed ping whose request id is two bytes long crashes `handle`
      as written, where the dispatch without the log line delivers it. */
  lemma ShortRequestIdPanics(nodeID: Bytes)
    requires |nodeID| == NodeIDLength
    ensures var req := Request([1, 2], nodeID, Ping, [], StoreArgs([], []));
            var d := Decoded(Some(RequestType), Some(req), None, [], [], [], []);
            DispatchAsWritten(d) == None && Dispatch(d) == ToRequest(req)
  {
  }

  /** Every tagged message that decodes as the shape its tag names reaches its
      handler, whatever the length of its ids. */
  lemma DispatchDelivers(d: Datagram)
    requires d.Decoded? && d.typeTag.Some?
    ensures d.typeTag.value == RequestType && d.asRequest.Some? ==> Dispatch(d) == ToRequest(d.asRequest.value)
    ensures d.typeTag.value == ResponseType && d.asResponse.Some? ==> Dispatch(d) == ToResponse(d.asResponse.value)
    ensures d.typeTag.value == ErrorType ==> Dispatch(d).ToError?
  {
  }

  /** `send` as written: before encoding a response, its debug log line
      prints `hex(res.ID)[:8]`. None stands for the panic on a shorter id. */
  function SendAsWritten(to: UdpAddr, response: Response): (r: Option<Outgoing>)
    ensures r.None? <==> |response.id| < 4
    ensures r.Some? ==> r.value == Outgoing(to, response)
  {
    if Loggable(response.id) then Some(Outgoing(to, response)) else None
  }

  /** Every reply echoes the request id, so a request with a short id that
      got past the log line of `handle` would still crash `send` as written:
      removing the slice in `handle` alone does not make it safe. */
  lemma ShortIdReplyPanicsInSend(localID: Bytes, closest: seq<Contact>, req: Request, to: UdpAddr)
    requires Accepts(localID, req) && |req.id| < 4
    ensures Reply(localID, closest, req).Some?
    ensures SendAsWritten(to, Reply(localID, closest, req).value) == None
  {
  }

  // ---------------------------------------------------------------------
  // Argument formatting for logs

  /** ", ": what `argsToString` joins with. */
  const Separator: Bytes := [',' as byte, ' ' as byte]

  /** How `argsToString` prints one argument: an identifier-length argument
      as the first eight hex characters of its encoding, any other unchanged. */
  function Abbreviate(arg: Bytes): (r: Bytes)
    ensures |arg| != NodeIDLength ==> r == arg
    ensures |arg| == NodeIDLength ==> |r| == 8 && r == Hex.Encode(arg[..4])
    ensures |arg| == NodeIDLength ==> forall j | 0 <= j < 8 :: Hex.IsLowerHexDigit(r[j])
  {
    if |arg| == NodeIDLength then
      Hex.EncodePrefix(arg, 4);
      Hex.EncodeDigits(arg[..4]);
      Hex.Encode(arg)[..8]
    else arg
  }

  /** An abbreviated identifier decodes back to the identifier's first four bytes. */
  lemma AbbreviationDecodes(arg: Bytes)
    requires |arg| == NodeIDLength
    ensures Hex.Decode(Abbreviate(arg)) == Success(arg[..4])
  {
    Hex.DecodeEncode(arg[..4]);
  }

  /** Every argument abbreviated, in order. */
  function AbbreviateAll(args: seq<Bytes>): (r: seq<Bytes>)
    ensures |r| == |args|
    ensures forall k | 0 <= k < |args| :: r[k] == Abbreviate(args[k])
  {
    if args == [] then [] else [Abbreviate(args[0])] + AbbreviateAll(args[1..])
  }

  /** The string `argsToString` returns. */
  function FormatArgs(args: seq<Bytes>): (r: Bytes)
  {
    Join(AbbreviateAll(args), Separator)
  }

  /** `argsToString`: copies the caller's arguments, abbreviates the copy in
      place, and joins it. The caller's array is not in any modifies clause,
      so it is left as it was. */
  method ArgsToString(args: array<Bytes>) returns (s: Bytes)
    ensures s == FormatArgs(args[..])
  {
    var argsCopy := new Bytes[args.Length];
    forall i | 0 <= i < args.Length {
      argsCopy[i] := args[i];
    }
    for k := 0 to argsCopy.Length
      invariant forall j | 0 <= j < k :: argsCopy[j] == Abbreviate(args[j])
      invariant forall j | k <= j < argsCopy.Length :: argsCopy[j] == args[j]
    {
      if |argsCopy[k]| == NodeIDLength {
        argsCopy[k] := Hex.Encode(argsCopy[k])[..8];
      }
    }
    assert argsCopy[..] == AbbreviateAll(args[..]);
    s := Join(argsCopy[..], Separator);
  }

  /** No arguments print as the empty string. */
  lemma FormatNoArgs()
    ensures FormatArgs([]) == []
  {
  }

  /** One more argument adds ", " and its abbreviation to the end. */
  lemma FormatArgsSnoc(args: seq<Bytes>, a: Bytes)
    requires |args| > 0
    ensures FormatArgs(args + [a]) == FormatArgs(args) + Separator + Abbreviate(a)
  {
    assert AbbreviateAll(args + [a]) == AbbreviateAll(args) + [Abbreviate(a)];
    JoinSnoc(AbbreviateAll(args), Abbreviate(a), Separator);
  }

  /** The printed string is the abbreviated arguments plus two characters per gap. */
  lemma FormatArgsLength(args: seq<Bytes>)
    ensures |FormatArgs(args)| == TotalLength(AbbreviateAll(args)) + if |args| == 0 then 0 else 2 * (|args| - 1)
  {
    JoinLength(AbbreviateAll(args), Separator);
  }

  // ---------------------------------------------------------------------
  // The node

  /** The DHT node: its own contact, the routing table and peer store (as the
      calls they received), and the responses sent so far. */
  class Node {
    /** This node's contact; `self.id` is the raw 48-byte identifier. */
    const self: Contact
    /** The routing table's `FindClosest(target, count)`, given its `Update` history. */
    const findClosest: (seq<Contact>, Bytes, nat) -> seq<Contact>
    /** The peer store's `Get(key)`, given its `Insert` history. */
    const get: (seq<StoreInsert>, Bytes) -> seq<Bytes>

    /** Every contact passed to `routingTable.Update`, oldest first. */
    var routingTable: seq<Contact>
    /** Every `store.Insert` call, oldest first. */
    var store: seq<StoreInsert>
    /** Every response sent, oldest first. */
    var sent: seq<Outgoing>

    constructor (self: Contact, findClosest: (seq<Contact>, Bytes, nat) -> seq<Contact>,
                 get: (seq<StoreInsert>, Bytes) -> seq<Bytes>)
      ensures this.self == self && this.findClosest == findClosest && this.get == get
      ensures routingTable == [] && store == [] && sent == []
    {
      this.self := self;
      this.findClosest := findClosest;
      this.get := get;
      routingTable := [];
      store := [];
      sent := [];
    }

    /** What `handleRequest` does to the node for `req` from `addr`: when it
        accepts the request, the store gets one `Insert` (store requests
        only), one response goes to `addr`, answered from the routing table
        as it stood before, and then the sender is recorded in the table;
        when it does not, nothing changes. */
    twostate predicate RequestHandled(addr: UdpAddr, req: Request)
      reads this
    {
      var ok := Accepts(self.id, req);
      var reply := Reply(self.id, findClosest(old(routingTable), Target(req), BucketSize), req);
      && sent == old(sent) + (if ok then [Outgoing(addr, reply.value)] else [])
      && store == old(store) + (if ok && req.rpc.Store? then [StoreInsert(req.storeArgs.blobHash, req.storeArgs.nodeID)] else [])
      && routingTable == old(routingTable) + (if ok then [SenderContact(req.nodeID, addr)] else [])
    }

    /** The sender is recorded in the routing table, and nothing else changes. */
    twostate predicate SenderRecorded(nodeID: Bytes, addr: UdpAddr)
      reads this
    {
      && routingTable == old(routingTable) + [SenderContact(nodeID, addr)]
      && store == old(store)
      && sent == old(sent)
    }

    /** `send`: the encoded response goes out to `addr`. */
    method Send(addr: UdpAddr, response: Response)
      modifies this`sent
      ensures sent == old(sent) + [Outgoing(addr, response)]
    {
      sent := sent + [Outgoing(addr, response)];
    }

    /** The response to a findNode (or findValue) request: the contacts
        closest to `target`, copied one by one. */
    method FindNodeResponse(req: Request, target: Bytes) returns (response: Response)
      ensures response.id == req.id && response.nodeID == self.id && response.data == Text([])
      ensures response.findNodeData == findClosest(routingTable, target, BucketSize)
    {
      var closestNodes := findClosest(routingTable, target, BucketSize);
      var data: seq<Contact> := [];
      for i := 0 to |closestNodes|
        invariant data == closestNodes[..i]
      {
        data := data + [closestNodes[i]];
      }
      response := Response(req.id, self.id, Text([]), data);
    }

    /** `handleRequest`. Returns whether the request passed its checks. */
    method HandleRequest(addr: UdpAddr, req: Request) returns (success: bool)
      modifies this
      ensures success == Accepts(self.id, req)
      ensures RequestHandled(addr, req)
    {
      if req.nodeID == self.id {
        return false; // ignoring self-request
      }
      match req.rpc {
        case Ping =>
          Send(addr, Response(req.id, self.id, PingSuccess, []));
        case Store =>
          if req.storeArgs.blobHash == [] {
            return false; // nothing to store
          }
          store := store + [StoreInsert(req.storeArgs.blobHash, req.storeArgs.nodeID)];
          Send(addr, Response(req.id, self.id, StoreSuccess, []));
        case FindNode =>
          if |req.args| < 1 || |req.args[0]| != NodeIDLength {
            return false;
          }
          var response := FindNodeResponse(req, req.args[0]);
          Send(addr, response);
        case FindValue =>
          if |req.args| < 1 || |req.args[0]| != NodeIDLength {
            return false;
          }
          var nodeIDs := get(store, req.args[0]); // looked up, then not used
          var response := FindNodeResponse(req, req.args[0]);
          Send(addr, response);
        case Unknown(_) =>
          return false; // invalid request method
      }
      routingTable := routingTable + [SenderContact(req.nodeID, addr)];
      return true;
    }

    /** `handleResponse`: records the responder, with no check on its id. */
    method HandleResponse(addr: UdpAddr, response: Response) returns (success: bool)
      modifies this
      ensures success
      ensures SenderRecorded(response.nodeID, addr)
    {
      routingTable := routingTable + [SenderContact(response.nodeID, addr)];
      return true;
    }

    /** `handleError`: records the sender of the error, with no check on its id. */
    method HandleError(addr: UdpAddr, e: Error) returns (success: bool)
      modifies this
      ensures success
      ensures SenderRecorded(e.nodeID, addr)
    {
      routingTable := routingTable + [SenderContact(e.nodeID, addr)];
      return true;
    }

    /** `handle`: dispatches on the type tag and runs the chosen handler;
        a dropped datagram changes nothing. */
    method Handle(pkt: Datagram, raddr: UdpAddr)
      modifies this
      ensures match Dispatch(pkt)
              case ToRequest(req) => RequestHandled(raddr, req)
              case ToResponse(resp) => SenderRecorded(resp.nodeID, raddr)
              case ToError(e) => SenderRecorded(e.nodeID, raddr)
              case Dropped => unchanged(this)
    {
      match Dispatch(pkt) {
        case ToRequest(req) =>
          var _ := HandleRequest(raddr, req);
        case ToResponse(resp) =>
          var _ := HandleResponse(raddr, resp);
        case ToError(e) =>
          var _ := HandleError(raddr, e);
        case Dropped =>
      }
    }
  }
}
