/** JSON-RPC requests as parsed, and the checks every request passes before it is limited. */
module JsonRpc {
  import opened Redis

  /** JSON text that is only passed on. */
  type Json = string

  datatype SingleRequest = SingleRequest(id: Option<Json>, version: string, rpcMethod: string, params: Json)

  datatype Request = Single(call: SingleRequest) | Batch(calls: seq<SingleRequest>)

  /** Geth unless a call asks for Erigon. */
  datatype Route = Geth | Erigon

  datatype RpcError =
    | ParseError
    | UnsupportedMethod(id: Option<Json>)
    | TooManyRequests
    | Unauthorized
    | InternalServerError

  datatype Bound = Accepted(req: Request, route: Route) | Refused(error: RpcError)

  /** The individual calls of a request. */
  function Calls(req: Request): (calls: seq<SingleRequest>)
    ensures req.Single? ==> |calls| == 1 && calls[0] == req.call
    ensures req.Batch? ==> calls == req.calls
  {
    match req
    case Single(call) => [call]
    case Batch(calls) => calls
  }

  function Cost(req: Request): (n: nat)
    ensures n >= 1 && n >= |Calls(req)|
    ensures Calls(req) != [] ==> n == |Calls(req)|
  {
    match req
    case Single(_) => 1
    case Batch(calls) => if |calls| == 0 then 1 else |calls|
  }

  /** Call i is refused, and no call before it. */
  predicate FirstOffence(calls: seq<SingleRequest>, i: nat, inWhitelist: bool, black: seq<string>, justWhite: seq<string>)
    requires i < |calls|
  {
    && (calls[i].rpcMethod == "" || calls[i].rpcMethod in black || (!inWhitelist && calls[i].rpcMethod in justWhite))
    && forall j | 0 <= j < i ::
         calls[j].rpcMethod != "" && calls[j].rpcMethod !in black && (inWhitelist || calls[j].rpcMethod !in justWhite)
  }

  /** Index of the first occurrence, or -1. */
  method Find(str: string, strList: seq<string>) returns (r: int)
    ensures -1 <= r < |strList|
    ensures r == -1 <==> str !in strList
    ensures r >= 0 ==> strList[r] == str && str !in strList[..r]
  {
    for i := 0 to |strList|
      invariant str !in strList[..i]
    {
      if strList[i] == str {
        return i;
      }
    }
    return -1;
  }

  method In(str: string, strList: seq<string>) returns (r: bool)
    ensures r <==> str in strList
  {
    var i := Find(str, strList);
    return i != -1;
  }

  /** A call needs a method, and one that is not blacklisted. */
  method ValidateReq(call: SingleRequest, blackMethods: seq<string>) returns (err: Option<RpcError>)
    ensures err.None? <==> call.rpcMethod != "" && call.rpcMethod !in blackMethods
    ensures err.Some? ==> err.value == if call.rpcMethod == "" then ParseError else UnsupportedMethod(call.id)
  {
    if call.rpcMethod == "" {
      return Some(ParseError);
    }
    var black := In(call.rpcMethod, blackMethods);
    if black {
      return Some(UnsupportedMethod(call.id));
    }
    return None;
  }

  /** Binding is all or nothing: it accepts exactly the requests whose every call has a method that is not
      blacklisted and, unless the key is whitelisted, not reserved for whitelisted keys; it reports the
      first offending call otherwise, and routes to Erigon exactly when some call asks for it. */
  method Bind(req: Request, inWhitelist: bool, blackMethods: seq<string>, justWhiteMethods: seq<string>,
              erigonMethods: seq<string>) returns (r: Bound)
    ensures r.Accepted? <==> forall call | call in Calls(req) ::
              call.rpcMethod != "" && call.rpcMethod !in blackMethods && (inWhitelist || call.rpcMethod !in justWhiteMethods)
    ensures r.Accepted? ==> r.req == req
    ensures r.Accepted? ==> (r.route == Erigon <==> exists call :: call in Calls(req) && call.rpcMethod in erigonMethods)
    ensures r.Refused? ==> exists i | 0 <= i < |Calls(req)| ::
              && FirstOffence(Calls(req), i, inWhitelist, blackMethods, justWhiteMethods)
              && r.error == if Calls(req)[i].rpcMethod == "" then ParseError else UnsupportedMethod(Calls(req)[i].id)
  {
    var black := blackMethods;
    if !inWhitelist {
      black := black + justWhiteMethods;
    }
    var route := Geth;
    match req {
      case Batch(calls) =>
        for i := 0 to |calls|
          invariant forall j | 0 <= j < i :: calls[j].rpcMethod != "" && calls[j].rpcMethod !in black
          invariant route == Erigon <==> exists j | 0 <= j < i :: calls[j].rpcMethod in erigonMethods
        {
          var err := ValidateReq(calls[i], black);
          if err.Some? {
            assert FirstOffence(Calls(req), i, inWhitelist, blackMethods, justWhiteMethods);
            return Refused(err.value);
          }
          var erigon := In(calls[i].rpcMethod, erigonMethods);
          if erigon {
            route := Erigon;
          }
        }
      case Single(call) =>
        var err := ValidateReq(call, black);
        if err.Some? {
          assert FirstOffence(Calls(req), 0, inWhitelist, blackMethods, justWhiteMethods);
          return Refused(err.value);
        }
        var erigon := In(call.rpcMethod, erigonMethods);
        if erigon {
          route := Erigon;
        }
        assert call in Calls(req);
    }
    return Accepted(req, route);
  }
}
