/** Health rounds over the RPC nodes of a chain, and the choice of a node. */
module NodeHealth {
  import opened Redis

  datatype ChainType = Evm | Svm | Aptos | Tron | Other

  /** What probing one node would bring back: a block number, or nothing on any failure. */
  datatype Probe = Probe(http: Option<nat>, second: Option<nat>)

  /** Block numbers fit the signed integers they are converted to. */
  predicate Fits(p: Probe) {
    && (p.http.Some? ==> p.http.value < 0x8000_0000_0000_0000)
    && (p.second.Some? ==> p.second.value < 0x8000_0000_0000_0000)
  }

  /** The configured endpoints of a node. */
  datatype Endpoints = Endpoints(http: string, ws: string, extraWrite: string)

  function OrZero(n: Option<nat>): nat {
    if n.Some? then n.value else 0
  }

  /** The number a round records for a node's HTTP endpoint. */
  function FirstNumber(t: ChainType, e: Endpoints, p: Probe): nat {
    match t
    case Evm | Svm | Aptos => OrZero(p.http)
    case Tron => if e.http == "" then 0 else OrZero(p.http)
    case Other => 0
  }

  /** And for its second one.  A failed HTTP probe skips it, and only some chains probe it at all. */
  function SecondNumber(t: ChainType, e: Endpoints, p: Probe): nat {
    match t
    case Evm | Svm =>
      if p.http.None? || e.ws == "" || p.second.None? || p.second.value < p.http.value then 0 else p.second.value
    case Tron =>
      if (e.http != "" && p.http.None?) || e.extraWrite == "" then 0 else OrZero(p.second)
    case Aptos | Other => 0
  }

  predicate IsMax(m: int, s: seq<int>) {
    (forall x | x in s :: x <= m) && (if s == [] then m == 0 else m in s)
  }

  /** The library maximum: zero for an empty list. */
  method Max(s: seq<int>) returns (m: int)
    ensures IsMax(m, s)
  {
    if s == [] {
      return 0;
    }
    m := s[0];
    for i := 1 to |s|
      invariant m in s
      invariant forall j | 0 <= j < i :: s[j] <= m
    {
      if m < s[i] {
        m := s[i];
      }
    }
  }

  function Firsts(t: ChainType, es: seq<Endpoints>, ps: seq<Probe>): (r: seq<int>)
    requires |es| == |ps|
    ensures |r| == |es| && forall i | 0 <= i < |r| :: r[i] == FirstNumber(t, es[i], ps[i])
  {
    seq(|es|, i requires 0 <= i < |es| => FirstNumber(t, es[i], ps[i]))
  }

  function Seconds(t: ChainType, es: seq<Endpoints>, ps: seq<Probe>): (r: seq<int>)
    requires |es| == |ps|
    ensures |r| == |es| && forall i | 0 <= i < |r| :: r[i] == SecondNumber(t, es[i], ps[i])
  {
    seq(|es|, i requires 0 <= i < |es| => SecondNumber(t, es[i], ps[i]))
  }

  /** The best number any endpoint gave in a round. */
  predicate Best(t: ChainType, es: seq<Endpoints>, ps: seq<Probe>, best: int)
    requires |es| == |ps|
  {
    IsMax(best, Firsts(t, es, ps) + Seconds(t, es, ps))
  }

  /** The flags a round stores for node i. */
  function FirstFlag(t: ChainType, es: seq<Endpoints>, ps: seq<Probe>, i: nat, best: int, d: int): bool
    requires i < |es| == |ps|
  {
    FirstNumber(t, es[i], ps[i]) >= best - d
  }

  function SecondFlag(t: ChainType, es: seq<Endpoints>, ps: seq<Probe>, i: nat, best: int, d: int): bool
    requires i < |es| == |ps|
  {
    SecondNumber(t, es[i], ps[i]) >= best - d
  }

  class Node {
    const endpoints: Endpoints
    var httpHealth: bool
    var wsHealth: bool
    var extraWriteHealth: bool

    constructor (endpoints: Endpoints)
      ensures this.endpoints == endpoints
      ensures httpHealth == (endpoints.http != "") && wsHealth == (endpoints.ws != "")
      ensures extraWriteHealth == (endpoints.extraWrite != "")
    {
      this.endpoints := endpoints;
      httpHealth, wsHealth, extraWriteHealth := endpoints.http != "", endpoints.ws != "", endpoints.extraWrite != "";
    }
  }

  class RpcHandler {
    const chainType: ChainType
    const maxBehindBlocks: int
    const nodes: seq<Node>

    constructor (chainType: ChainType, maxBehindBlocks: int, nodes: seq<Node>)
      ensures this.chainType == chainType && this.maxBehindBlocks == maxBehindBlocks && this.nodes == nodes
    {
      this.chainType, this.maxBehindBlocks, this.nodes := chainType, maxBehindBlocks, nodes;
    }

    predicate Distinct() {
      forall i, j | 0 <= i < j < |nodes| :: nodes[i] != nodes[j]
    }

    function Configured(): (r: seq<Endpoints>)
      ensures |r| == |nodes| && forall i | 0 <= i < |r| :: r[i] == nodes[i].endpoints
    {
      seq(|nodes|, i requires 0 <= i < |nodes| => nodes[i].endpoints)
    }

    /** One health round: probe every node, then judge every flag against the best number seen.  A round
        on Tron leaves the WebSocket flags alone, any other one the extra write flags. */
    method CheckNodes(probes: seq<Probe>) returns (ghost best: int)
      requires Distinct() && |probes| == |nodes| && forall p | p in probes :: Fits(p)
      modifies nodes
      ensures Best(chainType, Configured(), probes, best)
      ensures forall i | 0 <= i < |nodes| ::
                && nodes[i].httpHealth == FirstFlag(chainType, Configured(), probes, i, best, maxBehindBlocks)
                && nodes[i].extraWriteHealth == (if chainType != Tron then old(nodes[i].extraWriteHealth)
                     else SecondFlag(chainType, Configured(), probes, i, best, maxBehindBlocks))
                && nodes[i].wsHealth == (if chainType == Tron then old(nodes[i].wsHealth)
                     else SecondFlag(chainType, Configured(), probes, i, best, maxBehindBlocks))
    {
      var n := |nodes|;
      var httpBlockNumbers, secondBlockNumbers := new int[n], new int[n];
      for i := 0 to n
        modifies httpBlockNumbers, secondBlockNumbers
        invariant forall j | 0 <= j < i :: httpBlockNumbers[j] == FirstNumber(chainType, nodes[j].endpoints, probes[j])
        invariant forall j | 0 <= j < i :: secondBlockNumbers[j] == SecondNumber(chainType, nodes[j].endpoints, probes[j])
      {
        httpBlockNumbers[i], secondBlockNumbers[i] := ProbeNode(nodes[i].endpoints, probes[i]);
      }
      var first, second := httpBlockNumbers[..], secondBlockNumbers[..];
      assert first == Firsts(chainType, Configured(), probes) && second == Seconds(chainType, Configured(), probes);
      var maxBlockNumber := Max(first + second);
      best := maxBlockNumber;
      StoreFlags(first, second, maxBlockNumber - maxBehindBlocks);
    }

    /** The second loop of a round: every flag says whether its number is at least `least`. */
    method StoreFlags(first: seq<int>, second: seq<int>, least: int)
      requires Distinct() && |first| == |second| == |nodes|
      modifies nodes
      ensures forall i | 0 <= i < |nodes| ::
                && nodes[i].httpHealth == (first[i] >= least)
                && nodes[i].extraWriteHealth == (if chainType == Tron then second[i] >= least else old(nodes[i].extraWriteHealth))
                && nodes[i].wsHealth == (if chainType == Tron then old(nodes[i].wsHealth) else second[i] >= least)
    {
      for i := 0 to |nodes|
        invariant forall j | 0 <= j < i ::
                    && nodes[j].httpHealth == (first[j] >= least)
                    && nodes[j].extraWriteHealth == (if chainType == Tron then second[j] >= least else old(nodes[j].extraWriteHealth))
                    && nodes[j].wsHealth == (if chainType == Tron then old(nodes[j].wsHealth) else second[j] >= least)
        invariant forall j | i <= j < |nodes| :: unchanged(nodes[j])
      {
        nodes[i].httpHealth := first[i] >= least;
        if chainType == Tron {
          nodes[i].extraWriteHealth := second[i] >= least;
        } else {
          nodes[i].wsHealth := second[i] >= least;
        }
      }
    }

    /** The body of the probing loop; a `return` stands for its `continue`. */
    method ProbeNode(e: Endpoints, p: Probe) returns (http: int, second: int)
      ensures http == FirstNumber(chainType, e, p) && second == SecondNumber(chainType, e, p)
    {
      http, second := 0, 0;
      if chainType == Tron {
        if e.http != "" {
          if p.http.None? {
            return;
          }
          http := p.http.value;
        }
        if e.extraWrite != "" {
          if p.second.None? {
            return;
          }
          second := p.second.value;
        }
        return;
      }
      var httpBlockNumber: nat := 0;
      if chainType == Evm || chainType == Svm || chainType == Aptos {
        if p.http.None? {
          return;
        }
        httpBlockNumber := p.http.value;
      }
      http := httpBlockNumber;
      if e.ws == "" {
        return;
      }
      var wsBlockNumber: nat := 0;
      if chainType == Evm || chainType == Svm {
        if p.second.None? {
          return;
        }
        wsBlockNumber := p.second.value;
      }
      if wsBlockNumber < httpBlockNumber {
        return;
      }
      second := wsBlockNumber;
    }

    /** The first node in configuration order whose HTTP flag is set, if any. */
    method GetHealthyNode() returns (r: Option<nat>)
      ensures r.None? ==> forall i | 0 <= i < |nodes| :: !nodes[i].httpHealth
      ensures r.Some? ==> r.value < |nodes| && nodes[r.value].httpHealth
                          && forall i | 0 <= i < r.value :: !nodes[i].httpHealth
    {
      for i := 0 to |nodes|
        invariant forall j | 0 <= j < i :: !nodes[j].httpHealth
      {
        if nodes[i].httpHealth {
          return Some(i);
        }
      }
      return None;
    }

    /** The same for the WebSocket flag. */
    method GetHealthyWsNode() returns (r: Option<nat>)
      ensures r.None? ==> forall i | 0 <= i < |nodes| :: !nodes[i].wsHealth
      ensures r.Some? ==> r.value < |nodes| && nodes[r.value].wsHealth
                          && forall i | 0 <= i < r.value :: !nodes[i].wsHealth
    {
      for i := 0 to |nodes|
        invariant forall j | 0 <= j < i :: !nodes[j].wsHealth
      {
        if nodes[i].wsHealth {
          return Some(i);
        }
      }
      return None;
    }

    /** And for the extra write flag. */
    method GetHealthyExtraWriteNode() returns (r: Option<nat>)
      ensures r.None? ==> forall i | 0 <= i < |nodes| :: !nodes[i].extraWriteHealth
      ensures r.Some? ==> r.value < |nodes| && nodes[r.value].extraWriteHealth
                          && forall i | 0 <= i < r.value :: !nodes[i].extraWriteHealth
    {
      for i := 0 to |nodes|
        invariant forall j | 0 <= j < i :: !nodes[j].extraWriteHealth
      {
        if nodes[i].extraWriteHealth {
          return Some(i);
        }
      }
      return None;
    }
  }

  // ---- What the flags of a round mean ----

  /** An EVM or SVM node's WebSocket counts only if both probes answered and it is not behind HTTP. */
  predicate SocketAnswered(e: Endpoints, p: Probe) {
    p.http.Some? && e.ws != "" && p.second.Some? && p.second.value >= p.http.value
  }

  /** The numbers of a round, and the best of them: the greatest, and one somebody gave. */
  lemma BestIsGreatest(t: ChainType, es: seq<Endpoints>, ps: seq<Probe>, best: int)
    requires |es| == |ps| && Best(t, es, ps, best)
    ensures forall i | 0 <= i < |es| :: FirstNumber(t, es[i], ps[i]) <= best && SecondNumber(t, es[i], ps[i]) <= best
    ensures best >= 0
    ensures best > 0 ==> exists i | 0 <= i < |es| :: FirstNumber(t, es[i], ps[i]) == best || SecondNumber(t, es[i], ps[i]) == best
  {
    var firsts, seconds := Firsts(t, es, ps), Seconds(t, es, ps);
    var all := firsts + seconds;
    forall i | 0 <= i < |es|
      ensures FirstNumber(t, es[i], ps[i]) <= best && SecondNumber(t, es[i], ps[i]) <= best
    {
      assert all[i] in all && all[|es| + i] in all;
    }
    if all != [] {
      var k :| 0 <= k < |all| && all[k] == best;
      if k < |firsts| {
        assert FirstNumber(t, es[k], ps[k]) == best;
      } else {
        assert SecondNumber(t, es[k - |firsts|], ps[k - |firsts|]) == best;
      }
    }
  }

  /** The best number of a round is the greatest that any endpoint answered, and 0 if nobody answered one:
      on EVM and SVM of HTTP and those WebSockets that are not behind it, on Tron of HTTP and the extra
      write API, on Aptos of HTTP alone. */
  lemma BestMeans(t: ChainType, es: seq<Endpoints>, ps: seq<Probe>, best: int)
    requires |es| == |ps| && Best(t, es, ps, best)
    ensures best >= 0 && (t == Other ==> best == 0)
    ensures t == Evm || t == Svm ==>
              && (forall i | 0 <= i < |es| :: (ps[i].http.Some? ==> ps[i].http.value <= best) &&
                                              (SocketAnswered(es[i], ps[i]) ==> ps[i].second.value <= best))
              && (best > 0 ==> exists i | 0 <= i < |es| ::
                    ps[i].http == Some(best) || (SocketAnswered(es[i], ps[i]) && ps[i].second == Some(best)))
    ensures t == Tron ==>
              && (forall i | 0 <= i < |es| :: (es[i].http != "" && ps[i].http.Some? ==> ps[i].http.value <= best) &&
                                              (WriteApiAnswered(es[i], ps[i]) ==> ps[i].second.value <= best))
              && (best > 0 ==> exists i | 0 <= i < |es| ::
                    (es[i].http != "" && ps[i].http == Some(best)) || (WriteApiAnswered(es[i], ps[i]) && ps[i].second == Some(best)))
    ensures t == Aptos ==>
              && (forall i | 0 <= i < |es| :: ps[i].http.Some? ==> ps[i].http.value <= best)
              && (best > 0 ==> exists i | 0 <= i < |es| :: ps[i].http == Some(best))
  {
    BestIsGreatest(t, es, ps, best);
  }

  /** EVM and SVM, best number beyond the tolerated lag: the flags are set exactly for endpoints that
      answered close enough to the best, and at least one is. */
  lemma EvmRound(t: ChainType, es: seq<Endpoints>, ps: seq<Probe>, best: int, d: nat)
    requires t == Evm || t == Svm
    requires |es| == |ps| && Best(t, es, ps, best) && best > d
    ensures forall i | 0 <= i < |es| ::
              && (FirstFlag(t, es, ps, i, best, d) <==> ps[i].http.Some? && ps[i].http.value >= best - d)
              && (SecondFlag(t, es, ps, i, best, d) <==> SocketAnswered(es[i], ps[i]) && ps[i].second.value >= best - d)
    ensures exists i | 0 <= i < |es| :: FirstFlag(t, es, ps, i, best, d) || SecondFlag(t, es, ps, i, best, d)
  {
    BestIsGreatest(t, es, ps, best);
  }

  /** The extra write API is probed when HTTP is not configured, or answered. */
  predicate WriteApiAnswered(e: Endpoints, p: Probe) {
    (e.http == "" || p.http.Some?) && e.extraWrite != "" && p.second.Some?
  }

  /** The same for Tron. */
  lemma TronRound(es: seq<Endpoints>, ps: seq<Probe>, best: int, d: nat)
    requires |es| == |ps| && Best(Tron, es, ps, best) && best > d
    ensures forall i | 0 <= i < |es| ::
              && (FirstFlag(Tron, es, ps, i, best, d) <==>
                  es[i].http != "" && ps[i].http.Some? && ps[i].http.value >= best - d)
              && (SecondFlag(Tron, es, ps, i, best, d) <==>
                  WriteApiAnswered(es[i], ps[i]) && ps[i].second.value >= best - d)
    ensures exists i | 0 <= i < |es| :: FirstFlag(Tron, es, ps, i, best, d) || SecondFlag(Tron, es, ps, i, best, d)
  {
    BestIsGreatest(Tron, es, ps, best);
  }

  /** Aptos judges HTTP alone: the flag is set exactly for nodes that answered close enough to the best,
      and at least one is; no WebSocket flag is set. */
  lemma AptosRound(es: seq<Endpoints>, ps: seq<Probe>, best: int, d: nat)
    requires |es| == |ps| && Best(Aptos, es, ps, best) && best > d
    ensures forall i | 0 <= i < |es| ::
              && (FirstFlag(Aptos, es, ps, i, best, d) <==> ps[i].http.Some? && ps[i].http.value >= best - d)
              && !SecondFlag(Aptos, es, ps, i, best, d)
    ensures exists i | 0 <= i < |es| :: FirstFlag(Aptos, es, ps, i, best, d)
  {
    BestIsGreatest(Aptos, es, ps, best);
  }

  /** A best number within the tolerated lag, as when every probe fails, sets every flag, even of
      endpoints that are not configured; a negative tolerance clears every flag. */
  lemma DegenerateRound(t: ChainType, es: seq<Endpoints>, ps: seq<Probe>, best: int, d: int, i: nat)
    requires |es| == |ps| && Best(t, es, ps, best) && i < |es|
    ensures best <= d ==> FirstFlag(t, es, ps, i, best, d) && SecondFlag(t, es, ps, i, best, d)
    ensures d < 0 ==> !FirstFlag(t, es, ps, i, best, d) && !SecondFlag(t, es, ps, i, best, d)
  {
    var all := Firsts(t, es, ps) + Seconds(t, es, ps);
    assert all[i] in all && all[|es| + i] in all;
  }

  /** Aptos and chains of no known type record no WebSocket number: a round sets their WebSocket flags
      exactly if the best number is within the lag.  Without a known type the best number is 0. */
  lemma UnprobedSecond(t: ChainType, es: seq<Endpoints>, ps: seq<Probe>, best: int, d: int, i: nat)
    requires t == Aptos || t == Other
    requires |es| == |ps| && Best(t, es, ps, best) && i < |es|
    ensures SecondFlag(t, es, ps, i, best, d) <==> best <= d
    ensures t == Other ==> best == 0 && (FirstFlag(t, es, ps, i, best, d) <==> d >= 0)
  {
  }
}
