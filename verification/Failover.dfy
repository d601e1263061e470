/** Requests choose a node while a health round is storing its flags, one at a time. */
module Failover {
  import NodeHealth

  datatype Flags = Flags(http: bool, second: bool)

  datatype Kind = HttpNode | SecondNode

  function Get(f: Flags, kind: Kind): bool {
    if kind == HttpNode then f.http else f.second
  }

  datatype Outcome = Scanning | Found(node: nat) | NotFound

  /** A request thread: it loads the flags of nodes 0, 1, ... until one is set.  `oldest` is the oldest
      round whose flags it could still see when it began, `latest` the newest when it ended. */
  datatype Scan = Scan(kind: Kind, at: nat, oldest: nat, latest: nat, outcome: Outcome)

  /** `rounds` holds the judgements of all rounds so far, the initial flags being round 0; `stored`
      counts the stores the newest round has done, HTTP before the second flag, node by node. */
  datatype State = State(flags: seq<Flags>, rounds: seq<seq<Flags>>, stored: nat, scans: seq<Scan>)

  datatype Event = Begin(judgement: seq<Flags>) | StoreNext | Enter(kind: Kind) | Load(scan: nat)

  function Init(initial: seq<Flags>): State {
    State(initial, [initial], 2 * |initial|, [])
  }

  function Last(st: State): int {
    |st.rounds| - 1
  }

  predicate Enabled(st: State, e: Event) {
    match e
    case Begin(judgement) => st.stored == 2 * |st.flags| && |judgement| == |st.flags|
    case StoreNext => st.stored < 2 * |st.flags| && st.rounds != [] && |st.rounds[Last(st)]| == |st.flags|
    case Enter(_) => st.rounds != []
    case Load(i) => i < |st.scans| && st.scans[i].outcome == Scanning && st.rounds != []
  }

  function Step(st: State, e: Event): State
    requires Enabled(st, e)
  {
    match e
    case Begin(judgement) => st.(rounds := st.rounds + [judgement], stored := 0)
    case StoreNext =>
      var i, judged := st.stored / 2, st.rounds[Last(st)][st.stored / 2];
      var f := st.flags[i];
      st.(flags := st.flags[i := if st.stored % 2 == 0 then f.(http := judged.http) else f.(second := judged.second)],
          stored := st.stored + 1)
    case Enter(kind) =>
      var oldest: nat := if st.stored == 2 * |st.flags| || Last(st) == 0 then Last(st) else Last(st) - 1;
      st.(scans := st.scans + [Scan(kind, 0, oldest, Last(st), Scanning)])
    case Load(i) =>
      var s := st.scans[i];
      var s' := if s.at >= |st.flags| then s.(outcome := NotFound, latest := Last(st))
                else if Get(st.flags[s.at], s.kind) then s.(outcome := Found(s.at), latest := Last(st))
                else s.(at := s.at + 1);
      st.(scans := st.scans[i := s'])
  }

  predicate Possible(st: State, events: seq<Event>)
    decreases events
  {
    events == [] || (Enabled(st, events[0]) && Possible(Step(st, events[0]), events[1..]))
  }

  function Final(st: State, events: seq<Event>): State
    requires Possible(st, events)
    decreases events
  {
    if events == [] then st else Final(Step(st, events[0]), events[1..])
  }

  /** The newest round has already stored this flag. */
  predicate Done(st: State, node: nat, kind: Kind) {
    2 * node + (if kind == HttpNode then 0 else 1) < st.stored
  }

  /** Where a flag comes from: the newest round, or the one before it. */
  predicate Written(st: State) {
    && st.rounds != [] && st.stored <= 2 * |st.flags|
    && (|st.rounds| == 1 ==> st.stored == 2 * |st.flags|)
    && (forall r | 0 <= r < |st.rounds| :: |st.rounds[r]| == |st.flags|)
    && (forall node, kind | 0 <= node < |st.flags| ::
          Get(st.flags[node], kind) ==
          if Done(st, node, kind) then Get(st.rounds[Last(st)][node], kind)
          else Get(st.rounds[Last(st) - 1][node], kind))
  }

  /** Some round from `lo` to `hi` judged the node so. */
  predicate Judged(rounds: seq<seq<Flags>>, lo: int, hi: int, node: nat, kind: Kind, healthy: bool) {
    exists r | lo <= r <= hi :: 0 <= r < |rounds| && node < |rounds[r]| && Get(rounds[r][node], kind) == healthy
  }

  /** What a scan may conclude. */
  predicate ScanSound(st: State, s: Scan) {
    && s.oldest <= Last(st) && s.latest <= Last(st)
    && match s.outcome
       case Scanning =>
         s.at <= |st.flags| && (s.oldest < Last(st) || st.stored == 2 * |st.flags|) &&
         forall i | 0 <= i < s.at :: Judged(st.rounds, s.oldest, Last(st), i, s.kind, false)
       case Found(node) =>
         node < |st.flags| && Judged(st.rounds, s.oldest, s.latest, node, s.kind, true) &&
         forall i | 0 <= i < node :: Judged(st.rounds, s.oldest, s.latest, i, s.kind, false)
       case NotFound =>
         forall i | 0 <= i < |st.flags| :: Judged(st.rounds, s.oldest, s.latest, i, s.kind, false)
  }

  predicate Sound(st: State) {
    Written(st) && forall s | s in st.scans :: ScanSound(st, s)
  }

  lemma WrittenStep(st: State, e: Event)
    requires Enabled(st, e) && Written(st)
    ensures Written(Step(st, e))
  {
    var st' := Step(st, e);
    forall node: nat, kind | 0 <= node < |st'.flags|
      ensures Get(st'.flags[node], kind) ==
              if Done(st', node, kind) then Get(st'.rounds[Last(st')][node], kind)
              else Get(st'.rounds[Last(st') - 1][node], kind)
    {
      assert Get(st.flags[node], kind) ==
             if Done(st, node, kind) then Get(st.rounds[Last(st)][node], kind)
             else Get(st.rounds[Last(st) - 1][node], kind);
      if e.Begin? {
        assert Done(st, node, kind) && !Done(st', node, kind);
      }
    }
  }

  /** Later rounds only widen the window of a running scan. */
  lemma JudgedLater(rounds: seq<seq<Flags>>, more: seq<seq<Flags>>, lo: int, hi: int, hi': int, node: nat,
                    kind: Kind, healthy: bool)
    requires hi <= hi' && Judged(rounds, lo, hi, node, kind, healthy)
    ensures Judged(rounds + more, lo, hi', node, kind, healthy)
  {
    var r :| lo <= r <= hi && 0 <= r < |rounds| && node < |rounds[r]| && Get(rounds[r][node], kind) == healthy;
    assert (rounds + more)[r] == rounds[r];
  }

  /** Writer steps keep what every scan knows. */
  lemma ScanKept(st: State, e: Event, s: Scan)
    requires Enabled(st, e) && (e.Begin? || e.StoreNext?) && Written(st) && ScanSound(st, s)
    ensures ScanSound(Step(st, e), s)
  {
    var st' := Step(st, e);
    var more := if e.Begin? then [e.judgement] else [];
    assert st'.rounds == st.rounds + more;
    var hi := if s.outcome == Scanning then Last(st) else s.latest;
    var hi' := if s.outcome == Scanning then Last(st') else s.latest;
    forall i, healthy | 0 <= i < |st.flags| && Judged(st.rounds, s.oldest, hi, i, s.kind, healthy)
      ensures Judged(st'.rounds, s.oldest, hi', i, s.kind, healthy)
    {
      JudgedLater(st.rounds, more, s.oldest, hi, hi', i, s.kind, healthy);
    }
  }

  /** A load sees the judgement of the newest round or, while it is storing, of the one before. */
  lemma LoadSeesARound(st: State, s: Scan)
    requires Written(st) && ScanSound(st, s) && s.outcome == Scanning && s.at < |st.flags|
    ensures Judged(st.rounds, s.oldest, Last(st), s.at, s.kind, Get(st.flags[s.at], s.kind))
  {
    var r := if Done(st, s.at, s.kind) then Last(st) else Last(st) - 1;
    assert Get(st.rounds[r][s.at], s.kind) == Get(st.flags[s.at], s.kind);
  }

  lemma SoundStep(st: State, e: Event)
    requires Enabled(st, e) && Sound(st)
    ensures Sound(Step(st, e))
  {
    var st' := Step(st, e);
    WrittenStep(st, e);
    forall s | s in st'.scans
      ensures ScanSound(st', s)
    {
      if e.Begin? || e.StoreNext? {
        ScanKept(st, e, s);
      } else if e.Load? && s !in st.scans {
        var was := st.scans[e.scan];
        assert was in st.scans;
        if was.at < |st.flags| {
          LoadSeesARound(st, was);
        }
      }
    }
  }

  lemma {:induction false} SoundRun(st: State, events: seq<Event>)
    requires Possible(st, events) && Sound(st)
    ensures Sound(Final(st, events))
    decreases events
  {
    if events != [] {
      hide Sound;
      SoundStep(st, events[0]);
      SoundRun(Step(st, events[0]), events[1..]);
    }
  }

  /** However a scan races with health rounds: a node it returns was judged healthy, and every node
      before it unhealthy, in some round from the one in force when the scan began to the newest when
      it ended; and if a node is judged healthy in all those rounds, the scan does not fail. */
  lemma RacingScan(initial: seq<Flags>, events: seq<Event>, s: Scan)
    requires Possible(Init(initial), events) && s in Final(Init(initial), events).scans
    ensures var rounds := Final(Init(initial), events).rounds;
            && s.oldest < |rounds| && s.latest < |rounds|
            && (s.outcome.Found? ==>
                  && Judged(rounds, s.oldest, s.latest, s.outcome.node, s.kind, true)
                  && forall i | 0 <= i < s.outcome.node :: Judged(rounds, s.oldest, s.latest, i, s.kind, false))
            && ((exists i | 0 <= i < |initial| :: !Judged(rounds, s.oldest, s.latest, i, s.kind, false)) ==>
                s.outcome != NotFound)
  {
    var st := Init(initial);
    assert Written(st);
    SoundRun(st, events);
    SameNodes(st, events);
  }

  lemma {:induction false} SameNodes(st: State, events: seq<Event>)
    requires Possible(st, events)
    ensures |Final(st, events).flags| == |st.flags|
    decreases events
  {
    if events != [] {
      SameNodes(Step(st, events[0]), events[1..]);
    }
  }

  lemma {:induction false} ScanStays(st: State, events: seq<Event>, i: nat)
    requires Possible(st, events) && i < |st.scans| && st.scans[i].latest <= Last(st)
    ensures var end := Final(st, events);
            && i < |end.scans| && end.scans[i].kind == st.scans[i].kind && end.scans[i].oldest == st.scans[i].oldest
            && end.scans[i].latest <= Last(end)
    decreases events
  {
    if events != [] {
      ScanStays(Step(st, events[0]), events[1..], i);
    }
  }

  /** The rounds a scan can see: none older than the newest one stored in full when it began, which is the
      newest or the one before it, and none younger than the newest at its end. */
  lemma ScanWindow(st: State, kind: Kind, after: seq<Event>)
    requires Written(st) && Enabled(st, Enter(kind)) && Possible(Step(st, Enter(kind)), after)
    ensures var end := Final(Step(st, Enter(kind)), after);
            && |st.scans| < |end.scans|
            && var s := end.scans[|st.scans|];
               && s.kind == kind && s.latest <= |end.rounds| - 1
               && s.oldest == if st.stored == 2 * |st.flags| then |st.rounds| - 1 else |st.rounds| - 2
  {
    ScanStays(Step(st, Enter(kind)), after, |st.scans|);
  }

  /** A scan that no store interrupts finds the first node whose flag is set, and fails exactly if none is. */
  lemma {:induction false} ScanAlone(st: State, i: nat, loads: seq<Event>)
    requires i < |st.scans| && st.scans[i].outcome == Scanning && st.scans[i].at <= |st.flags|
    requires forall n | 0 <= n < st.scans[i].at :: !Get(st.flags[n], st.scans[i].kind)
    requires Possible(st, loads) && forall e | e in loads :: e == Load(i)
    ensures i < |Final(st, loads).scans|
    ensures var kind := st.scans[i].kind;
            match Final(st, loads).scans[i].outcome
            case Scanning => |loads| <= |st.flags| - st.scans[i].at
            case Found(node) =>
              node < |st.flags| && Get(st.flags[node], kind) && forall n | 0 <= n < node :: !Get(st.flags[n], kind)
            case NotFound => forall n | 0 <= n < |st.flags| :: !Get(st.flags[n], kind)
    decreases loads
  {
    if loads != [] {
      var st' := Step(st, loads[0]);
      assert loads[0] in loads && forall e | e in loads[1..] :: e in loads;
      assert loads[1..] != [] ==> loads[1..][0] in loads;
      if st'.scans[i].outcome == Scanning {
        ScanAlone(st', i, loads[1..]);
      }
    }
  }

  // ---- With the rounds of an EVM or SVM chain ----

  /** What a round saw: its probes, and the best number among them. */
  datatype Round = Round(probes: seq<NodeHealth.Probe>, best: int)

  /** The judgement of such a round, its best number being beyond the tolerated lag. */
  predicate JudgedBy(t: NodeHealth.ChainType, es: seq<NodeHealth.Endpoints>, d: nat, judgement: seq<Flags>, r: Round) {
    && |es| == |r.probes| == |judgement| && NodeHealth.Best(t, es, r.probes, r.best) && r.best > d
    && forall i | 0 <= i < |judgement| ::
         judgement[i] == Flags(NodeHealth.FirstFlag(t, es, r.probes, i, r.best, d),
                               NodeHealth.SecondFlag(t, es, r.probes, i, r.best, d))
  }

  /** The node's endpoint answered, close enough to the best number. */
  predicate Answered(es: seq<NodeHealth.Endpoints>, d: nat, r: Round, node: nat, kind: Kind) {
    node < |es| == |r.probes| &&
    match kind
    case HttpNode => r.probes[node].http.Some? && r.probes[node].http.value >= r.best - d
    case SecondNode =>
      NodeHealth.SocketAnswered(es[node], r.probes[node]) && r.probes[node].second.value >= r.best - d
  }

  /** What the scan can take for healthy in a round: an endpoint that answered or, before any round was
      stored, one that is configured. */
  predicate GoodIn(es: seq<NodeHealth.Endpoints>, d: nat, initial: seq<Flags>, seen: seq<Round>, r: nat, node: nat, kind: Kind) {
    if r == 0 then node < |initial| && Get(initial[node], kind) else r < |seen| && Answered(es, d, seen[r], node, kind)
  }

  lemma HealthyIffAnswered(t: NodeHealth.ChainType, es: seq<NodeHealth.Endpoints>, d: nat, judgement: seq<Flags>,
                           r: Round, node: nat, kind: Kind)
    requires (t == NodeHealth.Evm || t == NodeHealth.Svm) && JudgedBy(t, es, d, judgement, r) && node < |es|
    ensures Get(judgement[node], kind) <==> Answered(es, d, r, node, kind)
  {
    NodeHealth.EvmRound(t, es, r.probes, r.best, d);
  }

  /** A scan racing with such rounds returns a node whose endpoint answered close enough to the best
      number in one of the rounds it could see; and it does not fail if some node n did in all of them.
      `seen` lists what each round saw; round 0 stands for the flags the nodes start with. */
  lemma RacingScanAnswered(t: NodeHealth.ChainType, es: seq<NodeHealth.Endpoints>, d: nat, initial: seq<Flags>,
                           events: seq<Event>, s: Scan, seen: seq<Round>, n: nat)
    requires (t == NodeHealth.Evm || t == NodeHealth.Svm) && |es| == |initial| && n < |initial|
    requires Possible(Init(initial), events) && s in Final(Init(initial), events).scans
    requires var rounds := Final(Init(initial), events).rounds;
             |seen| == |rounds| && forall r | s.oldest <= r <= s.latest && 0 < r < |rounds| :: JudgedBy(t, es, d, rounds[r], seen[r])
    ensures s.outcome.Found? ==>
            exists r: nat | s.oldest <= r <= s.latest :: GoodIn(es, d, initial, seen, r, s.outcome.node, s.kind)
    ensures (forall r: nat | s.oldest <= r <= s.latest :: GoodIn(es, d, initial, seen, r, n, s.kind)) ==> s.outcome != NotFound
  {
    var rounds := Final(Init(initial), events).rounds;
    RacingScan(initial, events, s);
    FirstRound(Init(initial), events);
    forall r: nat, node: nat | s.oldest <= r <= s.latest && r < |rounds| && node < |rounds[r]|
      ensures node < |es| && (Get(rounds[r][node], s.kind) <==> GoodIn(es, d, initial, seen, r, node, s.kind))
    {
      if r > 0 {
        HealthyIffAnswered(t, es, d, rounds[r], seen[r], node, s.kind);
      }
    }
    assert (forall r: nat | s.oldest <= r <= s.latest :: GoodIn(es, d, initial, seen, r, n, s.kind)) ==>
           !Judged(rounds, s.oldest, s.latest, n, s.kind, false);
  }

  lemma {:induction false} FirstRound(st: State, events: seq<Event>)
    requires Possible(st, events) && st.rounds != []
    ensures var rounds := Final(st, events).rounds; rounds != [] && rounds[0] == st.rounds[0]
    decreases events
  {
    if events != [] {
      FirstRound(Step(st, events[0]), events[1..]);
    }
  }
}
