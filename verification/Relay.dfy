/** The WebSocket relay: two upstream readers and the request loop send to one client. */
module Relay {

  /** A frame after trimming. */
  type Frame = string

  /** Who sends: the two upstream readers, and the loop that reads the client's requests. */
  datatype Source = Main | Erigon | Local

  /** Where a sender stands in `Send`: before the check of `closed`, blocked on the channel, or outside;
      a reader that failed to read or to decode is finished. */
  datatype Place = Idle | Holding(frame: Frame) | Waiting(frame: Frame) | Finished

  /** A sender with all frames it was given to send, and whether it ever dropped one. */
  datatype Sender = Sender(place: Place, taken: seq<Frame>, dropped: bool)

  /** The goroutine that writes to the client: at the channel, with a frame it has taken off, or gone,
      perhaps with a frame it could not write. */
  datatype Writer = Ready | Writing(frame: (Source, Frame)) | Stopped(lost: seq<(Source, Frame)>)

  datatype State = State(senders: map<Source, Sender>, delivered: seq<(Source, Frame)>,
                         closed: bool, channelClosed: bool, writer: Writer)

  datatype Event =
    | Take(src: Source, frame: Frame, decodable: bool)  // a frame is read, or an answer made up locally
    | Stop(src: Source)                                 // a read fails
    | Check(src: Source)                                // `closed` is read under the mutex
    | Offer(frame: Frame)                               // the request loop sends past the check
    | Receive(src: Source)                              // the writer takes a frame off the channel
    | Panic(src: Source)                                // a send finds the channel closed
    | Close                                             // the request loop ends and tears the relay down
    | CloseChannel                                      // ... and then its channel is closed
    | Deliver                                           // ... and writes it to the client
    | WriteFails                                        // ... or fails to, and returns
    | WriterStops                                       // the writer returns with nothing in hand

  function Init(): State {
    var s := Sender(Idle, [], false);
    State(map[Main := s, Erigon := s, Local := s], [], false, false, Ready)
  }

  /** Batches are relayed without decoding. */
  predicate IsBatch(f: Frame) {
    f != "" && f[0] == '[' && f[|f| - 1] == ']'
  }

  function PlaceOf(st: State, src: Source): Place {
    if src in st.senders then st.senders[src].place else Finished
  }

  predicate Enabled(st: State, e: Event) {
    match e
    case Take(src, frame, _) => PlaceOf(st, src).Idle? && frame != ""
    case Stop(src) => PlaceOf(st, src).Idle?
    case Check(src) => PlaceOf(st, src).Holding?
    case Offer(_) => PlaceOf(st, Local).Idle?
    case Receive(src) => PlaceOf(st, src).Waiting? && !st.channelClosed && st.writer.Ready?
    case Panic(src) => PlaceOf(st, src).Waiting? && st.channelClosed
    case Close => PlaceOf(st, Local).Idle?
    case CloseChannel => st.closed
    case Deliver => st.writer.Writing?
    case WriteFails => st.writer.Writing?
    case WriterStops => st.writer.Ready?
  }

  function Move(st: State, src: Source, s: Sender): State {
    st.(senders := st.senders[src := s])
  }

  function Step(st: State, e: Event): State
    requires Enabled(st, e)
  {
    match e
    case Take(src, frame, decodable) =>
      var s := st.senders[src];
      if IsBatch(frame) || decodable then Move(st, src, s.(place := Holding(frame), taken := s.taken + [frame]))
      else Move(st, src, s.(place := Finished))
    case Stop(src) => Move(st, src, st.senders[src].(place := Finished))
    case Check(src) =>
      var s := st.senders[src];
      if st.closed then Move(st, src, s.(place := Idle, dropped := true))
      else Move(st, src, s.(place := Waiting(s.place.frame)))
    case Offer(frame) =>
      var s := st.senders[Local];
      Move(st, Local, s.(place := Waiting(frame), taken := s.taken + [frame]))
    case Receive(src) =>
      var s := st.senders[src];
      Move(st, src, s.(place := Idle)).(writer := Writing((src, s.place.frame)))
    case Panic(src) =>
      Move(st, src, st.senders[src].(place := Idle, dropped := true)).(closed := true)
    case Close => Move(st, Local, st.senders[Local].(place := Finished)).(closed := true)
    case CloseChannel => st.(channelClosed := true)
    case Deliver => st.(delivered := st.delivered + [st.writer.frame], writer := Ready)
    case WriteFails => st.(writer := Stopped([st.writer.frame]))
    case WriterStops => st.(writer := Stopped([]))
  }

  predicate Possible(st: State, events: seq<Event>)
    decreases events
  {
    events == [] || (Enabled(st, events[0]) && Possible(Step(st, events[0]), events[1..]))
  }

  function Final(st: State, events: seq<Event>): State
    requires Possible(st, events)
    decreases events
  {
    if events == [] then st else Final(Step(st, events[0]), events[1..])
  }

  /** The frames of one sender, in the order the client got them. */
  function From(delivered: seq<(Source, Frame)>, src: Source): seq<Frame> {
    if delivered == [] then [] else
      var last := delivered[|delivered| - 1];
      From(delivered[..|delivered| - 1], src) + (if last.0 == src then [last.1] else [])
  }

  /** The frame a sender has in hand. */
  function InHand(s: Sender): seq<Frame> {
    match s.place
    case Holding(f) => [f]
    case Waiting(f) => [f]
    case _ => []
  }

  /** The frame the writer took and did not deliver: at most one over all senders. */
  function AtWriter(w: Writer): (frames: seq<(Source, Frame)>)
    ensures w.Writing? ==> |frames| == 1
  {
    match w
    case Ready => []
    case Writing(frame) => [frame]
    case Stopped(lost) => lost
  }

  /** A sender's frames that were taken off the channel, in order. */
  function Passed(st: State, src: Source): seq<Frame> {
    From(st.delivered + AtWriter(st.writer), src)
  }

  /** One sender's frames: all accounted for until the relay closes, then a prefix. */
  predicate InOrder(st: State, src: Source) {
    && src in st.senders
    && var s, passed := st.senders[src], Passed(st, src);
       if s.dropped then st.closed && passed <= s.taken && !s.place.Waiting?
       else passed + InHand(s) == s.taken
  }

  /** Only the request loop closes the relay, as the last thing it does. */
  predicate ShutInOrder(st: State) {
    && Local in st.senders && !st.senders[Local].dropped
    && (st.closed ==> st.senders[Local].place.Finished?)
    && (st.channelClosed ==> st.closed)
  }

  lemma FromAppend(delivered: seq<(Source, Frame)>, d: (Source, Frame), src: Source)
    ensures From(delivered + [d], src) == From(delivered, src) + (if d.0 == src then [d.1] else [])
  {
  }

  lemma ShutStep(st: State, e: Event)
    requires Enabled(st, e) && ShutInOrder(st)
    ensures ShutInOrder(Step(st, e)) && (st.closed ==> Step(st, e).closed)
  {
  }

  lemma ReceiveStep(st: State, sender: Source, src: Source)
    requires Enabled(st, Receive(sender)) && InOrder(st, src)
    ensures InOrder(Step(st, Receive(sender)), src)
  {
    PassedReceive(st, sender, src);
    hide Passed;
    var st', s := Step(st, Receive(sender)), st.senders[src];
    var passed := Passed(st', src);
    assert passed + [] == passed;
    assert st'.senders[src] == if sender == src then s.(place := Idle) else s;
    assert sender == src ==> InHand(s) == [s.place.frame];
    hide Step;
  }

  lemma PassedReceive(st: State, sender: Source, src: Source)
    requires Enabled(st, Receive(sender))
    ensures Passed(Step(st, Receive(sender)), src) ==
            Passed(st, src) + (if sender == src then [st.senders[sender].place.frame] else [])
  {
    FromAppend(st.delivered, (sender, st.senders[sender].place.frame), src);
    assert st.delivered + [] == st.delivered;
    hide From;
  }

  /** The writer neither reorders nor duplicates, and loses nothing but what it has in hand. */
  lemma WriterStep(st: State, e: Event, src: Source)
    requires Enabled(st, e) && InOrder(st, src) && (e.Deliver? || e.WriteFails? || e.WriterStops?)
    ensures InOrder(Step(st, e), src)
  {
    hide From;
    if e.Deliver? {
      var after := st.delivered + [st.writer.frame];
      assert after + [] == after;
    }
  }

  lemma TakeStep(st: State, e: Event, src: Source)
    requires Enabled(st, e) && InOrder(st, src) && ShutInOrder(st) && (e.Take? || e.Offer?)
    ensures InOrder(Step(st, e), src)
  {
    hide From, Passed;
    var passed := Passed(st, src);
    assert Passed(Step(st, e), src) == passed by {
      SamePassed(st, e, src);
    }
    assert passed + [] == passed;
  }

  lemma SamePassed(st: State, e: Event, src: Source)
    requires Enabled(st, e) && !e.Receive? && !e.Deliver?
    ensures Step(st, e).delivered == st.delivered
    ensures !e.WriteFails? && !e.WriterStops? ==> Passed(Step(st, e), src) == Passed(st, src)
  {
  }

  lemma DropStep(st: State, e: Event, src: Source)
    requires Enabled(st, e) && InOrder(st, src) && (e.Check? || e.Panic?)
    ensures InOrder(Step(st, e), src)
  {
    SamePassed(st, e, src);
    hide Passed;
  }

  lemma OrderStep(st: State, e: Event, src: Source)
    requires Enabled(st, e) && InOrder(st, src) && ShutInOrder(st)
    ensures InOrder(Step(st, e), src)
  {
    hide From;
    if e.Receive? {
      ReceiveStep(st, e.src, src);
    } else if e.Take? || e.Offer? {
      TakeStep(st, e, src);
    } else if e.Check? || e.Panic? {
      DropStep(st, e, src);
    } else if e.Deliver? || e.WriteFails? || e.WriterStops? {
      WriterStep(st, e, src);
    }
  }

  /** Only what a writer had in hand can be lost with it. */
  predicate OneAtWriter(st: State) {
    |AtWriter(st.writer)| <= 1
  }

  lemma {:induction false} OrderRun(st: State, events: seq<Event>, src: Source)
    requires Possible(st, events) && InOrder(st, src) && ShutInOrder(st) && OneAtWriter(st)
    ensures InOrder(Final(st, events), src) && ShutInOrder(Final(st, events)) && OneAtWriter(Final(st, events))
    ensures st.closed ==> Final(st, events).closed
    decreases events
  {
    if events != [] {
      OrderStep(st, events[0], src);
      ShutStep(st, events[0]);
      OrderRun(Step(st, events[0]), events[1..], src);
    }
  }

  lemma {:induction false} FromConcat(a: seq<(Source, Frame)>, b: seq<(Source, Frame)>, src: Source)
    ensures From(a + b, src) == From(a, src) + From(b, src)
    decreases |b|
  {
    if b == [] {
      assert a + b == a;
    } else {
      var n := |b| - 1;
      assert (a + b)[..|a + b| - 1] == a + b[..n];
      FromConcat(a, b[..n], src);
    }
  }

  /** In every interleaving, what the client gets from each upstream is a prefix of the frames read from
      it, in order and without repetition; until the relay closes nothing is missing but the frame in
      hand and, over all senders together, the one frame the writer has taken or could not write; the
      request loop's own answers are never dropped by a send; and a closed relay stays closed. */
  lemma RelayOrder(events: seq<Event>, more: seq<Event>, src: Source)
    requires Possible(Init(), events) && Possible(Final(Init(), events), more)
    ensures var st := Final(Init(), events);
            && src in st.senders
            && From(st.delivered, src) <= st.senders[src].taken
            && (!st.closed || src == Local ==>
                  From(st.delivered, src) + From(AtWriter(st.writer), src) + InHand(st.senders[src]) == st.senders[src].taken)
            && |AtWriter(st.writer)| <= 1
            && (st.closed ==> Final(st, more).closed)
  {
    OrderRun(Init(), events, src);
    OrderRun(Final(Init(), events), more, src);
    var st := Final(Init(), events);
    FromConcat(st.delivered, AtWriter(st.writer), src);
  }

  predicate Leads(st: State, events: seq<Event>, end: State) {
    Possible(st, events) && Final(st, events) == end
  }

  lemma LeadsFirst(st: State, e: Event, rest: seq<Event>, end: State)
    requires Enabled(st, e) && Leads(Step(st, e), rest, end)
    ensures Leads(st, [e] + rest, end)
  {
  }

  /** The writer can indeed lose a frame while the relay is open and its sender has moved on. */
  lemma WriterLosesOne(src: Source, f: Frame)
    requires f != ""
    ensures var lost := Sender(Idle, [f], false);
            Leads(Init(), [Take(src, f, true)] + ([Check(src)] + ([Receive(src)] + ([WriteFails] + []))),
                  State(Init().senders[src := lost], [], false, false, Stopped([(src, f)])))
  {
    var s1 := Step(Init(), Take(src, f, true));
    var s2 := Step(s1, Check(src));
    var s3 := Step(s2, Receive(src));
    var s4 := Step(s3, WriteFails);
    assert [] + [f] == [f] && s1.senders[src] == Sender(Holding(f), [f], false);
    assert s4 == State(Init().senders[src := Sender(Idle, [f], false)], [], false, false, Stopped([(src, f)]));
    LeadsFirst(s3, WriteFails, [], s4);
    LeadsFirst(s2, Receive(src), [WriteFails] + [], s4);
    LeadsFirst(s1, Check(src), [Receive(src)] + ([WriteFails] + []), s4);
    LeadsFirst(Init(), Take(src, f, true), [Check(src)] + ([Receive(src)] + ([WriteFails] + [])), s4);
  }

  /** Once the writer is gone, nothing reaches the client any more. */
  lemma {:induction false} NothingAfterTheWriter(st: State, events: seq<Event>)
    requires Possible(st, events) && st.writer.Stopped?
    ensures Final(st, events).delivered == st.delivered && Final(st, events).writer == st.writer
    decreases events
  {
    if events != [] {
      NothingAfterTheWriter(Step(st, events[0]), events[1..]);
    }
  }

  /** The frame an event gives a sender: one a reader read, if it decodes or is a batch, or an answer of
      the request loop. */
  function GivenBy(e: Event, src: Source): seq<Frame> {
    match e
    case Take(reader, f, decodable) =>
      if reader == src && f != "" && (decodable || (f[0] == '[' && f[|f| - 1] == ']')) then [f] else []
    case Offer(f) => if src == Local then [f] else []
    case _ => []
  }

  function Given(events: seq<Event>, src: Source): seq<Frame> {
    if events == [] then [] else GivenBy(events[0], src) + Given(events[1..], src)
  }

  lemma TakenStep(st: State, e: Event, src: Source)
    requires Enabled(st, e) && src in st.senders
    ensures src in Step(st, e).senders && Step(st, e).senders[src].taken == st.senders[src].taken + GivenBy(e, src)
  {
    var taken := st.senders[src].taken;
    assert taken + [] == taken;
  }

  /** Nothing a sender was given is passed over: all of it counts as taken, in order. */
  lemma {:induction false} TakenIsGiven(st: State, events: seq<Event>, src: Source)
    requires Possible(st, events) && src in st.senders
    ensures var end := Final(st, events);
            src in end.senders && end.senders[src].taken == st.senders[src].taken + Given(events, src)
    decreases events
  {
    if events != [] {
      TakenStep(st, events[0], src);
      hide Step, GivenBy, Enabled;
      TakenIsGiven(Step(st, events[0]), events[1..], src);
    }
  }

  lemma {:induction false} FinishedStays(st: State, events: seq<Event>, src: Source)
    requires Possible(st, events) && PlaceOf(st, src).Finished? && src in st.senders
    ensures var end := Final(st, events);
            PlaceOf(end, src).Finished? && src in end.senders && end.senders[src].taken == st.senders[src].taken
    decreases events
  {
    if events != [] {
      FinishedStays(Step(st, events[0]), events[1..], src);
    }
  }

  /** A reader that fails to read, or whose frame neither decodes nor is a batch, is finished: nothing
      comes from it any more. */
  lemma ReaderStops(st: State, src: Source, e: Event, more: seq<Event>)
    requires Enabled(st, e) && Possible(Step(st, e), more)
    requires e == Stop(src) || (e.Take? && e.src == src && !e.decodable && !(e.frame[0] == '[' && e.frame[|e.frame| - 1] == ']'))
    ensures var end := Final(Step(st, e), more);
            PlaceOf(end, src).Finished? && src in end.senders && end.senders[src].taken == st.senders[src].taken
  {
    FinishedStays(Step(st, e), more, src);
  }

  /** What a sender has on the channel already. */
  function OnChannel(st: State, src: Source): seq<Frame> {
    match PlaceOf(st, src)
    case Waiting(f) => [f]
    case _ => []
  }

  /** Only the writer's taking a frame changes what was passed on. */
  lemma PassedStep(st: State, e: Event, src: Source)
    requires Enabled(st, e)
    ensures Passed(Step(st, e), src) == Passed(st, src) + if e.Receive? && e.src == src then OnChannel(st, src) else []
  {
    var passed := Passed(st, src);
    assert passed + [] == passed;
    if e.Receive? {
      PassedReceive(st, e.src, src);
    } else if e.Deliver? {
      assert st.delivered + [st.writer.frame] + [] == st.delivered + [st.writer.frame];
    } else if !e.WriteFails? && !e.WriterStops? {
      SamePassed(st, e, src);
    }
    hide From;
  }

  lemma OnChannelStep(st: State, e: Event, src: Source)
    requires Enabled(st, e) && st.closed && ShutInOrder(st)
    ensures OnChannel(Step(st, e), src) == [] || (OnChannel(Step(st, e), src) == OnChannel(st, src) && e != Receive(src))
  {
  }

  lemma LateStep(st: State, e: Event, src: Source)
    requires Enabled(st, e) && st.closed && ShutInOrder(st)
    ensures Passed(Step(st, e), src) + OnChannel(Step(st, e), src) <= Passed(st, src) + OnChannel(st, src)
    ensures st.channelClosed ==> Passed(Step(st, e), src) == Passed(st, src)
  {
    PassedStep(st, e, src);
    OnChannelStep(st, e, src);
    hide Passed, OnChannel, Step;
    var passed, waiting := Passed(st, src), OnChannel(st, src);
    assert passed + [] == passed && (passed + waiting) + [] == passed + waiting;
    if st.channelClosed {
      assert e != Receive(src);
    }
  }

  /** Once the relay is closed, nothing gets past it but what a sender has on the channel already; and
      nothing at all once the channel is closed too. */
  lemma {:induction false} NothingAfterClose(st: State, events: seq<Event>, src: Source)
    requires Possible(st, events) && st.closed && ShutInOrder(st)
    ensures Passed(Final(st, events), src) <= Passed(st, src) + OnChannel(st, src)
    ensures Passed(Final(st, events), src) + OnChannel(Final(st, events), src) <= Passed(st, src) + OnChannel(st, src)
    ensures st.channelClosed ==> Passed(Final(st, events), src) == Passed(st, src)
    decreases events
  {
    if events != [] {
      LateStep(st, events[0], src);
      ShutStep(st, events[0]);
      hide Passed, OnChannel, ShutInOrder, Step;
      NothingAfterClose(Step(st, events[0]), events[1..], src);
    }
  }

  /** What a send comes to when nothing happens in between and the writer is there. */
  function AfterSend(closed: bool, channelClosed: bool, sent: seq<Frame>, data: Frame): (bool, seq<Frame>) {
    if closed then (true, sent)
    else if channelClosed then (true, sent)
    else (false, sent + [data])
  }

  /** The steps of the relay for one sender left alone: check, then a frame taken or a panic. */
  lemma SendAlone(st: State, src: Source)
    requires PlaceOf(st, src).Holding? && st.writer.Ready?
    ensures var checked := Step(st, Check(src));
            var next := if st.channelClosed then Panic(src) else Receive(src);
            && (st.closed <==> PlaceOf(checked, src).Idle?)
            && (!st.closed ==> Enabled(checked, next))
            && var end := if st.closed then checked else Step(checked, next);
               (end.closed, Passed(end, src)) ==
               AfterSend(st.closed, st.channelClosed, Passed(st, src), st.senders[src].place.frame)
  {
    FromAppend(st.delivered, (src, st.senders[src].place.frame), src);
    assert st.delivered + [] == st.delivered;
  }

  /** The client's side of a send, run to completion. */
  class Client {
    var closed: bool
    var channelClosed: bool
    var sent: seq<Frame>

    constructor ()
      ensures !closed && !channelClosed && sent == []
    {
      closed, channelClosed, sent := false, false, [];
    }

    method SetClosed()
      modifies this
      ensures closed && channelClosed == old(channelClosed) && sent == old(sent)
    {
      closed := true;
    }

    /** A send that the writer takes, or that panics on a closed channel and is recovered. */
    method Send(data: Frame)
      modifies this
      ensures channelClosed == old(channelClosed)
      ensures (closed, sent) == AfterSend(old(closed), channelClosed, old(sent), data)
      ensures old(closed) || channelClosed ==> closed && sent == old(sent)
      ensures !old(closed) && !channelClosed ==> !closed && sent == old(sent) + [data]
    {
      if closed {
        return;
      }
      if channelClosed {
        SetClosed();
        return;
      }
      sent := sent + [data];
    }
  }
}
