// One byte connection of the WebSocket listener, as a state machine over the
// microtasks of its promise chain.
//
// A send appends a link to the chain. A link starts when the one before it has
// finished: it writes, settles, gives its bytes back and, if it failed, ends the
// connection. Sends, closes and socket events happen between any two of these.
module SocketWrites {
  import opened Common

  const MAX_PENDING_BYTES := 64 * 1024 * 1024

  /** A link of the chain: `Settled` has its outcome, `Released` has given its bytes back. */
  datatype Stage = Waiting | Writing | Settled(ok: bool) | Released(ok: bool) | Finished(ok: bool)

  datatype Link = Link(bytes: nat, stage: Stage)

  datatype Chain = Chain(links: seq<Link>, finished: nat, queuedBytes: int)

  /** Why the connection ended. */
  datatype Cause = Overflowed | WriteFailed | SocketClosed | SocketFailed | ClosedByUs

  /** What `accept` has come to: the protocol's handler is set, or its acceptor threw. */
  datatype Handler = Unset | Installed | Refused

  datatype Ending = Ending(
    closed: bool, closing: bool, cause: Option<Cause>, open: bool, handler: Handler, delivered: seq<Cause>)

  /** The `close` call that got past its guard. */
  datatype Closer = Idle | Awaiting(last: bool) | Last | Done(last: bool, sent: bool)

  datatype Sent = Chunk(index: nat) | FinalChunk

  datatype Connection = Connection(chain: Chain, ending: Ending, closer: Closer, wire: seq<Sent>)

  const FRESH := Connection(Chain([], 0, 0), Ending(false, false, None, true, Unset, []), Idle, [])

  // -------------------------------------------------------------------------
  // Steps
  // -------------------------------------------------------------------------

  /** `notify`: the handler hears of the end once, if it is there to hear it. */
  function Ended(e: Ending, cause: Cause): Ending {
    if e.cause.Some? then e.(closed := true, open := false)
    else e.(closed := true, open := false, cause := Some(cause),
            delivered := if e.handler == Installed then e.delivered + [cause] else e.delivered)
  }

  datatype Event =
    | Accepted(threw: bool)
    | Send(bytes: nat, ready: bool)      // `ready`: the socket reports itself open
    | Start                              // the next link of the chain runs
    | Settle(ok: bool)                   // its write resolves, rejects or times out
    | Release
    | Finish
    | Close(last: bool)                  // `last`: with a final chunk
    | Closing                            // the close call continues
    | SocketEnds(failed: bool)

  function Accepting(c: Connection, threw: bool): Connection {
    if c.ending.handler != Unset then c
    else if threw then c.(ending := c.ending.(handler := Refused, open := false))
    else c.(ending := c.ending.(handler := Installed))
  }

  function Sending(c: Connection, bytes: nat, ready: bool): Connection {
    var q := c.chain;
    if c.ending.closed || c.ending.closing || !ready then c
    else if q.queuedBytes + bytes > MAX_PENDING_BYTES then c.(ending := Ended(c.ending, Overflowed))
    else c.(chain := Chain(q.links + [Link(bytes, Waiting)], q.finished, q.queuedBytes + bytes))
  }

  predicate At(q: Chain, stage: Stage) {
    q.finished < |q.links| && q.links[q.finished].stage == stage
  }

  function Advance(q: Chain, stage: Stage): Chain
    requires q.finished < |q.links|
  {
    q.(links := q.links[q.finished := Link(q.links[q.finished].bytes, stage)])
  }

  function Starting(c: Connection): Connection {
    if !At(c.chain, Waiting) then c
    else if c.ending.closed then c.(chain := Advance(c.chain, Settled(false)))
    else c.(chain := Advance(c.chain, Writing), wire := c.wire + [Chunk(c.chain.finished)])
  }

  function Settling(c: Connection, ok: bool): Connection {
    if !At(c.chain, Writing) then c else c.(chain := Advance(c.chain, Settled(ok)))
  }

  function Releasing(c: Connection): Connection {
    if c.chain.finished < |c.chain.links| && c.chain.links[c.chain.finished].stage.Settled? then
      var link := c.chain.links[c.chain.finished];
      c.(chain := Advance(c.chain, Released(link.stage.ok)).(queuedBytes := c.chain.queuedBytes - link.bytes))
    else c
  }

  function Finishing(c: Connection): Connection {
    if c.chain.finished < |c.chain.links| && c.chain.links[c.chain.finished].stage.Released? then
      var ok := c.chain.links[c.chain.finished].stage.ok;
      c.(chain := Advance(c.chain, Finished(ok)).(finished := c.chain.finished + 1),
         ending := if ok then c.ending else Ended(c.ending, WriteFailed))
    else c
  }

  function StartClosing(c: Connection, last: bool): Connection {
    if c.ending.closing || c.ending.closed then c
    else c.(ending := c.ending.(closing := true, open := false), closer := Awaiting(last))
  }

  /** After the chain: the final chunk if nothing ended the connection, then the socket's end. */
  function Continuing(c: Connection): Connection {
    if c.closer.Awaiting? && c.chain.finished == |c.chain.links| then
      if !c.ending.closed && c.closer.last then c.(closer := Last, wire := c.wire + [FinalChunk])
      else c.(closer := Done(c.closer.last, false), ending := Ended(c.ending, ClosedByUs))
    else if c.closer == Last then c.(closer := Done(true, true), ending := Ended(c.ending, ClosedByUs))
    else c
  }

  function Next(c: Connection, e: Event): Connection {
    match e
    case Accepted(threw) => Accepting(c, threw)
    case Send(bytes, ready) => Sending(c, bytes, ready)
    case Start => Starting(c)
    case Settle(ok) => Settling(c, ok)
    case Release => Releasing(c)
    case Finish => Finishing(c)
    case Close(last) => StartClosing(c, last)
    case Closing => Continuing(c)
    case SocketEnds(failed) => c.(ending := Ended(c.ending, if failed then SocketFailed else SocketClosed))
  }

  function Run(events: seq<Event>): Connection {
    if events == [] then FRESH else Next(Run(events[..|events| - 1]), events[|events| - 1])
  }

  // -------------------------------------------------------------------------
  // The invariant
  // -------------------------------------------------------------------------

  /** The bytes of the links that have not given theirs back. */
  ghost function Unsettled(links: seq<Link>): nat {
    if links == [] then 0
    else
      var link := links[|links| - 1];
      Unsettled(links[..|links| - 1])
      + (if link.stage.Released? || link.stage.Finished? then 0 else link.bytes)
  }

  ghost predicate ChainInv(q: Chain) {
    && q.finished <= |q.links|
    && (forall i :: 0 <= i < |q.links| ==> (q.links[i].stage.Finished? <==> i < q.finished))
    && (forall i :: q.finished < i < |q.links| ==> q.links[i].stage == Waiting)
    && q.queuedBytes == Unsettled(q.links) <= MAX_PENDING_BYTES
  }

  ghost predicate EndingInv(e: Ending) {
    && (e.closed <==> e.cause.Some?)
    && (e.open <==> !e.closed && !e.closing && e.handler != Refused)
    && |e.delivered| <= 1 && (e.delivered != [] ==> e.cause == Some(e.delivered[0]))
    && (e.delivered != [] ==> e.handler == Installed)
  }

  /** The chunks 0, 1, ..., n - 1 in order. */
  function Prefix(n: nat): seq<Sent> {
    if n == 0 then [] else Prefix(n - 1) + [Chunk(n - 1)]
  }

  /** The final chunk has been attempted. */
  predicate FinalSent(c: Connection) {
    c.closer == Last || (c.closer.Done? && c.closer.sent)
  }

  /** How many links have been attempted on the socket. */
  function Attempts(c: Connection): int {
    |c.wire| - if FinalSent(c) then 1 else 0
  }

  predicate Rejected(stage: Stage) {
    (stage.Settled? || stage.Released? || stage.Finished?) && !stage.ok
  }

  predicate AllDelivered(q: Chain) {
    q.finished == |q.links| && forall i :: 0 <= i < |q.links| ==> q.links[i].stage == Finished(true)
  }

  ghost predicate WireInv(c: Connection) {
    var n, links := Attempts(c), c.chain.links;
    && 0 <= n <= |links|
    && c.wire == Prefix(n) + (if FinalSent(c) then [FinalChunk] else [])
    && (forall i :: 0 <= i < n ==> links[i].stage != Waiting)
    && (forall i :: 0 <= i < n - 1 ==> links[i].stage == Finished(true))
    && (forall i :: n <= i < |links| ==> links[i].stage == Waiting || Rejected(links[i].stage))
    && (!c.ending.closed ==> c.chain.finished <= n)
    && (!c.ending.closed ==> forall i :: 0 <= i < c.chain.finished ==> links[i].stage == Finished(true))
  }

  ghost predicate CloserInv(c: Connection) {
    && (c.closer == Idle <==> !c.ending.closing)
    && (FinalSent(c) ==> AllDelivered(c.chain))
    && (c.ending.cause == Some(ClosedByUs) ==>
          c.closer.Done? && c.closer.sent == c.closer.last && AllDelivered(c.chain) && Attempts(c) == |c.chain.links|)
  }

  ghost predicate Inv(c: Connection) {
    ChainInv(c.chain) && EndingInv(c.ending) && WireInv(c) && CloserInv(c)
  }

  lemma {:induction false} UnsettledUpdate(links: seq<Link>, i: nat, stage: Stage)
    requires i < |links|
    ensures Unsettled(links[i := Link(links[i].bytes, stage)])
         == Unsettled(links)
            - (if links[i].stage.Released? || links[i].stage.Finished? then 0 else links[i].bytes)
            + (if stage.Released? || stage.Finished? then 0 else links[i].bytes)
  {
    var updated, n := links[i := Link(links[i].bytes, stage)], |links| - 1;
    if i < n {
      UnsettledUpdate(links[..n], i, stage);
      assert updated[..n] == links[..n][i := Link(links[i].bytes, stage)];
    } else {
      assert updated[..n] == links[..n];
    }
  }

  lemma UnsettledAppend(links: seq<Link>, link: Link)
    requires link.stage == Waiting
    ensures Unsettled(links + [link]) == Unsettled(links) + link.bytes
  {
    assert (links + [link])[..|links|] == links;
  }

  lemma SendingInv(c: Connection, bytes: nat, ready: bool)
    requires Inv(c)
    ensures Inv(Sending(c, bytes, ready))
  {
    hide Prefix, Unsettled;
    UnsettledAppend(c.chain.links, Link(bytes, Waiting));
  }

  lemma StartingInv(c: Connection)
    requires Inv(c)
    ensures Inv(Starting(c))
  {
    hide Unsettled;
    if At(c.chain, Waiting) {
      UnsettledUpdate(c.chain.links, c.chain.finished, if c.ending.closed then Settled(false) else Writing);
    }
  }

  lemma SettlingInv(c: Connection, ok: bool)
    requires Inv(c)
    ensures Inv(Settling(c, ok))
  {
    hide Prefix, Unsettled;
    if At(c.chain, Writing) { UnsettledUpdate(c.chain.links, c.chain.finished, Settled(ok)); }
  }

  lemma ReleasingInv(c: Connection)
    requires Inv(c)
    ensures Inv(Releasing(c))
  {
    hide Prefix, Unsettled;
    var q := c.chain;
    if q.finished < |q.links| && q.links[q.finished].stage.Settled? {
      UnsettledUpdate(q.links, q.finished, Released(q.links[q.finished].stage.ok));
    }
  }

  lemma FinishingInv(c: Connection)
    requires Inv(c)
    ensures Inv(Finishing(c))
  {
    hide Prefix, Unsettled;
    var q := c.chain;
    if q.finished < |q.links| && q.links[q.finished].stage.Released? {
      UnsettledUpdate(q.links, q.finished, Finished(q.links[q.finished].stage.ok));
    }
  }

  lemma EndingStepInv(c: Connection, e: Event)
    requires Inv(c) && (e.Accepted? || e.SocketEnds? || e.Close?)
    ensures Inv(Next(c, e))
  {
    hide Prefix, Unsettled;
  }

  lemma ContinuingInv(c: Connection)
    requires Inv(c)
    ensures Inv(Continuing(c))
  {
    hide Prefix, Unsettled;
  }

  lemma StepInv(c: Connection, e: Event)
    requires Inv(c)
    ensures Inv(Next(c, e))
  {
    hide Inv;
    match e
    case Send(bytes, ready) => SendingInv(c, bytes, ready);
    case Start => StartingInv(c);
    case Settle(ok) => SettlingInv(c, ok);
    case Release => ReleasingInv(c);
    case Finish => FinishingInv(c);
    case Closing => ContinuingInv(c);
    case _ => EndingStepInv(c, e);
  }

  lemma {:induction false} RunInv(events: seq<Event>)
    ensures Inv(Run(events))
  {
    if events != [] {
      RunInv(events[..|events| - 1]);
      StepInv(Run(events[..|events| - 1]), events[|events| - 1]);
    }
  }

  // -------------------------------------------------------------------------
  // What holds of every run
  // -------------------------------------------------------------------------

  /** What the socket is handed is a prefix of the accepted sends, then perhaps the final chunk. */
  lemma {:induction false} WritesFollowSends(events: seq<Event>)
    ensures var c := Run(events);
            exists n: nat :: n <= |c.chain.links|
              && (c.wire == Prefix(n) || (c.wire == Prefix(n) + [FinalChunk] && n == |c.chain.links| && AllDelivered(c.chain)))
  {
    RunInv(events);
    var c := Run(events);
    var n: nat := Attempts(c);
    assert c.wire == Prefix(n) || c.wire == Prefix(n) + [FinalChunk];
  }

  /** The budget is the bytes still in the queue, and never exceeds the cap. */
  lemma {:induction false} BytesBalance(events: seq<Event>)
    ensures var q := Run(events).chain; q.queuedBytes == Unsettled(q.links) && 0 <= q.queuedBytes <= MAX_PENDING_BYTES
  {
    RunInv(events);
  }

  /** The handler hears of at most one end, and only of the first cause. */
  lemma {:induction false} OneNotification(events: seq<Event>)
    ensures var e := Run(events).ending;
            && |e.delivered| <= 1
            && (e.delivered != [] ==> e.closed && e.cause == Some(e.delivered[0]))
            && (e.open ==> !e.closed && !e.closing)
  {
    RunInv(events);
  }

  /** A connection ended by its own close call has written everything it accepted, and its last word. */
  lemma {:induction false} OrderlyCloseLosesNothing(events: seq<Event>)
    requires Run(events).ending.cause == Some(ClosedByUs)
    ensures var c := Run(events);
            && AllDelivered(c.chain) && c.closer.Done?
            && c.wire == Prefix(|c.chain.links|) + (if c.closer.last then [FinalChunk] else [])
  {
    RunInv(events);
  }

  lemma StepGrowsWire(c: Connection, e: Event)
    ensures c.wire <= Next(c, e).wire
    ensures |c.chain.links| <= |Next(c, e).chain.links|
    ensures forall i :: 0 <= i < |c.chain.links| ==>
      && Next(c, e).chain.links[i].bytes == c.chain.links[i].bytes
      && (Rejected(c.chain.links[i].stage) && Inv(c) ==> Rejected(Next(c, e).chain.links[i].stage))
  {
    hide Prefix, Unsettled, WireInv, CloserInv, EndingInv;
  }

  lemma PrefixAt(n: nat, i: nat)
    ensures |Prefix(n)| == n && (i < n ==> Prefix(n)[i] == Chunk(i))
  {
    if n > 0 { PrefixAt(n - 1, i); }
  }

  lemma AttemptedIsInPrefix(c: Connection, i: nat)
    requires Inv(c) && Chunk(i) in c.wire
    ensures i < Attempts(c)
  {
    var n: nat := Attempts(c);
    PrefixAt(n, 0);
    var k :| 0 <= k < |c.wire| && c.wire[k] == Chunk(i);
    PrefixAt(n, k);
  }

  /** Link `i` was attempted and its write failed. */
  ghost predicate FailedAt(c: Connection, i: nat) {
    i < |c.chain.links| && Rejected(c.chain.links[i].stage) && Chunk(i) in c.wire
  }

  lemma FailureIsLast(c: Connection, i: nat)
    requires Inv(c) && FailedAt(c, i)
    ensures c.wire == Prefix(i + 1)
  {
    hide Prefix, ChainInv, EndingInv;
    AttemptedIsInPrefix(c, i);
  }

  lemma FailureStays(c: Connection, e: Event, i: nat)
    requires Inv(c) && FailedAt(c, i)
    ensures FailedAt(Next(c, e), i) && Next(c, e).wire == c.wire
  {
    hide Inv, Next, Prefix;
    StepGrowsWire(c, e);
    StepInv(c, e);
    FailureIsLast(c, i);
    FailureIsLast(Next(c, e), i);
  }

  /** Once an attempted write has failed, nothing is written to the socket ever again. */
  lemma {:induction false} NothingAfterFailure(events: seq<Event>, later: seq<Event>, i: nat)
    requires FailedAt(Run(events), i)
    ensures Run(events + later).wire == Run(events).wire == Prefix(i + 1)
    ensures FailedAt(Run(events + later), i)
  {
    hide Inv, Next, FailedAt, Prefix;
    RunInv(events);
    FailureIsLast(Run(events), i);
    if later == [] {
      assert events + later == events;
    } else {
      var front := later[..|later| - 1];
      NothingAfterFailure(events, front, i);
      assert (events + later)[..|events + later| - 1] == events + front;
      RunInv(events + front);
      FailureStays(Run(events + front), later[|later| - 1], i);
    }
  }

  // -------------------------------------------------------------------------
  // The connection object
  // -------------------------------------------------------------------------

  lemma RefusedHearsNothing(c: Connection)
    requires Inv(c) && c.ending.handler == Refused
    ensures !c.ending.open && c.ending.delivered == []
  {
    hide ChainInv, WireInv, CloserInv;
  }

  /** While nothing has ended the connection, what has finished was delivered, and no more was attempted. */
  lemma FirstWaiting(c: Connection)
    requires Inv(c) && !c.ending.closed && At(c.chain, Waiting)
    ensures c.wire + [Chunk(c.chain.finished)] == Prefix(c.chain.finished + 1)
    ensures forall i :: 0 <= i < c.chain.finished ==> c.chain.links[i].stage == Finished(true)
  {
    hide Unsettled, EndingInv;
    var n: nat := Attempts(c);
    assert n <= c.chain.finished;
    assert !FinalSent(c);
  }

  lemma EndingHolds(c: Connection)
    requires Inv(c)
    ensures EndingInv(c.ending)
  {}

  lemma QueuedIsUnsettled(c: Connection)
    requires Inv(c)
    ensures c.chain.queuedBytes == Unsettled(c.chain.links)
  {
    hide EndingInv, WireInv, CloserInv, Unsettled;
  }

  lemma OrderlyEnd(c: Connection)
    requires Inv(c)
    ensures FinalSent(c) ==> AllDelivered(c.chain)
    ensures c.closer == Last && Attempts(c) == |c.chain.links| ==> c.wire == Prefix(|c.chain.links|) + [FinalChunk]
    ensures c.ending.cause == Some(ClosedByUs) ==>
      c.closer.Done? && AllDelivered(c.chain) && c.wire == Prefix(|c.chain.links|) + (if c.closer.last then [FinalChunk] else [])
  {
    hide EndingInv, ChainInv, Unsettled, Prefix;
  }

  /** The closure state of `accept` for one socket. */
  class PiConnection {
    var closed: bool
    var closing: bool
    var cause: Option<Cause>     // set when `notified` is
    var open: bool               // the listener's `open` set holds this connection's close
    var handler: Handler
    var links: seq<Link>         // the promise chain behind `sending`
    var finished: nat
    var queuedBytes: int
    var closer: Closer
    var delivered: seq<Cause>
    var wire: seq<Sent>          // calls of `socket.send`

    function Now(): Connection
      reads this
    {
      Connection(Chain(links, finished, queuedBytes), Ending(closed, closing, cause, open, handler, delivered),
                 closer, wire)
    }

    ghost predicate Valid()
      reads this
    {
      Inv(Now())
    }

    constructor ()
      ensures Valid() && Now() == FRESH
    {
      closed, closing, cause, open, handler := false, false, None, true, Unset;
      links, finished, queuedBytes, closer := [], 0, 0, Idle;
      delivered, wire := [], [];
    }

    method Notify(why: Cause)
      requires EndingInv(Now().ending)
      modifies `closed, `open, `cause, `delivered
      ensures EndingInv(Now().ending) && Now() == old(Now()).(ending := Ended(old(Now()).ending, why))
      ensures closed && !open && cause == if old(cause).Some? then old(cause) else Some(why)
      ensures delivered == if old(cause).None? && handler == Installed then [why] else old(delivered)
    {
      closed, open := true, false;
      if cause.Some? { return; }
      cause := Some(why);
      if handler == Installed { delivered := delivered + [why]; }
    }

    /** `accept` returns with the protocol's handler, or its acceptor threw. */
    method Accept(threw: bool)
      requires Valid()
      modifies `open, `handler
      ensures Valid() && Now() == Accepting(old(Now()), threw)
      ensures handler != Unset && (old(handler) != Unset ==> handler == old(handler) && open == old(open))
      ensures handler == Refused ==> !open && delivered == []
    {
      hide Inv;
      EndingStepInv(Now(), Accepted(threw));
      ghost var after := Accepting(Now(), threw);
      if after.ending.handler == Refused { RefusedHearsNothing(after); }
      if handler != Unset { return; }
      if threw {
        open, handler := false, Refused;
      } else {
        handler := Installed;
      }
    }

    method Send(bytes: nat, ready: bool) returns (accepted: bool)
      requires Valid()
      modifies this
      ensures Valid() && Now() == Sending(old(Now()), bytes, ready)
      ensures accepted <==> !old(closed) && !old(closing) && ready && old(queuedBytes) + bytes <= MAX_PENDING_BYTES
      ensures links == if accepted then old(links) + [Link(bytes, Waiting)] else old(links)
      ensures !accepted ==> wire == old(wire) && queuedBytes == old(queuedBytes)
    {
      hide Inv, EndingInv;
      SendingInv(Now(), bytes, ready);
      EndingHolds(Now());
      if closed || closing || !ready { return false; }
      if queuedBytes + bytes > MAX_PENDING_BYTES {
        Notify(Overflowed);
        return false;
      }
      queuedBytes, links := queuedBytes + bytes, links + [Link(bytes, Waiting)];
      return true;
    }

    method RunLink()
      requires Valid() && At(Now().chain, Waiting)
      modifies `links, `wire
      ensures Valid() && Now() == Starting(old(Now()))
      ensures old(closed) ==> wire == old(wire) && Rejected(links[finished].stage)
      ensures !old(closed) ==> wire == old(wire) + [Chunk(finished)] && wire == Prefix(finished + 1)
      ensures !old(closed) ==> forall i :: 0 <= i < finished ==> links[i].stage == Finished(true)
    {
      hide Inv;
      ghost var c := Now();
      StartingInv(c);
      if !closed { FirstWaiting(c); }
      if closed {
        links := links[finished := links[finished].(stage := Settled(false))];
        return;
      }
      wire := wire + [Chunk(finished)];
      links := links[finished := links[finished].(stage := Writing)];
    }

    method SettleLink(ok: bool)
      requires Valid() && At(Now().chain, Writing)
      modifies `links
      ensures Valid() && Now() == Settling(old(Now()), ok)
      ensures ok <==> !Rejected(links[finished].stage)
    {
      SettlingInv(Now(), ok);
      hide Inv;
      links := links[finished := links[finished].(stage := Settled(ok))];
    }

    method ReleaseLink()
      requires Valid() && finished < |links| && links[finished].stage.Settled?
      modifies `links, `queuedBytes
      ensures Valid() && Now() == Releasing(old(Now()))
      ensures queuedBytes == old(queuedBytes) - links[finished].bytes == Unsettled(links) && 0 <= queuedBytes
    {
      hide Inv, Unsettled;
      ReleasingInv(Now());
      QueuedIsUnsettled(Releasing(Now()));
      queuedBytes := queuedBytes - links[finished].bytes;
      links := links[finished := links[finished].(stage := Released(links[finished].stage.ok))];
    }

    method FinishLink()
      requires Valid() && finished < |links| && links[finished].stage.Released?
      modifies `links, `finished, `closed, `open, `cause, `delivered
      ensures Valid() && Now() == Finishing(old(Now()))
      ensures finished == old(finished) + 1 && links[old(finished)].stage == Finished(old(links[finished].stage.ok))
      ensures links[old(finished)].stage.ok ==> Now().ending == old(Now().ending)
      ensures !links[old(finished)].stage.ok ==> closed && !open
      ensures old(closed) ==> cause == old(cause) && delivered == old(delivered)
    {
      FinishingInv(Now());
      var ok := links[finished].stage.ok;
      links := links[finished := links[finished].(stage := Finished(ok))];
      finished := finished + 1;
      if !ok { Notify(WriteFailed); }
    }

    method Close(last: bool)
      requires Valid()
      modifies `closing, `open, `closer
      ensures Valid() && Now() == StartClosing(old(Now()), last)
      ensures if old(closing || closed) then Now() == old(Now()) else closing && !open && closer == Awaiting(last)
    {
      hide Inv;
      EndingStepInv(Now(), Event.Close(last));
      if closing || closed { return; }
      closing, open, closer := true, false, Awaiting(last);
    }

    /** `close` after its await: write the final chunk, or end the socket and notify. */
    method ContinueClose()
      requires Valid() && (closer == Last || (closer.Awaiting? && finished == |links|))
      modifies `closer, `wire, `closed, `open, `cause, `delivered
      ensures Valid() && Now() == Continuing(old(Now()))
      ensures closer == Last ==> !old(closed) && wire == Prefix(|links|) + [FinalChunk] && AllDelivered(Now().chain)
      ensures closer != Last ==> closed && closer.Done? && wire == old(wire)
      ensures closer != Last && old(cause).None? ==>
        AllDelivered(Now().chain) && wire == Prefix(|links|) + (if closer.last then [FinalChunk] else [])
    {
      ghost var c := Now();
      ContinuingInv(c);
      OrderlyEnd(Continuing(c));
      if closer.Awaiting? && !closed && closer.last {
        closer, wire := Last, wire + [FinalChunk];
        return;
      }
      closer := if closer == Last then Done(true, true) else Done(closer.last, false);
      Notify(ClosedByUs);
    }

    method SocketEnded(failed: bool)
      requires Valid()
      modifies `closed, `open, `cause, `delivered
      ensures Valid() && Now() == old(Now()).(ending := Ended(old(Now()).ending, if failed then SocketFailed else SocketClosed))
      ensures closed && (old(cause).Some? ==> Now().ending == old(Now().ending))
    {
      EndingStepInv(Now(), SocketEnds(failed));
      Notify(if failed then SocketFailed else SocketClosed);
    }

    /** One event of a run, delivered to the connection. */
    method Deliver(e: Event)
      requires Valid()
      modifies this
      ensures Valid() && Now() == Next(old(Now()), e)
    {
      hide Inv, Prefix, Unsettled;
      match e
      case Accepted(threw) => Accept(threw);
      case Send(bytes, ready) => var _ := Send(bytes, ready);
      case Start => if At(Now().chain, Waiting) { RunLink(); }
      case Settle(ok) => if At(Now().chain, Writing) { SettleLink(ok); }
      case Release => if finished < |links| && links[finished].stage.Settled? { ReleaseLink(); }
      case Finish => if finished < |links| && links[finished].stage.Released? { FinishLink(); }
      case Close(last) => Close(last);
      case Closing => if closer == Last || (closer.Awaiting? && finished == |links|) { ContinueClose(); }
      case SocketEnds(failed) => SocketEnded(failed);
    }
  }
}
