// What the durable record goes through over a whole run: signer pinning,
// revision monotonicity, and resets that cannot be undone by older requests.
module BundleHistory {
  import opened Common
  import opened BundleTrust
  import opened BundleIntegrity

  // -------------------------------------------------------------------------
  // Tickets: the order requests were queued in is the order they take effect
  // -------------------------------------------------------------------------

  /** The ticket of the running operation while it has yet to touch the record. */
  function PendingTicket(r: Running): Option<nat> {
    match r
    case RefreshReading(_, _, ticket) => Some(ticket)
    case Reading(job) => Some(job.ticket)
    case Fetching(job, _) => Some(job.ticket)
    case OpeningStaging(act) => Some(act.job.ticket)
    case Clearing(ticket) => Some(ticket)
    case _ => if Staged(r) then Some(r.act.job.ticket) else None
  }

  predicate AllBelow(log: seq<Entry>, ticket: nat) {
    forall i :: 0 <= i < |log| ==> log[i].ticket < ticket
  }

  predicate TicketsInv(t: Trust) {
    && (forall i :: 0 <= i < |t.queue| ==> t.queue[i].ticket < t.nextTicket && AllBelow(t.ledger.log, t.queue[i].ticket))
    && (forall i, j :: 0 <= i < j < |t.queue| ==> t.queue[i].ticket < t.queue[j].ticket)
    && AllBelow(t.ledger.log, t.nextTicket)
    && (PendingTicket(t.running).Some? ==>
          var k := PendingTicket(t.running).value;
          && k < t.nextTicket && AllBelow(t.ledger.log, k)
          && (forall i :: 0 <= i < |t.queue| ==> k < t.queue[i].ticket))
    && (forall i, j :: 0 <= i < j < |t.ledger.log| ==> t.ledger.log[i].ticket < t.ledger.log[j].ticket)
  }

  predicate TicketsKept(t: Trust, t': Trust) {
    && t'.queue == t.queue && t'.nextTicket == t.nextTicket && t'.ledger.log == t.ledger.log
    && (PendingTicket(t'.running).None? || PendingTicket(t'.running) == PendingTicket(t.running))
  }

  lemma KeptTickets(t: Trust, t': Trust)
    requires TicketsInv(t) && TicketsKept(t, t')
    ensures TicketsInv(t')
  {}

  lemma ActivationKeepsTickets(s: Worker, e: Event)
    requires Activating(e)
    ensures TicketsKept(s.trust, Next(s, e).trust)
  {
    hide Open, OpenedId, Put, HoldsVerified, OptionalPaths, RequiredPaths, ToCopy, FreshName, Floor;
  }

  lemma OthersKeepTickets(s: Worker, e: Event)
    requires !Activating(e) && !e.Post? && !e.PostReset? && !e.StartNext? && !e.CommitLands? && !e.RecordClears?
    ensures TicketsKept(s.trust, Next(s, e).trust)
  {}

  lemma TicketsStep(s: Worker, e: Event)
    requires TicketsInv(s.trust)
    ensures TicketsInv(Next(s, e).trust)
  {
    hide TicketsKept;
    if Activating(e) {
      ActivationKeepsTickets(s, e);
      KeptTickets(s.trust, Next(s, e).trust);
    } else if e.Post? || e.PostReset? || e.StartNext? || e.CommitLands? || e.RecordClears? {
      QueueTickets(s, e);
    } else {
      OthersKeepTickets(s, e);
      KeptTickets(s.trust, Next(s, e).trust);
    }
  }

  lemma EnqueuedTickets(t: Trust, op: Op)
    requires TicketsInv(t)
    ensures TicketsInv(Enqueued(t, op))
  {
    assert forall k :: 0 <= k < |t.queue| ==> Enqueued(t, op).queue[k] == t.queue[k];
  }

  lemma PoppedQueue(t: Trust, running: Running)
    requires TicketsInv(t) && t.queue != []
    requires PendingTicket(running).None? || PendingTicket(running) == Some(t.queue[0].ticket)
    ensures TicketsInv(t.(queue := t.queue[1..], running := running))
  {
    hide PendingTicket;
    var tail := t.queue[1..];
    assert forall k :: 0 <= k < |tail| ==> tail[k] == t.queue[k + 1];
  }

  lemma PoppedTickets(s: Worker)
    requires TicketsInv(s.trust)
    ensures TicketsInv(StartNextNow(s).trust)
  {
    hide TicketsInv;
    if s.trust.running.Idle? && s.trust.queue != [] {
      PoppedQueue(s.trust, StartNextNow(s).trust.running);
    }
  }

  lemma LoggedTickets(t: Trust, entry: Entry, running: Running, record: Option<Record>, ledger: Ledger)
    requires TicketsInv(t) && PendingTicket(t.running) == Some(entry.ticket)
    requires PendingTicket(running).None? && ledger.log == t.ledger.log + [entry]
    ensures TicketsInv(t.(running := running, record := record, ledger := ledger))
  {}

  lemma QueueTickets(s: Worker, e: Event)
    requires TicketsInv(s.trust)
    requires e.Post? || e.PostReset? || e.StartNext? || e.CommitLands? || e.RecordClears?
    ensures TicketsInv(Next(s, e).trust)
  {
    hide TicketsInv;
    var t, t' := s.trust, Next(s, e).trust;
    match e
    case Post(op) => EnqueuedTickets(t, op);
    case PostReset =>
      EpochTickets(t);
      EnqueuedTickets(t.(epoch := t.epoch + 1), Reset);
    case StartNext => PoppedTickets(s);
    case CommitLands =>
      if t.running.Committing? {
        LoggedTickets(t, t'.ledger.log[|t.ledger.log|], t'.running, t'.record, t'.ledger);
      }
    case RecordClears =>
      if t.running.Clearing? {
        LoggedTickets(t, t'.ledger.log[|t.ledger.log|], t'.running, t'.record, t'.ledger);
      }
  }

  lemma EpochTickets(t: Trust)
    requires TicketsInv(t)
    ensures TicketsInv(t.(epoch := t.epoch + 1))
  {}

  // -------------------------------------------------------------------------
  // The lineage between two resets
  // -------------------------------------------------------------------------

  /** The successor keeps the signer, never goes back, and never reuses a revision for other bytes. */
  predicate Follows(earlier: Record, later: Record) {
    && later.signer == earlier.signer
    && earlier.revision <= later.revision
    && (earlier.revision == later.revision ==> earlier.digest == later.digest)
  }

  predicate SameLineage(log: seq<Entry>, i: nat, j: nat)
    requires j < |log|
  {
    forall k :: i <= k <= j ==> log[k].Committed?
  }

  predicate Ordered(log: seq<Entry>) {
    forall i, j :: 0 <= i < j < |log| && SameLineage(log, i, j) ==> Follows(log[i].record, log[j].record)
  }

  predicate InTheirEpoch(log: seq<Entry>) {
    forall i :: 0 <= i < |log| && log[i].Committed? ==> log[i].queuedIn == log[i].startedIn
  }

  /** The durable record is what the last entry of the log left. */
  predicate LastEntry(log: seq<Entry>, record: Option<Record>) {
    match record
    case None => log == [] || log[|log| - 1].Cleared?
    case Some(r) => log != [] && log[|log| - 1].Committed? && log[|log| - 1].record == r
  }

  predicate LogInv(t: Trust) {
    Ordered(t.ledger.log) && InTheirEpoch(t.ledger.log) && LastEntry(t.ledger.log, t.record)
  }

  lemma OrderedAppend(log: seq<Entry>, record: Option<Record>, next: Entry)
    requires Ordered(log) && LastEntry(log, record)
    requires next.Committed? && record.Some? ==> Follows(record.value, next.record)
    ensures Ordered(log + [next])
  {
    var more := log + [next];
    forall i, j | 0 <= i < j < |more| && SameLineage(more, i, j) ensures Follows(more[i].record, more[j].record) {
      if j < |log| {
        assert forall k :: i <= k <= j ==> more[k] == log[k];
        assert SameLineage(log, i, j);
      } else {
        assert more[|log| - 1].Committed? && more[|log| - 1] == log[|log| - 1];
        assert forall k :: i <= k < |log| ==> more[k] == log[k];
        if i < |log| - 1 { assert SameLineage(log, i, |log| - 1); }
      }
    }
  }

  lemma CommitFollows(s: Worker)
    requires Inv(s) && s.trust.running.Committing?
    ensures s.trust.record.Some? ==> Follows(s.trust.record.value, s.trust.running.next)
    ensures s.trust.running.started == s.trust.running.act.job.epoch
  {
    hide DiskInv, LaziesInv, Intact;
  }

  lemma LogUnchanged(s: Worker, e: Event)
    requires !e.CommitLands? && !e.RecordClears?
    ensures Next(s, e).trust.ledger.log == s.trust.ledger.log && Next(s, e).trust.record == s.trust.record
  {}

  lemma LogStep(s: Worker, e: Event)
    requires Inv(s) && LogInv(s.trust)
    ensures LogInv(Next(s, e).trust)
  {
    hide Inv;
    if e.CommitLands? && s.trust.running.Committing? {
      CommitFollows(s);
      var entries := Next(s, e).trust.ledger.log;
      OrderedAppend(s.trust.ledger.log, s.trust.record, entries[|entries| - 1]);
    } else if e.RecordClears? && s.trust.running.Clearing? {
      OrderedAppend(s.trust.ledger.log, s.trust.record, Cleared(s.trust.running.ticket));
    } else if !e.CommitLands? && !e.RecordClears? {
      LogUnchanged(s, e);
    }
  }

  lemma {:induction false} HistoryRun(s: Worker, events: seq<Event>)
    requires Initial(s)
    ensures TicketsInv(Run(s, events).trust) && LogInv(Run(s, events).trust)
  {
    if events != [] {
      var front, last := events[..|events| - 1], events[|events| - 1];
      HistoryRun(s, front);
      RunInv(s, front);
      TicketsStep(Run(s, front), last);
      LogStep(Run(s, front), last);
    }
  }

  // -------------------------------------------------------------------------
  // The promises
  // -------------------------------------------------------------------------

  /**
   * Between two resets the committed signer never changes, the committed
   * revision never decreases, and equal revisions mean equal manifests.
   */
  lemma {:induction false} SignerPinnedRevisionsMonotone(s: Worker, events: seq<Event>, i: nat, j: nat)
    requires Initial(s) && i < j < |Run(s, events).trust.ledger.log|
    requires SameLineage(Run(s, events).trust.ledger.log, i, j)
    ensures var earlier, later := Run(s, events).trust.ledger.log[i].record, Run(s, events).trust.ledger.log[j].record;
            && later.signer == earlier.signer
            && earlier.revision <= later.revision
            && (earlier.revision == later.revision ==> earlier.manifest == later.manifest)
  {
    HistoryRun(s, events);
    CommittedAreSound(s, events);
  }

  predicate CommittedSeen(ledger: Ledger) {
    forall k :: 0 <= k < |ledger.log| && ledger.log[k].Committed? ==> ledger.log[k].record in ledger.seen
  }

  lemma {:induction false} CommittedAreSound(s: Worker, events: seq<Event>)
    requires Initial(s)
    ensures CommittedSeen(Run(s, events).trust.ledger)
    ensures forall r :: r in Run(s, events).trust.ledger.seen ==> r.digest == ManifestSha256(r.manifest)
  {
    RunInv(s, events);
    if events != [] {
      CommittedAreSound(s, events[..|events| - 1]);
      CommittedStep(Run(s, events[..|events| - 1]), events[|events| - 1]);
    }
  }

  lemma CommittedStep(s: Worker, e: Event)
    requires CommittedSeen(s.trust.ledger)
    ensures CommittedSeen(Next(s, e).trust.ledger)
  {}

  /** Every commit was started in the epoch its request was queued in: no reset message came in between. */
  lemma {:induction false} CommitsStartInTheirEpoch(s: Worker, events: seq<Event>, i: nat)
    requires Initial(s) && i < |Run(s, events).trust.ledger.log|
    requires Run(s, events).trust.ledger.log[i].Committed?
    ensures Run(s, events).trust.ledger.log[i].queuedIn == Run(s, events).trust.ledger.log[i].startedIn
  {
    HistoryRun(s, events);
  }

  predicate Later(log: seq<Entry>, i: nat, record: Option<Record>)
    requires i < |log|
  {
    && (forall j :: i < j < |log| ==> log[i].ticket < log[j].ticket)
    && (record.Some? ==>
          var last := log[|log| - 1];
          last.Committed? && last.record == record.value && log[i].ticket < last.ticket)
  }

  lemma ClearedStaysCleared(t: Trust, i: nat)
    requires TicketsInv(t) && LastEntry(t.ledger.log, t.record) && i < |t.ledger.log| && t.ledger.log[i].Cleared?
    ensures Later(t.ledger.log, i, t.record)
  {}

  /**
   * Once a reset has cleared the record, the record stays absent until an
   * operation queued after that reset commits.
   */
  lemma {:induction false} ResetIsFinal(s: Worker, events: seq<Event>, i: nat)
    requires Initial(s) && i < |Run(s, events).trust.ledger.log|
    requires Run(s, events).trust.ledger.log[i].Cleared?
    ensures Later(Run(s, events).trust.ledger.log, i, Run(s, events).trust.record)
  {
    hide Run, TicketsInv, Initial, LastEntry, Later;
    HistoryRun(s, events);
    ClearedStaysCleared(Run(s, events).trust, i);
  }
}
