/** Bounded-retry delivery guarded by durable receipts (integrations/slack.py). */
module Delivery {
  import opened Wrappers
  import opened StoreModel
  import opened StoreRuns
  import opened SQLiteStores
  import Lifecycle

  datatype Settings = Settings(maxAttempts: nat, baseDelay: real, maxRetryDelay: real)

  /** What the constructor accepts. */
  predicate ValidSettings(cfg: Settings) {
    cfg.maxAttempts >= 1 && cfg.baseDelay >= 0.0 && cfg.maxRetryDelay >= 0.0
  }

  datatype Response = Accepted | HttpError(status: int, retryAfter: Option<real>) | OtherError

  /** A client error other than a rate limit is not worth another try. */
  predicate Refused(r: Response) {
    r.HttpError? && 400 <= r.status < 500 && r.status != 429
  }

  function Power2(n: nat): (p: nat)
    ensures p >= 1
  {
    if n == 0 then 1 else 2 * Power2(n - 1)
  }

  function Min(a: real, b: real): real {
    if b < a then b else a
  }

  /** A rate limit's own delay if it names one, otherwise exponential backoff; never above the maximum. */
  function Delay(cfg: Settings, attempt: nat, r: Response): real
    requires attempt >= 1
  {
    var delay :=
      if r.HttpError? && r.status == 429 && r.retryAfter.Some? && r.retryAfter.value >= 0.0 then r.retryAfter.value
      else cfg.baseDelay * Power2(attempt - 1) as real;
    Min(delay, cfg.maxRetryDelay)
  }

  lemma DelayIsBounded(cfg: Settings, attempt: nat, r: Response)
    requires ValidSettings(cfg) && attempt >= 1
    ensures 0.0 <= Delay(cfg, attempt, r) <= cfg.maxRetryDelay
  {
    var p := Power2(attempt - 1) as real;
    assert cfg.baseDelay * p >= 0.0;
  }

  /** The longest that many waits can take. */
  function Budget(cfg: Settings, waits: nat): real {
    waits as real * cfg.maxRetryDelay
  }

  datatype Outcome = Sent | Duplicate | InProgress | Raised

  // ---------------------------------------------------------------- one delivery at a time

  /** What the sender and the clocks answer to one delivery: one response an attempt. */
  datatype Fate = Fate(
    responses: seq<Response>, reservedAt: Lifecycle.Time, markedAt: Lifecycle.Time,
    checkFails: bool, reserveFails: bool, markFails: bool, releaseFails: bool)

  /** Retried: the attempt failed in a way worth another try. */
  predicate Retryable(r: Response) {
    !r.Accepted? && !Refused(r)
  }

  class RetryingSlackDelivery {
    const cfg: Settings
    const store: SQLiteStore

    constructor (cfg: Settings, store: SQLiteStore)
      requires ValidSettings(cfg)
      ensures this.cfg == cfg && this.store == store
    {
      this.cfg, this.store := cfg, store;
    }

    /** Send until a response settles it: never more than the allowed attempts, each wait bounded. */
    method SendWithRetry(responses: seq<Response>) returns (accepted: bool, sends: nat, slept: real)
      requires ValidSettings(cfg) && |responses| >= cfg.maxAttempts
      ensures 1 <= sends <= cfg.maxAttempts
      ensures forall i :: 0 <= i < sends - 1 ==> Retryable(responses[i])
      ensures accepted <==> responses[sends - 1].Accepted?
      ensures !accepted ==> Refused(responses[sends - 1]) || sends == cfg.maxAttempts
      ensures 0.0 <= slept <= Budget(cfg, cfg.maxAttempts - 1)
    {
      slept := 0.0;
      for attempt := 1 to cfg.maxAttempts + 1
        invariant forall i :: 0 <= i < attempt - 1 ==> Retryable(responses[i])
        invariant attempt <= cfg.maxAttempts
        invariant 0.0 <= slept <= Budget(cfg, attempt - 1)
      {
        sends := attempt;
        var response := responses[attempt - 1];
        LongerWait(cfg, attempt - 1, cfg.maxAttempts - 1);
        if response.Accepted? { return true, sends, slept; }
        if Refused(response) { return false, sends, slept; }
        if attempt == cfg.maxAttempts { return false, sends, slept; }
        DelayIsBounded(cfg, attempt, response);
        NextWait(cfg, attempt);
        slept := slept + Delay(cfg, attempt, response);
      }
    }

    /** Deliver once: skip what is delivered or being delivered, otherwise reserve, send, and either mark
        the receipt delivered or give it up. */
    method Deliver(id: DeliveryId, fate: Fate) returns (outcome: Outcome, sends: nat, slept: real, accepted: bool)
      requires ValidSettings(cfg) && |fate.responses| >= cfg.maxAttempts && store.Valid()
      modifies store
      ensures store.Valid()
      ensures OnlyReceipt(old(store.Contents()), store.Contents(), id)
      ensures outcome.Duplicate? ==> IsDelivered(old(store.Contents()), id)
      ensures outcome.InProgress? ==> id in old(store.Contents()).receipts && !IsDelivered(old(store.Contents()), id)
      ensures outcome.Duplicate? || outcome.InProgress? ==> sends == 0 && store.Contents() == old(store.Contents())
      ensures sends <= cfg.maxAttempts && 0.0 <= slept <= Budget(cfg, cfg.maxAttempts - 1)
      ensures sends > 0 ==> id !in old(store.Contents()).receipts
      ensures forall i :: 0 <= i < sends - 1 ==> Retryable(fate.responses[i])
      ensures accepted <==> sends > 0 && fate.responses[sends - 1].Accepted?
      ensures sends > 0 && !accepted ==> Refused(fate.responses[sends - 1]) || sends == cfg.maxAttempts
      ensures outcome.Sent? ==> accepted && IsDelivered(store.Contents(), id)
      ensures outcome.Raised? && sends > 0 ==> !IsDelivered(store.Contents(), id)
      ensures outcome.Raised? && sends > 0 && !fate.releaseFails ==> id !in store.Contents().receipts
      ensures outcome.Raised? && accepted ==> fate.markFails || fate.markedAt < fate.reservedAt
      ensures outcome.Raised? && sends == 0 ==>
                (fate.checkFails || fate.reserveFails) && store.Contents() == old(store.Contents())
    {
      hide Sound;
      sends, slept, accepted := 0, 0.0, false;
      LongerWait(cfg, 0, cfg.maxAttempts - 1);
      if fate.checkFails { return Raised, sends, slept, accepted; }
      if IsDelivered(store.Contents(), id) { return Outcome.Duplicate, sends, slept, accepted; }
      if fate.reserveFails { return Raised, sends, slept, accepted; }
      var reserved := store.ReserveDelivery(id, fate.reservedAt);
      if reserved != Ok(true) { return InProgress, sends, slept, accepted; }

      accepted, sends, slept := SendWithRetry(fate.responses);
      if accepted && !fate.markFails {
        var receipt := store.MarkDeliveryDelivered(id, fate.markedAt);
        if receipt.Ok? { return Sent, sends, slept, accepted; }
      }
      if !fate.releaseFails {
        var released := store.ReleaseDelivery(id);
      }
      return Raised, sends, slept, accepted;
    }
  }

  /** Nothing but the receipt of this delivery may differ. */
  ghost predicate OnlyReceipt(a: Db, b: Db, id: DeliveryId) {
    && b.(receipts := a.receipts) == a
    && (forall d :: d != id ==> (d in a.receipts <==> d in b.receipts))
    && (forall d :: d != id && d in a.receipts ==> b.receipts[d] == a.receipts[d])
  }

  lemma LongerWait(cfg: Settings, m: nat, n: nat)
    requires ValidSettings(cfg) && m <= n
    ensures 0.0 <= Budget(cfg, m) <= Budget(cfg, n)
  {
  }

  lemma NextWait(cfg: Settings, n: nat)
    requires n >= 1
    ensures Budget(cfg, n - 1) + cfg.maxRetryDelay == Budget(cfg, n)
  {
  }

  // ---------------------------------------------------------------- deliverers racing and dying

  datatype Pc =
    | Checking
    | Reserving
    | Sending(attempt: nat)
    | Sleeping(attempt: nat, delay: real)
    | Marking
    | Releasing
    | Done(outcome: Outcome)

  datatype Deliverer = Deliverer(id: DeliveryId, pc: Pc, sends: nat, slept: real)

  /** `cancelled` interrupts the awaited call. `taken` says that the service took the message of a send
      that was interrupted or reported as failed. A receipt write already handed to its thread may outlive
      its interrupted deliverer. */
  datatype Moment = Moment(
    at: Lifecycle.Time, response: Response, taken: bool, storageFails: bool, cancelled: bool, threadSurvives: bool)

  /** The deliverer holds the reservation. */
  predicate Owns(pc: Pc) {
    pc.Sending? || pc.Sleeping? || pc.Marking? || pc.Releasing?
  }

  function Next(db: Db, cfg: Settings, d: Deliverer, m: Moment): (Db, Deliverer) {
    match d.pc
    case Checking =>
      (db, d.(pc := if m.storageFails || m.cancelled then Done(Raised)
                    else if IsDelivered(db, d.id) then Done(Outcome.Duplicate) else Reserving))
    case Reserving =>
      if m.storageFails then (db, d.(pc := Done(Raised)))
      else
        var o := ReserveDelivery(db, d.id, m.at);
        (o.db, d.(pc := if o.result == Ok(true) then Sending(1) else Done(InProgress)))
    case Sending(attempt) =>
      if m.cancelled then (db, d.(pc := Releasing))
      else
        (db, d.(sends := d.sends + 1,
                pc := if m.response.Accepted? then Marking
                      else if Refused(m.response) || attempt == cfg.maxAttempts || attempt == 0 then Releasing
                      else Sleeping(attempt, Delay(cfg, attempt, m.response))))
    case Sleeping(attempt, delay) =>
      (db, d.(slept := d.slept + delay, pc := if m.cancelled then Releasing else Sending(attempt + 1)))
    case Marking =>
      if m.storageFails || m.cancelled then (db, d.(pc := Releasing))
      else
        var o := MarkDelivered(db, d.id, m.at);
        (o.db, d.(pc := if o.result.Ok? then Done(Sent) else Releasing))
    case Releasing => (if m.storageFails then db else ReleaseDelivery(db, d.id).db, d.(pc := Done(Raised)))
    case Done(_) => (db, d)
  }

  /** `sent`, `marked` and `lost` are history: per delivery, the messages the service took, the sends
      recorded by the deliverer that made them, and those that fell to a crash, an interruption, an answer
      that reported a failure, or a failed write before they could be recorded. */
  datatype State = State(
    db: Db, deliverers: map<nat, Deliverer>, threads: set<DeliveryId>,
    sent: multiset<DeliveryId>, marked: multiset<DeliveryId>, lost: multiset<DeliveryId>)

  datatype Action =
    | Begin(deliverer: nat, id: DeliveryId)
    | Advance(deliverer: nat, m: Moment)
    | Kill(deliverer: nat, taken: bool)
    | ThreadMarks(id: DeliveryId, at: Lifecycle.Time)
    | ThreadDies(id: DeliveryId)
    | Restart

  predicate Enabled(s: State, a: Action) {
    match a
    case Begin(n, _) => n !in s.deliverers
    case Advance(n, _) => n in s.deliverers
    case Kill(n, _) => n in s.deliverers
    case ThreadMarks(id, _) => id in s.threads
    case ThreadDies(id) => id in s.threads
    case Restart => s.deliverers == map[] && s.threads == {}
  }

  function Record(b: bool, id: DeliveryId): multiset<DeliveryId> {
    if b then multiset{id} else multiset{}
  }

  function Advanced(s: State, cfg: Settings, n: nat, m: Moment): State
    requires n in s.deliverers
  {
    var d := s.deliverers[n];
    var next := Next(s.db, cfg, d, m);
    State(next.0, s.deliverers[n := next.1],
          if d.pc.Marking? && m.cancelled && m.threadSurvives then s.threads + {d.id} else s.threads,
          s.sent + Record(d.pc.Sending? && (next.1.pc.Marking? || m.taken), d.id),
          s.marked + Record(d.pc.Marking? && next.1.pc.Done?, d.id),
          s.lost + Record((d.pc.Sending? && !next.1.pc.Marking? && m.taken) || (d.pc.Marking? && next.1.pc.Releasing?), d.id))
  }

  /** A killed deliverer loses what it had sent and not recorded, or was sending and the service took. */
  function Killed(s: State, n: nat, taken: bool): State
    requires n in s.deliverers
  {
    var d := s.deliverers[n];
    s.(deliverers := s.deliverers - {n},
       sent := s.sent + Record(d.pc.Sending? && taken, d.id),
       lost := s.lost + Record(d.pc.Marking? || (d.pc.Sending? && taken), d.id))
  }

  ghost function Step(s: State, cfg: Settings, a: Action): State {
    match a
    case Begin(n, id) => s.(deliverers := s.deliverers[n := Deliverer(id, Checking, 0, 0.0)])
    case Advance(n, m) => if n !in s.deliverers then s else Advanced(s, cfg, n, m)
    case Kill(n, taken) => if n !in s.deliverers then s else Killed(s, n, taken)
    case ThreadMarks(id, at) => s.(db := MarkDelivered(s.db, id, at).db, threads := s.threads - {id})
    case ThreadDies(id) => s.(threads := s.threads - {id})
    case Restart => s.(db := ReconcileDeliveries(s.db).db)
  }

  ghost function Run(s: State, cfg: Settings, actions: seq<Action>): State
    decreases |actions|
  {
    if actions == [] then s else Run(Step(s, cfg, actions[0]), cfg, actions[1..])
  }

  ghost predicate Legal(s: State, cfg: Settings, actions: seq<Action>)
    decreases |actions|
  {
    actions == [] || (Enabled(s, actions[0]) && Legal(Step(s, cfg, actions[0]), cfg, actions[1..]))
  }

  function Start(db: Db): State {
    State(db, map[], {}, multiset{}, multiset{}, multiset{})
  }

  // ---------------------------------------------------------------- each deliverer keeps its bounds

  predicate DelivererFits(db: Db, cfg: Settings, d: Deliverer) {
    match d.pc
    case Checking => d.sends == 0 && d.slept == 0.0
    case Reserving => d.sends == 0 && d.slept == 0.0
    case Sending(attempt) =>
      1 <= attempt <= cfg.maxAttempts && d.sends == attempt - 1 && 0.0 <= d.slept <= Budget(cfg, attempt - 1)
    case Sleeping(attempt, delay) =>
      && 1 <= attempt < cfg.maxAttempts && d.sends == attempt && 0.0 <= delay <= cfg.maxRetryDelay
      && 0.0 <= d.slept <= Budget(cfg, attempt - 1)
    case Done(outcome) => WithinBounds(cfg, d) && (outcome.Sent? ==> IsDelivered(db, d.id))
    case _ => WithinBounds(cfg, d)
  }

  /** At most the allowed sends, and at most one bounded sleep between two of them. */
  predicate WithinBounds(cfg: Settings, d: Deliverer) {
    && (d.sends <= cfg.maxAttempts)
    && 0.0 <= d.slept <= (if cfg.maxAttempts == 0 then 0.0 else Budget(cfg, cfg.maxAttempts - 1))
  }

  lemma FitsImpliesBounds(db: Db, cfg: Settings, d: Deliverer)
    requires ValidSettings(cfg) && DelivererFits(db, cfg, d)
    ensures WithinBounds(cfg, d)
  {
    LongerWait(cfg, 0, cfg.maxAttempts - 1);
    if d.pc.Sending? || d.pc.Sleeping? {
      LongerWait(cfg, d.pc.attempt - 1, cfg.maxAttempts - 1);
    }
  }

  lemma SendingFits(db: Db, cfg: Settings, d: Deliverer, m: Moment)
    requires ValidSettings(cfg) && DelivererFits(db, cfg, d) && (d.pc.Sending? || d.pc.Sleeping?)
    ensures DelivererFits(db, cfg, Next(db, cfg, d, m).1)
  {
    hide Budget, Delay, MarkDelivered, ReserveDelivery, ReleaseDelivery;
    match d.pc
    case Sending(attempt) =>
      DelayIsBounded(cfg, attempt, m.response);
      LongerWait(cfg, attempt - 1, cfg.maxAttempts - 1);
    case Sleeping(attempt, delay) =>
      NextWait(cfg, attempt);
      LongerWait(cfg, attempt, cfg.maxAttempts - 1);
  }

  lemma NextFits(db: Db, cfg: Settings, d: Deliverer, m: Moment)
    requires ValidSettings(cfg) && DelivererFits(db, cfg, d)
    ensures DelivererFits(Next(db, cfg, d, m).0, cfg, Next(db, cfg, d, m).1)
  {
    if d.pc.Sending? || d.pc.Sleeping? {
      SendingFits(db, cfg, d, m);
      hide DelivererFits, Delay;
    } else {
      LongerWait(cfg, 0, cfg.maxAttempts - 1);
      hide Budget, Delay, ValidReceipt;
      assert 0.0 == Budget(cfg, 0) by { BudgetOfNone(cfg); }
    }
  }

  lemma BudgetOfNone(cfg: Settings)
    ensures Budget(cfg, 0) == 0.0
  {
  }

  // ---------------------------------------------------------------- reservations and counts

  predicate SameClaim(a: Deliverer, b: Deliverer) {
    Owns(a.pc) && Owns(b.pc) && a.id == b.id
  }

  predicate Marker(deliverers: map<nat, Deliverer>, id: DeliveryId) {
    exists n :: n in deliverers && deliverers[n].pc.Marking? && deliverers[n].id == id
  }

  predicate Owned(deliverers: map<nat, Deliverer>, id: DeliveryId) {
    exists n :: n in deliverers && Owns(deliverers[n].pc) && deliverers[n].id == id
  }

  /** One owner at a time, and only while the receipt is there. */
  predicate Exclusive(db: Db, deliverers: map<nat, Deliverer>) {
    && (forall n :: n in deliverers && Owns(deliverers[n].pc) ==> deliverers[n].id in db.receipts)
    && (forall a, b :: a in deliverers && b in deliverers && SameClaim(deliverers[a], deliverers[b]) ==> a == b)
  }

  /** Every accepted send is recorded, lost, or about to be recorded; and at most one is ever recorded,
      after which nobody sends that delivery again. */
  predicate Accounted(s: State, id: DeliveryId) {
    && s.sent[id] <= s.lost[id] + s.marked[id] + (if Marker(s.deliverers, id) then 1 else 0)
    && s.marked[id] <= 1
    && (s.marked[id] == 1 ==> IsDelivered(s.db, id) && !Owned(s.deliverers, id))
  }

  ghost predicate Inv(s: State, cfg: Settings) {
    && (forall n :: n in s.deliverers ==> DelivererFits(s.db, cfg, s.deliverers[n]))
    && Exclusive(s.db, s.deliverers)
    && forall id :: Accounted(s, id)
  }

  /** What a deliverer's step does to the receipts: only its own may appear or go, and never a delivered
      one. */
  lemma NextReceipts(db: Db, cfg: Settings, d: Deliverer, m: Moment)
    requires Owns(d.pc) ==> d.id in db.receipts
    ensures var n := Next(db, cfg, d, m);
            && n.1.id == d.id
            && (forall k :: k != d.id ==> (k in n.0.receipts <==> k in db.receipts) && IsDelivered(n.0, k) == IsDelivered(db, k))
            && (forall k :: IsDelivered(db, k) ==> IsDelivered(n.0, k))
            && (Owns(n.1.pc) ==> d.id in n.0.receipts)
            && (Owns(n.1.pc) && !Owns(d.pc) ==> d.id !in db.receipts && n.1.pc == Sending(1))
            && (d.pc.Marking? && n.1.pc.Done? ==> IsDelivered(n.0, d.id))
            && (n.1.pc.Marking? ==> d.pc.Sending?)
            && (d.pc.Marking? ==> n.1.pc.Done? || n.1.pc.Releasing?)
  {
    if d.pc.Reserving? || d.pc.Marking? || d.pc.Releasing? {
      hide ValidReceipt, Delay, Refused;
    } else {
      hide Delay, Refused, IsDelivered, MarkDelivered, ReserveDelivery, ReleaseDelivery;
    }
  }

  lemma OthersFit(db: Db, after: Db, cfg: Settings, d: Deliverer)
    requires DelivererFits(db, cfg, d) && (IsDelivered(db, d.id) ==> IsDelivered(after, d.id))
    ensures DelivererFits(after, cfg, d)
  {
  }

  /** Who marks and who owns, after one deliverer has moved. */
  lemma MarkersAfter(deliverers: map<nat, Deliverer>, n: nat, next: Deliverer, id: DeliveryId)
    requires n in deliverers && next.id == deliverers[n].id
    requires forall a, b :: a in deliverers && b in deliverers && SameClaim(deliverers[a], deliverers[b]) ==> a == b
    ensures var after := deliverers[n := next];
            && (id != next.id ==> Marker(after, id) == Marker(deliverers, id) && Owned(after, id) == Owned(deliverers, id))
            && (id == next.id && Owns(deliverers[n].pc) ==>
                  && Owned(deliverers, id) && Marker(deliverers, id) == deliverers[n].pc.Marking?
                  && Owned(after, id) == Owns(next.pc) && Marker(after, id) == next.pc.Marking?)
            && (id == next.id && !Owns(deliverers[n].pc) && !Owns(next.pc) ==>
                  Marker(after, id) == Marker(deliverers, id) && Owned(after, id) == Owned(deliverers, id))
            && (id == next.id && !Owns(deliverers[n].pc) && Owns(next.pc) && !next.pc.Marking? ==>
                  Marker(after, id) == Marker(deliverers, id))
  {
    var after := deliverers[n := next];
    forall k | k in after && k != n ensures k in deliverers && after[k] == deliverers[k] {
    }
    assert after[n] == next;
    forall k | k in deliverers && k != n && Owns(deliverers[k].pc) && deliverers[k].id == next.id
      ensures !Owns(deliverers[n].pc) && after[k] == deliverers[k]
    {
      assert !SameClaim(deliverers[k], deliverers[n]);
    }
  }

  lemma AdvanceAccounts(s: State, cfg: Settings, n: nat, m: Moment, id: DeliveryId)
    requires n in s.deliverers && Exclusive(s.db, s.deliverers) && Accounted(s, id)
    ensures Accounted(Advanced(s, cfg, n, m), id)
  {
    hide Next, IsDelivered;
    NextReceipts(s.db, cfg, s.deliverers[n], m);
    MarkersAfter(s.deliverers, n, Next(s.db, cfg, s.deliverers[n], m).1, id);
    DeliveredHasReceipt(s.db, id);
    hide Marker, Owned;
  }

  lemma DeliveredHasReceipt(db: Db, id: DeliveryId)
    ensures IsDelivered(db, id) ==> id in db.receipts
  {
  }

  lemma AdvanceExclusive(s: State, cfg: Settings, n: nat, m: Moment)
    requires n in s.deliverers && Exclusive(s.db, s.deliverers)
    ensures Exclusive(Advanced(s, cfg, n, m).db, Advanced(s, cfg, n, m).deliverers)
  {
    hide Next;
    NextReceipts(s.db, cfg, s.deliverers[n], m);
    var d, after := s.deliverers[n], Advanced(s, cfg, n, m);
    forall a | a in s.deliverers && a != n && Owns(s.deliverers[a].pc)
      ensures s.deliverers[a].id in after.db.receipts && (Owns(after.deliverers[n].pc) ==> s.deliverers[a].id != d.id)
    {
      assert !SameClaim(s.deliverers[a], d);
      StillReceipted(s, cfg, n, m, a);
    }
    forall a, b | a in after.deliverers && b in after.deliverers && SameClaim(after.deliverers[a], after.deliverers[b]) ensures a == b {
      if a != n && b != n {
        assert SameClaim(s.deliverers[a], s.deliverers[b]);
      }
    }
  }

  lemma StillReceipted(s: State, cfg: Settings, n: nat, m: Moment, a: nat)
    requires n in s.deliverers && a in s.deliverers && a != n && Owns(s.deliverers[a].pc) && Exclusive(s.db, s.deliverers)
    ensures s.deliverers[a].id in Next(s.db, cfg, s.deliverers[n], m).0.receipts
  {
    NextReceipts(s.db, cfg, s.deliverers[n], m);
    hide Next;
    if s.deliverers[a].id == s.deliverers[n].id {
      assert SameClaim(s.deliverers[a], s.deliverers[n]) ==> a == n;
      NonOwnersRemoveNothing(s.db, cfg, s.deliverers[n], m);
    }
  }

  lemma NonOwnersRemoveNothing(db: Db, cfg: Settings, d: Deliverer, m: Moment)
    requires !Owns(d.pc)
    ensures forall k :: k in db.receipts ==> k in Next(db, cfg, d, m).0.receipts
  {
  }

  lemma StepKeepsInv(s: State, cfg: Settings, a: Action)
    requires ValidSettings(cfg) && Inv(s, cfg) && Enabled(s, a)
    ensures Inv(Step(s, cfg, a), cfg)
  {
    match a
    case Advance(n, m) => AdvanceKeepsInv(s, cfg, n, m);
    case Kill(n, taken) =>
      hide DelivererFits;
      forall id ensures Accounted(Step(s, cfg, a), id) {
        KillAccounts(s, n, taken, id);
      }
      KillExclusive(s.db, s.deliverers, n);
    case Begin(n, id) =>
      hide DelivererFits;
      BeginKeepsInv(s, cfg, n, id);
    case _ => ReceiptsKeepInv(s, cfg, a);
  }

  lemma AdvanceKeepsInv(s: State, cfg: Settings, n: nat, m: Moment)
    requires ValidSettings(cfg) && Inv(s, cfg) && n in s.deliverers
    ensures Inv(Advanced(s, cfg, n, m), cfg)
  {
    hide Next, DelivererFits, Accounted, Exclusive;
    var after := Advanced(s, cfg, n, m);
    NextFits(s.db, cfg, s.deliverers[n], m);
    AdvanceExclusive(s, cfg, n, m);
    OwnerHasReceipt(s, n);
    NextReceipts(s.db, cfg, s.deliverers[n], m);
    forall k | k in s.deliverers && k != n ensures DelivererFits(after.db, cfg, s.deliverers[k]) {
      OthersFit(s.db, after.db, cfg, s.deliverers[k]);
    }
    forall id ensures Accounted(after, id) {
      AdvanceAccounts(s, cfg, n, m, id);
    }
  }

  lemma OwnerHasReceipt(s: State, n: nat)
    requires Exclusive(s.db, s.deliverers) && n in s.deliverers
    ensures Owns(s.deliverers[n].pc) ==> s.deliverers[n].id in s.db.receipts
  {
  }

  lemma KillAccounts(s: State, n: nat, taken: bool, id: DeliveryId)
    requires n in s.deliverers && Exclusive(s.db, s.deliverers) && Accounted(s, id)
    ensures Accounted(Killed(s, n, taken), id)
  {
    var after := Killed(s, n, taken);
    if Marker(s.deliverers, id) {
      var k :| k in s.deliverers && s.deliverers[k].pc.Marking? && s.deliverers[k].id == id;
      assert k != n ==> k in after.deliverers && after.deliverers[k] == s.deliverers[k];
    }
    if Owned(after.deliverers, id) {
      var k :| k in after.deliverers && Owns(after.deliverers[k].pc) && after.deliverers[k].id == id;
      assert k in s.deliverers && Owns(s.deliverers[k].pc);
    }
  }

  lemma KillExclusive(db: Db, deliverers: map<nat, Deliverer>, n: nat)
    requires Exclusive(db, deliverers)
    ensures Exclusive(db, deliverers - {n})
  {
    var after := deliverers - {n};
    forall a, b | a in after && b in after && SameClaim(after[a], after[b]) ensures a == b {
      assert SameClaim(deliverers[a], deliverers[b]);
    }
  }

  lemma BeginKeepsInv(s: State, cfg: Settings, n: nat, id: DeliveryId)
    requires Inv(s, cfg) && n !in s.deliverers
    ensures Inv(Step(s, cfg, Begin(n, id)), cfg)
  {
    var after := Step(s, cfg, Begin(n, id));
    assert DelivererFits(after.db, cfg, after.deliverers[n]);
    hide DelivererFits;
    forall a, b | a in after.deliverers && b in after.deliverers && SameClaim(after.deliverers[a], after.deliverers[b]) ensures a == b {
      assert SameClaim(s.deliverers[a], s.deliverers[b]);
    }
    forall k ensures Accounted(after, k) {
      assert Accounted(s, k);
      if Marker(s.deliverers, k) {
        var j :| j in s.deliverers && s.deliverers[j].pc.Marking? && s.deliverers[j].id == k;
        assert after.deliverers[j] == s.deliverers[j];
      }
      if Owned(after.deliverers, k) {
        var j :| j in after.deliverers && Owns(after.deliverers[j].pc) && after.deliverers[j].id == k;
        assert j in s.deliverers;
      }
    }
  }

  /** An orphaned write or a restart never takes a receipt from an owner, and never a delivered one. */
  lemma ReceiptsKeepInv(s: State, cfg: Settings, a: Action)
    requires Inv(s, cfg) && Enabled(s, a) && (a.ThreadMarks? || a.ThreadDies? || a.Restart?)
    ensures Inv(Step(s, cfg, a), cfg)
  {
    hide ValidReceipt, InOrder;
    var after := Step(s, cfg, a);
    assert after.deliverers == s.deliverers;
    forall k | IsDelivered(s.db, k) ensures IsDelivered(after.db, k) {
    }
    hide DelivererFits;
    forall n | n in s.deliverers ensures DelivererFits(after.db, cfg, s.deliverers[n]) {
      OthersFit(s.db, after.db, cfg, s.deliverers[n]);
    }
    hide Owned, Marker;
    forall k ensures Accounted(after, k) {
      assert Accounted(s, k);
    }
  }

  lemma {:induction false} RunKeepsInv(s: State, cfg: Settings, actions: seq<Action>)
    requires ValidSettings(cfg) && Inv(s, cfg) && Legal(s, cfg, actions)
    ensures Inv(Run(s, cfg, actions), cfg)
    decreases |actions|
  {
    hide Inv, Step, Enabled;
    if actions != [] {
      StepKeepsInv(s, cfg, actions[0]);
      RunKeepsInv(Step(s, cfg, actions[0]), cfg, actions[1..]);
    }
  }

  /** Over every interleaving of deliverers, interruptions, failed writes, orphaned threads, crashes and
      restarts, from any receipt table: the service accepts a delivery at most once, plus once for every
      time an accepted send was lost before it could be recorded; and every deliverer keeps within its
      attempts and its sleeping time. */
  lemma AcceptedOncePlusLosses(db: Db, cfg: Settings, actions: seq<Action>)
    requires ValidSettings(cfg) && Legal(Start(db), cfg, actions)
    ensures var s := Run(Start(db), cfg, actions);
            && (forall id :: s.sent[id] <= 1 + s.lost[id])
            && (forall id :: s.marked[id] <= 1 && (s.marked[id] == 1 ==> IsDelivered(s.db, id)))
            && (forall n :: n in s.deliverers ==> WithinBounds(cfg, s.deliverers[n]))
  {
    RunKeepsInv(Start(db), cfg, actions);
    var s := Run(Start(db), cfg, actions);
    hide Run, Legal, DelivererFits;
    forall id ensures s.sent[id] <= 1 + s.lost[id] && s.marked[id] <= 1 && (s.marked[id] == 1 ==> IsDelivered(s.db, id)) {
      assert Accounted(s, id);
      if Marker(s.deliverers, id) {
        var k :| k in s.deliverers && s.deliverers[k].pc.Marking? && s.deliverers[k].id == id;
        assert Owned(s.deliverers, id);
      }
    }
    forall n | n in s.deliverers ensures WithinBounds(cfg, s.deliverers[n]) {
      FitsImpliesBounds(s.db, cfg, s.deliverers[n]);
    }
  }
}
