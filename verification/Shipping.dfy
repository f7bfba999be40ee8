/**
 Shipping the byte-capped prefix of a durable buffer, halving the batch each time the relay answers
 413 (section 15.5.14 of RFC 9110), and tallying what settled.
 */
module Shipping {
  import opened Common
  import opened Powers
  import opened Utf8
  import Disk = DiskBuffers

  /** Estimated wire overhead of one entry. */
  const ENTRY_WIRE_OVERHEAD := 128

  /** A batch count travels in 32 bits. */
  const WIRE_COUNT_LIMIT := 0x1_0000_0000

  const COUNTER_LIMIT := 0x1_0000_0000_0000_0000

  datatype ShipEntry = ShipEntry(body: bytes, stream: LogStream)

  /** Stored lines as they are shipped. */
  function ToShip(entries: seq<Disk.Entry>): (r: seq<ShipEntry>)
    ensures |r| == |entries| && forall i :: 0 <= i < |r| ==>
      r[i] == ShipEntry(entries[i].line.data, entries[i].line.stream)
  {
    seq(|entries|, i requires 0 <= i < |entries| => ShipEntry(entries[i].line.data, entries[i].line.stream))
  }

  /** What one encode-and-send attempt comes back with. */
  datatype Reply =
    | EncodeError
    | AcceptedReply(count: nat)
    | RejectedReply(accepted: nat, rejected: nat)
    | PayloadTooLarge
    | OtherError

  datatype DeferredReason = EmptyBatch | EncodeFailed | AcceptedCountMismatch | RelayRejected | ShipFailed

  datatype Outcome =
    | Delivered(count: nat)
    | DroppedOversized(count: nat)
    | RejectedAdjudicated(accepted: nat, rejected: nat)
    | Deferred(reason: DeferredReason)

  /** How many leading entries a caller may delete. */
  function Handled(o: Outcome): nat {
    match o
    case Delivered(n) => n
    case DroppedOversized(n) => n
    case RejectedAdjudicated(a, r) => a + r
    case Deferred(_) => 0
  }

  predicate Settles(o: Outcome) {
    o.Delivered? || o.RejectedAdjudicated?
  }

  // -------------------------------------------------------------------------- the cap

  function Cost(entries: seq<ShipEntry>): nat {
    if entries == [] then 0
    else Cost(entries[..|entries| - 1]) + |entries[|entries| - 1].body| + ENTRY_WIRE_OVERHEAD
  }

  /** `n` is the longest prefix within the cap, or the first entry alone when even that is over it. */
  ghost predicate IsCappedTake(entries: seq<ShipEntry>, maxBytes: nat, n: nat) {
    && n <= |entries| && (entries != [] ==> n >= 1)
    && (n <= 1 || Cost(entries[..n]) <= maxBytes)
    && forall k :: n < k <= |entries| ==> Cost(entries[..k]) > maxBytes
  }

  lemma {:induction false} CostGrows(entries: seq<ShipEntry>, j: nat, k: nat)
    requires j <= k <= |entries|
    ensures Cost(entries[..j]) + ENTRY_WIRE_OVERHEAD * (k - j) <= Cost(entries[..k])
  {
    if j < k {
      CostGrows(entries, j, k - 1);
      assert entries[..k][..k - 1] == entries[..k - 1];
    }
  }

  lemma {:induction false} CappedTakeUnique(entries: seq<ShipEntry>, maxBytes: nat, m: nat, n: nat)
    requires IsCappedTake(entries, maxBytes, m) && IsCappedTake(entries, maxBytes, n)
    ensures m == n
  {
  }

  method ByteCappedTake(entries: seq<ShipEntry>, maxBytes: nat) returns (take: nat)
    ensures IsCappedTake(entries, maxBytes, take)
  {
    var total := 0;
    take := 0;
    while take < |entries|
      invariant take <= |entries|
      invariant total == Cost(entries[..take])
      invariant take <= 1 || total <= maxBytes
    {
      var cost := |entries[take].body| + ENTRY_WIRE_OVERHEAD;
      assert entries[..take + 1][..take] == entries[..take];
      if take > 0 && total + cost > maxBytes {
        forall k | take < k <= |entries|
          ensures Cost(entries[..k]) > maxBytes
        {
          CostGrows(entries, take + 1, k);
        }
        break;
      }
      total := total + cost;
      take := take + 1;
    }
  }

  // ------------------------------------------------------------------------ the tally

  datatype BodyVariant = EntryJson | RawText | RawBytes

  /** JSON objects, other well-formed UTF-8, and the rest; JSON parsing itself is not modelled. */
  function VariantOf(isJsonObject: bytes -> bool, body: bytes): BodyVariant {
    if isJsonObject(body) then EntryJson else if Valid(body) then RawText else RawBytes
  }

  datatype Split = Split(entryJson: nat, rawText: nat, rawBytes: nat)

  /** How many of the entries have each variant. */
  function CountOf(isJsonObject: bytes -> bool, entries: seq<ShipEntry>, v: BodyVariant): (r: nat)
    ensures r <= |entries|
  {
    if entries == [] then 0
    else
      var n := |entries| - 1;
      CountOf(isJsonObject, entries[..n], v) + if VariantOf(isJsonObject, entries[n].body) == v then 1 else 0
  }

  ghost function SplitOf(isJsonObject: bytes -> bool, entries: seq<ShipEntry>): Split {
    Split(CountOf(isJsonObject, entries, EntryJson), CountOf(isJsonObject, entries, RawText),
      CountOf(isJsonObject, entries, RawBytes))
  }

  lemma {:induction false} CountAppends(isJsonObject: bytes -> bool, a: seq<ShipEntry>, b: seq<ShipEntry>,
      v: BodyVariant)
    ensures CountOf(isJsonObject, a + b, v) == CountOf(isJsonObject, a, v) + CountOf(isJsonObject, b, v)
  {
    if b == [] {
      assert a + b == a;
    } else {
      var n := |b| - 1;
      assert (a + b)[..|a| + n] == a + b[..n];
      CountAppends(isJsonObject, a, b[..n], v);
    }
  }

  /** No entry is tallied twice or missed. */
  lemma {:induction false} SplitIsAPartition(isJsonObject: bytes -> bool, entries: seq<ShipEntry>)
    ensures var s := SplitOf(isJsonObject, entries); s.entryJson + s.rawText + s.rawBytes == |entries|
  {
    if entries != [] {
      SplitIsAPartition(isJsonObject, entries[..|entries| - 1]);
    }
  }

  /** One source's counters, shared with the stats reporter; each wraps at 64 bits. */
  class BodyVariantCounters {
    var entryJson: nat
    var rawText: nat
    var rawBytes: nat

    constructor ()
      ensures Snapshot() == Split(0, 0, 0)
    {
      entryJson, rawText, rawBytes := 0, 0, 0;
    }

    function Snapshot(): Split
      reads this
    {
      Split(entryJson, rawText, rawBytes)
    }

    method Record(split: Split)
      modifies this
      ensures Snapshot() == Tallied(old(Snapshot()), split)
    {
      entryJson := (entryJson + split.entryJson) % COUNTER_LIMIT;
      rawText := (rawText + split.rawText) % COUNTER_LIMIT;
      rawBytes := (rawBytes + split.rawBytes) % COUNTER_LIMIT;
    }
  }

  function Tallied(s: Split, t: Split): Split {
    Split((s.entryJson + t.entryJson) % COUNTER_LIMIT,
          (s.rawText + t.rawText) % COUNTER_LIMIT,
          (s.rawBytes + t.rawBytes) % COUNTER_LIMIT)
  }

  // ------------------------------------------------------------------ the shrink loop

  /** What the reply to a batch of `n` entries settles; a shrink is not an outcome. */
  function Adjudicated(n: nat, reply: Reply): (o: Outcome)
    ensures Handled(o) == 0 || Handled(o) == n || (reply.PayloadTooLarge? && Handled(o) == 1)
  {
    if n >= WIRE_COUNT_LIMIT then Deferred(EncodeFailed)
    else
      match reply
      case EncodeError => Deferred(EncodeFailed)
      case AcceptedReply(c) => if c == n then Delivered(n) else Deferred(AcceptedCountMismatch)
      case RejectedReply(a, r) => if a + r == n then RejectedAdjudicated(a, r) else Deferred(RelayRejected)
      case PayloadTooLarge => DroppedOversized(1)
      case OtherError => Deferred(ShipFailed)
  }

  /**
   The whole exchange with a relay, whatever it answers: attempt `k` sends the first `n / 2^k`
   entries, every attempt but the last is answered 413 and sent more than one entry, and the
   outcome is what the last reply settles for the last prefix sent.
   */
  ghost predicate IsExchange(n: nat, relay: nat -> Reply, attempts: nat, outcome: Outcome) {
    && attempts >= 1 && Pow2(attempts - 1) <= n
    && (forall k :: 0 <= k < attempts - 1 ==> relay(k).PayloadTooLarge? && 1 < n / Pow2(k) < WIRE_COUNT_LIMIT)
    && outcome == Adjudicated(n / Pow2(attempts - 1), relay(attempts - 1))
    && (outcome.DroppedOversized? ==> n / Pow2(attempts - 1) == 1)
  }

  /** Replies of 413 among the first `attempts`. */
  ghost function Refusals(relay: nat -> Reply, attempts: nat): nat {
    if attempts == 0 then 0
    else Refusals(relay, attempts - 1) + if relay(attempts - 1).PayloadTooLarge? then 1 else 0
  }

  lemma {:induction false} RefusalsAtMostAttempts(relay: nat -> Reply, attempts: nat)
    ensures Refusals(relay, attempts) <= attempts
  {
    if attempts > 0 {
      RefusalsAtMostAttempts(relay, attempts - 1);
    }
  }

  /**
   For every relay: at most floor(log2 n) + 1 refusals; a handled count is the size of the last
   prefix sent; and an entry is dropped only after a refusal of that entry alone.
   */
  lemma {:induction false} ExchangeIsSafe(n: nat, relay: nat -> Reply, attempts: nat, outcome: Outcome)
    requires n >= 1 && IsExchange(n, relay, attempts, outcome)
    ensures Refusals(relay, attempts) <= FloorLog2(n) + 1
    ensures Handled(outcome) == 0 || Handled(outcome) == n / Pow2(attempts - 1)
    ensures outcome.DroppedOversized? ==> n / Pow2(attempts - 1) == 1 && relay(attempts - 1).PayloadTooLarge?
    ensures Handled(outcome) <= n
  {
    LogBounds(n, attempts - 1);
    RefusalsAtMostAttempts(relay, attempts);
    assert n / Pow2(attempts - 1) <= n by { QuotientBelow(n, Pow2(attempts - 1)); }
  }

  /** The exchange is determined by the relay: two runs against it make the same attempts. */
  lemma {:induction false} ExchangeUnique(n: nat, relay: nat -> Reply, a: nat, o: Outcome, b: nat, p: Outcome)
    requires n >= 1 && IsExchange(n, relay, a, o) && IsExchange(n, relay, b, p)
    ensures a == b && o == p
  {
  }

  /** Shipping the entries to the relay comes to the outcome: a byte-capped prefix, halved while refused. */
  ghost predicate ShipsAs(entries: seq<ShipEntry>, maxBytes: nat, relay: nat -> Reply, outcome: Outcome) {
    exists take, attempts :: IsCappedTake(entries, maxBytes, take) && IsExchange(take, relay, attempts, outcome)
  }

  lemma {:induction false} OneOutcome(entries: seq<ShipEntry>, maxBytes: nat, relay: nat -> Reply, o: Outcome,
      p: Outcome)
    requires entries != [] && ShipsAs(entries, maxBytes, relay, o) && ShipsAs(entries, maxBytes, relay, p)
    ensures o == p
  {
    var m, a :| IsCappedTake(entries, maxBytes, m) && IsExchange(m, relay, a, o);
    var n, b :| IsCappedTake(entries, maxBytes, n) && IsExchange(n, relay, b, p);
    CappedTakeUnique(entries, maxBytes, m, n);
    ExchangeUnique(m, relay, a, o, b, p);
  }

  lemma {:induction false} ShipsSo(entries: seq<ShipEntry>, maxBytes: nat, relay: nat -> Reply, take: nat,
      attempts: nat, outcome: Outcome)
    requires IsCappedTake(entries, maxBytes, take) && IsExchange(take, relay, attempts, outcome)
    ensures ShipsAs(entries, maxBytes, relay, outcome)
  {
    hide IsCappedTake, IsExchange;
  }

  /** Mid-exchange: `attempts` prefixes have been refused and the next one sends `n` entries. */
  ghost predicate IsShrinking(take: nat, relay: nat -> Reply, attempts: nat, n: nat) {
    && Pow2(attempts) <= take && n == take / Pow2(attempts)
    && forall k :: 0 <= k < attempts ==> relay(k).PayloadTooLarge? && 1 < take / Pow2(k) < WIRE_COUNT_LIMIT
  }

  lemma {:induction false} StartsExchange(take: nat, relay: nat -> Reply)
    requires take >= 1
    ensures IsShrinking(take, relay, 0, take)
  {
  }

  lemma {:induction false} Shrinks(take: nat, relay: nat -> Reply, attempts: nat, n: nat)
    requires IsShrinking(take, relay, attempts, n) && 1 < n < WIRE_COUNT_LIMIT && relay(attempts).PayloadTooLarge?
    ensures IsShrinking(take, relay, attempts + 1, n / 2)
  {
    HalvingAgain(take, attempts);
    hide Pow2;
  }

  lemma {:induction false} EndsExchange(take: nat, relay: nat -> Reply, attempts: nat, n: nat)
    requires IsShrinking(take, relay, attempts, n)
    requires relay(attempts).PayloadTooLarge? && n < WIRE_COUNT_LIMIT ==> n == 1
    ensures IsExchange(take, relay, attempts + 1, Adjudicated(n, relay(attempts)))
  {
    hide Pow2;
  }

  // ---------------------------------------------------------- drains, one after another

  /** One drain: what was peeked from the front of the buffer, and what the shipper made of it. */
  datatype Shipment = Shipment(peeked: nat, outcome: Outcome)

  /** Buffer and counters after each drain deletes what was handled and records what settled. */
  ghost predicate IsDrainRun(isJsonObject: bytes -> bool, queues: seq<seq<ShipEntry>>, tallies: seq<Split>,
      drains: seq<Shipment>) {
    && |queues| == |tallies| == |drains| + 1
    && forall i :: 0 <= i < |drains| ==>
         && Handled(drains[i].outcome) <= drains[i].peeked <= |queues[i]|
         && queues[i + 1] == queues[i][Handled(drains[i].outcome)..]
         && tallies[i + 1] ==
              if Settles(drains[i].outcome) then Tallied(tallies[i],
                SplitOf(isJsonObject, queues[i][..Handled(drains[i].outcome)]))
              else tallies[i]
  }

  /** The entries that settled, in order. */
  ghost function SettledBy(queue: seq<ShipEntry>, drains: seq<Shipment>): seq<ShipEntry> {
    if drains == [] then []
    else
      var h := Handled(drains[0].outcome);
      if h > |queue| then []
      else (if Settles(drains[0].outcome) then queue[..h] else []) + SettledBy(queue[h..], drains[1..])
  }

  lemma {:induction false} TallyTwice(s: Split, t: Split, v: Split)
    ensures Tallied(Tallied(s, t), v) == Tallied(s, Split(t.entryJson + v.entryJson, t.rawText + v.rawText,
      t.rawBytes + v.rawBytes))
  {
  }

  /** Over every run of drains the counters grow by the tally of exactly the settled entries, each once. */
  lemma {:induction false} TallyCountsSettledOnce(isJsonObject: bytes -> bool, queues: seq<seq<ShipEntry>>,
      tallies: seq<Split>, drains: seq<Shipment>)
    requires IsDrainRun(isJsonObject, queues, tallies, drains)
    requires Tallied(tallies[0], Split(0, 0, 0)) == tallies[0]
    ensures tallies[|drains|] == Tallied(tallies[0], SplitOf(isJsonObject, SettledBy(queues[0], drains)))
    decreases |drains|
  {
    if drains != [] {
      var h := Handled(drains[0].outcome);
      var first := if Settles(drains[0].outcome) then queues[0][..h] else [];
      var rest := SettledBy(queues[1], drains[1..]);
      RunTail(isJsonObject, queues, tallies, drains);
      TallyStep(isJsonObject, tallies[0], tallies[1], first, rest);
      hide SplitOf, Tallied, IsDrainRun;
      TallyCountsSettledOnce(isJsonObject, queues[1..], tallies[1..], drains[1..]);
    }
  }

  lemma {:induction false} RunTail(isJsonObject: bytes -> bool, queues: seq<seq<ShipEntry>>, tallies: seq<Split>,
      drains: seq<Shipment>)
    requires IsDrainRun(isJsonObject, queues, tallies, drains) && drains != []
    ensures IsDrainRun(isJsonObject, queues[1..], tallies[1..], drains[1..])
  {
    hide SplitOf, Tallied;
    assert forall i :: 0 <= i < |drains[1..]| ==>
      drains[1..][i] == drains[i + 1] && queues[1..][i] == queues[i + 1] && tallies[1..][i] == tallies[i + 1];
  }

  /** Recording a prefix and later the rest is recording both. */
  lemma {:induction false} TallyStep(isJsonObject: bytes -> bool, s: Split, t: Split, first: seq<ShipEntry>,
      rest: seq<ShipEntry>)
    requires Tallied(s, Split(0, 0, 0)) == s
    requires t == Tallied(s, SplitOf(isJsonObject, first)) || (t == s && first == [])
    ensures Tallied(t, SplitOf(isJsonObject, rest)) == Tallied(s, SplitOf(isJsonObject, first + rest))
    ensures Tallied(t, Split(0, 0, 0)) == t
  {
    CountAppends(isJsonObject, first, rest, EntryJson);
    CountAppends(isJsonObject, first, rest, RawText);
    CountAppends(isJsonObject, first, rest, RawBytes);
    TallyTwice(s, SplitOf(isJsonObject, first), SplitOf(isJsonObject, rest));
    TallyTwice(s, SplitOf(isJsonObject, first), Split(0, 0, 0));
    hide CountOf, Tallied;
    if t == s && first == [] {
      assert first + rest == rest;
    }
  }

  class Shipper {
    const isJsonObject: bytes -> bool
    const counters: BodyVariantCounters?

    constructor (isJsonObject: bytes -> bool, counters: BodyVariantCounters?)
      ensures this.isJsonObject == isJsonObject && this.counters == counters
    {
      this.isJsonObject, this.counters := isJsonObject, counters;
    }

    /** The tally of a batch, counted while its entries are encoded. */
    method TallyBatch(entries: seq<ShipEntry>) returns (tally: Split)
      ensures tally == SplitOf(isJsonObject, entries)
    {
      var json, text, raw := 0, 0, 0;
      for i := 0 to |entries|
        invariant Split(json, text, raw) == SplitOf(isJsonObject, entries[..i])
      {
        assert entries[..i + 1][..i] == entries[..i];
        match VariantOf(isJsonObject, entries[i].body)
        case EntryJson => json := json + 1;
        case RawText => text := text + 1;
        case RawBytes => raw := raw + 1;
      }
      assert entries[..|entries|] == entries;
      tally := Split(json, text, raw);
    }

    /** The relay's `k`-th answer is `relay(k)`, whatever it is. */
    method ShipCappedWithShrink(entries: seq<ShipEntry>, maxBytes: nat, relay: nat -> Reply)
      returns (outcome: Outcome, take: nat, attempts: nat)
      modifies if counters == null then {} else {counters}
      ensures IsCappedTake(entries, maxBytes, take)
      ensures entries == [] ==> outcome == Deferred(EmptyBatch) && attempts == 0
      ensures entries != [] ==> IsExchange(take, relay, attempts, outcome)
      ensures Handled(outcome) <= |entries|
      // the tally grows by exactly the settled prefix, once, and by nothing otherwise
      ensures counters != null ==>
        counters.Snapshot() ==
          if Settles(outcome) then Tallied(old(counters.Snapshot()), SplitOf(isJsonObject, entries[..Handled(outcome)]))
          else old(counters.Snapshot())
    {
      take, attempts := 0, 0;
      if entries == [] {
        return Deferred(EmptyBatch), 0, 0;
      }
      var n := ByteCappedTake(entries, maxBytes);
      take := n;
      StartsExchange(take, relay);
      hide IsShrinking, IsExchange, Pow2, SplitOf, Tallied;
      while true
        invariant 1 <= n <= take <= |entries| && IsShrinking(take, relay, attempts, n)
        invariant counters != null ==> counters.Snapshot() == old(counters.Snapshot())
        decreases n
      {
        var reply := relay(attempts);
        attempts := attempts + 1;
        if n < WIRE_COUNT_LIMIT && reply.PayloadTooLarge? && n > 1 {
          Shrinks(take, relay, attempts - 1, n);
          n := n / 2;
          continue;
        }
        EndsExchange(take, relay, attempts - 1, n);
        if n >= WIRE_COUNT_LIMIT || reply.EncodeError? {
          return Deferred(EncodeFailed), take, attempts;
        }
        var tally := TallyBatch(entries[..n]);
        match reply {
          case AcceptedReply(count) =>
            if count != n {
              return Deferred(AcceptedCountMismatch), take, attempts;
            }
            RecordBodyVariants(tally);
            return Delivered(n), take, attempts;
          case RejectedReply(accepted, rejected) =>
            if accepted + rejected != n {
              return Deferred(RelayRejected), take, attempts;
            }
            RecordBodyVariants(tally);
            return RejectedAdjudicated(accepted, rejected), take, attempts;
          case PayloadTooLarge =>
            return DroppedOversized(1), take, attempts;
          case OtherError =>
            return Deferred(ShipFailed), take, attempts;
        }
      }
    }

    method RecordBodyVariants(tally: Split)
      modifies if counters == null then {} else {counters}
      ensures counters != null ==> counters.Snapshot() == Tallied(old(counters.Snapshot()), tally)
    {
      if counters != null {
        counters.Record(tally);
      }
    }
  }
}
