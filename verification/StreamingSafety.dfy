/** Every reachable state of the streaming actor: what a checkpoint covers, and where every line is. */
module StreamingSafety {
  import opened Common
  import opened StreamingProtocol

  // ---------------------------------------------------------------- what has happened to a line

  /** Line `k` needs no more care: blank, settled with the relay, or handed to the overflow store. */
  predicate Gone(w: World, s: State, k: nat) {
    w.blank(k) || k in s.settled || k in s.spilled
  }

  /** Line `k` survives a crash, or is gone. */
  predicate Safe(w: World, s: State, k: nat) {
    Gone(w, s, k) || k in LinesOf(s.buffer)
  }

  /** Line `k` will be stored before command `p` of the channel is handled. */
  predicate OnItsWay(s: State, p: nat, k: nat)
    requires p <= |s.channel|
  {
    s.blocked == Some(k) || Enqueue(k) in s.channel[..p]
  }

  ghost predicate Covers(w: World, s: State, upto: nat, also: set<nat>, p: nat)
    requires p <= |s.channel|
  {
    forall k :: 0 <= k && (k < upto || k in also) ==> Safe(w, s, k) || OnItsWay(s, p, k)
  }

  ghost predicate AllSafe(w: World, s: State, upto: nat) {
    forall k :: 0 <= k < upto ==> Safe(w, s, k)
  }

  ghost predicate AllGone(w: World, s: State, upto: nat) {
    forall k :: 0 <= k < upto ==> Gone(w, s, k)
  }

  /** The pending checkpoint covers only durable lines, the persisted one only lines that are gone. */
  ghost predicate SlotsSound(w: World, s: State) {
    && (s.pending.Some? ==> AllSafe(w, s, s.pending.value))
    && (s.persisted.Some? ==> AllGone(w, s, s.persisted.value))
  }

  /** What is still in the channel: a checkpoint comes after every line it covers. */
  ghost predicate ChannelSound(w: World, s: State) {
    forall p :: 0 <= p < |s.channel| && s.channel[p].SetCheckpoint? ==> Covers(w, s, s.channel[p].upto, {}, p)
  }

  ghost predicate ProducerSound(w: World, s: State) {
    && (s.producer.Reading? ==> Covers(w, s, s.producer.from, s.producer.sent, |s.channel|))
    && (s.closed ==> s.producer.Away?)
    && (!s.phase.Running? ==> s.closed)
  }

  ghost predicate Inv(w: World, s: State) {
    SlotsSound(w, s) && ChannelSound(w, s) && ProducerSound(w, s)
  }

  // ------------------------------------------------------------------------ moving forward

  /** Nothing that was safe is lost, and what was held back is stored or still held back. */
  ghost predicate Advances(w: World, s: State, t: State) {
    && t.channel == s.channel && t.producer == s.producer && t.closed == s.closed && t.phase == s.phase
    && (forall k :: Gone(w, s, k) ==> Gone(w, t, k))
    && (forall k :: Safe(w, s, k) ==> Safe(w, t, k))
    && (s.blocked.Some? ==> t.blocked == s.blocked || Safe(w, t, s.blocked.value))
  }

  lemma {:induction false} AdvancesTwice(w: World, s: State, t: State, v: State)
    requires Advances(w, s, t) && Advances(w, t, v)
    ensures Advances(w, s, v)
  {
    hide Gone, Safe;
  }

  lemma {:induction false} CoversForward(w: World, s: State, t: State, upto: nat, also: set<nat>, p: nat)
    requires Advances(w, s, t) && p <= |s.channel| && Covers(w, s, upto, also, p)
    ensures Covers(w, t, upto, also, p)
  {
    hide Gone, Safe;
    forall k | 0 <= k && (k < upto || k in also)
      ensures Safe(w, t, k) || OnItsWay(t, p, k)
    {
      assert Safe(w, s, k) || OnItsWay(s, p, k);
    }
  }

  lemma {:induction false} AdvanceKeepsInv(w: World, s: State, t: State)
    requires Inv(w, s) && Advances(w, s, t) && SlotsSound(w, t)
    ensures Inv(w, t)
  {
    if s.producer.Reading? {
      CoversForward(w, s, t, s.producer.from, s.producer.sent, |s.channel|);
    }
    forall p | 0 <= p < |t.channel| && t.channel[p].SetCheckpoint?
      ensures Covers(w, t, t.channel[p].upto, {}, p)
    {
      CoversForward(w, s, t, s.channel[p].upto, {}, p);
    }
    hide SlotsSound, Covers, Advances;
  }

  /** Keeping both slots as they were, or saving the pending one over an empty buffer, is sound. */
  lemma {:induction false} SlotsForward(w: World, s: State, t: State)
    requires SlotsSound(w, s) && Advances(w, s, t) && t.pending == s.pending && t.persisted == s.persisted
    ensures SlotsSound(w, t)
  {
    hide Gone, Safe;
  }

  lemma {:induction false} AppendAdvances(w: World, s: State, line: nat, bare: bool)
    ensures Advances(w, s, Appended(s, line, bare)) && Safe(w, Appended(s, line, bare), line)
  {
    var t := Appended(s, line, bare);
    assert LinesOf(t.buffer) == LinesOf(s.buffer) + [line];
  }

  lemma {:induction false} StoreAdvances(w: World, s: State, line: nat, room: Room)
    requires s.blocked.None?
    ensures Advances(w, s, Stored(w, s, line, room))
    ensures Safe(w, Stored(w, s, line, room), line) || Stored(w, s, line, room).blocked == Some(line)
  {
    AppendAdvances(w, s, line, false);
  }

  lemma {:induction false} RetryAdvances(w: World, s: State, room: Room)
    ensures Advances(w, s, Retried(w, s, room))
  {
    if s.blocked.Some? {
      StoreAdvances(w, s.(blocked := None), s.blocked.value, room);
    }
  }

  lemma {:induction false} ReplayAdvances(w: World, s: State, lines: seq<nat>)
    ensures Advances(w, s, Replayed(w, s, lines))
    ensures Replayed(w, s, lines).pending == s.pending && Replayed(w, s, lines).persisted == s.persisted
    decreases |lines|
  {
    if lines != [] && w.overflow {
      var n := |lines| - 1;
      ReplayAdvances(w, s, lines[..n]);
      AppendAdvances(w, Replayed(w, s, lines[..n]), lines[n], true);
    }
  }

  lemma {:induction false} SaveKeepsSlots(w: World, s: State, saves: bool)
    requires SlotsSound(w, s)
    ensures SlotsSound(w, Saved(s, saves)) && Advances(w, s, Saved(s, saves))
  {
    var t := Saved(s, saves);
    if t != s {
      assert LinesOf(s.buffer) == [];
      assert forall k :: Safe(w, s, k) ==> Gone(w, s, k);
      assert forall k :: Gone(w, s, k) ==> Gone(w, t, k);
    }
  }

  lemma {:induction false} IdleKeepsSlots(w: World, s: State, idle: Idle)
    requires SlotsSound(w, s)
    ensures SlotsSound(w, Idled(w, s, idle)) && Advances(w, s, Idled(w, s, idle))
  {
    hide SlotsSound, Advances, Saved, Replayed;
    ReplayAdvances(w, s, idle.replayed);
    var r := Replayed(w, s, idle.replayed);
    SlotsForward(w, s, r);
    SaveKeepsSlots(w, r, idle.saves);
    AdvancesTwice(w, s, r, Idled(w, s, idle));
  }

  /** A delete keeps each entry or settles its line. */
  lemma {:induction false} KeptOrTaken(buffer: seq<StreamEntry>, named: seq<nat>, k: nat)
    requires k in LinesOf(buffer)
    ensures k in LinesOf(Keeping(buffer, named)) || k in Taking(buffer, named)
  {
    var n := |buffer| - 1;
    assert LinesOf(buffer) == LinesOf(buffer[..n]) + [buffer[n].line];
    if k in LinesOf(buffer[..n]) {
      KeptOrTaken(buffer[..n], named, k);
    }
    var kept := Keeping(buffer[..n], named);
    assert LinesOf(kept + [buffer[n]]) == LinesOf(kept) + [buffer[n].line];
  }

  lemma {:induction false} DeleteAdvances(w: World, s: State, named: seq<nat>)
    ensures Advances(w, s, Deleted(s, named))
  {
    var t := Deleted(s, named);
    forall k | Safe(w, s, k)
      ensures Safe(w, t, k)
    {
      if k in LinesOf(s.buffer) {
        KeptOrTaken(s.buffer, named, k);
      }
    }
  }

  lemma {:induction false} ApplyKeepsSlots(w: World, s: State, sequences: seq<nat>, shipped: Shipped, idle: Idle)
    requires SlotsSound(w, s)
    ensures SlotsSound(w, Applied(w, s, sequences, shipped, idle))
      && Advances(w, s, Applied(w, s, sequences, shipped, idle))
  {
    if shipped.handled == 0 || shipped.handled > |sequences| || !shipped.commits {
      return;
    }
    var t := Deleted(s, sequences[..shipped.handled]);
    DeleteAdvances(w, s, sequences[..shipped.handled]);
    SlotsForward(w, s, t);
    hide SlotsSound, Advances, Idled, Deleted;
    if t.buffer == [] {
      IdleKeepsSlots(w, t, idle);
      AdvancesTwice(w, s, t, Idled(w, t, idle));
    }
  }

  lemma {:induction false} RetryKeepsSlots(w: World, s: State, room: Room)
    requires SlotsSound(w, s)
    ensures SlotsSound(w, Retried(w, s, room)) && Advances(w, s, Retried(w, s, room))
  {
    RetryAdvances(w, s, room);
    SlotsForward(w, s, Retried(w, s, room));
  }

  lemma {:induction false} PrepareKeepsSlots(w: World, s: State, peeks: bool, idle: Idle)
    requires SlotsSound(w, s)
    ensures SlotsSound(w, Prepared(w, s, peeks, idle)) && Advances(w, s, Prepared(w, s, peeks, idle))
  {
    IdleKeepsSlots(w, s, idle);
    var t := s.(inflight := Prepared(w, s, peeks, idle).inflight);
    SlotsForward(w, s, t);
    hide SlotsSound, Advances, Idled;
  }

  lemma {:induction false} SameFate(w: World, s: State, t: State)
    requires t.buffer == s.buffer && t.settled == s.settled && t.spilled == s.spilled
    ensures forall k :: Safe(w, s, k) <==> Safe(w, t, k)
    ensures
      var pending := t.pending == s.pending || (t.pending.Some? && AllSafe(w, t, t.pending.value));
      SlotsSound(w, s) && t.persisted == s.persisted && pending ==> SlotsSound(w, t)
  {
    assert forall k :: Gone(w, s, k) <==> Gone(w, t, k);
  }

  // --------------------------------------------------------------------- each step keeps it

  lemma {:induction false} ShipKeepsInv(w: World, s: State, shipped: Shipped, idle: Idle, room: Room)
    requires Inv(w, s) && s.inflight.Some?
    ensures Inv(w, AfterShip(w, s, shipped, idle, room))
  {
    var r := s.(inflight := None);
    SlotsForward(w, s, r);
    AdvanceKeepsInv(w, s, r);
    hide SlotsSound, Advances, Applied, Retried, ChannelSound, ProducerSound;
    ApplyKeepsSlots(w, r, s.inflight.value, shipped, idle);
    var t := Applied(w, r, s.inflight.value, shipped, idle);
    AdvanceKeepsInv(w, r, t);
    RetryKeepsSlots(w, t, room);
    AdvanceKeepsInv(w, t, Retried(w, t, room));
  }

  lemma {:induction false} TickKeepsInv(w: World, s: State, room: Room, peeks: bool, idle: Idle, elapsed: bool)
    requires Inv(w, s)
    ensures Inv(w, AfterTick(w, s, room, peeks, idle, elapsed))
  {
    var r := Retried(w, s, room);
    var t := Prepared(w, r, peeks, idle);
    TickAdvances(w, s, room, peeks, idle);
    if AfterTick(w, s, room, peeks, idle, elapsed) != t {
      Rephased(w, t, Settling);
    }
  }

  lemma {:induction false} TickAdvances(w: World, s: State, room: Room, peeks: bool, idle: Idle)
    requires Inv(w, s)
    ensures Inv(w, Prepared(w, Retried(w, s, room), peeks, idle))
  {
    hide SlotsSound, Advances, Prepared, Retried, ChannelSound, ProducerSound;
    var r := Retried(w, s, room);
    RetryKeepsSlots(w, s, room);
    AdvanceKeepsInv(w, s, r);
    PrepareKeepsSlots(w, r, peeks, idle);
    AdvanceKeepsInv(w, r, Prepared(w, r, peeks, idle));
  }

  lemma {:induction false} Rephased(w: World, s: State, phase: Phase)
    requires Inv(w, s) && s.closed
    ensures Inv(w, s.(phase := phase))
  {
    var t := s.(phase := phase);
    SameFate(w, s, t);
    forall p | 0 <= p < |t.channel| && t.channel[p].SetCheckpoint?
      ensures Covers(w, t, t.channel[p].upto, {}, p)
    {
      assert Covers(w, s, s.channel[p].upto, {}, p);
    }
  }

  /** Command `p` of the shorter channel was command `p + 1`, and the head's line is stored or held. */
  lemma {:induction false} CoversNext(w: World, s: State, t: State, upto: nat, also: set<nat>, p: nat)
    requires s.channel != [] && t.channel == s.channel[1..] && p < |s.channel| && s.blocked.None?
    requires forall k :: Safe(w, s, k) ==> Safe(w, t, k)
    requires s.channel[0].Enqueue? ==> Safe(w, t, s.channel[0].line) || t.blocked == Some(s.channel[0].line)
    requires Covers(w, s, upto, also, p + 1)
    ensures Covers(w, t, upto, also, p)
  {
    hide Safe;
    forall k | 0 <= k && (k < upto || k in also)
      ensures Safe(w, t, k) || OnItsWay(t, p, k)
    {
      assert Safe(w, s, k) || OnItsWay(s, p + 1, k);
      if Enqueue(k) in s.channel[..p + 1] {
        var i :| 0 <= i < p + 1 && s.channel[i] == Enqueue(k);
        if i > 0 {
          assert t.channel[..p][i - 1] == Enqueue(k);
        }
      }
    }
  }

  lemma {:induction false} ReceiveKeepsRest(w: World, s: State, t: State)
    requires Inv(w, s) && s.channel != [] && t.channel == s.channel[1..] && s.blocked.None?
    requires t.closed == s.closed && t.phase == s.phase
    requires forall k :: Safe(w, s, k) ==> Safe(w, t, k)
    requires s.channel[0].Enqueue? ==> Safe(w, t, s.channel[0].line) || t.blocked == Some(s.channel[0].line)
    ensures ChannelSound(w, t)
    ensures t.producer == s.producer ==> ProducerSound(w, t)
  {
    hide Safe, Covers;
    forall p | 0 <= p < |t.channel| && t.channel[p].SetCheckpoint?
      ensures Covers(w, t, t.channel[p].upto, {}, p)
    {
      assert Covers(w, s, s.channel[p + 1].upto, {}, p + 1);
      CoversNext(w, s, t, t.channel[p].upto, {}, p);
    }
    if s.producer.Reading? {
      CoversNext(w, s, t, s.producer.from, s.producer.sent, |s.channel| - 1);
    }
  }

  lemma {:induction false} ReceiveKeepsInv(w: World, s: State, room: Room)
    requires Inv(w, s) && s.blocked.None? && s.channel != []
    ensures Inv(w, AfterReceive(w, s, room))
  {
    var r := s.(channel := s.channel[1..]);
    var t := AfterReceive(w, s, room);
    SameFate(w, s, r);
    match s.channel[0]
    case Enqueue(line) =>
      StoreAdvances(w, r, line, room);
      SlotsForward(w, r, t);
      hide SlotsSound, Stored;
      ReceiveKeepsRest(w, s, t);
    case SetCheckpoint(upto) =>
      SameFate(w, s, t);
      assert Covers(w, s, upto, {}, 0);
      assert AllSafe(w, t, upto);
      ReceiveKeepsRest(w, s, t);
    case GetCheckpoint =>
      SameFate(w, s, t);
      ReceiveKeepsRest(w, s, t);
  }

  /** With intake over and the channel given up, only the two slots matter. */
  lemma {:induction false} GiveUpKeepsInv(w: World, s: State, t: State)
    requires SlotsSound(w, s) && s.closed && s.producer.Away?
    requires t.buffer == s.buffer && t.settled == s.settled && t.spilled == s.spilled
    requires t.pending == s.pending && t.persisted == s.persisted
    requires t.channel == [] && t.producer == s.producer && t.closed == s.closed
    ensures Inv(w, t)
  {
    SameFate(w, s, t);
  }

  lemma {:induction false} RemainingKeepsInv(w: World, s: State, rooms: seq<Room>)
    requires Inv(w, s) && s.blocked.None? && s.closed
    ensures Inv(w, Remaining(w, s, rooms)) && Remaining(w, s, rooms).closed
    decreases |s.channel|
  {
    if s.channel != [] {
      var room := if rooms == [] then Refused else rooms[0];
      var t := AfterReceive(w, s, room);
      ReceiveKeepsInv(w, s, room);
      assert t.closed && |t.channel| < |s.channel|;
      if t.blocked.Some? {
        GiveUpKeepsInv(w, t, Remaining(w, s, rooms));
      } else {
        RemainingKeepsInv(w, t, if rooms == [] then [] else rooms[1..]);
      }
    }
  }

  lemma {:induction false} SettleKeepsInv(w: World, s: State, finished: Option<Shipped>, idle: Idle, room: Room,
      rooms: seq<Room>)
    requires Inv(w, s) && s.phase.Settling?
    ensures Inv(w, AfterSettle(w, s, finished, idle, room, rooms))
  {
    var q := s.(inflight := None);
    SlotsForward(w, s, q);
    AdvanceKeepsInv(w, s, q);
    var t := if s.inflight.Some? && finished.Some? then Applied(w, q, s.inflight.value, finished.value, idle) else q;
    if s.inflight.Some? && finished.Some? {
      ApplyKeepsSlots(w, q, s.inflight.value, finished.value, idle);
      AdvanceKeepsInv(w, q, t);
    }
    var r := Retried(w, t, room);
    RetryKeepsSlots(w, t, room);
    AdvanceKeepsInv(w, t, r);
    assert r.closed;
    hide SlotsSound, ChannelSound, ProducerSound, Remaining, Retried, Applied;
    if r.blocked.None? {
      RemainingKeepsInv(w, r, rooms);
      Rephased(w, Remaining(w, r, rooms), Draining);
    } else {
      Rephased(w, r, Draining);
    }
  }

  lemma {:induction false} DrainKeepsInv(w: World, s: State, shipped: Shipped, before: Idle, after: Idle)
    requires Inv(w, s)
    ensures Inv(w, AfterDrainMore(w, s, shipped, before, after))
  {
    IdleKeepsSlots(w, s, before);
    var n := Min(w.batchSize, |s.buffer|);
    ApplyKeepsSlots(w, s, SequencesOf(s.buffer[..n]), shipped, after);
    hide SlotsSound, ChannelSound, ProducerSound, Idled, Applied, Advances;
    AdvanceKeepsInv(w, s, AfterDrainMore(w, s, shipped, before, after));
  }

  /** Sending puts a command behind every line it covers. */
  lemma {:induction false} SendKeepsInv(w: World, s: State, step: Step)
    requires Inv(w, s) && Enabled(w, s, step) && (step.SendLine? || step.SendCheckpoint? || step.AskCheckpoint?)
    ensures Inv(w, Next(w, s, step))
  {
    var t := Next(w, s, step);
    SameFate(w, s, t);
    var n := |s.channel|;
    assert t.channel[..n] == s.channel && t.blocked == s.blocked;
    forall p | 0 <= p < |t.channel| && t.channel[p].SetCheckpoint?
      ensures Covers(w, t, t.channel[p].upto, {}, p)
    {
      if p < n {
        assert Covers(w, s, s.channel[p].upto, {}, p);
        assert t.channel[..p] == s.channel[..p];
      } else {
        CoversLess(w, s, t, t.channel[p].upto);
      }
    }
    if step.SendLine? {
      SendCovers(w, s, t, step.line);
    } else if step.SendCheckpoint? {
      SameCovers(w, s, t, s.producer.from, s.producer.sent);
    }
  }

  /** The checkpoint just sent covers only lines sent before it. */
  lemma {:induction false} CoversLess(w: World, s: State, t: State, upto: nat)
    requires s.producer.Reading? && HasSent(s.producer, upto)
      && Covers(w, s, s.producer.from, s.producer.sent, |s.channel|)
    requires s.channel <= t.channel && t.blocked == s.blocked && forall k :: Safe(w, s, k) ==> Safe(w, t, k)
    ensures Covers(w, t, upto, {}, |s.channel|)
  {
    hide Safe;
    assert t.channel[..|s.channel|] == s.channel[..|s.channel|];
    forall k | 0 <= k < upto
      ensures Safe(w, t, k) || OnItsWay(t, |s.channel|, k)
    {
      assert k < s.producer.from || k in s.producer.sent;
      assert Safe(w, s, k) || OnItsWay(s, |s.channel|, k);
    }
  }

  lemma {:induction false} SameCovers(w: World, s: State, t: State, upto: nat, also: set<nat>)
    requires s.channel <= t.channel && t.blocked == s.blocked && Covers(w, s, upto, also, |s.channel|)
    requires forall k :: Safe(w, s, k) ==> Safe(w, t, k)
    ensures Covers(w, t, upto, also, |t.channel|)
  {
    hide Safe;
    forall k | 0 <= k && (k < upto || k in also)
      ensures Safe(w, t, k) || OnItsWay(t, |t.channel|, k)
    {
      assert Safe(w, s, k) || OnItsWay(s, |s.channel|, k);
      if Enqueue(k) in s.channel[..|s.channel|] {
        var i :| 0 <= i < |s.channel| && s.channel[i] == Enqueue(k);
        assert t.channel[..|t.channel|][i] == Enqueue(k);
      }
    }
  }

  lemma {:induction false} SendCovers(w: World, s: State, t: State, line: nat)
    requires s.producer.Reading? && t.channel == s.channel + [Enqueue(line)] && t.blocked == s.blocked
    requires Covers(w, s, s.producer.from, s.producer.sent, |s.channel|) && forall k :: Safe(w, s, k) ==> Safe(w, t, k)
    ensures Covers(w, t, s.producer.from, s.producer.sent + {line}, |t.channel|)
  {
    SameCovers(w, s, t, s.producer.from, s.producer.sent);
    hide Safe;
    assert t.channel[..|t.channel|][|s.channel|] == Enqueue(line);
  }

  lemma {:induction false} CloseKeepsInv(w: World, s: State)
    requires Inv(w, s)
    ensures Inv(w, s.(closed := true, producer := Away))
  {
    var t := s.(closed := true, producer := Away);
    SameFate(w, s, t);
    forall p | 0 <= p < |t.channel| && t.channel[p].SetCheckpoint?
      ensures Covers(w, t, t.channel[p].upto, {}, p)
    {
      assert Covers(w, s, s.channel[p].upto, {}, p);
    }
  }

  lemma {:induction false} FinishKeepsInv(w: World, s: State, saves: bool)
    requires Inv(w, s) && s.phase.Draining?
    ensures Inv(w, Saved(s, saves).(phase := Done))
  {
    SaveKeepsSlots(w, s, saves);
    AdvanceKeepsInv(w, s, Saved(s, saves));
    Rephased(w, Saved(s, saves), Done);
  }

  lemma {:induction false} CrashKeepsInv(w: World, s: State)
    requires Inv(w, s)
    ensures Inv(w, Restarted(s))
  {
    assert forall k :: Gone(w, s, k) <==> Gone(w, Restarted(s), k);
  }

  lemma {:induction false} StepKeepsInv(w: World, s: State, step: Step)
    requires Inv(w, s) && Enabled(w, s, step)
    ensures Inv(w, Next(w, s, step))
  {
    hide Inv, AfterReceive, AfterShip, AfterTick, AfterSettle, AfterDrainMore, Saved, Restarted;
    match step
    case SendLine(_) => SendKeepsInv(w, s, step);
    case SendCheckpoint(_) => SendKeepsInv(w, s, step);
    case AskCheckpoint => SendKeepsInv(w, s, step);
    case Close => CloseKeepsInv(w, s);
    case Receive(room) => ReceiveKeepsInv(w, s, room);
    case SeeClosed => Rephased(w, s, Settling);
    case ShipDone(shipped, idle, room) => ShipKeepsInv(w, s, shipped, idle, room);
    case Tick(room, peeks, idle, elapsed) => TickKeepsInv(w, s, room, peeks, idle, elapsed);
    case Settle(finished, idle, room, rooms) => SettleKeepsInv(w, s, finished, idle, room, rooms);
    case DrainMore(shipped, before, after) => DrainKeepsInv(w, s, shipped, before, after);
    case Finish(saves) => FinishKeepsInv(w, s, saves);
    case Crash => CrashKeepsInv(w, s);
  }

  lemma {:induction false} RunsKeepInv(w: World, trace: seq<State>, steps: seq<Step>, i: nat)
    requires IsRun(w, trace, steps) && i < |trace|
    ensures Inv(w, trace[i])
  {
    if i > 0 {
      RunsKeepInv(w, trace, steps, i - 1);
      StepKeepsInv(w, trace[i - 1], steps[i - 1]);
    }
  }

  /**
   In every reachable state, crashes, blocked intake and forced shutdown included: the persisted
   checkpoint covers only lines that are blank, settled or spilled, the pending one only lines
   that are durable, and so a reader that resumes from either skips no line that could be lost.
   */
  lemma {:induction false} CheckpointsCoverNoLostLine(w: World, trace: seq<State>, steps: seq<Step>, i: nat, k: nat)
    requires IsRun(w, trace, steps) && i < |trace|
    ensures trace[i].persisted.Some? && k < trace[i].persisted.value ==> Gone(w, trace[i], k)
    ensures trace[i].pending.Some? && k < trace[i].pending.value ==> Safe(w, trace[i], k)
  {
    RunsKeepInv(w, trace, steps, i);
  }

  lemma {:induction false} NothingSpills(w: World, trace: seq<State>, steps: seq<Step>, i: nat)
    requires IsRun(w, trace, steps) && i < |trace| && !w.overflow
    ensures trace[i].spilled == {}
  {
    if i > 0 {
      NothingSpills(w, trace, steps, i - 1);
      NothingSpillsStep(w, trace[i - 1], steps[i - 1]);
    }
  }

  lemma {:induction false} NothingSpillsStep(w: World, s: State, step: Step)
    requires Enabled(w, s, step) && s.spilled == {} && !w.overflow
    ensures Next(w, s, step).spilled == {}
  {
    if step.Settle? {
      var t := if s.inflight.Some? && step.finished.Some? then Applied(w, s.(inflight := None), s.inflight.value,
        step.finished.value, step.idle) else s.(inflight := None);
      var r := Retried(w, t, step.room);
      assert r.spilled == {};
      if r.blocked.None? {
        RemainingNeverSpills(w, r, step.rooms);
      }
    }
  }

  lemma {:induction false} RemainingNeverSpills(w: World, s: State, rooms: seq<Room>)
    requires s.blocked.None? && s.spilled == {} && !w.overflow
    ensures Remaining(w, s, rooms).spilled == {}
    decreases |s.channel|
  {
    if s.channel != [] {
      var t := AfterReceive(w, s, if rooms == [] then Refused else rooms[0]);
      if t.blocked.None? {
        RemainingNeverSpills(w, t, if rooms == [] then [] else rooms[1..]);
      }
    }
  }

  /** Without an overflow store a persisted checkpoint covers only blank lines and lines the relay settled. */
  lemma {:induction false} PersistedMeansSettled(w: World, trace: seq<State>, steps: seq<Step>, i: nat, k: nat)
    requires IsRun(w, trace, steps) && i < |trace| && !w.overflow
    ensures trace[i].persisted.Some? && k < trace[i].persisted.value ==> w.blank(k) || k in trace[i].settled
  {
    CheckpointsCoverNoLostLine(w, trace, steps, i, k);
    NothingSpills(w, trace, steps, i);
  }

  // ------------------------------------------------------------------ with an overflow store

  ghost predicate OnlySettled(w: World, s: State) {
    s.persisted.Some? ==> forall k :: 0 <= k < s.persisted.value ==> w.blank(k) || k in s.settled
  }

  lemma {:induction false} ExtendRun(w: World, trace: seq<State>, steps: seq<Step>, step: Step)
    requires IsRun(w, trace, steps) && Enabled(w, trace[|steps|], step)
    ensures IsRun(w, trace + [Next(w, trace[|steps|], step)], steps + [step])
  {
    hide Next, Enabled;
  }

  /**
   A line larger than the whole buffer is spilled, then its checkpoint is applied, then an idle tick
   finds the buffer empty: nothing is replayed, because what was just spilled is still in the active
   overflow file, and the checkpoint is saved over a line that no relay has seen.
   */
  lemma {:induction false} SpilledLineIsCovered(w: World) returns (trace: seq<State>, steps: seq<Step>)
    requires w.overflow && !w.blank(0)
    ensures IsRun(w, trace, steps) && !OnlySettled(w, trace[|steps|])
    ensures trace[|steps|].spilled == {0} && trace[|steps|].settled == {}
  {
    trace, steps := ConnectFirst(w);
    SpillOne(w, trace[2]);
    var a := Next(w, trace[2], SendLine(0));
    var b := Next(w, a, SendCheckpoint(1));
    var c := Next(w, b, Receive(Spilled));
    var d := Next(w, c, Receive(Taken));
    var idle := Tick(Taken, true, Idle([], true), false);
    var e := Next(w, d, idle);
    assert 0 <= 0 < e.persisted.value;
    hide Next, Enabled, IsRun;
    ExtendRun(w, trace, steps, SendLine(0));
    trace, steps := trace + [a], steps + [SendLine(0)];
    ExtendRun(w, trace, steps, SendCheckpoint(1));
    trace, steps := trace + [b], steps + [SendCheckpoint(1)];
    ExtendRun(w, trace, steps, Receive(Spilled));
    trace, steps := trace + [c], steps + [Receive(Spilled)];
    ExtendRun(w, trace, steps, Receive(Taken));
    trace, steps := trace + [d], steps + [Receive(Taken)];
    ExtendRun(w, trace, steps, idle);
    trace, steps := trace + [e], steps + [idle];
  }

  lemma {:induction false} ConnectFirst(w: World) returns (trace: seq<State>, steps: seq<Step>)
    ensures IsRun(w, trace, steps) && |steps| == 2 && |trace| == 3 && trace[2] == Fresh.(producer := Reading(0, {}))
  {
    var a := Next(w, Fresh, AskCheckpoint);
    assert [GetCheckpoint][1..] == [];
    trace, steps := [Fresh, a, Next(w, a, Receive(Taken))], [AskCheckpoint, Receive(Taken)];
  }

  lemma {:induction false} SpillOne(w: World, s: State)
    requires w.overflow && !w.blank(0) && s == Fresh.(producer := Reading(0, {}))
    ensures Enabled(w, s, SendLine(0))
    ensures
      var a := Next(w, s, SendLine(0));
      && Enabled(w, a, SendCheckpoint(1))
      && var b := Next(w, a, SendCheckpoint(1));
      && Enabled(w, b, Receive(Spilled))
      && var c := Next(w, b, Receive(Spilled));
      && Enabled(w, c, Receive(Taken))
      && var d := Next(w, c, Receive(Taken));
      && var idle := Tick(Taken, true, Idle([], true), false);
      && Enabled(w, d, idle)
      && var e := Next(w, d, idle);
      && e.persisted == Some(1) && e.settled == {} && e.spilled == {0}
  {
    var a := Next(w, s, SendLine(0));
    var b := Next(w, a, SendCheckpoint(1));
    assert b.channel == [Enqueue(0), SetCheckpoint(1)];
    assert b.channel[1..] == [SetCheckpoint(1)];
    assert [SetCheckpoint(1)][1..] == [];
  }

  /** Line 0 buffered and in flight, line 1 spilled, and the checkpoint behind both applied. */
  ghost function Crowded(): State {
    Fresh.(producer := Reading(0, {0, 1}), accepted := [0, 1], buffer := [StreamEntry(1, 0, false)], lastSequence := 1,
           spilled := {1}, pending := Some(2), inflight := Some([1]))
  }

  ghost function CrowdedSteps(): seq<Step> {
    [SendLine(0), SendLine(1), SendCheckpoint(2), Receive(Taken), Receive(Spilled), Receive(Taken),
     Tick(Taken, true, Idle([], true), false)]
  }

  /** What the process looks like after each of the first steps. */
  ghost function CrowdedStates(): seq<State> {
    var lines := Fresh.(producer := Reading(0, {0, 1}), accepted := [0, 1]);
    var stored := lines.(buffer := [StreamEntry(1, 0, false)], lastSequence := 1);
    [Fresh.(producer := Reading(0, {})),
     Fresh.(producer := Reading(0, {0}), accepted := [0], channel := [Enqueue(0)]),
     lines.(channel := [Enqueue(0), Enqueue(1)]),
     lines.(channel := [Enqueue(0), Enqueue(1), SetCheckpoint(2)]),
     stored.(channel := [Enqueue(1), SetCheckpoint(2)]),
     stored.(channel := [SetCheckpoint(2)], spilled := {1}),
     stored.(spilled := {1}, pending := Some(2)),
     Crowded()]
  }

  lemma {:induction false} CrowdedStep(w: World, i: nat)
    requires w.overflow && !w.blank(0) && !w.blank(1) && w.batchSize > 0 && i < 7
    ensures Enabled(w, CrowdedStates()[i], CrowdedSteps()[i])
    ensures Next(w, CrowdedStates()[i], CrowdedSteps()[i]) == CrowdedStates()[i + 1]
  {
    var s := CrowdedStates()[i];
    if i == 0 {
      assert [] + [Enqueue(0)] == [Enqueue(0)] && {} + {0} == {0} && [] + [0] == [0];
    } else if i == 1 {
      assert [Enqueue(0)] + [Enqueue(1)] == [Enqueue(0), Enqueue(1)] && {0} + {1} == {0, 1} && [0] + [1] == [0, 1];
    } else if i == 2 {
      assert [Enqueue(0), Enqueue(1)] + [SetCheckpoint(2)] == [Enqueue(0), Enqueue(1), SetCheckpoint(2)];
    } else if i == 3 {
      assert s.channel[1..] == [Enqueue(1), SetCheckpoint(2)];
      assert [] + [StreamEntry(1, 0, false)] == [StreamEntry(1, 0, false)];
    } else if i == 4 {
      assert s.channel[1..] == [SetCheckpoint(2)] && {} + {1} == {1};
    } else if i == 5 {
      assert s.channel[1..] == [];
    } else {
      assert s.buffer[..1] == s.buffer && SequencesOf(s.buffer) == [1];
    }
  }

  lemma {:induction false} CrowdedRun(w: World, n: nat) returns (trace: seq<State>, steps: seq<Step>)
    requires w.overflow && !w.blank(0) && !w.blank(1) && w.batchSize > 0 && n <= 7
    ensures IsRun(w, trace, steps) && |trace| == |steps| + 1 && trace[|steps|] == CrowdedStates()[n]
  {
    if n == 0 {
      trace, steps := ConnectFirst(w);
    } else {
      trace, steps := CrowdedRun(w, n - 1);
      CrowdedStep(w, n - 1);
      hide Next, Enabled, CrowdedStates, CrowdedSteps;
      ExtendRun(w, trace, steps, CrowdedSteps()[n - 1]);
      hide IsRun;
      trace, steps := trace + [CrowdedStates()[n]], steps + [CrowdedSteps()[n - 1]];
    }
  }

  lemma {:induction false} CrowdedSettles(w: World)
    requires w.overflow
    ensures
      var done := ShipDone(Shipped(1, true), Idle([], true), Taken);
      && Enabled(w, Crowded(), done)
      && var e := Next(w, Crowded(), done);
      && e.persisted == Some(2) && e.settled == {0} && e.spilled == {1}
  {
    var s := Crowded();
    assert s.buffer[..0] == [] && [1][..1] == [1];
    assert Keeping(s.buffer, [1]) == [] && Taking(s.buffer, [1]) == [0];
    assert (set l | l in [0]) == {0};
  }

  /**
   In the ordinary course of things: line 0 is buffered, line 1 finds no room behind it and is
   spilled, and the checkpoint behind both is applied. Once line 0 is settled the buffer is empty,
   nothing is replayed, because line 1 is still in the active overflow file, and the checkpoint is
   saved over it though no relay has seen it.
   */
  lemma {:induction false} CrowdedOutLineIsCovered(w: World) returns (trace: seq<State>, steps: seq<Step>)
    requires w.overflow && !w.blank(0) && !w.blank(1) && w.batchSize > 0
    ensures IsRun(w, trace, steps) && !OnlySettled(w, trace[|steps|])
    ensures trace[|steps|].spilled == {1} && trace[|steps|].settled == {0}
  {
    trace, steps := CrowdedRun(w, 7);
    var done := ShipDone(Shipped(1, true), Idle([], true), Taken);
    CrowdedSettles(w);
    var e := Next(w, Crowded(), done);
    assert 0 <= 1 < e.persisted.value;
    hide Next, Enabled, IsRun;
    ExtendRun(w, trace, steps, done);
    trace, steps := trace + [e], steps + [done];
  }

  lemma {:induction false} SettledEverywhere(w: World, trace: seq<State>, steps: seq<Step>, i: nat)
    requires IsRun(w, trace, steps) && i < |trace| && !w.overflow
    ensures OnlySettled(w, trace[i])
  {
    forall k | trace[i].persisted.Some? && 0 <= k < trace[i].persisted.value
      ensures w.blank(k) || k in trace[i].settled
    {
      PersistedMeansSettled(w, trace, steps, i, k);
    }
  }

  /** A persisted checkpoint means settled, on every run, exactly when no overflow store is configured. */
  lemma {:induction false} PersistedMeansSettledExactlyWhen(w: World)
    requires !w.blank(0)
    ensures (forall trace, steps, i :: IsRun(w, trace, steps) && 0 <= i < |trace| ==> OnlySettled(w, trace[i])) <==>
      !w.overflow
  {
    if w.overflow && !w.blank(1) && w.batchSize > 0 {
      var trace, steps := CrowdedOutLineIsCovered(w);
    } else if w.overflow {
      var trace, steps := SpilledLineIsCovered(w);
    } else {
      forall trace: seq<State>, steps: seq<Step>, i: int | IsRun(w, trace, steps) && 0 <= i < |trace|
        ensures OnlySettled(w, trace[i])
      {
        SettledEverywhere(w, trace, steps, i);
      }
    }
  }
}
