/** One shared gauge of the bytes sitting in running pipelines' buffers. */
module QueueGauge {
  import opened Common

  const GAUGE_LIMIT := 0x1_0000_0000_0000_0000

  /** The atomic add wraps at 64 bits; the subtraction saturates. */
  function Added(value: nat, bytes: nat): nat {
    (value + bytes) % GAUGE_LIMIT
  }

  function Subtracted(value: nat, bytes: nat): nat {
    if bytes <= value then value - bytes else 0
  }

  class QueueDepthGauge {
    var value: nat

    constructor ()
      ensures value == 0
    {
      value := 0;
    }

    method Add(bytes: nat)
      modifies this
      ensures value == Added(old(value), bytes)
    {
      value := (value + bytes) % GAUGE_LIMIT;
    }

    method Sub(bytes: nat)
      modifies this
      ensures value == Subtracted(old(value), bytes)
    {
      value := if bytes <= value then value - bytes else 0;
    }
  }

  // ----------------------------------------------- any number of buffers on one gauge

  /** A live buffer: its bytes, and whether it has been given the gauge. */
  datatype Member = Member(bytes: nat, attached: bool)

  /** All live buffers by name, the gauge, and the bytes counted by attaching a buffer again. */
  datatype Fleet = Fleet(members: map<nat, Member>, gauge: nat, surplus: nat)

  datatype FleetStep =
    | Open(id: nat, backlog: nat)
    | Attach(id: nat)
    | Append(id: nat, bytes: nat)
    | Delete(id: nat, bytes: nat)
    | Close(id: nat)

  predicate Enabled(f: Fleet, s: FleetStep) {
    match s
    case Open(id, _) => id !in f.members
    case Attach(id) => id in f.members
    case Append(id, _) => id in f.members
    case Delete(id, n) => id in f.members && n <= f.members[id].bytes
    case Close(id) => id in f.members
  }

  function Next(f: Fleet, s: FleetStep): Fleet
    requires Enabled(f, s)
  {
    match s
    case Open(id, backlog) => f.(members := f.members[id := Member(backlog, false)])
    case Attach(id) =>
      var m := f.members[id];
      Fleet(f.members[id := m.(attached := true)], Added(f.gauge, m.bytes),
            if m.attached then f.surplus + m.bytes else f.surplus)
    case Append(id, n) =>
      var m := f.members[id];
      f.(members := f.members[id := m.(bytes := m.bytes + n)],
         gauge := if m.attached then Added(f.gauge, n) else f.gauge)
    case Delete(id, n) =>
      var m := f.members[id];
      f.(members := f.members[id := m.(bytes := m.bytes - n)],
         gauge := if m.attached then Subtracted(f.gauge, n) else f.gauge)
    case Close(id) =>
      var m := f.members[id];
      f.(members := f.members - {id}, gauge := if m.attached then Subtracted(f.gauge, m.bytes) else f.gauge)
  }

  /** Bytes over the live attached buffers. */
  ghost function Total(members: map<nat, Member>): nat
    decreases |members|
  {
    if members == map[] then 0
    else
      var id :| id in members;
      Weight(members[id]) + Total(members - {id})
  }

  function Weight(m: Member): nat {
    if m.attached then m.bytes else 0
  }

  /** The choice of which member to count first does not matter. */
  lemma {:induction false} TotalSplits(members: map<nat, Member>, id: nat)
    requires id in members
    ensures Total(members) == Weight(members[id]) + Total(members - {id})
    decreases |members|
  {
    var other :| other in members && Total(members) == Weight(members[other]) + Total(members - {other});
    if other != id {
      TotalSplits(members - {other}, id);
      TotalSplits(members - {id}, other);
      assert members - {other} - {id} == members - {id} - {other};
    }
  }

  lemma {:induction false} TotalUpdates(members: map<nat, Member>, id: nat, m: Member)
    ensures Total(members[id := m]) == Weight(m) + Total(members - {id})
  {
    TotalSplits(members[id := m], id);
    assert members[id := m] - {id} == members - {id};
  }

  ghost predicate IsFleetRun(trace: seq<Fleet>, steps: seq<FleetStep>) {
    && |trace| == |steps| + 1 && trace[0] == Fleet(map[], 0, 0)
    && forall i :: 0 <= i < |steps| ==> Enabled(trace[i], steps[i]) && trace[i + 1] == Next(trace[i], steps[i])
  }

  /** The subtraction this step makes, if any, is covered by the gauge. */
  ghost predicate NeverSaturates(f: Fleet, s: FleetStep) {
    match s
    case Delete(id, n) => id in f.members && (f.members[id].attached ==> n <= f.gauge)
    case Close(id) => id in f.members && (f.members[id].attached ==> f.members[id].bytes <= f.gauge)
    case _ => true
  }

  ghost predicate Exact(f: Fleet) {
    f.gauge == Total(f.members) + f.surplus
  }

  lemma {:induction false} StepKeepsExact(f: Fleet, s: FleetStep)
    requires Enabled(f, s) && Exact(f)
    requires Total(Next(f, s).members) + Next(f, s).surplus < GAUGE_LIMIT
    ensures Exact(Next(f, s)) && NeverSaturates(f, s)
  {
    var id := s.id;
    match s
    case Open(_, backlog) =>
      TotalUpdates(f.members, id, Member(backlog, false));
      assert f.members - {id} == f.members;
    case Attach(_) =>
      TotalSplits(f.members, id);
      TotalUpdates(f.members, id, f.members[id].(attached := true));
    case Append(_, n) =>
      TotalSplits(f.members, id);
      TotalUpdates(f.members, id, f.members[id].(bytes := f.members[id].bytes + n));
    case Delete(_, n) =>
      TotalSplits(f.members, id);
      TotalUpdates(f.members, id, f.members[id].(bytes := f.members[id].bytes - n));
    case Close(_) =>
      TotalSplits(f.members, id);
  }

  /**
   Through any run of opens, attachments, appends, deletes and drops whose total stays in 64 bits,
   the gauge is the sum over live attached buffers plus what re-attaching counted twice, and no
   subtraction saturates.
   */
  lemma {:induction false} GaugeIsExact(trace: seq<Fleet>, steps: seq<FleetStep>, n: nat)
    requires IsFleetRun(trace, steps) && n <= |steps|
    requires forall i :: 0 <= i <= n ==> Total(trace[i].members) + trace[i].surplus < GAUGE_LIMIT
    ensures Exact(trace[n]) && forall i :: 0 <= i < n ==> NeverSaturates(trace[i], steps[i])
  {
    if n > 0 {
      GaugeIsExact(trace, steps, n - 1);
      assert trace[n - 1 + 1] == Next(trace[n - 1], steps[n - 1]);
      StepKeepsExact(trace[n - 1], steps[n - 1]);
    }
  }

  /** Step `i` gives the gauge to a buffer that already has it and is not empty. */
  ghost predicate ReattachesBytes(f: Fleet, s: FleetStep) {
    s.Attach? && s.id in f.members && f.members[s.id].attached && f.members[s.id].bytes > 0
  }

  lemma {:induction false} SurplusOnlyFromReattaching(trace: seq<Fleet>, steps: seq<FleetStep>, n: nat)
    requires IsFleetRun(trace, steps) && n <= |steps|
    ensures trace[n].surplus == 0 <==> forall i :: 0 <= i < n ==> !ReattachesBytes(trace[i], steps[i])
  {
    if n > 0 {
      SurplusOnlyFromReattaching(trace, steps, n - 1);
      assert trace[n - 1 + 1] == Next(trace[n - 1], steps[n - 1]);
      assert ReattachesBytes(trace[n - 1], steps[n - 1]) || trace[n].surplus == trace[n - 1].surplus;
    }
  }

  /** The gauge is the sum of `current_bytes` exactly when no non-empty buffer was attached twice. */
  lemma {:induction false} GaugeIsTheSumExactlyWhen(trace: seq<Fleet>, steps: seq<FleetStep>)
    requires IsFleetRun(trace, steps)
    requires forall i :: 0 <= i < |trace| ==> Total(trace[i].members) + trace[i].surplus < GAUGE_LIMIT
    ensures trace[|steps|].gauge == Total(trace[|steps|].members)
       <==> forall i :: 0 <= i < |steps| ==> !ReattachesBytes(trace[i], steps[i])
  {
    GaugeIsExact(trace, steps, |steps|);
    SurplusOnlyFromReattaching(trace, steps, |steps|);
  }
}
