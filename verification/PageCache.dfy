/** Sizing a buffer's page cache to its backlog, with a two-fold band of hysteresis. */
module PageCache {
  import opened Common
  import opened Powers

  /** 256 KiB. */
  const MIN_CACHE_BYTES: nat := 262144

  /** The configured ceiling, never below the floor. */
  function EffectiveCeiling(configured: nat): (c: nat)
    ensures c >= MIN_CACHE_BYTES && c >= configured
  {
    Max(configured, MIN_CACHE_BYTES)
  }

  /** The backlog plus an eighth for interior pages, within floor and ceiling. */
  function Desired(backlog: nat, ceiling: nat): (d: nat)
    requires ceiling >= MIN_CACHE_BYTES
    ensures MIN_CACHE_BYTES <= d <= ceiling
  {
    Min(Max(backlog + backlog / 8, MIN_CACHE_BYTES), ceiling)
  }

  predicate InBand(applied: nat, desired: nat) {
    applied / 2 <= desired <= 2 * applied
  }

  function Resized(applied: nat, backlog: nat, ceiling: nat): (r: nat)
    requires ceiling >= MIN_CACHE_BYTES
  {
    var d := Desired(backlog, ceiling);
    if InBand(applied, d) then applied else d
  }

  /** What holds after opening and after every append or delete. */
  predicate Fits(applied: nat, backlog: nat, ceiling: nat)
    requires ceiling >= MIN_CACHE_BYTES
  {
    MIN_CACHE_BYTES <= applied <= ceiling && InBand(applied, Desired(backlog, ceiling))
  }

  /** Cache sizes over a run of backlogs, the first being the one found at open. */
  ghost predicate IsSizing(applied: seq<nat>, backlogs: seq<nat>, ceiling: nat)
    requires ceiling >= MIN_CACHE_BYTES
  {
    && |applied| == |backlogs| >= 1
    && applied[0] == Resized(MIN_CACHE_BYTES, backlogs[0], ceiling)
    && forall i :: 1 <= i < |applied| ==> applied[i] == Resized(applied[i - 1], backlogs[i], ceiling)
  }

  lemma {:induction false} EverySizeFits(applied: seq<nat>, backlogs: seq<nat>, ceiling: nat, i: nat)
    requires ceiling >= MIN_CACHE_BYTES && IsSizing(applied, backlogs, ceiling) && i < |applied|
    ensures Fits(applied[i], backlogs[i], ceiling)
  {
    if i > 0 {
      EverySizeFits(applied, backlogs, ceiling, i - 1);
    }
  }

  /** How often the size was changed between two points of a run. */
  ghost function Changes(applied: seq<nat>, from: nat, to: nat): nat
    requires from <= to < |applied|
  {
    if from == to then 0
    else Changes(applied, from, to - 1) + if applied[to] != applied[to - 1] then 1 else 0
  }

  lemma {:induction false} DesiredGrows(a: nat, b: nat, ceiling: nat)
    requires a <= b && ceiling >= MIN_CACHE_BYTES
    ensures Desired(a, ceiling) <= Desired(b, ceiling)
  {
    assert a / 8 <= b / 8;
  }

  /** While the backlog grows every change more than doubles the cache. */
  lemma {:induction false} ChangesDouble(applied: seq<nat>, backlogs: seq<nat>, ceiling: nat, from: nat, to: nat)
    requires ceiling >= MIN_CACHE_BYTES && IsSizing(applied, backlogs, ceiling) && from <= to < |applied|
    requires forall i :: from < i <= to ==> backlogs[i - 1] <= backlogs[i]
    ensures Pow2(Changes(applied, from, to)) * applied[from] <= applied[to]
  {
    if from < to {
      ChangesDouble(applied, backlogs, ceiling, from, to - 1);
      EverySizeFits(applied, backlogs, ceiling, to - 1);
      DesiredGrows(backlogs[to - 1], backlogs[to], ceiling);
      var m := Pow2(Changes(applied, from, to - 1)) * applied[from];
      if applied[to] != applied[to - 1] {
        assert applied[to] > 2 * applied[to - 1] >= 2 * m;
        DoublesOnce(Changes(applied, from, to - 1), applied[from]);
      }
    }
  }

  lemma {:induction false} DoublesOnce(c: nat, a: nat)
    ensures Pow2(c + 1) * a == 2 * (Pow2(c) * a)
  {
  }

  /** So a stretch of growing backlog changes it at most log2(ceiling / floor) times. */
  lemma {:induction false} GrowthChangesFewTimes(applied: seq<nat>, backlogs: seq<nat>, ceiling: nat, from: nat,
      to: nat)
    requires ceiling >= MIN_CACHE_BYTES && IsSizing(applied, backlogs, ceiling) && from <= to < |applied|
    requires forall i :: from < i <= to ==> backlogs[i - 1] <= backlogs[i]
    ensures Changes(applied, from, to) <= FloorLog2(ceiling / MIN_CACHE_BYTES)
  {
    var c := Changes(applied, from, to);
    ChangesDouble(applied, backlogs, ceiling, from, to);
    EverySizeFits(applied, backlogs, ceiling, from);
    EverySizeFits(applied, backlogs, ceiling, to);
    hide *;
    LogOfRatio(c, applied[from], MIN_CACHE_BYTES, ceiling);
  }
}
