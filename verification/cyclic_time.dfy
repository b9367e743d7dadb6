/**
 The weekly time grid of the traffic data: 7 days of NTG slots each, DTG
 minutes per slot. A snapshot is addressed by a (day, slot) pair and, in
 chronological order, by its position day * NTG + slot in the cycle.
 */
module CyclicTime {

  /** Slot length in minutes. */
  const DTG: real := 0.5

  /** Slots per day: 60 * 24 / DTG. */
  const NTG: nat := 2880

  /** Days in the cycle. */
  const Days: nat := 7

  /** Number of snapshots in one full cycle. */
  const Cycle: nat := Days * NTG

  datatype DayTime = DayTime(day: int, tg: int) {
    predicate Valid() {
      0 <= day < Days && 0 <= tg < NTG
    }
  }

  /** The chronologically next snapshot: the slot wraps before the day does. */
  function Succ(dt: DayTime): (r: DayTime)
    requires dt.Valid()
    ensures r.Valid()
    ensures r.tg == (dt.tg + 1) % NTG
    ensures dt.tg < NTG - 1 ==> r.day == dt.day
    ensures dt.tg == NTG - 1 ==> r.day == (dt.day + 1) % Days
  {
    var tgPost := (dt.tg + 1) % NTG;
    var dayPost := if dt.tg == NTG - 1 then (dt.day + 1) % Days else dt.day;
    DayTime(dayPost, tgPost)
  }

  /** Position of a snapshot in the chronological enumeration. */
  function Index(dt: DayTime): (i: nat)
    requires dt.Valid()
    ensures i < Cycle
  {
    dt.day * NTG + dt.tg
  }

  /** The snapshot at chronological position i. */
  function FromIndex(i: nat): (dt: DayTime)
    requires i < Cycle
    ensures dt.Valid()
  {
    DayTime(i / NTG, i % NTG)
  }

  lemma {:induction false} FromIndexOfIndex(dt: DayTime)
    requires dt.Valid()
    ensures FromIndex(Index(dt)) == dt
  {
    var i := dt.day * NTG + dt.tg;
    assert i / NTG == dt.day && i % NTG == dt.tg by {
      DivModUnique(i, dt.day, dt.tg);
    }
  }

  lemma {:induction false} IndexOfFromIndex(i: nat)
    requires i < Cycle
    ensures Index(FromIndex(i)) == i
  {
  }

  /** Division by NTG has a single quotient/remainder pair. */
  lemma {:induction false} DivModUnique(i: int, q: int, m: int)
    requires 0 <= m < NTG && i == q * NTG + m
    ensures i / NTG == q && i % NTG == m
  {
  }

  /** Index and FromIndex are mutually inverse, so the grid and [0, Cycle) are in bijection. */
  lemma {:induction false} IndexBijective(a: DayTime, b: DayTime)
    requires a.Valid() && b.Valid()
    ensures Index(a) == Index(b) <==> a == b
  {
    if Index(a) == Index(b) {
      FromIndexOfIndex(a);
      FromIndexOfIndex(b);
    }
  }

  /** One successor step advances the chronological position by one, modulo the cycle. */
  lemma {:induction false} SuccIndex(dt: DayTime)
    requires dt.Valid()
    ensures Index(Succ(dt)) == (Index(dt) + 1) % Cycle
  {
    if dt.tg == NTG - 1 {
      if dt.day == Days - 1 {
        assert Index(dt) + 1 == Cycle;
      } else {
        assert Index(Succ(dt)) == Index(dt) + 1;
      }
    } else {
      assert Index(Succ(dt)) == Index(dt) + 1;
    }
  }

  /** The chronologically previous snapshot: the slot wraps back before the day does. */
  function Pred(dt: DayTime): (r: DayTime)
    requires dt.Valid()
    ensures r.Valid()
  {
    if dt.tg > 0 then DayTime(dt.day, dt.tg - 1)
    else DayTime((dt.day + Days - 1) % Days, NTG - 1)
  }

  /** Pred undoes Succ and Succ undoes Pred: the successor map is a bijection of the grid. */
  lemma {:induction false} SuccPred(dt: DayTime)
    requires dt.Valid()
    ensures Succ(Pred(dt)) == dt
    ensures Pred(Succ(dt)) == dt
  {
  }

  /** Distinct snapshots have distinct successors. */
  lemma {:induction false} SuccInjective(a: DayTime, b: DayTime)
    requires a.Valid() && b.Valid() && Succ(a) == Succ(b)
    ensures a == b
  {
    SuccPred(a);
    SuccPred(b);
  }

  /** n successor steps. */
  function SuccN(dt: DayTime, n: nat): (r: DayTime)
    requires dt.Valid()
    ensures r.Valid()
  {
    if n == 0 then dt else Succ(SuccN(dt, n - 1))
  }

  lemma {:induction false} SuccNIndex(dt: DayTime, n: nat)
    requires dt.Valid()
    ensures Index(SuccN(dt, n)) == (Index(dt) + n) % Cycle
  {
    if n > 0 {
      var p := SuccN(dt, n - 1);
      SuccNIndex(dt, n - 1);
      SuccIndex(p);
      ModAddOne(Index(dt) + (n - 1), Index(p), Index(SuccN(dt, n)));
    }
  }

  lemma {:induction false} ModAddOne(a: nat, r: int, r': int)
    requires r == a % Cycle && r' == (r + 1) % Cycle
    ensures r' == (a + 1) % Cycle
  {
  }

  /** Stepping through a whole cycle returns to the starting snapshot. */
  lemma {:induction false} CycleClosure(dt: DayTime)
    requires dt.Valid()
    ensures SuccN(dt, Cycle) == dt
  {
    var n := Cycle;
    var end := SuccN(dt, n);
    SuccNIndex(dt, n);
    ModSelf(Index(dt));
    IndexBijective(end, dt);
  }

  lemma {:induction false} ModSelf(i: nat)
    requires i < Cycle
    ensures (i + Cycle) % Cycle == i
  {
  }

  /**
   All (day, slot) pairs in chronological order, built by nested loops:
   days on the outside, slots on the inside.
   */
  method GetDaytimes() returns (daytimes: seq<DayTime>)
    ensures |daytimes| == Cycle
    ensures forall i :: 0 <= i < Cycle ==> daytimes[i].Valid() && Index(daytimes[i]) == i
  {
    daytimes := [];
    var d := 0;
    while d < Days
      invariant 0 <= d <= Days
      invariant |daytimes| == d * NTG
      invariant forall i :: 0 <= i < |daytimes| ==> daytimes[i].Valid() && Index(daytimes[i]) == i
    {
      var tg := 0;
      while tg < NTG
        invariant 0 <= tg <= NTG
        invariant |daytimes| == d * NTG + tg
        invariant forall i :: 0 <= i < |daytimes| ==> daytimes[i].Valid() && Index(daytimes[i]) == i
      {
        daytimes := daytimes + [DayTime(d, tg)];
        tg := tg + 1;
      }
      d := d + 1;
    }
  }

  /**
   The enumeration lists every snapshot exactly once, and the successor of
   row i is row (i + 1) mod Cycle.
   */
  lemma {:induction false} DaytimesEnumeration(daytimes: seq<DayTime>)
    requires |daytimes| == Cycle
    requires forall i :: 0 <= i < Cycle ==> daytimes[i].Valid() && Index(daytimes[i]) == i
    ensures forall dt: DayTime :: dt.Valid() ==> daytimes[Index(dt)] == dt
    ensures forall i, j :: 0 <= i < j < Cycle ==> daytimes[i] != daytimes[j]
    ensures forall i :: 0 <= i < Cycle ==> Succ(daytimes[i]) == daytimes[(i + 1) % Cycle]
  {
    forall dt: DayTime | dt.Valid()
      ensures daytimes[Index(dt)] == dt
    {
      IndexBijective(daytimes[Index(dt)], dt);
    }
    forall i | 0 <= i < Cycle
      ensures Succ(daytimes[i]) == daytimes[(i + 1) % Cycle]
    {
      SuccIndex(daytimes[i]);
      IndexBijective(Succ(daytimes[i]), daytimes[(i + 1) % Cycle]);
    }
  }
}
