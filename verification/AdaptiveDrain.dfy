/** The adaptive drain interval: three overflowing ticks in a row make it fast, thirty clear ones make
    it slow again; and the publication of a kernel drop counter. */
module AdaptiveDrain {

  const TO_FAST: nat := 3
  const TO_SLOW: nat := 30

  /** `published`: the drop counter. `last`: the last total that exceeded its predecessors. `overflow`
      and `clear`: consecutive ticks of either kind. */
  datatype Drain = Drain(published: nat, last: nat, overflow: nat, clear: nat, fast: bool)

  datatype Reading = Unreadable | Total(value: nat)

  function Start(): Drain {
    Drain(0, 0, 0, 0, false)
  }

  /** One tick, as the source writes it. */
  class Ticker {
    var published: nat
    var last: nat
    var overflow: nat
    var clear: nat
    var fast: bool

    ghost function State(): Drain
      reads this
    {
      Drain(published, last, overflow, clear, fast)
    }

    constructor ()
      ensures State() == Start()
    {
      published, last, overflow, clear, fast := 0, 0, 0, 0, false;
    }

    method Tick(reading: Reading)
      modifies this
      ensures State() == Next(old(State()), reading)
    {
      if reading.Unreadable? {
        return;
      }
      var total := reading.value;
      var delta := if total >= last then total - last else 0;
      if delta > 0 {
        published := published + delta;
        overflow, clear := overflow + 1, 0;
        if overflow >= TO_FAST && !fast {
          fast := true;
        }
        last := total;
      } else {
        overflow, clear := 0, clear + 1;
        if clear >= TO_SLOW && fast {
          fast := false;
        }
      }
    }
  }

  /** A tick overflows when the total exceeds the greatest one seen; an unreadable counter changes
      nothing. */
  function Next(d: Drain, r: Reading): Drain {
    if r.Unreadable? then d
    else if r.value > d.last then
      Drain(d.published + r.value - d.last, r.value, d.overflow + 1, 0, d.fast || d.overflow + 1 >= TO_FAST)
    else Drain(d.published, d.last, 0, d.clear + 1, d.fast && d.clear + 1 < TO_SLOW)
  }

  function Run(readings: seq<Reading>): Drain {
    if readings == [] then Start() else Next(Run(readings[..|readings| - 1]), readings[|readings| - 1])
  }

  // ----- the readings alone, without the drain's variables

  /** The readings that could be read, in order. */
  function Values(readings: seq<Reading>): seq<nat> {
    if readings == [] then []
    else
      var rest, r := Values(readings[..|readings| - 1]), readings[|readings| - 1];
      if r.Total? then rest + [r.value] else rest
  }

  function Max(values: seq<nat>): (m: nat)
    ensures forall i :: 0 <= i < |values| ==> values[i] <= m
    ensures m == 0 || m in values
  {
    if values == [] then 0
    else
      var rest, v := Max(values[..|values| - 1]), values[|values| - 1];
      if v > rest then v else rest
  }

  /** The value at `k` is greater than zero and than every value before it. */
  ghost predicate Overflows(values: seq<nat>, k: nat)
    requires k < |values|
  {
    values[k] > 0 && forall i :: 0 <= i < k ==> values[i] < values[k]
  }

  /** The last `n` values overflow, or the last `n` do not. */
  ghost predicate EndsOverflowing(values: seq<nat>, n: nat) {
    n <= |values| && forall k :: |values| - n <= k < |values| ==> Overflows(values, k)
  }

  ghost predicate EndsClear(values: seq<nat>, n: nat) {
    n <= |values| && forall k :: |values| - n <= k < |values| ==> !Overflows(values, k)
  }

  lemma {:induction false} RunTracks(readings: seq<Reading>)
    ensures var d, v := Run(readings), Values(readings);
            d.published == d.last == Max(v) && EndsOverflowing(v, d.overflow) && EndsClear(v, d.clear)
  {
    if readings != [] {
      var before, r := readings[..|readings| - 1], readings[|readings| - 1];
      RunTracks(before);
      if r.Total? {
        var u, v := Values(before), Values(readings);
        assert v[..|u|] == u;
        Grows(u, r.value);
      }
    }
  }

  lemma Grows(u: seq<nat>, x: nat)
    ensures Max(u + [x]) == if x > Max(u) then x else Max(u)
    ensures Overflows(u + [x], |u|) <==> x > Max(u)
    ensures forall k :: 0 <= k < |u| ==> Overflows(u + [x], k) == Overflows(u, k)
  {
    assert (u + [x])[..|u|] == u;
    assert forall i :: 0 <= i < |u| ==> (u + [x])[i] == u[i];
  }

  /** What is published is the greatest total read. */
  lemma PublishedIsMax(readings: seq<Reading>)
    ensures Run(readings).published == Max(Values(readings))
  {
    RunTracks(readings);
  }

  /** For a counter that never goes down, that is the last reading. */
  lemma PublishedIsLast(readings: seq<Reading>)
    requires var v := Values(readings); v != [] && forall i, j :: 0 <= i < j < |v| ==> v[i] <= v[j]
    ensures Run(readings).published == Values(readings)[|Values(readings)| - 1]
  {
    RunTracks(readings);
  }

  /** Switching to fast ends at least three overflowing ticks in a row, switching back at least thirty
      clear ones. */
  lemma SwitchEndsStreak(readings: seq<Reading>, r: Reading)
    ensures !Run(readings).fast && Run(readings + [r]).fast ==> EndsOverflowing(Values(readings + [r]), TO_FAST)
    ensures Run(readings).fast && !Run(readings + [r]).fast ==> EndsClear(Values(readings + [r]), TO_SLOW)
  {
    assert (readings + [r])[..|readings|] == readings;
    RunTracks(readings + [r]);
  }

  /** How often the run switched to fast. */
  function Switches(readings: seq<Reading>): nat {
    if readings == [] then 0
    else
      var before := readings[..|readings| - 1];
      Switches(before) + if !Run(before).fast && Run(readings).fast then 1 else 0
  }

  lemma {:induction false} SwitchesCost(readings: seq<Reading>)
    ensures var d, n, s := Run(readings), |Values(readings)|, Switches(readings);
            if d.fast then d.clear < TO_SLOW && n + 30 >= 33 * s + d.clear
            else d.overflow < TO_FAST && n >= 33 * s + d.overflow
  {
    if readings != [] {
      SwitchesCost(readings[..|readings| - 1]);
    }
  }

  /** The readable ticks of a run bound its switches to fast. */
  lemma SwitchBound(readings: seq<Reading>)
    ensures Switches(readings) <= (|Values(readings)| + 30) / 33
    ensures |Values(readings)| <= |readings|
  {
    SwitchesCost(readings);
    ValuesFewer(readings);
  }

  lemma {:induction false} ValuesFewer(readings: seq<Reading>)
    ensures |Values(readings)| <= |readings|
  {
    if readings != [] {
      ValuesFewer(readings[..|readings| - 1]);
    }
  }

  // ----- the bound is met

  /** One more reading, seen only through what the run makes of it. */
  lemma Append(readings: seq<Reading>, v: nat) returns (more: seq<Reading>)
    ensures Run(more) == Next(Run(readings), Total(v)) && |more| == |readings| + 1
    ensures |Values(more)| == |Values(readings)| + 1
    ensures Switches(more) == Switches(readings) + if !Run(readings).fast && Run(more).fast then 1 else 0
  {
    more := readings + [Total(v)];
    assert more[..|readings|] == readings;
  }

  lemma ThreeRises(readings: seq<Reading>) returns (more: seq<Reading>)
    requires !Run(readings).fast && Run(readings).overflow == 0
    ensures Run(more).fast && Run(more).clear == 0 && Switches(more) == Switches(readings) + 1
    ensures |more| == |readings| + 3 && |Values(more)| == |Values(readings)| + 3
  {
    var v := Run(readings).last;
    more := Append(readings, v + 1);
    more := Append(more, v + 2);
    more := Append(more, v + 3);
  }

  lemma ThirtyClear(readings: seq<Reading>) returns (more: seq<Reading>)
    requires Run(readings).fast && Run(readings).clear == 0
    ensures !Run(more).fast && Run(more).overflow == 0 && Switches(more) == Switches(readings)
    ensures |more| == |readings| + 30 && |Values(more)| == |Values(readings)| + 30
  {
    more := readings;
    for n := 0 to TO_SLOW
      invariant Run(more).last == Run(readings).last && Run(more).clear == n && Run(more).fast == (n < TO_SLOW)
      invariant n > 0 ==> Run(more).overflow == 0
      invariant Switches(more) == Switches(readings)
      invariant |more| == |readings| + n && |Values(more)| == |Values(readings)| + n
    {
      more := Append(more, Run(more).last);
    }
  }

  /** The bound is reached, for every number of switches: three rising totals, then thirty equal ones and
      three rising ones as often as wanted. */
  lemma SwitchBoundMet(k: nat) returns (readings: seq<Reading>)
    ensures |readings| == |Values(readings)| == 33 * k + 3
    ensures Switches(readings) == k + 1 == (|readings| + 30) / 33
  {
    readings := ThreeRises([]);
    for i := 0 to k
      invariant Run(readings).fast && Run(readings).clear == 0 && Switches(readings) == i + 1
      invariant |readings| == |Values(readings)| == 33 * i + 3
    {
      readings := ThirtyClear(readings);
      readings := ThreeRises(readings);
    }
  }
}
