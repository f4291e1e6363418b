/** The decision engine: three phase-shifted raw values become weights in tens that total 100. */
module DecisionEngine {
  import opened Rounding

  const LOW := "low-power"
  const MID := "mid-power"
  const HIGH := "high-power"

  /** What `/schedule` serves. `validUntil` is the ISO text, which this module does not read. */
  datatype Schedule = Schedule(
    directWeight: int, queueWeight: int,
    flavourWeights: map<string, int>, deadlines: map<string, int>,
    consumptionEnabled: bool, validUntil: string)

  // ---------------------------------------------------------------- rounding and repair

  /** `w` is the multiple of ten nearest to `x`, the even multiple on a tie. */
  ghost predicate RoundsTo(x: real, w: int) {
    w % 10 == 0 && IsRounded(x / 10.0, w / 10)
  }

  function Round10(x: real): (r: int)
    ensures RoundsTo(x, r) && -5.0 <= x - r as real <= 5.0
  {
    Round(x / 10.0) * 10
  }

  /** Rounding to tens never crosses a multiple of ten. */
  lemma Round10StaysBetween(x: real, lo: int, hi: int)
    requires lo % 10 == 0 && hi % 10 == 0 && lo as real <= x <= hi as real
    ensures lo <= Round10(x) <= hi
  {
    assert lo == lo / 10 * 10 && hi == hi / 10 * 10;
    RoundStaysBetween(x / 10.0, lo / 10, hi / 10);
  }

  function Sum(vals: seq<int>): int {
    if vals == [] then 0 else vals[0] + Sum(vals[1..])
  }

  lemma SumOfThree(a: int, b: int, c: int)
    ensures Sum([a, b, c]) == a + b + c
  {
    assert [a, b, c][1..] == [b, c] && [b, c][1..] == [c];
    assert Sum([c]) == c;
    assert Sum([b, c]) == b + c;
  }

  lemma {:induction false} SumUpdate(vals: seq<int>, i: nat, v: int)
    requires i < |vals|
    ensures Sum(vals[i := v]) == Sum(vals) - vals[i] + v
  {
    if i == 0 {
      assert vals[i := v][1..] == vals[1..];
    } else {
      SumUpdate(vals[1..], i - 1, v);
      assert vals[i := v][1..] == vals[1..][i - 1 := v];
    }
  }

  /** Python's `vals.index(max(vals))`. */
  function FirstMax(vals: seq<int>): (i: nat)
    requires vals != []
    ensures i < |vals|
    ensures forall j :: 0 <= j < |vals| ==> vals[j] <= vals[i]
    ensures forall j :: 0 <= j < i ==> vals[j] < vals[i]
  {
    if |vals| == 1 then 0
    else
      var k := FirstMax(vals[1..]);
      assert forall j :: 0 < j < |vals| ==> vals[j] == vals[1..][j - 1];
      if vals[0] >= vals[k + 1] then 0 else k + 1
  }

  /** Repairs the total in place at the first largest entry. On the empty list `max` raises. */
  method FixSumTo100(vals: array<int>) returns (raised: bool)
    modifies vals
    ensures raised <==> vals.Length == 0
    ensures !raised ==> Sum(vals[..]) == 100
    ensures Sum(old(vals[..])) == 100 ==> vals[..] == old(vals[..])
    ensures !raised ==>
      var i := FirstMax(old(vals[..]));
      vals[..] == old(vals[..])[i := 100 - (Sum(old(vals[..])) - old(vals[..])[i])]
  {
    var diff := 100 - Sum(vals[..]);
    if diff != 0 {
      if vals.Length == 0 {
        return true;
      }
      var i := FirstMax(vals[..]);
      SumUpdate(vals[..], i, vals[i] + diff);
      assert vals[..][i := vals[i] + diff][i] == vals[i] + diff;
      vals[i] := vals[i] + diff;
      assert vals[..] == old(vals[..])[i := vals[i]];
    }
    raised := false;
  }

  // ---------------------------------------------------------------- the weights

  /** The raw values of three equal sinusoids 120 degrees apart around 50, amplitude 30. */
  ghost predicate PhaseShifted(low: real, mid: real, high: real) {
    && 20.0 <= low <= 80.0 && 20.0 <= mid <= 80.0 && 20.0 <= high <= 80.0
    && low + mid + high == 150.0
  }

  ghost predicate Distribution(weights: map<string, int>) {
    && weights.Keys == {LOW, MID, HIGH}
    && (forall f :: f in weights ==> 0 <= weights[f] <= 100 && weights[f] % 10 == 0)
    && weights[LOW] + weights[MID] + weights[HIGH] == 100
  }

  /** The weights are the rounded raw values, except that the first largest of them is what is left
      of 100. */
  ghost predicate FollowsRaw(low: real, mid: real, high: real, weights: map<string, int>) {
    exists a, b, c :: RoundsTo(low, a) && RoundsTo(mid, b) && RoundsTo(high, c)
      && weights ==
           if a >= b && a >= c then map[LOW := 100 - b - c, MID := b, HIGH := c]
           else if b >= c then map[LOW := a, MID := 100 - a - c, HIGH := c]
           else map[LOW := a, MID := b, HIGH := 100 - a - b]
  }

  /** What one step's schedule says about its raw values. */
  ghost predicate FollowsStep(rawDirect: real, rawLow: real, rawMid: real, rawHigh: real,
                              direct: int, queue: int, flavours: map<string, int>)
  {
    RoundsTo(rawDirect, direct) && queue == 100 - direct && FollowsRaw(rawLow, rawMid, rawHigh, flavours)
  }

  /** Before the repair the rounded values total 140, 150 or 160, and the largest can absorb the
      difference without turning negative. */
  lemma RepairHasRoom(low: real, mid: real, high: real)
    requires PhaseShifted(low, mid, high)
    ensures var vals := [Round10(low), Round10(mid), Round10(high)];
      && Sum(vals) in {140, 150, 160}
      && Sum(vals) - vals[FirstMax(vals)] <= 100
      && (forall i :: 0 <= i < 3 ==> 20 <= vals[i] <= 80)
  {
    Round10StaysBetween(low, 20, 80);
    Round10StaysBetween(mid, 20, 80);
    Round10StaysBetween(high, 20, 80);
    RoundedTotal(low, mid, high);
    hide Round10;
    var vals := [Round10(low), Round10(mid), Round10(high)];
    SumOfThree(vals[0], vals[1], vals[2]);
    var top := vals[FirstMax(vals)];
    assert vals[0] <= top && vals[1] <= top && vals[2] <= top;
  }

  lemma RoundedTotal(low: real, mid: real, high: real)
    requires PhaseShifted(low, mid, high)
    ensures Round10(low) + Round10(mid) + Round10(high) in {140, 150, 160}
  {
    hide Round;
    var a, b, c := Round(low / 10.0), Round(mid / 10.0), Round(high / 10.0);
    assert 13.5 <= (a + b + c) as real <= 16.5;
    assert 14 <= a + b + c <= 16;
  }

  lemma RepairedIsDistribution(low: real, mid: real, high: real, repaired: seq<int>)
    requires PhaseShifted(low, mid, high)
    requires var vals := [Round10(low), Round10(mid), Round10(high)];
      var i := FirstMax(vals);
      repaired == vals[i := 100 - (Sum(vals) - vals[i])]
    ensures |repaired| == 3
    ensures Distribution(map[LOW := repaired[0], MID := repaired[1], HIGH := repaired[2]])
  {
    RepairHasRoom(low, mid, high);
    var vals := [Round10(low), Round10(mid), Round10(high)];
    SumOfThree(vals[0], vals[1], vals[2]);
    TotalOfThree(vals, FirstMax(vals), repaired);
    WeightsDistribute(repaired[0], repaired[1], repaired[2]);
  }

  lemma TotalOfThree(vals: seq<int>, i: nat, repaired: seq<int>)
    requires |vals| == 3 && i < 3 && Sum(vals) == vals[0] + vals[1] + vals[2]
    requires forall j :: 0 <= j < 3 ==> vals[j] % 10 == 0
    requires repaired == vals[i := 100 - (Sum(vals) - vals[i])]
    ensures repaired[0] + repaired[1] + repaired[2] == 100
    ensures repaired[0] % 10 == 0 && repaired[1] % 10 == 0 && repaired[2] % 10 == 0
  {
    hide Sum;
    if i == 0 {
      RestIsTens(vals[1], vals[2]);
    } else if i == 1 {
      RestIsTens(vals[0], vals[2]);
    } else {
      RestIsTens(vals[0], vals[1]);
    }
  }

  lemma RestIsTens(a: int, b: int)
    requires a % 10 == 0 && b % 10 == 0
    ensures (100 - (a + b)) % 10 == 0
  {
  }

  lemma WeightsDistribute(low: int, mid: int, high: int)
    requires low >= 0 && mid >= 0 && high >= 0 && low + mid + high == 100
    requires low % 10 == 0 && mid % 10 == 0 && high % 10 == 0
    ensures Distribution(map[LOW := low, MID := mid, HIGH := high])
  {
    FlavoursDiffer();
    var m := map[LOW := low, MID := mid, HIGH := high];
    assert m[LOW] == low && m[MID] == mid && m[HIGH] == high;
    assert m.Keys == {LOW, MID, HIGH};
  }

  lemma FlavoursDiffer()
    ensures LOW != MID && LOW != HIGH && MID != HIGH
  {
    assert LOW[0] == 'l' && MID[0] == 'm' && HIGH[0] == 'h';
  }

  /** `rawDirect` and the three flavour values stand for the sinusoids at one step. */
  method GenerateWeights(rawDirect: real, rawLow: real, rawMid: real, rawHigh: real)
    returns (direct: int, queue: int, flavours: map<string, int>)
    requires 30.0 <= rawDirect <= 90.0 && PhaseShifted(rawLow, rawMid, rawHigh)
    ensures 30 <= direct <= 90 && direct % 10 == 0 && direct + queue == 100
    ensures Distribution(flavours)
    ensures FollowsStep(rawDirect, rawLow, rawMid, rawHigh, direct, queue, flavours)
  {
    direct := Round10(rawDirect);
    Round10StaysBetween(rawDirect, 30, 90);
    queue := 100 - direct;
    flavours := FlavourWeights(rawLow, rawMid, rawHigh);
  }

  lemma RepairedFollowsRaw(rawLow: real, rawMid: real, rawHigh: real, a: int, b: int, c: int, repaired: seq<int>)
    requires RoundsTo(rawLow, a) && RoundsTo(rawMid, b) && RoundsTo(rawHigh, c)
    requires var i := FirstMax([a, b, c]);
      repaired == [a, b, c][i := 100 - (a + b + c - [a, b, c][i])]
    ensures FollowsRaw(rawLow, rawMid, rawHigh, map[LOW := repaired[0], MID := repaired[1], HIGH := repaired[2]])
  {
    var vals, i := [a, b, c], FirstMax([a, b, c]);
    assert vals[0] <= vals[i] && vals[1] <= vals[i] && vals[2] <= vals[i];
    assert i > 0 ==> vals[0] < vals[i];
    assert i > 1 ==> vals[1] < vals[i];
  }

  method FlavourWeights(rawLow: real, rawMid: real, rawHigh: real) returns (flavours: map<string, int>)
    requires PhaseShifted(rawLow, rawMid, rawHigh)
    ensures Distribution(flavours)
    ensures FollowsRaw(rawLow, rawMid, rawHigh, flavours)
  {
    var low, mid, high := Round10(rawLow), Round10(rawMid), Round10(rawHigh);
    var vals := new int[] [low, mid, high];
    ghost var before := vals[..];
    assert before == [low, mid, high];
    var raised := FixSumTo100(vals);
    ghost var after := vals[..];
    assert after == [vals[0], vals[1], vals[2]];
    RepairedIsDistribution(rawLow, rawMid, rawHigh, after);
    flavours := map[LOW := vals[0], MID := vals[1], HIGH := vals[2]];
    FlavoursDiffer();
    SumOfThree(low, mid, high);
    RepairedFollowsRaw(rawLow, rawMid, rawHigh, low, mid, high, after);
  }

  method MakeSchedule(rawDirect: real, rawLow: real, rawMid: real, rawHigh: real, validUntil: string)
    returns (s: Schedule)
    requires 30.0 <= rawDirect <= 90.0 && PhaseShifted(rawLow, rawMid, rawHigh)
    ensures s.directWeight + s.queueWeight == 100 && 30 <= s.directWeight <= 90
    ensures Distribution(s.flavourWeights) && s.deadlines.Keys == s.flavourWeights.Keys
    ensures s.deadlines[HIGH] == 40 && s.deadlines[MID] == 120 && s.deadlines[LOW] == 600
    ensures FollowsStep(rawDirect, rawLow, rawMid, rawHigh, s.directWeight, s.queueWeight, s.flavourWeights)
    ensures s.consumptionEnabled && s.validUntil == validUntil
  {
    var direct, queue, flavours := GenerateWeights(rawDirect, rawLow, rawMid, rawHigh);
    s := Schedule(direct, queue, flavours, map[LOW := 600, MID := 120, HIGH := 40], true, validUntil);
  }

  function Repaired(vals: seq<int>): (r: seq<int>)
    requires vals != []
  {
    vals[FirstMax(vals) := vals[FirstMax(vals)] + (100 - Sum(vals))]
  }

  ghost predicate NonNegative(vals: seq<int>) {
    forall i :: 0 <= i < |vals| ==> vals[i] >= 0
  }

  /** A repaired list of non-negative entries stays non-negative exactly when everything but its
      first largest entry totals at most 100. */
  lemma RepairStaysNonNegative(vals: seq<int>)
    requires vals != [] && NonNegative(vals)
    ensures NonNegative(Repaired(vals)) <==> Sum(vals[FirstMax(vals) := 0]) <= 100
  {
    var i := FirstMax(vals);
    SumUpdate(vals, i, 0);
    assert Repaired(vals)[i] == 100 - Sum(vals[i := 0]);
  }
}
