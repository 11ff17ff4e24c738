/** The consumer's impact page: the counting-up animation of the totals,
    the achievement badges and the zero-padded meal count. */
module ImpactProfile {
  import opened Wrappers
  import opened Strings
  import Api

  /** Ticks the animation aims to take. */
  const Ticks := 30

  /** `Math.ceil(target / 30)` on integers: floor division of the negated
      target, negated. */
  function CeilDiv30(target: int): (r: int)
    ensures Ticks * r >= target
    ensures Ticks * (r - 1) < target
  {
    var q := (-target) / Ticks;
    assert -target == Ticks * q + (-target) % Ticks;
    -q
  }

  /** The amount added per tick: at least 1, and large enough that thirty
      ticks reach the target. */
  function Step(target: int): (r: int)
    ensures r >= 1
    ensures target > 0 ==> Ticks * r >= target
  {
    var c := CeilDiv30(target);
    if c > 1 then c else 1
  }

  /** `animateCounter`, with each timer tick as one loop iteration; the
      result lists the values passed to the setter, in order. A zero target
      is set at once. Otherwise every tick adds the step; a value that
      reaches the target is replaced by the target and ends the timer. */
  method AnimateCounter(target: int) returns (shown: seq<int>)
    ensures shown != [] && shown[|shown| - 1] == target
    ensures target == 0 ==> shown == [0]
    ensures forall i :: 0 <= i < |shown| - 1 ==> shown[i] == (i + 1) * Step(target) && shown[i] < target
    ensures target > 0 ==> |shown| <= Ticks
    ensures target > 0 ==> |shown| * Step(target) >= target
    ensures target < 0 ==> shown == [target]
  {
    if target == 0 {
      return [0];
    }
    var increment := Step(target);
    var current := 0;
    var done := false;
    shown := [];
    while !done
      invariant !done ==> current == |shown| * increment
      invariant done ==> current == (|shown| + 1) * increment
      invariant forall i :: 0 <= i < |shown| ==> shown[i] == (i + 1) * increment && shown[i] < target
      invariant done ==> current >= target
      invariant target < 0 ==> shown == []
      invariant !done ==> current == 0 || current < target
      decreases !done, if target > current then target - current else 0
    {
      current := current + increment;
      if current >= target {
        done := true;
      } else {
        shown := shown + [current];
      }
    }
    if target > 0 {
      // The last intermediate value is below the target, so fewer than
      // thirty steps fit before it.
      if |shown| > 0 {
        assert shown[|shown| - 1] == |shown| * increment;
      }
      TicksBound(|shown|, increment, target);
    }
    shown := shown + [target];
  }

  /** Fewer than thirty whole steps stay below a target that thirty steps
      reach. */
  lemma TicksBound(k: nat, step: int, target: int)
    requires step >= 1 && Ticks * step >= target
    requires k == 0 || k * step < target
    ensures k < Ticks
  {
    ScaleMonotone(Ticks, k, step);
  }

  /** Multiplying by a non-negative number keeps the order. */
  lemma ScaleMonotone(a: int, b: int, c: int)
    requires c >= 0
    ensures a <= b ==> a * c <= b * c
  {
    if a <= b {
      assert b * c - a * c == (b - a) * c;
      assert (b - a) * c >= 0;
    }
  }

  /** The meal counts at which the four badges unlock. */
  const Thresholds: seq<int> := [1, 10, 50, 100]

  /** Which badges are unlocked at a meal count. */
  function Unlocked(mealsCount: int): (r: seq<bool>)
    ensures |r| == |Thresholds|
    ensures forall i :: 0 <= i < |r| ==> (r[i] <==> mealsCount >= Thresholds[i])
  {
    seq(|Thresholds|, i requires 0 <= i < |Thresholds| => mealsCount >= Thresholds[i])
  }

  /** Unlocking is monotone in the count, and the unlocked badges are
      always a prefix of the list. */
  lemma UnlockedMonotone(a: int, b: int)
    requires a <= b
    ensures forall i :: 0 <= i < |Thresholds| && Unlocked(a)[i] ==> Unlocked(b)[i]
    ensures forall i, j :: 0 <= i < j < |Thresholds| && Unlocked(a)[j] ==> Unlocked(a)[i]
  {
    assert forall i, j :: 0 <= i < j < |Thresholds| ==> Thresholds[i] < Thresholds[j];
  }

  /** The meal count as displayed: its decimal form padded with zeros to
      three characters. */
  function PaddedCount(mealsCount: int): (r: string)
    ensures |r| >= 3 && |r| >= |IntToString(mealsCount)|
    ensures r[|r| - |IntToString(mealsCount)|..] == IntToString(mealsCount)
    ensures forall i :: 0 <= i < |r| - |IntToString(mealsCount)| ==> r[i] == '0'
    ensures mealsCount >= 0 ==> forall i :: 0 <= i < |r| ==> '0' <= r[i] <= '9'
  {
    var s := IntToString(mealsCount);
    var r := PadStart(s, 3, '0');
    assert r[|r| - |s|..] == s;
    assert forall i :: 0 <= i < |r| - |s| ==> r[i] == '0';
    assert forall i :: |r| - |s| <= i < |r| ==> r[i] == s[i - (|r| - |s|)];
    r
  }

  class ImpactProfilePage {
    var mealsCount: int
    var mealsDonated: int
    var moneySaved: int
    var co2Reduced: real
    var loyaltyPoints: int
    var loading: bool

    constructor ()
      ensures mealsCount == 0 && mealsDonated == 0 && moneySaved == 0 && co2Reduced == 0.0 && loyaltyPoints == 0
      ensures loading
    {
      mealsCount, mealsDonated, moneySaved, loyaltyPoints := 0, 0, 0, 0;
      co2Reduced := 0.0;
      loading := true;
    }

    /** `loadStats` once the animations have run out. With a user and
        stats, both counters end at their targets and the other figures
        are set directly; otherwise nothing but loading changes. */
    method LoadStats(signedIn: bool, stats: Option<Api.ImpactStats>) returns (mealsShown: seq<int>, donatedShown: seq<int>)
      modifies this
      ensures !loading
      ensures signedIn && stats.Some? ==>
        mealsCount == stats.value.meals_saved && mealsDonated == stats.value.meals_donated &&
        moneySaved == stats.value.money_saved && co2Reduced == stats.value.co2_reduced &&
        loyaltyPoints == stats.value.loyalty_points
      ensures signedIn && stats.Some? ==>
        mealsShown != [] && mealsShown[|mealsShown| - 1] == mealsCount &&
        donatedShown != [] && donatedShown[|donatedShown| - 1] == mealsDonated
      ensures !(signedIn && stats.Some?) ==>
        mealsShown == [] && donatedShown == [] &&
        mealsCount == old(mealsCount) && mealsDonated == old(mealsDonated) && moneySaved == old(moneySaved) &&
        co2Reduced == old(co2Reduced) && loyaltyPoints == old(loyaltyPoints)
    {
      loading := true;
      mealsShown, donatedShown := [], [];
      if signedIn && stats.Some? {
        var s := stats.value;
        mealsShown := AnimateCounter(s.meals_saved);
        mealsCount := mealsShown[|mealsShown| - 1];
        donatedShown := AnimateCounter(s.meals_donated);
        mealsDonated := donatedShown[|donatedShown| - 1];
        moneySaved := s.money_saved;
        co2Reduced := s.co2_reduced;
        loyaltyPoints := s.loyalty_points;
      }
      loading := false;
    }
  }
}
