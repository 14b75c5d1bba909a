/** The membership arithmetic that the profile, membership and member home
    screens each write out: whole days left until the subscription ends,
    the clamped progress percentage, and the tiers above the current one. */
module Subscription {
  import opened Collections
  import opened GymTypes

  /** `1000 * 60 * 60 * 24`. */
  const MsPerDay: int := 1000 * 60 * 60 * 24

  /** `Math.ceil(diffMs / MsPerDay)`: the days left, counting a started day as
      a whole one. It is negative once the end has passed by more than a day. */
  function CeilDays(diffMs: int): (d: int)
    ensures d * MsPerDay >= diffMs > (d - 1) * MsPerDay
  {
    -((-diffMs) / MsPerDay)
  }

  /** Whole days compare as their lengths in milliseconds do. */
  lemma {:induction false} DaysCompare(x: int, y: int)
    requires x * MsPerDay > y * MsPerDay
    ensures x > y
  {
    assert (x - y) * MsPerDay == x * MsPerDay - y * MsPerDay;
  }

  /** More whole days are more milliseconds. */
  lemma {:induction false} DaysToMs(x: int, y: int)
    requires x <= y
    ensures x * MsPerDay <= y * MsPerDay
  {
    assert (y - x) * MsPerDay == y * MsPerDay - x * MsPerDay;
  }

  /** The ceiling is the only whole number with that property, so it is the
      ceiling and nothing else. */
  lemma {:induction false} CeilDaysUnique(diffMs: int, d: int)
    requires d * MsPerDay >= diffMs > (d - 1) * MsPerDay
    ensures d == CeilDays(diffMs)
  {
    var c := CeilDays(diffMs);
    DaysCompare(d, c - 1);
    DaysCompare(c, d - 1);
  }

  /** More time left never means fewer days. */
  lemma {:induction false} CeilDaysMonotone(a: int, b: int)
    requires a <= b
    ensures CeilDays(a) <= CeilDays(b)
  {
    DaysCompare(CeilDays(b), CeilDays(a) - 1);
  }

  /** `Math.max(0, Math.min(100, (days / 30) * 100))`, in exact arithmetic. */
  function ProgressWidth(days: int): (w: real)
    ensures 0.0 <= w <= 100.0
    ensures days <= 0 ==> w == 0.0
    ensures days >= 30 ==> w == 100.0
    ensures 0 <= days <= 30 ==> w * 30.0 == days as real * 100.0
  {
    var raw := (days as real / 30.0) * 100.0;
    var capped := if raw < 100.0 then raw else 100.0;
    if capped > 0.0 then capped else 0.0
  }

  /** The progress bar fills as days are added, up to full. */
  lemma {:induction false} ProgressWidthMonotone(a: int, b: int)
    requires a <= b
    ensures ProgressWidth(a) <= ProgressWidth(b)
  {
  }

  /** The tiers in the order `Object.entries(membershipTiers)` lists them. */
  const AllTiers: seq<SubscriptionType> := [Basic, Premium, Vip]

  /** `['basic', 'premium', 'vip'].indexOf(tier)`. */
  function TierRank(t: SubscriptionType): (i: nat)
    ensures i < |AllTiers| && AllTiers[i] == t
  {
    match t
    case Basic => 0
    case Premium => 1
    case Vip => 2
  }

  /** The test `tierIndex > currentIndex`. */
  function Above(current: SubscriptionType): SubscriptionType -> bool
  {
    (t: SubscriptionType) => TierRank(t) > TierRank(current)
  }

  /** The upgrade options: the tiers strictly above the current one, lowest
      first. */
  function UpgradeTiers(current: SubscriptionType): (r: seq<SubscriptionType>)
    ensures forall i :: 0 <= i < |r| ==> TierRank(r[i]) > TierRank(current)
  {
    Filter(AllTiers, Above(current))
  }

  /** Filtering the tier list one tier at a time. */
  lemma {:induction false} FilterTiers(p: SubscriptionType -> bool)
    ensures Filter(AllTiers, p) == (if p(Basic) then [Basic] else []) +
                                   (if p(Premium) then [Premium] else []) +
                                   (if p(Vip) then [Vip] else [])
  {
    assert AllTiers == [Basic] + ([Premium] + ([Vip] + []));
    FilterCons(Basic, [Premium] + ([Vip] + []), p);
    FilterCons(Premium, [Vip] + [], p);
    FilterCons(Vip, [], p);
  }

  /** The offers for each tier, written out. */
  lemma {:induction false} UpgradeTiersValues()
    ensures UpgradeTiers(Basic) == [Premium, Vip]
    ensures UpgradeTiers(Premium) == [Vip]
    ensures UpgradeTiers(Vip) == []
  {
    FilterTiers(Above(Basic));
    FilterTiers(Above(Premium));
    FilterTiers(Above(Vip));
  }

  /** Exactly the higher tiers are offered, none twice, and the top tier has
      none to offer. */
  lemma {:induction false} UpgradeTiersExactly(current: SubscriptionType, t: SubscriptionType)
    ensures t in UpgradeTiers(current) <==> TierRank(t) > TierRank(current)
    ensures var r := UpgradeTiers(current); forall i, j :: 0 <= i < j < |r| ==> r[i] != r[j]
    ensures UpgradeTiers(current) == [] <==> current == Vip
  {
    UpgradeTiersValues();
    var r := UpgradeTiers(current);
    match current
    case Basic =>
      assert r == [Premium, Vip];
      assert t in r <==> t != Basic;
      forall i, j | 0 <= i < j < |r|
        ensures r[i] != r[j]
      {
        assert i == 0 && j == 1;
      }
    case Premium =>
      assert r == [Vip];
      assert t in r <==> t == Vip;
    case Vip =>
      assert r == [];
  }
}
