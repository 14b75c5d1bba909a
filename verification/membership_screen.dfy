/** The member's membership screen: days left, the expiry warning, the renew
    button, the class limit and the upgrade options. */
module MembershipScreen {
  import opened Collections
  import opened GymTypes
  import opened Subscription
  import ProfileScreen

  /** `daysRemaining`: the whole days from `now` to the subscription's end,
      with `dateMs` giving a date's timestamp. The source computes this once
      per screen, so it is defined here and on the profile screen alike. */
  function DaysRemaining(member: Member, dateMs: string -> int, now: int): (d: int)
    ensures d * MsPerDay >= dateMs(member.subscriptionEnd) - now > (d - 1) * MsPerDay
  {
    CeilDays(dateMs(member.subscriptionEnd) - now)
  }

  /** `isExpiringSoon`: at most a week left, or already past. */
  function IsExpiringSoon(days: int): (soon: bool)
    ensures soon <==> ProfileScreen.IsExpiringSoon(days)
  {
    days <= 7
  }

  /** For the same member and moment, this screen and the profile screen show
      the same day count and the same warning. */
  lemma {:induction false} AgreesWithProfile(member: Member, dateMs: string -> int, now: int)
    ensures DaysRemaining(member, dateMs, now) == ProfileScreen.DaysRemaining(Some(member), dateMs, now)
    ensures IsExpiringSoon(DaysRemaining(member, dateMs, now)) <==>
              ProfileScreen.IsExpiringSoon(ProfileScreen.DaysRemaining(Some(member), dateMs, now))
  {
    var d := DaysRemaining(member, dateMs, now);
    CeilDaysUnique(dateMs(member.subscriptionEnd) - now, d);
  }

  /** The renew button: shown only for an active membership, offering the
      discount exactly when expiring soon. */
  function RenewButton(member: Member, days: int): (button: Option<string>)
    ensures button.Some? <==> member.status == Active
    ensures button.Some? ==> (button.value == "RENEW WITH 20% OFF" <==> IsExpiringSoon(days))
    ensures button.Some? && !IsExpiringSoon(days) ==> button.value == "RENEW MEMBERSHIP"
  {
    if member.status == Active then
      Some(if IsExpiringSoon(days) then "RENEW WITH 20% OFF" else "RENEW MEMBERSHIP")
    else None
  }

  /** The class-limit line: a weekly limit for the basic tier only. */
  function ClassLimitText(t: SubscriptionType): (text: string)
    ensures text == "2 per week limit" <==> t == Basic
    ensures t != Basic ==> text == "Unlimited"
  {
    if t == Basic then "2 per week limit" else "Unlimited"
  }

  /** The upgrade section is hidden for the top tier, which is exactly when no
      tier is above; the profile screen shows its section for the same tiers. */
  function UpgradeSectionShown(t: SubscriptionType): (shown: bool)
    ensures shown <==> |UpgradeTiers(t)| > 0
    ensures shown <==> ProfileScreen.UpgradeSectionShown(t)
  {
    UpgradeTiersExactly(t, Vip);
    t != Vip
  }
}
