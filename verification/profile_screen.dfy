/** The profile screen: the settings menu, whose "Membership" entry opens the
    membership details, and those details (days left, the expiry warning,
    the tier's benefits and the upgrade options). */
module ProfileScreen {
  import opened Collections
  import opened Decimal
  import opened GymTypes
  import opened Subscription
  import App

  /** `getDaysRemaining`: 0 without a member, otherwise the whole days from
      `now` to the subscription's end (`dateMs` gives a date's timestamp). */
  function DaysRemaining(member: Option<Member>, dateMs: string -> int, now: int): (d: int)
    ensures member.None? ==> d == 0
    ensures member.Some? ==>
              d * MsPerDay >= dateMs(member.value.subscriptionEnd) - now > (d - 1) * MsPerDay
  {
    if member.None? then 0 else CeilDays(dateMs(member.value.subscriptionEnd) - now)
  }

  /** `daysRemaining <= 7`, which includes every day count already past. */
  function IsExpiringSoon(days: int): (soon: bool)
    ensures days <= 0 ==> soon
    ensures 0 < days <= 7 ==> soon
    ensures soon ==> days < 8
  {
    days <= 7
  }

  /** A subscription ending within the week, or already ended, is flagged. */
  lemma {:induction false} ExpiringSoonWithinAWeek(member: Member, dateMs: string -> int, now: int)
    ensures IsExpiringSoon(DaysRemaining(Some(member), dateMs, now)) <==>
              dateMs(member.subscriptionEnd) - now <= 7 * MsPerDay
  {
    var d := DaysRemaining(Some(member), dateMs, now);
    if d > 7 {
      DaysToMs(7, d - 1);
    } else {
      DaysToMs(d, 7);
    }
  }

  /** The "Account" section's entries: "Membership" first, only for the member
      role with a member present, then the two fixed entries. */
  function AccountItems(role: UserRole, member: Option<Member>): (items: seq<string>)
    ensures "Membership" in items <==> role == MemberRole && member.Some?
    ensures |items| >= 2 && items[|items| - 2..] == ["Notifications", "Privacy & Security"]
  {
    (if role == MemberRole && member.Some? then ["Membership"] else []) +
    ["Notifications", "Privacy & Security"]
  }

  /** As the application wires it, the entry is there exactly in the member
      role: only that role is given the member. */
  lemma {:induction false} MembershipEntryOnlyForMembers(role: UserRole, m: Member)
    ensures var s := App.ScreenFor(role, App.ProfileTab, None, [], [], [], m);
      s.Profile? && ("Membership" in AccountItems(s.role, s.member) <==> role == MemberRole)
  {
    App.ProfileGetsMemberOnlyAsMember(role, [], [], [], m);
  }

  /** The progress bar is drawn only while days are left. */
  function ShowProgressBar(days: int): (shown: bool)
    ensures shown <==> ProgressWidth(days) > 0.0
  {
    days > 0
  }

  /** The renewal offer appears when expiring soon and not yet expired, that
      is with one to seven days left. */
  function RenewalOfferShown(days: int): (shown: bool)
    ensures shown <==> 1 <= days <= 7
    ensures shown ==> IsExpiringSoon(days) && ShowProgressBar(days)
  {
    IsExpiringSoon(days) && days > 0
  }

  /** The bar's text: the count of days left, or that the membership has
      expired once none are. */
  function DaysText(days: int): (text: string)
    ensures days <= 0 ==> text == "Membership expired"
    ensures days > 0 ==> |text| > 15 && text[|text| - 15..] == " days remaining" &&
                         AllDigits(text[..|text| - 15]) && ParseNat(text[..|text| - 15]) == days
  {
    if days > 0 then
      var n := NatToString(days);
      ParseNatToString(days);
      assert (n + " days remaining")[..|n|] == n;
      n + " days remaining"
    else "Membership expired"
  }

  /** The two texts never coincide, so the text tells whether days are left. */
  lemma {:induction false} DaysTextTellsExpiry(days: int)
    ensures DaysText(days) == "Membership expired" <==> days <= 0
  {
    if days > 0 {
      var t := DaysText(days);
      assert t[|t| - 1] == 'g';
    }
  }

  /** The benefits listed for each tier. */
  function Benefits(t: SubscriptionType): (perks: seq<string>)
    ensures |perks| == 4 + 2 * TierRank(t)
  {
    match t
    case Basic => ["Access to gym equipment", "Locker room access", "Basic fitness assessment",
                   "2 group classes per week"]
    case Premium => ["All Basic benefits", "Unlimited group classes",
                     "Personal training session (1/month)", "Nutrition consultation",
                     "Priority class booking", "Guest pass (2/month)"]
    case Vip => ["All Premium benefits", "Unlimited personal training", "Private locker",
                 "Massage therapy (2/month)", "Exclusive VIP lounge access",
                 "Complimentary protein shakes", "Priority parking", "24/7 gym access"]
  }

  /** The perk counts are 4, 6 and 8, growing with the tier. */
  lemma {:induction false} BenefitCounts(a: SubscriptionType, b: SubscriptionType)
    ensures |Benefits(Basic)| == 4 && |Benefits(Premium)| == 6 && |Benefits(Vip)| == 8
    ensures TierRank(a) < TierRank(b) ==> |Benefits(a)| < |Benefits(b)|
  {
  }

  /** The upgrade section is drawn for every tier but the top one, which is
      exactly when there is an upgrade to offer. */
  function UpgradeSectionShown(t: SubscriptionType): (shown: bool)
    ensures shown <==> |UpgradeTiers(t)| > 0
  {
    UpgradeTiersExactly(t, Vip);
    t != Vip
  }

  /** The screen's `showMembership` flag. */
  class ProfileView {
    var showMembership: bool

    constructor ()
      ensures !showMembership
    {
      showMembership := false;
    }

    /** The details replace the menu while the flag is up and there is a
        member. */
    function ShowsDetails(member: Option<Member>): (shown: bool)
      reads this
      ensures shown ==> showMembership && member.Some?
      ensures showMembership && member.Some? ==> shown
    {
      showMembership && member.Some?
    }

    /** The "Membership" entry's action. */
    method OpenMembership()
      modifies this
      ensures showMembership
    {
      showMembership := true;
    }

    /** "Back to Profile". */
    method CloseMembership()
      modifies this
      ensures !showMembership && forall m :: !ShowsDetails(m)
    {
      showMembership := false;
    }
  }
}
