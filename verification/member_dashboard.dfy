/** The member dashboard: subscription progress, the first enrolled classes,
    the expiring banner and the status and tier badges. */
module MemberDashboard {
  import opened GymTypes
  import opened Subscription
  import ProfileScreen

  /** `daysRemaining`, by the same ceiling as the other screens. */
  function DaysRemaining(member: Member, dateMs: string -> int, now: int): (d: int)
    ensures d * MsPerDay >= dateMs(member.subscriptionEnd) - now > (d - 1) * MsPerDay
  {
    CeilDays(dateMs(member.subscriptionEnd) - now)
  }

  /** `subscriptionProgress`, a percentage in [0, 100]. */
  function SubscriptionProgress(days: int): (p: real)
    ensures 0.0 <= p <= 100.0
    ensures p == 100.0 <==> days >= 30
  {
    ProgressWidth(days)
  }

  /** `classes.slice(0, 3)`: the first three classes, or all if fewer. */
  function EnrolledClasses(classes: seq<GymClass>): (r: seq<GymClass>)
    ensures |r| == if |classes| < 3 then |classes| else 3
    ensures r == classes[..|r|]
  {
    if |classes| < 3 then classes else classes[..3]
  }

  /** The banner: an active membership with fewer than seven days left
      (strictly fewer, unlike the other screens' warning). */
  function ExpiringBannerShown(member: Member, days: int): (shown: bool)
    ensures shown <==> member.status == Active && ProfileScreen.IsExpiringSoon(days) && days != 7
  {
    member.status == Active && days < 7
  }

  /** Wherever the banner shows, the profile screen warns too; at exactly seven
      days the profile screen warns and the banner does not. */
  lemma {:induction false} BannerAgainstProfileWarning(member: Member, days: int)
    ensures ExpiringBannerShown(member, days) ==> ProfileScreen.IsExpiringSoon(days)
    ensures ProfileScreen.IsExpiringSoon(7) && !ExpiringBannerShown(member, 7)
  {
  }

  /** A badge's classes: a light background and dark text of one hue. */
  function Badge(hue: string): string
  {
    "bg-" + hue + "-100 text-" + hue + "-700"
  }

  /** The badge spelled out for each hue the dashboard uses. */
  lemma {:induction false} BadgeSpelling()
    ensures Badge("green") == "bg-green-100 text-green-700"
    ensures Badge("red") == "bg-red-100 text-red-700"
    ensures Badge("gray") == "bg-gray-100 text-gray-700"
    ensures Badge("blue") == "bg-blue-100 text-blue-700"
    ensures Badge("purple") == "bg-purple-100 text-purple-700"
    ensures Badge("amber") == "bg-amber-100 text-amber-700"
  {
    SpellGreen(); SpellRed(); SpellGray(); SpellBlue(); SpellPurple(); SpellAmber();
  }

  lemma {:induction false} SpellGreen() ensures Badge("green") == "bg-green-100 text-green-700" {}
  lemma {:induction false} SpellRed() ensures Badge("red") == "bg-red-100 text-red-700" {}
  lemma {:induction false} SpellGray() ensures Badge("gray") == "bg-gray-100 text-gray-700" {}
  lemma {:induction false} SpellBlue() ensures Badge("blue") == "bg-blue-100 text-blue-700" {}
  lemma {:induction false} SpellPurple() ensures Badge("purple") == "bg-purple-100 text-purple-700" {}
  lemma {:induction false} SpellAmber() ensures Badge("amber") == "bg-amber-100 text-amber-700" {}

  /** `getStatusColor`: green for active, red for expired, gray for
      cancelled, each as a badge of one hue. */
  function StatusColor(status: MemberStatus): (color: string)
    ensures status == Active ==> color == Badge("green")
    ensures status == Expired ==> color == Badge("red")
    ensures status == Cancelled ==> color == Badge("gray")
  {
    BadgeSpelling();
    match status
    case Active => "bg-green-100 text-green-700"
    case Expired => "bg-red-100 text-red-700"
    case Cancelled => "bg-gray-100 text-gray-700"
  }

  /** `getSubscriptionColor`: blue, purple and amber badges for the three
      tiers. */
  function SubscriptionColor(t: SubscriptionType): (color: string)
    ensures t == Basic ==> color == Badge("blue")
    ensures t == Premium ==> color == Badge("purple")
    ensures t == Vip ==> color == Badge("amber")
  {
    BadgeSpelling();
    match t
    case Basic => "bg-blue-100 text-blue-700"
    case Premium => "bg-purple-100 text-purple-700"
    case Vip => "bg-amber-100 text-amber-700"
  }

  /** Different statuses get different badge colours. */
  lemma {:induction false} StatusColorsDiffer(s1: MemberStatus, s2: MemberStatus)
    requires s1 != s2
    ensures StatusColor(s1) != StatusColor(s2)
  {
    assert StatusColor(s1)[5] != StatusColor(s2)[5];
  }

  /** Different tiers get different badge colours. */
  lemma {:induction false} SubscriptionColorsDiffer(t1: SubscriptionType, t2: SubscriptionType)
    requires t1 != t2
    ensures SubscriptionColor(t1) != SubscriptionColor(t2)
  {
    assert SubscriptionColor(t1)[3] != SubscriptionColor(t2)[3];
  }

  /** Both maps give every value its own badge colour. */
  lemma {:induction false} ColorsTellValuesApart(s1: MemberStatus, s2: MemberStatus, t1: SubscriptionType, t2: SubscriptionType)
    ensures StatusColor(s1) == StatusColor(s2) <==> s1 == s2
    ensures SubscriptionColor(t1) == SubscriptionColor(t2) <==> t1 == t2
  {
    if s1 != s2 {
      StatusColorsDiffer(s1, s2);
    }
    if t1 != t2 {
      SubscriptionColorsDiffer(t1, t2);
    }
  }
}
