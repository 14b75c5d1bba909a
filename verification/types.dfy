/** The records the screens exchange: classes, coaches, the member, the
    weekly hours and the user role. */
module GymTypes {
  import opened Collections

  datatype Category = Yoga | Strength | Cardio | Hiit | Pilates

  /** The category's text as the records carry it. */
  function CategoryName(c: Category): string
  {
    match c
    case Yoga => "yoga"
    case Strength => "strength"
    case Cardio => "cardio"
    case Hiit => "hiit"
    case Pilates => "pilates"
  }

  /** Different categories have different texts. */
  lemma {:induction false} CategoryNameInjective(a: Category, b: Category)
    ensures CategoryName(a) == CategoryName(b) <==> a == b
  {
    if a != b {
      assert CategoryName(a)[0] != CategoryName(b)[0];
    }
  }

  /** Membership tiers, listed from lowest to highest. */
  datatype SubscriptionType = Basic | Premium | Vip

  datatype MemberStatus = Active | Expired | Cancelled

  datatype UserRole = OwnerRole | CoachRole | MemberRole

  /** One scheduled class. `date` is a `YYYY-MM-DD` calendar date and `time` a
      zero-padded `HH:MM` time of day; `duration` counts minutes. Nothing ties
      `enrolled` to `capacity`. */
  datatype GymClass = GymClass(
    id: string,
    name: string,
    description: string,
    coachId: string,
    coachName: string,
    date: string,
    time: string,
    duration: int,
    capacity: int,
    enrolled: int,
    category: Category)

  /** A class before the store has given it an id (`Omit<GymClass, 'id'>`). */
  datatype NewClass = NewClass(
    name: string,
    description: string,
    coachId: string,
    coachName: string,
    date: string,
    time: string,
    duration: int,
    capacity: int,
    enrolled: int,
    category: Category)

  datatype Coach = Coach(id: string, name: string, email: string, specialty: string, avatar: Option<string>)

  /** A coach before the store has given it an id (`Omit<Coach, 'id'>`). */
  datatype NewCoach = NewCoach(name: string, email: string, specialty: string, avatar: Option<string>)

  /** `subscriptionStart` and `subscriptionEnd` are calendar-date strings. */
  datatype Member = Member(
    id: string,
    name: string,
    email: string,
    subscriptionType: SubscriptionType,
    subscriptionStart: string,
    subscriptionEnd: string,
    status: MemberStatus)

  /** One weekday's entry. Closing a day keeps its `open` and `close` text. */
  datatype GymHours = GymHours(day: string, open: string, close: string, isClosed: bool)

  /** The store's `{ ...newClass, id }`. */
  function ClassWithId(c: NewClass, id: string): (g: GymClass)
    ensures g.id == id && ClassWithoutId(g) == c
  {
    GymClass(id, c.name, c.description, c.coachId, c.coachName, c.date, c.time,
             c.duration, c.capacity, c.enrolled, c.category)
  }

  function ClassWithoutId(g: GymClass): NewClass
  {
    NewClass(g.name, g.description, g.coachId, g.coachName, g.date, g.time,
             g.duration, g.capacity, g.enrolled, g.category)
  }

  /** The store's `{ ...newCoach, id }`. */
  function CoachWithId(c: NewCoach, id: string): (k: Coach)
    ensures k.id == id && NewCoach(k.name, k.email, k.specialty, k.avatar) == c
  {
    Coach(id, c.name, c.email, c.specialty, c.avatar)
  }
}
