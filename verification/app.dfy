/** The application's state store: the role being shown, the active tab, the
    selected class, and the lists of coaches, classes and weekly hours that
    the owner's tools edit. Ids are handed out by counting. */
module App {
  import opened Collections
  import opened Decimal
  import opened GymTypes
  import HoursScreen

  /** The five bottom-bar tabs. */
  datatype Tab = HomeTab | WorkoutsTab | ProgressTab | HoursTab | ProfileTab

  // ---------------------------------------------------------------------
  // List updates
  // ---------------------------------------------------------------------

  /** `(list.length + 1).toString()`: the decimal text of one more than the
      current count. */
  function NextId(count: nat): (id: string)
    ensures AllDigits(id) && ParseNat(id) == count + 1
  {
    ParseNatToString(count + 1);
    NatToString(count + 1)
  }

  /** `[...classes, { ...newClass, id }]`: one class appended at the end under
      the next counting id; the earlier entries stay as they were. */
  function AppendClass(classes: seq<GymClass>, c: NewClass): (r: seq<GymClass>)
    ensures |r| == |classes| + 1 && r[..|classes|] == classes
    ensures r[|classes|].id == NextId(|classes|) && ClassWithoutId(r[|classes|]) == c
  {
    classes + [ClassWithId(c, NextId(|classes|))]
  }

  /** `[...coaches, { ...newCoach, id }]`, by the same counting rule. */
  function AppendCoach(coaches: seq<Coach>, c: NewCoach): (r: seq<Coach>)
    ensures |r| == |coaches| + 1 && r[..|coaches|] == coaches
    ensures r[|coaches|].id == NextId(|coaches|)
    ensures NewCoach(r[|coaches|].name, r[|coaches|].email, r[|coaches|].specialty, r[|coaches|].avatar) == c
  {
    coaches + [CoachWithId(c, NextId(|coaches|))]
  }

  /** The test `c.id !== id`. */
  function IdIsNot(id: string): GymClass -> bool
  {
    (c: GymClass) => c.id != id
  }

  /** `classes.filter(c => c.id !== id)`: no class with that id is left, and an
      id that is not present leaves the list as it was. */
  function RemoveClass(classes: seq<GymClass>, id: string): (r: seq<GymClass>)
    ensures |r| <= |classes|
    ensures forall i :: 0 <= i < |r| ==> r[i].id != id
    ensures (forall i :: 0 <= i < |classes| ==> classes[i].id != id) ==> r == classes
  {
    Filter(classes, IdIsNot(id))
  }

  /** Deleting drops every occurrence of the classes with that id and keeps
      every occurrence of the others. */
  lemma {:induction false} RemoveClassKeepsOthers(classes: seq<GymClass>, id: string, c: GymClass)
    ensures multiset(RemoveClass(classes, id))[c] == if c.id == id then 0 else multiset(classes)[c]
  {
    FilterCount(classes, IdIsNot(id), c);
  }

  /** Deleting keeps the survivors in their order: it can be done piecewise. */
  lemma {:induction false} RemoveClassKeepsOrder(a: seq<GymClass>, b: seq<GymClass>, id: string)
    ensures RemoveClass(a + b, id) == RemoveClass(a, id) + RemoveClass(b, id)
  {
    FilterConcat(a, b, IdIsNot(id));
  }

  /** Ids are not unique: with classes "1" to "4", deleting "2" and adding a
      class gives a second class with id "4". */
  lemma {:induction false} IdsCollideAfterDelete(classes: seq<GymClass>, c: NewClass)
    requires |classes| == 4
    requires forall i :: 0 <= i < 4 ==> classes[i].id == NextId(i)
    ensures var r := AppendClass(RemoveClass(classes, "2"), c);
      |r| == 4 && r[2].id == "4" && r[3].id == "4"
  {
    assert NextId(0) == "1" && NextId(1) == "2" && NextId(2) == "3" && NextId(3) == "4";
    assert classes == [classes[0]] + [classes[1]] + [classes[2], classes[3]];
    RemoveClassKeepsOrder([classes[0]] + [classes[1]], [classes[2], classes[3]], "2");
    RemoveClassKeepsOrder([classes[0]], [classes[1]], "2");
    assert RemoveClass([classes[1]], "2") == [];
    assert RemoveClass([classes[0]], "2") == [classes[0]];
    assert RemoveClass([classes[2], classes[3]], "2") == [classes[2], classes[3]];
  }

  /** A deleted id comes back: four classes, add (id "5"), delete "5", add
      again, and the new class is "5" once more. */
  lemma {:induction false} AddAfterDeleteReusesId(classes: seq<GymClass>, c: NewClass, d: NewClass)
    requires |classes| == 4
    requires forall i :: 0 <= i < 4 ==> classes[i].id != "5"
    ensures AppendClass(classes, c)[4].id == "5"
    ensures AppendClass(RemoveClass(AppendClass(classes, c), "5"), d) == classes + [ClassWithId(d, "5")]
  {
    var once := AppendClass(classes, c);
    assert NextId(4) == "5";
    assert once == classes + [once[4]];
    RemoveClassKeepsOrder(classes, [once[4]], "5");
    assert RemoveClass([once[4]], "5") == [];
  }

  // ---------------------------------------------------------------------
  // Screen dispatch
  // ---------------------------------------------------------------------

  /** The content under the layout, with the data each screen receives. */
  datatype Screen =
    | WorkoutDetail
    | MemberHome
    | OwnerHome(classes: seq<GymClass>, coaches: seq<Coach>, hours: seq<GymHours>)
    | CoachHome(coachId: string, coachName: string, classes: seq<GymClass>)
    | WorkoutsList(classes: seq<GymClass>)
    | Progress
    | Hours(hours: seq<GymHours>)
    | Profile(role: UserRole, member: Option<Member>)

  /** The render: the detail screen while a class is selected, otherwise the
      screen of the active tab, the home tab depending on the role. The coach
      home is fixed to coach "1", Sarah Johnson. */
  function ScreenFor(role: UserRole, tab: Tab, selected: Option<GymClass>,
                     classes: seq<GymClass>, coaches: seq<Coach>, hours: seq<GymHours>,
                     member: Member): (s: Screen)
    ensures s == WorkoutDetail <==> selected.Some?
  {
    if selected.Some? then WorkoutDetail
    else match tab
      case HomeTab =>
        (match role
         case MemberRole => MemberHome
         case OwnerRole => OwnerHome(classes, coaches, hours)
         case CoachRole => CoachHome("1", "Sarah Johnson", classes))
      case WorkoutsTab => WorkoutsList(classes)
      case ProgressTab => Progress
      case HoursTab => Hours(hours)
      case ProfileTab => Profile(role, if role == MemberRole then Some(member) else None)
  }

  /** Without a selection, the home tab shows the member, owner or coach home
      according to the role, each exactly for its role. */
  lemma {:induction false} HomeDispatchesOnRole(role: UserRole, classes: seq<GymClass>, coaches: seq<Coach>,
                             hours: seq<GymHours>, member: Member)
    ensures var s := ScreenFor(role, HomeTab, None, classes, coaches, hours, member);
      (s == MemberHome <==> role == MemberRole) &&
      (s == OwnerHome(classes, coaches, hours) <==> role == OwnerRole) &&
      (s.CoachHome? <==> role == CoachRole) &&
      (s.CoachHome? ==> s.coachId == "1" && s.classes == classes)
  {
  }

  /** Without a selection, the tabs other than home and profile show the same
      screen whatever the role. */
  lemma {:induction false} OtherTabsIgnoreRole(r1: UserRole, r2: UserRole, tab: Tab, classes: seq<GymClass>,
                            coaches: seq<Coach>, hours: seq<GymHours>, member: Member)
    requires tab != HomeTab && tab != ProfileTab
    ensures ScreenFor(r1, tab, None, classes, coaches, hours, member) ==
            ScreenFor(r2, tab, None, classes, coaches, hours, member)
  {
  }

  /** The profile screen receives the member exactly in the member role. */
  lemma {:induction false} ProfileGetsMemberOnlyAsMember(role: UserRole, classes: seq<GymClass>, coaches: seq<Coach>,
                                      hours: seq<GymHours>, member: Member)
    ensures var s := ScreenFor(role, ProfileTab, None, classes, coaches, hours, member);
      s.Profile? && s.role == role && (s.member.Some? <==> role == MemberRole) &&
      (s.member.Some? ==> s.member.value == member)
  {
  }

  // ---------------------------------------------------------------------
  // Initial data
  // ---------------------------------------------------------------------

  const InitialCoaches: seq<Coach> := [
    Coach("1", "Sarah Johnson", "sarah@gym.com", "Yoga & Pilates", None),
    Coach("2", "Mike Thompson", "mike@gym.com", "Strength Training", None),
    Coach("3", "Emily Chen", "emily@gym.com", "HIIT & Cardio", None)]

  const InitialClasses: seq<GymClass> := [
    GymClass("1", "Morning Yoga Flow", "Start your day with energizing yoga poses", "1",
             "Sarah Johnson", "2025-10-27", "08:00", 60, 20, 15, Yoga),
    GymClass("2", "Strength & Power", "Build muscle and increase strength", "2",
             "Mike Thompson", "2025-10-27", "10:00", 90, 15, 12, Strength),
    GymClass("3", "HIIT Bootcamp", "High intensity interval training for maximum results", "3",
             "Emily Chen", "2025-10-28", "18:00", 45, 25, 20, Hiit),
    GymClass("4", "Evening Pilates", "Core strengthening and flexibility", "1",
             "Sarah Johnson", "2025-10-29", "19:00", 60, 18, 10, Pilates)]

  const InitialHours: seq<GymHours> := [
    GymHours("Monday", "06:00", "22:00", false),
    GymHours("Tuesday", "06:00", "22:00", false),
    GymHours("Wednesday", "06:00", "22:00", false),
    GymHours("Thursday", "06:00", "22:00", false),
    GymHours("Friday", "06:00", "22:00", false),
    GymHours("Saturday", "08:00", "20:00", false),
    GymHours("Sunday", "08:00", "18:00", false)]

  const MockMember: Member :=
    Member("m1", "John Smith", "john@example.com", Premium, "2025-10-01", "2025-11-05", Active)

  /** The initial classes carry the counting ids "1" to "4", so the collision
      above happens on the initial data. */
  lemma {:induction false} InitialClassesHaveCountingIds()
    ensures |InitialClasses| == 4
    ensures forall i :: 0 <= i < 4 ==> InitialClasses[i].id == NextId(i)
  {
    assert NextId(0) == "1" && NextId(1) == "2" && NextId(2) == "3" && NextId(3) == "4";
  }

  /** On a Monday with the initial hours the gym is open at 21:59 and closed at
      22:01, when it next opens tomorrow at 06:00. */
  lemma {:induction false} InitialHoursOnMonday()
    ensures HoursScreen.IsOpenNow(InitialHours, 1, "21:59")
    ensures !HoursScreen.IsOpenNow(InitialHours, 1, "22:01")
    ensures HoursScreen.NextOpening(InitialHours, 1, "22:01") ==
              Some(HoursScreen.Opening("tomorrow", "06:00"))
  {
    assert HoursScreen.FindDay(InitialHours, "Monday") == Some(InitialHours[0]);
    assert HoursScreen.FindDay(InitialHours, "Tuesday") == Some(InitialHours[1]);
    assert HoursScreen.DaysOfWeek[1] == "Monday";
    assert HoursScreen.DayAfter(1, 1) == "Tuesday";
    assert "22:01"[3] == '0' && "22:00"[4] == '0' && "22:01"[4] == '1';
    assert HoursScreen.LexLess("22:00", "22:01");
    assert !HoursScreen.LexLess("22:01", "06:00");
    assert HoursScreen.OpensOn(InitialHours, HoursScreen.DayAfter(1, 1));
    assert HoursScreen.FirstOpenOffset(InitialHours, 1, 1) == 1;
  }

  // ---------------------------------------------------------------------
  // The store
  // ---------------------------------------------------------------------

  /** The component's state. The mock member has no setter, so it is fixed. */
  class AppState {
    var userRole: UserRole
    var activeTab: Tab
    var selectedWorkout: Option<GymClass>
    var coaches: seq<Coach>
    var classes: seq<GymClass>
    var hours: seq<GymHours>
    const mockMember: Member

    /** The initial state: the member role on the home tab, nothing selected,
        and the mock data. */
    constructor ()
      ensures userRole == MemberRole && activeTab == HomeTab && selectedWorkout == None
      ensures coaches == InitialCoaches && classes == InitialClasses && hours == InitialHours
      ensures mockMember == MockMember
    {
      userRole := MemberRole;
      activeTab := HomeTab;
      selectedWorkout := None;
      coaches := InitialCoaches;
      classes := InitialClasses;
      hours := InitialHours;
      mockMember := MockMember;
    }

    /** What is on screen now. */
    function CurrentScreen(): (s: Screen)
      reads this
      ensures s == WorkoutDetail <==> selectedWorkout.Some?
      ensures selectedWorkout.None? && activeTab == HomeTab && userRole == MemberRole ==> s == MemberHome
      ensures selectedWorkout.None? && activeTab == WorkoutsTab ==> s == WorkoutsList(classes)
      ensures selectedWorkout.None? && activeTab == HoursTab ==> s == Hours(hours)
    {
      ScreenFor(userRole, activeTab, selectedWorkout, classes, coaches, hours, mockMember)
    }

    /** `handleAddClass`. */
    method AddClass(newClass: NewClass)
      modifies this`classes
      ensures classes == AppendClass(old(classes), newClass)
    {
      classes := classes + [ClassWithId(newClass, NextId(|classes|))];
    }

    /** `handleDeleteClass`. */
    method DeleteClass(id: string)
      modifies this`classes
      ensures classes == RemoveClass(old(classes), id)
    {
      classes := Filter(classes, IdIsNot(id));
    }

    /** `handleUpdateHours`: the whole list is replaced. */
    method UpdateHours(updatedHours: seq<GymHours>)
      modifies this`hours
      ensures hours == updatedHours
    {
      hours := updatedHours;
    }

    /** `handleAddCoach`. */
    method AddCoach(newCoach: NewCoach)
      modifies this`coaches
      ensures coaches == AppendCoach(old(coaches), newCoach)
    {
      coaches := coaches + [CoachWithId(newCoach, NextId(|coaches|))];
    }

    /** `handleRoleChange`: the new role, back on the home tab with nothing
        selected, so the home screen of that role shows. */
    method RoleChange(newRole: UserRole)
      modifies this`userRole, this`activeTab, this`selectedWorkout
      ensures userRole == newRole && activeTab == HomeTab && selectedWorkout == None
      ensures CurrentScreen() == ScreenFor(newRole, HomeTab, None, classes, coaches, hours, mockMember)
    {
      userRole := newRole;
      activeTab := HomeTab;
      selectedWorkout := None;
    }

    /** `handleClassSelect`: the detail screen shows, whatever the tab. */
    method ClassSelect(classItem: GymClass)
      modifies this`selectedWorkout
      ensures selectedWorkout == Some(classItem)
      ensures CurrentScreen() == WorkoutDetail
    {
      selectedWorkout := Some(classItem);
    }

    /** `handleBackFromWorkout`: the active tab's screen shows again. */
    method BackFromWorkout()
      modifies this`selectedWorkout
      ensures selectedWorkout == None
      ensures CurrentScreen() != WorkoutDetail
    {
      selectedWorkout := None;
    }

    /** The layout's `onTabChange`, `setActiveTab`. */
    method SetActiveTab(tab: Tab)
      modifies this`activeTab
      ensures activeTab == tab
    {
      activeTab := tab;
    }
  }
}
