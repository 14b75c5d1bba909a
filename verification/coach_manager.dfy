/** The owner's coach form and the coach list's avatar initials. */
module CoachManager {
  import opened Collections
  import opened GymTypes

  // ---------------------------------------------------------------------
  // The form
  // ---------------------------------------------------------------------

  /** `formData`: name, email and specialty, as typed. */
  datatype CoachForm = CoachForm(name: string, email: string, specialty: string)

  const EmptyCoachForm: CoachForm := CoachForm("", "", "")

  /** One input's change handler. */
  datatype CoachEdit = EditName(name: string) | EditEmail(email: string) | EditSpecialty(specialty: string)

  /** The form after one edit: the edited field takes the new value and the
      other two keep theirs. */
  function ApplyCoachEdit(f: CoachForm, e: CoachEdit): (g: CoachForm)
    ensures e.EditName? ==> g.name == e.name && g.email == f.email && g.specialty == f.specialty
    ensures e.EditEmail? ==> g.email == e.email && g.name == f.name && g.specialty == f.specialty
    ensures e.EditSpecialty? ==> g.specialty == e.specialty && g.name == f.name && g.email == f.email
  {
    match e
    case EditName(v) => f.(name := v)
    case EditEmail(v) => f.(email := v)
    case EditSpecialty(v) => f.(specialty := v)
  }

  /** What `handleSubmit` hands to `onAddCoach`: the three fields verbatim,
      with no avatar; nothing is checked. */
  function CoachSubmission(f: CoachForm): (c: NewCoach)
    ensures c.name == f.name && c.email == f.email && c.specialty == f.specialty && c.avatar.None?
  {
    NewCoach(f.name, f.email, f.specialty, None)
  }

  /** Typing the three fields into an empty form and submitting hands over
      exactly what was typed. */
  lemma {:induction false} TypedFieldsAreSubmitted(name: string, email: string, specialty: string)
    ensures var f := ApplyCoachEdit(ApplyCoachEdit(ApplyCoachEdit(EmptyCoachForm,
               EditName(name)), EditEmail(email)), EditSpecialty(specialty));
      CoachSubmission(f) == NewCoach(name, email, specialty, None)
  {
  }

  /** The component's form state. */
  class CoachManagerForm {
    var formData: CoachForm

    constructor ()
      ensures formData == EmptyCoachForm
    {
      formData := EmptyCoachForm;
    }

    method Edit(e: CoachEdit)
      modifies this
      ensures formData == ApplyCoachEdit(old(formData), e)
    {
      formData := ApplyCoachEdit(formData, e);
    }

    /** `handleSubmit`: submit the fields and empty all three. */
    method Submit() returns (submitted: NewCoach)
      modifies this
      ensures submitted == CoachSubmission(old(formData))
      ensures formData == EmptyCoachForm
    {
      submitted := NewCoach(formData.name, formData.email, formData.specialty, None);
      formData := EmptyCoachForm;
    }
  }

  // ---------------------------------------------------------------------
  // Initials
  // ---------------------------------------------------------------------

  /** `s.split(' ')`: the pieces between single spaces, empty pieces included,
      and always at least one piece. */
  function Split(s: string): (parts: seq<string>)
    ensures |parts| >= 1
    ensures forall i :: 0 <= i < |parts| ==> ' ' !in parts[i]
    decreases |s|
  {
    if |s| == 0 then [""]
    else if s[0] == ' ' then [""] + Split(s[1..])
    else
      var rest := Split(s[1..]);
      [[s[0]] + rest[0]] + rest[1..]
  }

  /** `parts.join(' ')`. */
  function Join(parts: seq<string>): string
    requires |parts| >= 1
    decreases |parts|
  {
    if |parts| == 1 then parts[0] else parts[0] + " " + Join(parts[1..])
  }

  /** Splitting then joining gives the name back. */
  lemma {:induction false} JoinSplit(s: string)
    ensures Join(Split(s)) == s
    decreases |s|
  {
    if |s| > 0 {
      JoinSplit(s[1..]);
      var rest := Split(s[1..]);
      if s[0] == ' ' {
        assert ([""] + rest)[1..] == rest;
        assert s == [' '] + s[1..];
      } else if |rest| == 1 {
        assert s == [s[0]] + s[1..];
      } else {
        var parts := [[s[0]] + rest[0]] + rest[1..];
        assert parts[1..] == rest[1..];
        assert rest[1..][1..] == rest[2..];
        assert Join(rest) == rest[0] + " " + Join(rest[1..]);
        assert s == [s[0]] + s[1..];
      }
    }
  }

  /** `parts.map(n => n[0]).join('')`: the first character of each part; an
      empty part gives `undefined`, which joins as nothing. */
  function FirstChars(parts: seq<string>): (r: string)
    ensures |r| <= |parts|
    decreases |parts|
  {
    if |parts| == 0 then []
    else (if |parts[0]| > 0 then [parts[0][0]] else []) + FirstChars(parts[1..])
  }

  /** The avatar initials of a coach name. */
  function Initials(name: string): (r: string)
    ensures |r| <= |Split(name)|
  {
    FirstChars(Split(name))
  }

  /** An independent reading of the same text: the characters that are not a
      space and either open the text (`atStart`) or follow a space. */
  function WordStarts(s: string, atStart: bool): string
    decreases |s|
  {
    if |s| == 0 then []
    else (if s[0] != ' ' && atStart then [s[0]] else []) + WordStarts(s[1..], s[0] == ' ')
  }

  /** The initials are exactly the word starts, in order. The second half
      covers the text after the first part, the middle of a word. */
  lemma {:induction false} InitialsAreWordStarts(s: string)
    ensures FirstChars(Split(s)) == WordStarts(s, true)
    ensures FirstChars(Split(s)[1..]) == WordStarts(s, false)
    decreases |s|
  {
    if |s| > 0 {
      InitialsAreWordStarts(s[1..]);
      var rest := Split(s[1..]);
      if s[0] == ' ' {
        assert Split(s) == [""] + rest;
        assert ([""] + rest)[1..] == rest;
      } else {
        var parts := [[s[0]] + rest[0]] + rest[1..];
        assert Split(s) == parts;
        assert parts[1..] == rest[1..];
      }
    }
  }

  /** Inside a word, its remaining letters start nothing. */
  lemma {:induction false} InsideWord(w: string, rest: string)
    requires ' ' !in w
    ensures WordStarts(w + rest, false) == WordStarts(rest, false)
    decreases |w|
  {
    if |w| > 0 {
      assert w[0] in w;
      assert (w + rest)[0] == w[0];
      assert (w + rest)[1..] == w[1..] + rest;
      assert forall c :: c in w[1..] ==> c in w;
      InsideWord(w[1..], rest);
    } else {
      assert w + rest == rest;
    }
  }

  /** A word that opens the text (or follows a space) gives its first letter. */
  lemma {:induction false} WordStartsWord(c: char, w: string, rest: string)
    requires c != ' ' && ' ' !in w
    ensures WordStarts([c] + w + rest, true) == [c] + WordStarts(rest, false)
  {
    assert ([c] + w + rest)[1..] == w + rest;
    InsideWord(w, rest);
  }

  /** A space opens a word. */
  lemma {:induction false} AfterSpace(rest: string, atStart: bool)
    ensures WordStarts([' '] + rest, atStart) == WordStarts(rest, true)
  {
    assert ([' '] + rest)[1..] == rest;
  }

  /** A first and a last name, one space apart, give their two first letters. */
  lemma {:induction false} TwoWordInitials(c1: char, w1: string, c2: char, w2: string)
    requires c1 != ' ' && c2 != ' ' && ' ' !in w1 && ' ' !in w2
    ensures Initials([c1] + w1 + " " + [c2] + w2) == [c1, c2]
  {
    var second := [c2] + w2;
    var tail := [' '] + second;
    var s := [c1] + w1 + tail;
    assert [c1] + w1 + " " + [c2] + w2 == s;
    InitialsAreWordStarts(s);
    WordStartsWord(c1, w1, tail);
    AfterSpace(second, false);
    assert second == [c2] + w2 + [];
    WordStartsWord(c2, w2, []);
  }

  /** The header example: "Sarah Johnson" gives "SJ". */
  lemma {:induction false} InitialsExample()
    ensures Initials("Sarah Johnson") == "SJ"
  {
    assert "Sarah Johnson" == ['S'] + "arah" + " " + ['J'] + "ohnson";
    TwoWordInitials('S', "arah", 'J', "ohnson");
  }

  /** Splitting at a space starts a new, so far empty, part. */
  lemma {:induction false} SplitAtSpace(rest: string)
    ensures Split([' '] + rest) == [""] + Split(rest)
  {
    assert ([' '] + rest)[1..] == rest;
  }

  /** Splitting at another character extends the first part. */
  lemma {:induction false} SplitAtChar(c: char, rest: string)
    requires c != ' '
    ensures Split([c] + rest) == [[c] + Split(rest)[0]] + Split(rest)[1..]
  {
    assert ([c] + rest)[1..] == rest;
  }

  /** A double space makes an empty part, which gives no initial: there are
      then fewer initials than parts. */
  lemma {:induction false} DoubleSpaceGivesNoInitial()
    ensures |Split("A  B")| == 3 && Initials("A  B") == "AB"
  {
    SplitAtChar('B', "");
    assert ['B'] + "" == "B";
    SplitAtSpace("B");
    SplitAtSpace(" B");
    SplitAtChar('A', "  B");
    assert ['A'] + "" == "A";
    assert Split("A  B") == ["A", "", "B"];
    assert ["A", "", "B"][1..] == ["", "B"];
    assert ["", "B"][1..] == ["B"];
  }
}
