/**
 The form's state transitions: field edits, the skill checkboxes, the
 newsletter switch and the submit button. Submitting is all-or-nothing: the
 values are emitted only when the schema reports no error, and a successful
 submit resets the form to its defaults.
 */
module Submission {
  import opened FormModel
  import opened Rules
  import opened SkillSelection

  /** JavaScript truthiness of the switch's value: `undefined` reads as off. */
  predicate IsOn(n: Option<bool>) {
    n == Some(true)
  }

  /** The newsletter switch's click: stores `!newsletter`, so an unset switch turns on. */
  function ToggleNewsletter(f: Form): (r: Form)
    ensures r.newsletter.Some?
    ensures IsOn(r.newsletter) <==> !IsOn(f.newsletter)
    ensures forall fld :: fld != Newsletter ==> Value(r, fld) == Value(f, fld)
  {
    f.(newsletter := Some(!IsOn(f.newsletter)))
  }

  /** The skill checkbox's click: only the skills list changes. */
  function ClickSkill(f: Form, skill: string): (r: Form)
    ensures r.skills == ToggleSkill(f.skills, skill)
    ensures skill in r.skills <==> skill !in f.skills
    ensures forall fld :: fld != Skills ==> Value(r, fld) == Value(f, fld)
  {
    SetField(f, Skills, Labels(ToggleSkill(f.skills, skill)))
  }

  /** What a submit attempt produces: the emitted values, if any, and the next state. */
  datatype Outcome = Outcome(emitted: Option<Form>, state: Form)

  /**
   The submit button: with no error the current values are emitted and the
   form is reset to its defaults; with any error nothing is emitted and the
   form stays as it is.
   */
  function Submit(isEmail: string -> bool, f: Form): (o: Outcome)
    ensures o.emitted.Some? <==> forall fld :: Accepts(isEmail, f, fld)
    ensures o.emitted.Some? ==> o.emitted.value == f && o.state == Default
    ensures o.emitted.None? ==> o.state == f
  {
    if Validate(isEmail, f) == {} then Outcome(Some(f), Default)
    else
      assert exists fld :: fld in Validate(isEmail, f);
      Outcome(None, f)
  }

  /** The defaults never pass the schema: zero weekly hours is below the minimum. */
  lemma DefaultIsRejected(isEmail: string -> bool)
    ensures Validate(isEmail, Default) >= {FullName, Password, Age, Role, Skills, Experience,
                                           StartDate, AvaliableHours, Bio, ProfileImage}
  {
    var d := Default;
    assert !Accepts(isEmail, d, FullName) && !Accepts(isEmail, d, Age);
    assert !Accepts(isEmail, d, Role) && !Accepts(isEmail, d, Skills);
    assert !Accepts(isEmail, d, Experience) && !Accepts(isEmail, d, StartDate);
    assert !Accepts(isEmail, d, AvaliableHours) && !Accepts(isEmail, d, Bio);
    assert !Accepts(isEmail, d, Password) by {
      assert !StrongPassword(d.password);
    }
    assert !Accepts(isEmail, d, ProfileImage) by {
      assert !ImageAccepted(d.profileImage);
    }
  }

  /** Submitting twice in a row never emits twice: the reset form cannot submit unchanged. */
  lemma NoSubmitRightAfterReset(isEmail: string -> bool, f: Form)
    ensures Submit(isEmail, Submit(isEmail, f).state).emitted.Some? ==> Submit(isEmail, f).emitted.None?
  {
    if Submit(isEmail, f).emitted.Some? {
      DefaultIsRejected(isEmail);
      assert !Accepts(isEmail, Default, AvaliableHours);
    }
  }

  /** A user action on the form. */
  datatype Event =
    | Edit(field: Field, value: FieldValue)
    | CheckSkill(skill: string)
    | FlipNewsletter
    | Press

  function Step(isEmail: string -> bool, f: Form, e: Event): (o: Outcome)
    ensures o.emitted.Some? ==> e.Press? && o.emitted.value == f
  {
    match e
    case Edit(fld, v) => Outcome(None, SetField(f, fld, v))
    case CheckSkill(s) => Outcome(None, ClickSkill(f, s))
    case FlipNewsletter => Outcome(None, ToggleNewsletter(f))
    case Press => Submit(isEmail, f)
  }

  /** How many of the actions are presses of the submit button: none exactly when no action is a press. */
  function Presses(events: seq<Event>): (n: nat)
    ensures n == 0 <==> forall i :: 0 <= i < |events| ==> !events[i].Press?
  {
    if |events| == 0 then 0
    else (if events[0].Press? then 1 else 0) + Presses(events[1..])
  }

  /** Where a sequence of actions leaves the form, and every value it emitted, in order. */
  datatype Trace = Trace(final: Form, emitted: seq<Form>)

  /**
   Runs the actions from state `f`. Whatever the actions, every emitted value
   passes every field's rule, and at most one value is emitted per press.
   */
  function Run(isEmail: string -> bool, f: Form, events: seq<Event>): (t: Trace)
    ensures forall x :: x in t.emitted ==> Validate(isEmail, x) == {}
    ensures |t.emitted| <= Presses(events)
    decreases |events|
  {
    if |events| == 0 then Trace(f, [])
    else
      var o := Step(isEmail, f, events[0]);
      var rest := Run(isEmail, o.state, events[1..]);
      match o.emitted
      case None => rest
      case Some(x) =>
        assert Validate(isEmail, x) == {} by {
          forall fld ensures fld !in Validate(isEmail, x) {
            assert Accepts(isEmail, x, fld);
          }
        }
        Trace(rest.final, [x] + rest.emitted)
  }

  /** Each field's verdict depends on that field's value alone. */
  lemma VerdictIsLocal(isEmail: string -> bool, f: Form, g: Form, fld: Field)
    requires Value(f, fld) == Value(g, fld)
    ensures fld in Validate(isEmail, f) <==> fld in Validate(isEmail, g)
  {
  }

  /**
   Breaking one rule of a valid form makes that field the only error, and
   submitting the result emits nothing and keeps the state.
   */
  lemma SingleViolation(isEmail: string -> bool, f: Form, fld: Field, v: FieldValue)
    requires Validate(isEmail, f) == {}
    requires !Accepts(isEmail, SetField(f, fld, v), fld)
    ensures Validate(isEmail, SetField(f, fld, v)) == {fld}
    ensures Submit(isEmail, SetField(f, fld, v)) == Outcome(None, SetField(f, fld, v))
  {
    var g := SetField(f, fld, v);
    forall other | other != fld
      ensures other !in Validate(isEmail, g)
    {
      VerdictIsLocal(isEmail, f, g, other);
    }
  }

  /** An edit can change only the edited field's verdict. */
  lemma EditTouchesOneVerdict(isEmail: string -> bool, f: Form, fld: Field, v: FieldValue)
    ensures Validate(isEmail, SetField(f, fld, v)) - {fld} == Validate(isEmail, f) - {fld}
  {
    var g := SetField(f, fld, v);
    forall other | other != fld
      ensures other in Validate(isEmail, g) <==> other in Validate(isEmail, f)
    {
      VerdictIsLocal(isEmail, f, g, other);
    }
  }

  /** Flipping the newsletter switch twice restores a switch that was set. */
  lemma NewsletterTwice(f: Form)
    ensures IsOn(ToggleNewsletter(ToggleNewsletter(f)).newsletter) == IsOn(f.newsletter)
    ensures f.newsletter.Some? ==> ToggleNewsletter(ToggleNewsletter(f)) == f
  {
    var once := ToggleNewsletter(f);
    var twice := ToggleNewsletter(once);
    assert twice.newsletter == Some(!IsOn(once.newsletter));
    if f.newsletter.Some? {
      assert twice.newsletter == f.newsletter by {
        if f.newsletter.value {
          assert once.newsletter == Some(false);
        } else {
          assert once.newsletter == Some(true);
        }
      }
      ValuesDetermineForm(twice, f);
    }
  }

  /** The switch is optional: flipping it never changes which fields fail. */
  lemma NewsletterNeverBlocksSubmit(isEmail: string -> bool, f: Form)
    ensures Validate(isEmail, ToggleNewsletter(f)) == Validate(isEmail, f)
  {
    var g := ToggleNewsletter(f);
    forall fld ensures fld in Validate(isEmail, g) <==> fld in Validate(isEmail, f) {
      if fld != Newsletter {
        VerdictIsLocal(isEmail, f, g, fld);
      }
    }
  }
}
