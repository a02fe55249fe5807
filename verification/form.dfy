/**
 The values held by the registration form: one record with a slot per schema
 key, the field names used as error-map keys, and the defaults the form starts
 from and is reset to.
 */
module FormModel {

  /** JavaScript's `undefined` versus a present value. */
  datatype Option<+T> = None | Some(value: T)

  /** A selected file as the schema sees it: its byte size and its MIME type. */
  datatype ImageFile = ImageFile(size: nat, mimeType: string)

  /** The keys of the schema object, which are also the keys of the error map. */
  datatype Field =
    | FullName | Email | Password | Age | Role | Skills | Experience
    | Remote | StartDate | AvaliableHours | Bio | ProfileImage | Newsletter

  /** The schema's keys in declaration order. */
  const Shape: seq<Field> :=
    [FullName, Email, Password, Age, Role, Skills, Experience,
     Remote, StartDate, AvaliableHours, Bio, ProfileImage, Newsletter]

  lemma ShapeCoversEveryField()
    ensures forall fld :: fld in Shape
  {
    forall fld ensures fld in Shape {
      match fld
      case FullName => assert Shape[0] == fld;
      case Email => assert Shape[1] == fld;
      case Password => assert Shape[2] == fld;
      case Age => assert Shape[3] == fld;
      case Role => assert Shape[4] == fld;
      case Skills => assert Shape[5] == fld;
      case Experience => assert Shape[6] == fld;
      case Remote => assert Shape[7] == fld;
      case StartDate => assert Shape[8] == fld;
      case AvaliableHours => assert Shape[9] == fld;
      case Bio => assert Shape[10] == fld;
      case ProfileImage => assert Shape[11] == fld;
      case Newsletter => assert Shape[12] == fld;
    }
  }

  /**
   The live form values. `age` and `avaliableHours` hold the numbers after
   coercion; `profileImage` is the selected file list (empty when nothing is
   chosen); `newsletter` is `None` until the switch is first clicked.
   */
  datatype Form = Form(
    fullName: string,
    email: string,
    password: string,
    age: int,
    role: string,
    skills: seq<string>,
    experience: string,
    remote: bool,
    startDate: string,
    avaliableHours: int,
    bio: string,
    profileImage: seq<ImageFile>,
    newsletter: Option<bool>
  )

  /**
   The state on mount and after `reset()`: skills empty, remote off, zero
   hours; every other control is empty and the newsletter switch is unset.
   */
  const Default: Form :=
    Form("", "", "", 0, "", [], "", false, "", 0, "", [], None)

  /**
   Only three fields get a value from `defaultValues`; the rest start empty and
   the newsletter switch starts unset.
   */
  lemma DefaultValues()
    ensures Default.skills == [] && !Default.remote && Default.avaliableHours == 0
    ensures Default.newsletter == None && Default.profileImage == []
    ensures Default.fullName == "" && Default.email == "" && Default.password == ""
    ensures Default.role == "" && Default.experience == "" && Default.startDate == ""
    ensures Default.bio == "" && Default.age == 0
  {
  }

  /** One field's value, tagged with the kind of control that produces it. */
  datatype FieldValue =
    | Text(text: string)
    | Number(number: int)
    | Labels(labels: seq<string>)
    | Flag(flag: bool)
    | Files(files: seq<ImageFile>)
    | MaybeFlag(maybe: Option<bool>)

  /** The value the form holds for `fld`. */
  function Value(f: Form, fld: Field): FieldValue {
    match fld
    case FullName => Text(f.fullName)
    case Email => Text(f.email)
    case Password => Text(f.password)
    case Age => Number(f.age)
    case Role => Text(f.role)
    case Skills => Labels(f.skills)
    case Experience => Text(f.experience)
    case Remote => Flag(f.remote)
    case StartDate => Text(f.startDate)
    case AvaliableHours => Number(f.avaliableHours)
    case Bio => Text(f.bio)
    case ProfileImage => Files(f.profileImage)
    case Newsletter => MaybeFlag(f.newsletter)
  }

  /** Whether `v` is the kind of value the control for `fld` produces. */
  predicate Fits(fld: Field, v: FieldValue) {
    match fld
    case Age | AvaliableHours => v.Number?
    case Skills => v.Labels?
    case Remote => v.Flag?
    case ProfileImage => v.Files?
    case Newsletter => v.MaybeFlag?
    case _ => v.Text?
  }

  /**
   A `setValue(fld, v)`: the one field takes the new value and every other
   field keeps its own. A value of the wrong kind changes nothing.
   */
  function SetField(f: Form, fld: Field, v: FieldValue): (r: Form)
    ensures Fits(fld, v) ==> Value(r, fld) == v
    ensures !Fits(fld, v) ==> r == f
    ensures forall other :: other != fld ==> Value(r, other) == Value(f, other)
  {
    match (fld, v)
    case (FullName, Text(s)) => f.(fullName := s)
    case (Email, Text(s)) => f.(email := s)
    case (Password, Text(s)) => f.(password := s)
    case (Age, Number(n)) => f.(age := n)
    case (Role, Text(s)) => f.(role := s)
    case (Skills, Labels(ls)) => f.(skills := ls)
    case (Experience, Text(s)) => f.(experience := s)
    case (Remote, Flag(b)) => f.(remote := b)
    case (StartDate, Text(s)) => f.(startDate := s)
    case (AvaliableHours, Number(n)) => f.(avaliableHours := n)
    case (Bio, Text(s)) => f.(bio := s)
    case (ProfileImage, Files(fs)) => f.(profileImage := fs)
    case (Newsletter, MaybeFlag(o)) => f.(newsletter := o)
    case _ => f
  }

  /** Two forms that agree on every field are the same form. */
  lemma ValuesDetermineForm(f: Form, g: Form)
    requires forall fld :: Value(f, fld) == Value(g, fld)
    ensures f == g
  {
    assert Value(f, FullName) == Value(g, FullName);
    assert Value(f, Email) == Value(g, Email);
    assert Value(f, Password) == Value(g, Password);
    assert Value(f, Age) == Value(g, Age);
    assert Value(f, Role) == Value(g, Role);
    assert Value(f, Skills) == Value(g, Skills);
    assert Value(f, Experience) == Value(g, Experience);
    assert Value(f, Remote) == Value(g, Remote);
    assert Value(f, StartDate) == Value(g, StartDate);
    assert Value(f, AvaliableHours) == Value(g, AvaliableHours);
    assert Value(f, Bio) == Value(g, Bio);
    assert Value(f, ProfileImage) == Value(g, ProfileImage);
    assert Value(f, Newsletter) == Value(g, Newsletter);
  }
}
