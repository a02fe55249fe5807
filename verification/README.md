# Registration form validator — Dafny model

This project models the logic of the `UserForm` registration component
(`src/components/UserForm.jsx`). Everything else in the component is markup.
The model covers four things:

- the object schema that validates the form: per-field string minimums, the
  password's length floor and four character-class checks, the age and weekly
  hours bounds, the three-part profile-image check, the non-emptiness checks,
  and two optional booleans;
- the skills checkbox toggle;
- the newsletter switch;
- the submit handler with its reset to the form's default values.

All of it is modelled as pure functions over one immutable `Form` record.

Modules:

- `FormModel` (`form.dfy`) holds the form record and the schema's field names
  in declaration order (`Shape`). It also holds the defaults that `reset()`
  returns to, and `SetField`, a single-field update.
- `Rules` (`rules.dfy`) holds the schema. Each key's chain of checks yields a
  list of issues (`FieldIssues`, `PasswordIssues`, `ImageIssues`). The object
  parse collects them in key order (`IssuesOver`, `SchemaIssues`). The error
  map's keys are the paths of those issues (`Validate`). `Accepts` states each
  field's rule directly on its value, and `Validate` is proved to fail exactly
  the fields `Accepts` rejects.
- `SkillSelection` (`skills.dfy`) holds `toggleSkill` over a list of labels.
  `Without` is the `filter` that removes every occurrence of a label.
- `Submission` (`submit.dfy`) holds the newsletter switch, the skill click and
  the all-or-nothing submit. It also holds a run over any sequence of user
  actions, which proves that only valid values are ever emitted.
- `Boundaries` (`boundaries.dfy`) holds the schema's boundary values, each
  checked on an arbitrary form.

Modelling choices:

- Email syntax is checked by the validation library's own regular expression,
  which is not part of this model. Every validating function therefore takes
  it as a parameter, `isEmail: string -> bool`, and every property holds for
  any such predicate.
- String lengths are counted the way JavaScript's `.length` counts them, in
  UTF-16 code units (`Utf16Length`). A character at or above U+10000 counts
  as two. This applies to every `.min(n)` on a string and to the password's
  length floor.
- `age` and `avaliableHours` hold integers that are already coerced.
- The profile image is a list of `ImageFile(size, mimeType)` records. No file
  chosen is the empty list. All three image refinements treat `undefined`
  and an empty list alike, so an empty list fails all three.
- `newsletter` is `Option<bool>`. It starts as `None` (`undefined`). The
  switch stores `!newsletter`, so the first click turns it on. `reset()`
  returns it to `None`, not `false`.
- `defaultValues` sets only skills, remote and hours. Every other control is
  modelled as empty: `""` for text, `0` for age, no file.
- The role, experience and skills controls offer fixed options. The schema
  checks only that they are non-empty, not that they are among those options.
  The model follows the schema.
- Clicking a skill twice from "present" does not restore the original list.
  It restores the same set of skills, with the clicked skill moved to the end.

## Model

| member | source | states |
|---|---|---|
| Rules.Validate | src/components/UserForm.jsx:9-45 | A field is in the error set exactly when its rule fails. Remote and newsletter are never in it. |
| Rules.SchemaIssues | src/components/UserForm.jsx:9-45 | The object parse reports an issue under a key exactly when that key's rule rejects the value, for every key of the schema. |
| Rules.IssuesOver | src/components/UserForm.jsx:9-45 | Parsing any prefix of the keys in order reports issues only under those keys. It reports an issue under a key exactly when that key's rule fails. |
| Rules.FieldIssues | src/components/UserForm.jsx:10-44 | A key's check chain reports no issue exactly when the field satisfies its rule: string minimums 3/1/10, email, password strength, age ≥ 18, non-empty skills, 1 ≤ hours ≤ 60, an accepted image. The optional booleans never fail. |
| Rules.Utf16Length | src/components/UserForm.jsx:10 | A string's length as JavaScript counts it lies between its number of characters and twice that. |
| Rules.BmpLength | src/components/UserForm.jsx:10 | A string with no character at or above U+10000 has as many code units as characters. |
| Rules.Utf16LengthAppend | src/components/UserForm.jsx:10 | The length of a concatenation is the sum of the lengths. |
| Rules.ContainsClass | src/components/UserForm.jsx:15-19 | A regex test of a one-character class succeeds exactly when some character of the string is in the class. |
| Rules.PasswordIssues | src/components/UserForm.jsx:12-21 | Each of the five password checks is reported exactly when it fails: length below 8 UTF-16 code units, or no upper-case letter, lower-case letter, digit or listed symbol. All checks run, not just the first failing one. |
| Rules.PasswordIssuesEmptyIffStrong | src/components/UserForm.jsx:12-21 | A password gets no issue exactly when it has at least 8 UTF-16 code units and an A–Z, an a–z, a 0–9 and one of the nineteen listed symbols at some position. |
| Rules.ImageIssues | src/components/UserForm.jsx:33-43 | With no file, all three image refinements fail. Otherwise "missing" is never reported, "too large" exactly when the first file exceeds 2 MiB, and "wrong type" exactly when its MIME type is neither JPEG nor PNG. |
| Rules.ImageIssuesEmptyIffAccepted | src/components/UserForm.jsx:33-43 | The image passes exactly when a file is present, the first file is at most 2·1024·1024 bytes, and its type is `image/jpeg` or `image/png`. |
| Rules.OnlyFirstFileMatters | src/components/UserForm.jsx:37-41 | Files after the first never change the image verdict. |
| Boundaries.TextMinimums | src/components/UserForm.jsx:10 | A two-code-unit name fails and a three-unit one passes. A nine-unit bio fails and a ten-unit one passes. |
| Boundaries.NameMinimum | src/components/UserForm.jsx:10 | The name rule rejects "Al" and accepts "Ali". |
| Boundaries.BioMinimum | src/components/UserForm.jsx:32 | The bio rule rejects nine digits and accepts ten. |
| Boundaries.AstralNameLength | src/components/UserForm.jsx:10 | A name of one character beyond U+FFFF and one ASCII letter is three code units long and passes the name minimum. |
| Boundaries.AstralPasswordLength | src/components/UserForm.jsx:14 | Six ASCII characters and one emoji are eight code units long and meet the password's length floor. |
| Boundaries.AgeBoundary | src/components/UserForm.jsx:22 | Age 17 is rejected and 18 is accepted, whatever the other fields hold. |
| Boundaries.HoursBoundary | src/components/UserForm.jsx:28-31 | Weekly hours 0 and 61 are rejected; 1 and 60 are accepted. |
| Boundaries.StrongPasswordExample | src/components/UserForm.jsx:12-21 | "Abcd123!" raises no password issue and passes the password field. |
| Boundaries.StrongPasswordValue | src/components/UserForm.jsx:12-21 | "Abcd123!" is eight code units long and has an upper-case letter, a lower-case letter, a digit and a listed symbol. |
| Boundaries.LowerCaseOnlyPassword | src/components/UserForm.jsx:14-21 | A password of at least eight lower-case letters fails exactly the upper-case, digit and symbol checks, in that order. |
| Boundaries.WeakPasswordIssues | src/components/UserForm.jsx:15-21 | "abcdefgh" raises exactly the upper-case, digit and symbol issues. |
| Boundaries.WeakPasswordExample | src/components/UserForm.jsx:12-21 | "abcdefgh" fails the password field. |
| Boundaries.ImageExamples | src/components/UserForm.jsx:6-7 | A 2 MiB JPEG passes. A 2 MiB + 1 byte PNG fails only the size check. A PDF fails the type check at any size, and no file fails the image field. |
| SkillSelection.Without | src/components/UserForm.jsx:71 | The filter removes every occurrence of the label and keeps every other element with its multiplicity. A list without the label is returned unchanged. |
| SkillSelection.ToggleSkill | src/components/UserForm.jsx:69-74 | Toggling flips the clicked label's membership and leaves every other label's membership as it was. An absent label is appended at the end: the result is the list followed by the label. A present label is filtered out: the result is `Without` of the list, which is shorter. |
| SkillSelection.ToggleTwiceFromAbsent | src/components/UserForm.jsx:69-74 | Two clicks on an unchecked skill give back exactly the original list. |
| SkillSelection.ToggleTwiceFromPresent | src/components/UserForm.jsx:69-74 | Two clicks on a checked skill give the list without that skill, followed by the skill. The set of selected skills is unchanged. |
| SkillSelection.ToggleKeepsNoDuplicates | src/components/UserForm.jsx:69-74 | Toggling keeps a list with no repeated label free of repeats. |
| SkillSelection.WithoutAppend | src/components/UserForm.jsx:71 | Filtering a concatenation is the concatenation of the filtered parts. |
| FormModel.DefaultValues | src/components/UserForm.jsx:57-64 | Only skills (`[]`), remote (`false`) and hours (`0`) get a value from the default values. Every other control is modelled empty: `""` for text, `0` for age, no file. The newsletter switch is `None` (`undefined`). `reset()` returns to this record. |
| FormModel.SetField | src/components/UserForm.jsx:73 | Setting a field gives it the new value when the value is of the field's kind, and leaves every other field as it was. |
| Submission.ToggleNewsletter | src/components/UserForm.jsx:340 | The switch always ends up set, its truthiness is flipped, and no other field changes. |
| Submission.NewsletterTwice | src/components/UserForm.jsx:340 | Two clicks restore the switch's truthiness, and restore the form exactly once the switch has been set. |
| Submission.NewsletterNeverBlocksSubmit | src/components/UserForm.jsx:44 | Clicking the switch never changes which fields fail. |
| Submission.ClickSkill | src/components/UserForm.jsx:69-74 | Clicking a skill stores `ToggleSkill` of the selected list, so every other selected skill keeps its membership and order. It flips that skill's membership and changes no other field. |
| Submission.Submit | src/components/UserForm.jsx:61-65 | Values are emitted exactly when every field satisfies its rule. On emission the emitted value is the current form and the state becomes the defaults. Otherwise nothing is emitted and the state is unchanged. |
| Submission.DefaultIsRejected | src/components/UserForm.jsx:57 | The default form fails name, password, age, role, skills, experience, start date, hours (0 < 1), bio and image. |
| Submission.NoSubmitRightAfterReset | src/components/UserForm.jsx:57-64 | A successful submit is never followed by another emission from the reset state. |
| Submission.Presses | src/components/UserForm.jsx:354 | The press count is zero exactly when no action is a press of the submit button, so with `Run` such a sequence emits nothing. |
| Submission.Step | src/components/UserForm.jsx:83 | Only a press of the submit button emits, and it emits the current values. |
| Submission.Run | src/components/UserForm.jsx:83 | Over any sequence of edits, clicks and presses, every emitted value passes every field's rule, and there are never more emissions than presses of the submit button. |
| Submission.VerdictIsLocal | src/components/UserForm.jsx:9-45 | A field's verdict depends only on that field's value. |
| Submission.SingleViolation | src/components/UserForm.jsx:61-65 | Breaking one field's rule in a valid form makes that field the only error, and submitting then emits nothing and keeps the state. |
| Submission.EditTouchesOneVerdict | src/components/UserForm.jsx:9-45 | Setting one field leaves every other field's verdict unchanged. |

## Left out

- Rendering, styling, labels, and the `?? 1` fallback in the hours label
  (lines 76–362) are presentation only.
- The validation library's email regular expression (line 11) is library code
  outside this model. It is a parameter of every validating member.
- Numeric coercion (`z.coerce.number()`, `valueAsNumber`) is not modelled:
  floats, `NaN`, and `""` becoming 0. Age and hours are integers.
- The schema's type checks on raw values are not modelled. These cover a
  missing key reported as required, a non-boolean `remote`, and a non-number
  hours value. The `Form` record's types rule them out.
- The form library's internals are not modelled: `register`, `watch`,
  re-validation on every change, and how `handleSubmit` gates `onSubmit`. The
  model states the resulting contract. The error set computed on submit is
  `Validate` of the state; which errors are displayed between submits is not
  modelled.
- Error messages are modelled as rule kinds with their bounds, not text. Which
  single issue is shown when a field has several is not modelled.
- Browser `File`/`FileList` objects and the picker's `accept` filter are not
  modelled. A file is its size and MIME type.
- `console.log` and `alert` (lines 62–63) are output side effects. The emitted
  value is returned in `Outcome.emitted` instead.
