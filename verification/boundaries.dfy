/**
 The schema's boundary values, checked on an arbitrary form: only the field
 under test is set, so each fact holds whatever the other fields contain.
 */
module Boundaries {
  import opened FormModel
  import opened Rules

  /** Lengths are counted in UTF-16 code units: the name needs 3, the bio needs 10. */
  lemma TextMinimums(isEmail: string -> bool, f: Form)
    ensures FullName in Validate(isEmail, f.(fullName := "Al"))
    ensures FullName !in Validate(isEmail, f.(fullName := "Ali"))
    ensures Bio in Validate(isEmail, f.(bio := "123456789"))
    ensures Bio !in Validate(isEmail, f.(bio := "1234567890"))
  {
    NameMinimum(isEmail, f);
    BioMinimum(isEmail, f);
  }

  lemma NameMinimum(isEmail: string -> bool, f: Form)
    ensures !Accepts(isEmail, f.(fullName := "Al"), FullName)
    ensures Accepts(isEmail, f.(fullName := "Ali"), FullName)
  {
    BmpLength("Al");
    BmpLength("Ali");
  }

  lemma BioMinimum(isEmail: string -> bool, f: Form)
    ensures !Accepts(isEmail, f.(bio := "123456789"), Bio)
    ensures Accepts(isEmail, f.(bio := "1234567890"), Bio)
  {
    DigitStringLengths();
  }

  /** The bio examples are built from digits, one code unit each. */
  lemma DigitStringLengths()
    ensures Utf16Length("123456789") == 9 && Utf16Length("1234567890") == 10
  {
    var four, five := "1234", "56789";
    assert Utf16Length(four) == 4 && Utf16Length(five) == 5;
    assert four + five == "123456789";
    Utf16LengthAppend(four, five);
    assert "123456789" + "0" == "1234567890";
    Utf16LengthAppend("123456789", "0");
  }

  /**
   A character beyond the Basic Multilingual Plane counts as two code units, so
   a name made of one such letter and one ASCII letter passes the three-unit
   minimum.
   */
  lemma AstralNameLength(isEmail: string -> bool, f: Form)
    ensures Utf16Length("\U{1D49C}b") == 3
    ensures FullName !in Validate(isEmail, f.(fullName := "\U{1D49C}b"))
  {
    var name := "\U{1D49C}b";
    assert Utf16Length(name[1..]) == 1;
    assert Accepts(isEmail, f.(fullName := name), FullName);
  }

  /** Likewise six ASCII characters and one emoji reach the password's eight-unit floor. */
  lemma AstralPasswordLength()
    ensures Utf16Length("Abc12!\U{1F600}") == 8
    ensures TooShort !in PasswordIssues("Abc12!\U{1F600}")
  {
    var ascii, emoji := "Abc12!", "\U{1F600}";
    assert ascii + emoji == "Abc12!\U{1F600}";
    BmpLength(ascii);
    assert Utf16Length(emoji) == 2;
    Utf16LengthAppend(ascii, emoji);
  }

  /** 17 is rejected and 18 accepted. */
  lemma AgeBoundary(isEmail: string -> bool, f: Form)
    ensures Age in Validate(isEmail, f.(age := 17))
    ensures Age !in Validate(isEmail, f.(age := 18))
  {
    assert !Accepts(isEmail, f.(age := 17), Age);
    assert Accepts(isEmail, f.(age := 18), Age);
  }

  /** Weekly hours: 0 and 61 are rejected, 1 and 60 accepted. */
  lemma HoursBoundary(isEmail: string -> bool, f: Form)
    ensures AvaliableHours in Validate(isEmail, f.(avaliableHours := 0))
    ensures AvaliableHours !in Validate(isEmail, f.(avaliableHours := 1))
    ensures AvaliableHours !in Validate(isEmail, f.(avaliableHours := 60))
    ensures AvaliableHours in Validate(isEmail, f.(avaliableHours := 61))
  {
    var g0, g1, g60, g61 := f.(avaliableHours := 0), f.(avaliableHours := 1), f.(avaliableHours := 60), f.(avaliableHours := 61);
    assert !Accepts(isEmail, g0, AvaliableHours);
    assert Accepts(isEmail, g1, AvaliableHours);
    assert Accepts(isEmail, g60, AvaliableHours);
    assert !Accepts(isEmail, g61, AvaliableHours);
  }

  /** A password with all four classes and eight characters passes. */
  lemma StrongPasswordExample(isEmail: string -> bool, f: Form)
    ensures PasswordIssues("Abcd123!") == []
    ensures Password !in Validate(isEmail, f.(password := "Abcd123!"))
  {
    StrongPasswordValue();
    PasswordIssuesEmptyIffStrong("Abcd123!");
    assert Accepts(isEmail, f.(password := "Abcd123!"), Password);
  }

  /** "Abcd123!" has eight code units and a character of each class. */
  lemma StrongPasswordValue()
    ensures StrongPassword("Abcd123!")
  {
    var p := "Abcd123!";
    BmpLength(p);
    assert 'A' <= p[0] <= 'Z' && 'a' <= p[1] <= 'z';
    assert '0' <= p[4] <= '9' && p[7] in SpecialChars;
  }

  /**
   A password of eight or more lower-case letters fails exactly the upper-case,
   digit and symbol checks.
   */
  lemma LowerCaseOnlyPassword(p: string)
    requires Utf16Length(p) >= MinPasswordLength
    requires forall c :: c in p ==> 'a' <= c <= 'z'
    ensures PasswordIssues(p) == [NoUpper, NoDigit, NoSpecial]
  {
    forall c | c in p
      ensures !InClass(c, Upper) && !InClass(c, Digit) && !InClass(c, Special)
    {
    }
    assert p[0] in p;
    assert InClass(p[0], Lower);
  }

  lemma WeakPasswordIssues()
    ensures PasswordIssues("abcdefgh") == [NoUpper, NoDigit, NoSpecial]
  {
    var p := "abcdefgh";
    forall c | c in p
      ensures 'a' <= c <= 'z'
    {
      var i :| 0 <= i < |p| && p[i] == c;
    }
    BmpLength(p);
    LowerCaseOnlyPassword(p);
  }

  /** So the password field fails for that value. */
  lemma WeakPasswordExample(isEmail: string -> bool, f: Form)
    ensures Password in Validate(isEmail, f.(password := "abcdefgh"))
  {
    var g := f.(password := "abcdefgh");
    WeakPasswordIssues();
    PasswordIssuesEmptyIffStrong(g.password);
    assert !Accepts(isEmail, g, Password);
  }

  /** Exactly 2 MiB passes, one byte more fails, and a PDF fails at any size. */
  lemma ImageExamples(isEmail: string -> bool, f: Form, size: nat)
    ensures ImageIssues([ImageFile(2 * 1024 * 1024, "image/jpeg")]) == []
    ensures ImageIssues([ImageFile(2 * 1024 * 1024 + 1, "image/png")]) == [TooLarge]
    ensures WrongType in ImageIssues([ImageFile(size, "application/pdf")])
    ensures ProfileImage in Validate(isEmail, f.(profileImage := [ImageFile(size, "application/pdf")]))
    ensures ProfileImage in Validate(isEmail, f.(profileImage := []))
  {
    assert "application/pdf" !in AcceptedImageTypes;
    var pdf, none := f.(profileImage := [ImageFile(size, "application/pdf")]), f.(profileImage := []);
    assert !Accepts(isEmail, pdf, ProfileImage);
    assert !Accepts(isEmail, none, ProfileImage);
  }
}
