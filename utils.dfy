/** Phone and e-mail helpers and the application constants. */
module Utils {

  import opened Wrappers
  import opened JsString

  // Application constants; money in integer cents.
  const RestaurantName := "Calixto's Burger"
  const RestaurantPhone := "5511999999999"
  const DeliveryTime := "60-80 min"
  const DeliveryFeeCents := 599
  const MinOrderValueCents := 1500
  const MaxDescriptionLength := 100
  const MaxNameLength := 50
  const MaxAddressLength := 200

  /** `\d`: an ASCII decimal digit. */
  predicate IsDigit(c: char)
  {
    '0' <= c <= '9'
  }

  predicate AllDigits(s: string)
  {
    forall k :: 0 <= k < |s| ==> IsDigit(s[k])
  }

  /** `phone.replace(/\D/g, '')`: the digits of `phone`, in order. */
  function CleanPhoneNumber(phone: string): (r: string)
    ensures AllDigits(r)
    ensures |r| <= |phone|
  {
    if phone == [] then []
    else (if IsDigit(phone[0]) then [phone[0]] else []) + CleanPhoneNumber(phone[1..])
  }

  /** Cleaning keeps a single digit and drops any other character. */
  lemma CleanPhoneNumberChar(c: char)
    ensures CleanPhoneNumber([c]) == if IsDigit(c) then [c] else []
  {
    assert [c][1..] == [];
  }

  /**
   * Cleaning distributes over concatenation; with CleanPhoneNumberChar this
   * determines it as "keep the digits, in their original order".
   */
  lemma {:induction false} CleanPhoneNumberAppend(a: string, b: string)
    ensures CleanPhoneNumber(a + b) == CleanPhoneNumber(a) + CleanPhoneNumber(b)
  {
    if a == [] {
      assert a + b == b;
    } else {
      assert (a + b)[1..] == a[1..] + b;
      CleanPhoneNumberAppend(a[1..], b);
    }
  }

  /** A digit-only string is its own cleaning, so cleaning is idempotent. */
  lemma {:induction false} CleanPhoneNumberOfDigits(s: string)
    requires AllDigits(s)
    ensures CleanPhoneNumber(s) == s
  {
    if s != [] {
      CleanPhoneNumberOfDigits(s[1..]);
    }
  }

  /** A string that trims to empty has no digits. */
  lemma {:induction false} CleanPhoneNumberOfBlank(s: string)
    requires forall k :: 0 <= k < |s| ==> IsWhitespace(s[k])
    ensures CleanPhoneNumber(s) == []
  {
    if s != [] {
      assert !IsDigit(s[0]);
      CleanPhoneNumberOfBlank(s[1..]);
    }
  }

  /** `isValidPhone`: the cleaned number has 10 or 11 digits. */
  predicate IsValidPhone(phone: string)
  {
    var n := |CleanPhoneNumber(phone)|;
    n >= 10 && n <= 11
  }

  /** The three capture groups of `/^(\d{2})(\d{4,5})(\d{4})$/`. */
  datatype PhoneGroups = PhoneGroups(area: string, prefix: string, line: string)

  /** The groups describe a successful match of the phone pattern against `d`. */
  ghost predicate IsPhoneMatch(d: string, g: PhoneGroups)
  {
    && |g.area| == 2 && 4 <= |g.prefix| <= 5 && |g.line| == 4
    && AllDigits(g.area) && AllDigits(g.prefix) && AllDigits(g.line)
    && g.area + g.prefix + g.line == d
  }

  /** Any match consists of 10 or 11 digits. */
  lemma PhoneMatchShape(d: string, g: PhoneGroups)
    requires IsPhoneMatch(d, g)
    ensures AllDigits(d) && (|d| == 10 || |d| == 11)
  {
    forall k | 0 <= k < |d| ensures IsDigit(d[k]) {
      if k < 2 {
        assert d[k] == g.area[k];
      } else if k < 2 + |g.prefix| {
        assert d[k] == g.prefix[k - 2];
      } else {
        assert d[k] == g.line[k - 2 - |g.prefix|];
      }
    }
  }

  /** `d.match(/^(\d{2})(\d{4,5})(\d{4})$/)`. */
  function MatchPhonePattern(d: string): (m: Option<PhoneGroups>)
    ensures forall g :: m == Some(g) <==> IsPhoneMatch(d, g)
  {
    assert forall g :: IsPhoneMatch(d, g) ==> AllDigits(d) && (|d| == 10 || |d| == 11) by {
      forall g | IsPhoneMatch(d, g) ensures AllDigits(d) && (|d| == 10 || |d| == 11) {
        PhoneMatchShape(d, g);
      }
    }
    if AllDigits(d) && (|d| == 10 || |d| == 11) then
      var g := PhoneGroups(d[..2], d[2..|d| - 4], d[|d| - 4..]);
      assert g.area + g.prefix + g.line == d;
      assert forall h :: IsPhoneMatch(d, h) ==> h == g by {
        forall h | IsPhoneMatch(d, h) ensures h == g {
          var w := h.area + h.prefix + h.line;
          assert h.area == w[..2];
          assert h.prefix == w[2..|w| - 4];
          assert h.line == w[|w| - 4..];
        }
      }
      Some(g)
    else
      None
  }

  /** `formatPhone`: "(DD) NNNN-NNNN" or "(DD) NNNNN-NNNN" when the digits match, else the input. */
  function FormatPhone(phone: string): string
  {
    match MatchPhonePattern(CleanPhoneNumber(phone))
    case Some(g) => "(" + g.area + ") " + g.prefix + "-" + g.line
    case None => phone
  }

  /** The pattern matches exactly the phone numbers that `isValidPhone` accepts. */
  lemma ValidPhoneIffPatternMatches(phone: string)
    ensures IsValidPhone(phone) <==> MatchPhonePattern(CleanPhoneNumber(phone)).Some?
  {
    var d := CleanPhoneNumber(phone);
    if IsValidPhone(phone) {
      assert IsPhoneMatch(d, PhoneGroups(d[..2], d[2..|d| - 4], d[|d| - 4..]));
    }
  }

  /** A valid number is laid out as area code, prefix and the last four digits. */
  lemma FormatPhoneLayout(phone: string)
    requires IsValidPhone(phone)
    ensures var d := CleanPhoneNumber(phone);
            FormatPhone(phone) == "(" + d[..2] + ") " + d[2..|d| - 4] + "-" + d[|d| - 4..]
  {
    var d := CleanPhoneNumber(phone);
    var g := PhoneGroups(d[..2], d[2..|d| - 4], d[|d| - 4..]);
    assert g.area + g.prefix + g.line == d;
    assert IsPhoneMatch(d, g);
    assert MatchPhonePattern(d) == Some(g);
  }

  lemma FormatPhoneTenDigits(phone: string)
    requires |CleanPhoneNumber(phone)| == 10
    ensures var d := CleanPhoneNumber(phone);
            FormatPhone(phone) == "(" + d[0..2] + ") " + d[2..6] + "-" + d[6..10]
  {
    FormatPhoneLayout(phone);
  }

  lemma FormatPhoneElevenDigits(phone: string)
    requires |CleanPhoneNumber(phone)| == 11
    ensures var d := CleanPhoneNumber(phone);
            FormatPhone(phone) == "(" + d[0..2] + ") " + d[2..7] + "-" + d[7..11]
  {
    FormatPhoneLayout(phone);
  }

  /**
   * A valid number is rewritten into the pattern (its digits plus the four
   * punctuation characters); an invalid one comes back as typed, not cleaned.
   */
  lemma FormatPhoneReformatsIffValid(phone: string)
    ensures IsValidPhone(phone) ==>
              var r := FormatPhone(phone);
              |r| == |CleanPhoneNumber(phone)| + 4 && r[0] == '(' && r[3] == ')' && r[4] == ' ' &&
              r[|r| - 5] == '-'
    ensures !IsValidPhone(phone) ==> FormatPhone(phone) == phone
  {
    ValidPhoneIffPatternMatches(phone);
    var d := CleanPhoneNumber(phone);
    match MatchPhonePattern(d)
    case Some(g) =>
      assert IsPhoneMatch(d, g);
    case None =>
  }

  /** Cleaning "(DD) " gives back the area code. */
  lemma CleanPhoneNumberOfArea(a: string)
    requires AllDigits(a)
    ensures CleanPhoneNumber("(" + a + ") ") == a
  {
    var p1 := "(" + a;
    assert CleanPhoneNumber(p1) == a by {
      CleanPhoneNumberAppend("(", a);
      CleanPhoneNumberChar('(');
      CleanPhoneNumberOfDigits(a);
    }
    CleanPhoneNumberAppend(p1, ") ");
    assert CleanPhoneNumber(") ") == [];
  }

  /** Cleaning the pattern's output gives back the three digit groups. */
  lemma CleanPhoneNumberOfFormatted(a: string, b: string, c: string)
    requires AllDigits(a) && AllDigits(b) && AllDigits(c)
    ensures CleanPhoneNumber("(" + a + ") " + b + "-" + c) == a + b + c
  {
    var p2 := "(" + a + ") ";
    var p3 := p2 + b;
    var p4 := p3 + "-";
    CleanPhoneNumberOfArea(a);
    assert CleanPhoneNumber(p3) == a + b by {
      CleanPhoneNumberAppend(p2, b);
      CleanPhoneNumberOfDigits(b);
    }
    assert CleanPhoneNumber(p4) == a + b by {
      CleanPhoneNumberAppend(p3, "-");
      CleanPhoneNumberChar('-');
    }
    CleanPhoneNumberAppend(p4, c);
    CleanPhoneNumberOfDigits(c);
  }

  /** Formatting never changes the digits of a number. */
  lemma FormatPhoneKeepsDigits(phone: string)
    ensures CleanPhoneNumber(FormatPhone(phone)) == CleanPhoneNumber(phone)
  {
    var d := CleanPhoneNumber(phone);
    match MatchPhonePattern(d)
    case Some(g) =>
      assert IsPhoneMatch(d, g);
      CleanPhoneNumberOfFormatted(g.area, g.prefix, g.line);
    case None =>
  }

  /** Validity survives formatting, and formatting twice is formatting once. */
  lemma FormatPhoneIdempotent(phone: string)
    ensures IsValidPhone(FormatPhone(phone)) == IsValidPhone(phone)
    ensures FormatPhone(FormatPhone(phone)) == FormatPhone(phone)
  {
    FormatPhoneKeepsDigits(phone);
    var f := FormatPhone(phone);
    match MatchPhonePattern(CleanPhoneNumber(phone))
    case Some(g) =>
      assert MatchPhonePattern(CleanPhoneNumber(f)) == Some(g);
    case None =>
  }

  /** `[^\s@]+`: a non-empty run without whitespace or '@'. */
  predicate IsEmailAtom(s: string)
  {
    s != [] && forall k :: 0 <= k < |s| ==> !IsWhitespace(s[k]) && s[k] != '@'
  }

  /** `/^[^\s@]+@[^\s@]+\.[^\s@]+$/.test(email)`, with `@` at `i` and the chosen `.` at `j`. */
  predicate IsEmailSplit(email: string, i: int, j: int)
  {
    && 0 <= i < j < |email|
    && email[i] == '@' && email[j] == '.'
    && IsEmailAtom(email[..i]) && IsEmailAtom(email[i + 1..j]) && IsEmailAtom(email[j + 1..])
  }

  /** `isValidEmail`. */
  predicate IsValidEmail(email: string)
  {
    exists i, j :: 0 <= i < j < |email| && IsEmailSplit(email, i, j)
  }

  /**
   * No whitespace, exactly one '@' that is not the first character, and a
   * '.' after it that is neither right behind it nor the last character.
   */
  ghost predicate EmailShape(e: string)
  {
    && (forall k :: 0 <= k < |e| ==> !IsWhitespace(e[k]))
    && exists i :: 0 < i < |e| && e[i] == '@'
         && (forall k :: 0 <= k < |e| && k != i ==> e[k] != '@')
         && exists j :: i + 1 < j < |e| - 1 && e[j] == '.'
  }

  lemma ValidEmailHasShape(e: string)
    requires IsValidEmail(e)
    ensures EmailShape(e)
  {
    var i, j :| 0 <= i < j < |e| && IsEmailSplit(e, i, j);
    var a, b, c := e[..i], e[i + 1..j], e[j + 1..];
    forall k | 0 <= k < |e|
      ensures !IsWhitespace(e[k]) && (k != i ==> e[k] != '@')
    {
      if k < i {
        assert e[k] == a[k];
      } else if i < k < j {
        assert e[k] == b[k - i - 1];
      } else if j < k {
        assert e[k] == c[k - j - 1];
      }
    }
    assert i + 1 < j < |e| - 1;
  }

  lemma ShapedEmailIsValid(e: string)
    requires EmailShape(e)
    ensures IsValidEmail(e)
  {
    var i :| 0 < i < |e| && e[i] == '@'
          && (forall k :: 0 <= k < |e| && k != i ==> e[k] != '@')
          && exists j :: i + 1 < j < |e| - 1 && e[j] == '.';
    var j :| i + 1 < j < |e| - 1 && e[j] == '.';
    assert IsEmailAtom(e[..i]);
    var b, c := e[i + 1..j], e[j + 1..];
    assert IsEmailAtom(b) by {
      forall k | 0 <= k < |b| ensures b[k] == e[i + 1 + k] { }
    }
    assert IsEmailAtom(c) by {
      forall k | 0 <= k < |c| ensures c[k] == e[j + 1 + k] { }
    }
    assert IsEmailSplit(e, i, j);
  }

  /** The regular expression accepted by `isValidEmail`, in words: both directions. */
  lemma ValidEmailIff(email: string)
    ensures IsValidEmail(email) <==> EmailShape(email)
  {
    if IsValidEmail(email) {
      ValidEmailHasShape(email);
    }
    if EmailShape(email) {
      ShapedEmailIsValid(email);
    }
  }

}
