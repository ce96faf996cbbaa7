/** The Philippine phone-number formatter `formatPhoneNumber`, defined the
    same way in `src/components/LoginPage.tsx`, `src/components/LoginPage.jsx`
    and `src/components/SuperadminDashboard.jsx`, and applied to the phone
    input on every keystroke. */
module PhoneFormat {
  import opened Common

  /** The digits of the input with the country code `63` in front: a leading
      `0` is replaced by `63`, otherwise `63` is prepended unless present. */
  function CountryDigits(value: string): (d: string)
    ensures AllDigits(d) && StartsWith(d, "63")
  {
    var cleaned := Digits(value);
    var cleaned := if StartsWith(cleaned, "0") then "63" + cleaned[1..] else cleaned;
    if !StartsWith(cleaned, "63") then "63" + cleaned else cleaned
  }

  /** `cleaned.slice(0, 12)`: the country code and at most ten more digits. */
  function CleanedDigits(value: string): (c: string)
    ensures AllDigits(c) && StartsWith(c, "63") && 2 <= |c| <= 12
  {
    Take(CountryDigits(value), 12)
  }

  /** The `+63-###-###-####` layout of a cleaned digit string. */
  function Layout(c: string): string
    requires 2 <= |c| <= 12
  {
    if |c| <= 2 then "+" + c
    else if |c| <= 5 then "+" + c[..2] + "-" + c[2..]
    else if |c| <= 8 then "+" + c[..2] + "-" + c[2..5] + "-" + c[5..]
    else "+" + c[..2] + "-" + c[2..5] + "-" + c[5..8] + "-" + c[8..]
  }

  function FormatPhoneNumber(value: string): string {
    Layout(CleanedDigits(value))
  }

  /** Where the output has a dash: after the country code and after the
      next two groups of three digits. */
  predicate DashPosition(k: int) {
    k == 3 || k == 7 || k == 11
  }

  /** How many dashes a cleaned string of `n` digits gets: one before digit
      positions 2, 5 and 8 each, when that digit exists. */
  function DashCount(n: nat): nat {
    (if n > 2 then 1 else 0) + (if n > 5 then 1 else 0) + (if n > 8 then 1 else 0)
  }

  /** A dash and a group of digits after a prefix add just that group. */
  lemma DigitsDashGroup(prefix: string, group: string)
    requires AllDigits(group)
    ensures Digits(prefix + "-" + group) == Digits(prefix) + group
  {
    var tail := ['-'] + group;
    assert tail[0] == '-' && tail[1..] == group;
    assert Digits(tail) == Digits(group);
    DigitsOfDigits(group);
    DigitsAppend(prefix, tail);
    assert prefix + "-" + group == prefix + tail;
  }

  /** Removing the separators of the layout gives back the digits. */
  lemma LayoutDigits(c: string)
    requires AllDigits(c) && 2 <= |c| <= 12
    ensures Digits(Layout(c)) == c
  {
    var head := "+" + c[..2];
    assert Digits(head) == c[..2] by {
      assert head[1..] == c[..2];
      DigitsOfDigits(c[..2]);
    }
    if |c| <= 2 {
      assert head == Layout(c);
    } else if |c| <= 5 {
      DigitsDashGroup(head, c[2..]);
      assert c[..2] + c[2..] == c;
    } else if |c| <= 8 {
      var mid := head + "-" + c[2..5];
      DigitsDashGroup(head, c[2..5]);
      DigitsDashGroup(mid, c[5..]);
      assert c[..2] + c[2..5] + c[5..] == c;
    } else {
      var mid := head + "-" + c[2..5];
      var rest := mid + "-" + c[5..8];
      DigitsDashGroup(head, c[2..5]);
      DigitsDashGroup(mid, c[5..8]);
      DigitsDashGroup(rest, c[8..]);
      assert c[..2] + c[2..5] + c[5..8] + c[8..] == c;
    }
  }

  /** The shape of the layout: a `+`, then digits with a dash at exactly the
      dash positions, never a trailing dash. */
  lemma LayoutShape(c: string)
    requires AllDigits(c) && 2 <= |c| <= 12
    ensures var out := Layout(c);
      |out| == 1 + |c| + DashCount(|c|)
      && out[0] == '+'
      && (forall k :: 1 <= k < |out| ==> (if DashPosition(k) then out[k] == '-' else IsDigit(out[k])))
      && out[|out| - 1] != '-'
  {
  }

  /** Every output starts with `+63`, is at most 16 characters long and is
      made only of `+`, `-` and ASCII digits. */
  lemma FormatPhoneNumberShape(value: string)
    ensures var out := FormatPhoneNumber(value);
      StartsWith(out, "+63")
      && |out| <= 16
      && (forall k :: 0 <= k < |out| ==> out[k] == '+' || out[k] == '-' || IsDigit(out[k]))
      && |out| == 1 + |CleanedDigits(value)| + DashCount(|CleanedDigits(value)|)
      && out[0] == '+'
      && (forall k :: 1 <= k < |out| ==> (if DashPosition(k) then out[k] == '-' else IsDigit(out[k])))
      && out[|out| - 1] != '-'
  {
    var c := CleanedDigits(value);
    var out := Layout(c);
    LayoutShape(c);
    LayoutPrefix(c);
    assert c[..2] == "63";
    assert out[..3] == "+63";
    forall k | 0 <= k < |out| ensures out[k] == '+' || out[k] == '-' || IsDigit(out[k]) {
      if k > 0 {
        assert DashPosition(k) ==> out[k] == '-';
      }
    }
  }

  /** The layout opens with `+` and the first two digits. */
  lemma LayoutPrefix(c: string)
    requires 2 <= |c| <= 12
    ensures |Layout(c)| >= 3 && Layout(c)[..3] == "+" + c[..2]
  {
  }

  /** The digits of the output are the digits of the input with the country
      code rule applied, cut to twelve. */
  lemma FormatPhoneNumberDigits(value: string)
    ensures Digits(FormatPhoneNumber(value)) == Take(CountryDigits(value), 12)
  {
    LayoutDigits(CleanedDigits(value));
  }

  /** Formatting a formatted number changes nothing, so re-applying the
      formatter on every keystroke is harmless. */
  lemma FormatPhoneNumberIdempotent(value: string)
    ensures FormatPhoneNumber(FormatPhoneNumber(value)) == FormatPhoneNumber(value)
  {
    var c := CleanedDigits(value);
    var out := Layout(c);
    LayoutDigits(c);
    assert Digits(out) == c;
    assert !StartsWith(c, "0") by {
      assert c[0] == '6';
    }
    assert CountryDigits(out) == c;
    assert CleanedDigits(out) == c;
  }

  /** A mobile number in local form gets the country code in place of its 0. */
  lemma FormatPhoneNumberExample()
    ensures FormatPhoneNumber("09161234567") == "+63-916-123-4567"
  {
    var input := "09161234567";
    assert AllDigits(input);
    DigitsOfDigits(input);
    ExampleCleaned(input);
    LayoutExample("639161234567");
  }

  lemma ExampleCleaned(input: string)
    requires input == "09161234567" && Digits(input) == input
    ensures CleanedDigits(input) == "639161234567"
  {
    assert input[1..] == "9161234567";
    assert StartsWith(input, "0");
  }

  lemma LayoutExample(c: string)
    requires c == "639161234567"
    ensures Layout(c) == "+63-916-123-4567"
  {
    assert c[..2] == "63" && c[2..5] == "916" && c[5..8] == "123" && c[8..] == "4567";
  }
}
