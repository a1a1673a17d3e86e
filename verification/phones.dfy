/** Phone-number normalisation to the Russian `+7` form (`_normalize_phone`). */
module Phones {
  import opened Text

  /** The leading digits that mark an 11-digit Russian number: the country
      code `7` or the domestic trunk prefix `8`. */
  predicate IsTrunk(c: char) {
    c == '7' || c == '8'
  }

  /** The digit string is an 11-digit number with a trunk digit in front. */
  predicate IsElevenWithTrunk(d: string) {
    |d| == 11 && IsTrunk(d[0])
  }

  /** `+7` followed by exactly ten digits. */
  predicate IsPlusSevenForm(s: string) {
    |s| == 12 && s[..2] == "+7" && AllDigits(s[2..])
  }

  /** Rewrites a raw phone string. Empty input, or input without digits,
      gives the empty string; 11 digits starting with 7 or 8 give `+7` and
      the last ten; exactly ten digits get `+7` in front; any other count
      keeps the original if it starts with `+`, else becomes `+` and the
      digits. */
  function NormalizePhone(phone: string): (r: string)
    ensures r == [] <==> !HasDigit(phone)
    ensures r != [] ==> r[0] == '+'
    ensures IsElevenWithTrunk(Digits(phone)) ==> r == "+7" + Digits(phone)[1..]
    ensures |Digits(phone)| == 10 ==> r == "+7" + Digits(phone)
    ensures HasDigit(phone) && !IsElevenWithTrunk(Digits(phone)) && |Digits(phone)| != 10 ==>
              r == if StartsWith(phone, "+") then phone else "+" + Digits(phone)
  {
    if phone == [] then []
    else
      var digits := Digits(phone);
      if digits == [] then []
      else if |digits| == 11 && IsTrunk(digits[0]) then "+7" + digits[1..]
      else if |digits| == 10 then "+7" + digits
      else if !StartsWith(phone, "+") then "+" + digits
      else phone
  }

  /** The Russian cases land in the canonical `+7XXXXXXXXXX` form. */
  lemma RussianNumbersAreCanonical(phone: string)
    requires IsElevenWithTrunk(Digits(phone)) || |Digits(phone)| == 10
    ensures IsPlusSevenForm(NormalizePhone(phone))
  {
    var d := Digits(phone);
    assert HasDigit(phone);
    var r := NormalizePhone(phone);
    if IsElevenWithTrunk(d) {
      assert r[2..] == d[1..];
    } else {
      assert r[2..] == d;
    }
  }

  /** The digits behind a `+` or `+7` prefix. */
  lemma DigitsBehindPrefix(d: string)
    requires AllDigits(d)
    ensures Digits("+" + d) == d
    ensures Digits("+7" + d) == "7" + d
  {
    assert Digits("+") == [];
    assert Digits("+7") == "7" by {
      assert "+7"[1..] == "7";
      assert "7"[1..] == [];
    }
    DigitsAppend("+", d);
    DigitsAppend("+7", d);
    DigitsOfDigits(d);
  }

  /** Normalisation keeps the digits, except that the trunk digit of an
      11-digit number becomes the country code 7. */
  lemma NormalizeKeepsDigits(phone: string)
    ensures IsElevenWithTrunk(Digits(phone)) ==> Digits(NormalizePhone(phone)) == "7" + Digits(phone)[1..]
    ensures !IsElevenWithTrunk(Digits(phone)) && |Digits(phone)| == 10 ==>
              Digits(NormalizePhone(phone)) == "7" + Digits(phone)
    ensures !IsElevenWithTrunk(Digits(phone)) && |Digits(phone)| != 10 ==>
              Digits(NormalizePhone(phone)) == Digits(phone)
  {
    var d := Digits(phone);
    var r := NormalizePhone(phone);
    if d == [] {
    } else if IsElevenWithTrunk(d) {
      assert r == "+7" + d[1..];
      DigitsBehindPrefix(d[1..]);
    } else if |d| == 10 {
      assert r == "+7" + d;
      DigitsBehindPrefix(d);
    } else if !StartsWith(phone, "+") {
      assert r == "+" + d;
      DigitsBehindPrefix(d);
    } else {
      assert r == phone;
    }
  }

  /** Normalising an already normalised number changes nothing. */
  lemma NormalizeIdempotent(phone: string)
    ensures NormalizePhone(NormalizePhone(phone)) == NormalizePhone(phone)
  {
    var d := Digits(phone);
    var r := NormalizePhone(phone);
    NormalizeKeepsDigits(phone);
    if d == [] {
    } else if IsElevenWithTrunk(d) || |d| == 10 {
      var d' := Digits(r);
      assert |d'| == 11 && d'[0] == '7';
      assert d'[1..] == r[2..];
      assert r == "+7" + r[2..];
    } else {
      assert Digits(r) == d;
      assert StartsWith(r, "+");
    }
  }
}
