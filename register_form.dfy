/**
 * The input masks of the professional registration form
 * (components/auth/register-form.tsx). Each mask throws away every
 * non-digit, caps the digit count and re-inserts the punctuation of the
 * Brazilian phone, CPF and CEP layouts. They run on every keystroke, so
 * the interesting facts are that they keep exactly the typed digits (up to
 * the cap) and that applying one to its own output changes nothing.
 */
module RegisterForm {
  import opened Text

  const PhoneDigitCap: nat := 11
  const CpfDigitCap: nat := 11
  const CepDigitCap: nat := 8

  /** `formatPhone`: `dd`, `(dd) rest` or `(dd) ddddd-dddd`. */
  function FormatPhone(value: string): (r: string)
    ensures |r| <= 15
    ensures var c := Digits(value);
      && (|c| <= 2 ==> r == c)
      && (2 < |c| <= 7 ==> |r| == |c| + 3)
      && (7 < |c| ==> |r| == Min(|c|, PhoneDigitCap) + 4 && r[10] == '-')
      && (2 < |c| ==> r[0] == '(' && r[3] == ')' && r[4] == ' ')
      && (2 < |c| ==> forall i :: 0 <= i < |r| && i != 0 && i != 3 && i != 4 && i != 10 ==> IsDigit(r[i]))
  {
    var c := Digits(value);
    if |c| <= 2 then c
    else if |c| <= 7 then
      var r := "(" + c[..2] + ") " + c[2..];
      assert forall i :: 5 <= i < |r| ==> r[i] == c[i - 3];
      r
    else "(" + c[..2] + ") " + c[2..7] + "-" + c[7..Min(|c|, 11)]
  }

  /** `formatCpf`: `ddd`, `ddd.rest`, `ddd.ddd.rest` or `ddd.ddd.ddd-dd`. */
  function FormatCpf(value: string): (r: string)
    ensures |r| <= 14
    ensures var c := Digits(value);
      && (|c| <= 3 ==> r == c)
      && (3 < |c| <= 6 ==> |r| == |c| + 1)
      && (6 < |c| <= 9 ==> |r| == |c| + 2)
      && (9 < |c| ==> |r| == Min(|c|, CpfDigitCap) + 3 && r[11] == '-')
      && (3 < |c| ==> r[3] == '.')
      && (6 < |c| ==> r[7] == '.')
      && (forall i :: 0 <= i < |r| && i != 3 && i != 7 && i != 11 ==> IsDigit(r[i]))
  {
    var c := Digits(value);
    if |c| <= 3 then c
    else if |c| <= 6 then c[..3] + "." + c[3..]
    else if |c| <= 9 then
      var r := c[..3] + "." + c[3..6] + "." + c[6..];
      assert forall i :: 0 <= i < 3 ==> r[i] == c[i];
      assert forall i :: 4 <= i < 7 ==> r[i] == c[i - 1];
      assert forall i :: 8 <= i < |r| ==> r[i] == c[i - 2];
      r
    else
      var r := c[..3] + "." + c[3..6] + "." + c[6..9] + "-" + c[9..Min(|c|, 11)];
      assert forall i :: 0 <= i < 3 ==> r[i] == c[i];
      assert forall i :: 4 <= i < 7 ==> r[i] == c[i - 1];
      assert forall i :: 8 <= i < 11 ==> r[i] == c[i - 2];
      assert forall i :: 12 <= i < |r| ==> r[i] == c[i - 3];
      r
  }

  /** `formatCep`: `ddddd` or `ddddd-ddd`. */
  function FormatCep(value: string): (r: string)
    ensures |r| <= 9
    ensures var c := Digits(value);
      && (|c| <= 5 ==> r == c)
      && (5 < |c| ==> |r| == Min(|c|, CepDigitCap) + 1 && r[5] == '-')
      && (forall i :: 0 <= i < |r| && i != 5 ==> IsDigit(r[i]))
  {
    var c := Digits(value);
    if |c| <= 5 then c
    else c[..5] + "-" + c[5..Min(|c|, 8)]
  }

  lemma SlicesAreDigits(c: string)
    requires AllDigits(c)
    ensures forall i, j :: 0 <= i <= j <= |c| ==> AllDigits(c[i..j])
  {
  }

  /** The phone mask keeps the typed digits, truncated to 11. */
  lemma FormatPhoneKeepsDigits(value: string)
    ensures Digits(FormatPhone(value)) == Take(Digits(value), PhoneDigitCap)
  {
    var c := Digits(value);
    SlicesAreDigits(c);
    if |c| <= 2 {
      DigitsOfDigitString(c);
    } else if |c| <= 7 {
      PhoneAreaCodeDigits(c);
      DigitsAcrossSeparator("(" + c[..2], ") ", c[2..]);
      DigitsOfDigitString(c[2..]);
      assert c[..2] + c[2..] == c;
    } else {
      var e := Min(|c|, 11);
      PhoneAreaCodeDigits(c);
      DigitsAcrossSeparator("(" + c[..2] + ") " + c[2..7], "-", c[7..e]);
      DigitsAcrossSeparator("(" + c[..2], ") ", c[2..7]);
      DigitsOfDigitString(c[2..7]);
      DigitsOfDigitString(c[7..e]);
      assert c[..2] + c[2..7] + c[7..e] == c[..e];
    }
  }

  lemma PhoneAreaCodeDigits(c: string)
    requires AllDigits(c) && |c| >= 2
    ensures Digits("(" + c[..2]) == c[..2]
  {
    DigitsConcat("(", c[..2]);
    DigitsOfDigitString(c[..2]);
  }

  /** The CPF mask keeps the typed digits, truncated to 11. */
  lemma FormatCpfKeepsDigits(value: string)
    ensures Digits(FormatCpf(value)) == Take(Digits(value), CpfDigitCap)
  {
    var c := Digits(value);
    if |c| <= 3 {
      DigitsOfDigitString(c);
    } else if |c| <= 6 {
      SlicesAreDigits(c);
      DigitsAcrossSeparator(c[..3], ".", c[3..]);
      DigitsOfDigitString(c[..3]);
      DigitsOfDigitString(c[3..]);
      assert c[..3] + c[3..] == c;
    } else if |c| <= 9 {
      CpfThreeGroupsDigits(c);
    } else {
      CpfFourGroupsDigits(c);
    }
  }

  lemma CpfThreeGroupsDigits(c: string)
    requires AllDigits(c) && 6 < |c| <= 9
    ensures Digits(c[..3] + "." + c[3..6] + "." + c[6..]) == c
  {
    SlicesAreDigits(c);
    DigitsAcrossSeparator(c[..3] + "." + c[3..6], ".", c[6..]);
    DigitsAcrossSeparator(c[..3], ".", c[3..6]);
    DigitsOfDigitString(c[..3]);
    DigitsOfDigitString(c[3..6]);
    DigitsOfDigitString(c[6..]);
    assert c[..3] + c[3..6] + c[6..] == c;
  }

  lemma CpfFourGroupsDigits(c: string)
    requires AllDigits(c) && 9 < |c|
    ensures Digits(c[..3] + "." + c[3..6] + "." + c[6..9] + "-" + c[9..Min(|c|, 11)]) == Take(c, 11)
  {
    var e := Min(|c|, 11);
    var head := c[..9];
    assert AllDigits(head);
    CpfThreeGroupsDigits(head);
    assert head[..3] == c[..3] && head[3..6] == c[3..6] && head[6..] == c[6..9];
    assert AllDigits(c[9..e]);
    DigitsAcrossSeparator(c[..3] + "." + c[3..6] + "." + c[6..9], "-", c[9..e]);
    DigitsOfDigitString(c[9..e]);
    assert head + c[9..e] == c[..e];
  }

  /** The CEP mask keeps the typed digits, truncated to 8. */
  lemma FormatCepKeepsDigits(value: string)
    ensures Digits(FormatCep(value)) == Take(Digits(value), CepDigitCap)
  {
    var c := Digits(value);
    SlicesAreDigits(c);
    if |c| <= 5 {
      DigitsOfDigitString(c);
    } else {
      var e := Min(|c|, 8);
      DigitsAcrossSeparator(c[..5], "-", c[5..e]);
      DigitsOfDigitString(c[..5]);
      DigitsOfDigitString(c[5..e]);
      assert c[..5] + c[5..e] == c[..e];
    }
  }

  /** Re-applying the phone mask to its own output changes nothing. */
  lemma FormatPhoneIdempotent(value: string)
    ensures FormatPhone(FormatPhone(value)) == FormatPhone(value)
  {
    var c := Digits(value);
    FormatPhoneKeepsDigits(value);
    var d := Digits(FormatPhone(value));
    assert d == Take(c, 11);
    if |c| > 7 {
      assert d[..2] == c[..2] && d[2..7] == c[2..7];
      assert d[7..Min(|d|, 11)] == c[7..Min(|c|, 11)];
    }
  }

  /** Re-applying the CPF mask to its own output changes nothing. */
  lemma FormatCpfIdempotent(value: string)
    ensures FormatCpf(FormatCpf(value)) == FormatCpf(value)
  {
    var c := Digits(value);
    FormatCpfKeepsDigits(value);
    var d := Digits(FormatCpf(value));
    assert d == Take(c, 11);
    if |c| > 9 {
      assert d[..3] == c[..3] && d[3..6] == c[3..6] && d[6..9] == c[6..9];
      assert d[9..Min(|d|, 11)] == c[9..Min(|c|, 11)];
    }
  }

  /** Re-applying the CEP mask to its own output changes nothing. */
  lemma FormatCepIdempotent(value: string)
    ensures FormatCep(FormatCep(value)) == FormatCep(value)
  {
    var c := Digits(value);
    FormatCepKeepsDigits(value);
    var d := Digits(FormatCep(value));
    assert d == Take(c, 8);
    if |c| > 5 {
      assert d[..5] == c[..5];
      assert d[5..Min(|d|, 8)] == c[5..Min(|c|, 8)];
    }
  }

  /** The CEP field's change handler starts the address lookup on a 9-character value. */
  predicate CepLookupFires(formatted: string) { |formatted| == 9 }

  /** `fetchAddressByCep` goes on to the network only with exactly 8 digits. */
  predicate CepLookupProceeds(cep: string) { |Digits(cep)| == 8 }

  /**
   * The lookup fires exactly when at least 8 digits were typed, and then the
   * lookup's own 8-digit guard always passes.
   */
  lemma CepLookupNeedsEightDigits(value: string)
    ensures CepLookupFires(FormatCep(value)) <==> |Digits(value)| >= 8
    ensures CepLookupFires(FormatCep(value)) ==> CepLookupProceeds(FormatCep(value))
  {
    FormatCepKeepsDigits(value);
  }

  /**
   * What the sign-up insert stores for CPF and CEP (`replace(/\D/g, "")` of
   * the masked field) is a plain digit string from which the mask rebuilds
   * exactly the text the form displayed: nothing shown is lost in storage.
   */
  lemma StoredDocumentsRemask(cpfTyped: string, cepTyped: string)
    ensures var stored := Digits(FormatCpf(cpfTyped));
      AllDigits(stored) && FormatCpf(stored) == FormatCpf(cpfTyped)
    ensures var stored := Digits(FormatCep(cepTyped));
      AllDigits(stored) && FormatCep(stored) == FormatCep(cepTyped)
  {
    DigitsOfDigitString(Digits(FormatCpf(cpfTyped)));
    FormatCpfIdempotent(cpfTyped);
    DigitsOfDigitString(Digits(FormatCep(cepTyped)));
    FormatCepIdempotent(cepTyped);
  }
}
