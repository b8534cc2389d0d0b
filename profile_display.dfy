/**
 * Display helpers of the professional dashboard (app/area-profissional/page.tsx):
 * the avatar initials and the read-only phone layout.
 */
module ProfileDisplay {
  import opened Text
  import RegisterForm

  /** `s.split(" ")`: the pieces between single spaces, empty pieces included. */
  function SplitOnSpace(s: string): (words: seq<string>)
    ensures |words| >= 1
  {
    if s == [] then [""]
    else
      var rest := SplitOnSpace(s[1..]);
      if s[0] == ' ' then [""] + rest
      else [[s[0]] + rest[0]] + rest[1..]
  }

  /** `words.join(" ")`, the inverse of `SplitOnSpace`. */
  function JoinWithSpace(words: seq<string>): string
  {
    if words == [] then ""
    else if |words| == 1 then words[0]
    else words[0] + " " + JoinWithSpace(words[1..])
  }

  /** Splitting on spaces loses nothing: joining the pieces back gives the name, and no piece holds a space. */
  lemma {:induction false} SplitJoinRoundTrip(s: string)
    ensures JoinWithSpace(SplitOnSpace(s)) == s
    ensures forall k :: 0 <= k < |SplitOnSpace(s)| ==> ' ' !in SplitOnSpace(s)[k]
  {
    if s != [] {
      var rest := SplitOnSpace(s[1..]);
      SplitJoinRoundTrip(s[1..]);
      if s[0] == ' ' {
        assert SplitOnSpace(s) == [""] + rest;
        assert ([""] + rest)[1..] == rest;
        assert s == [s[0]] + s[1..];
      } else {
        var words := SplitOnSpace(s);
        assert words == [[s[0]] + rest[0]] + rest[1..];
        if |rest| == 1 {
          assert s == [s[0]] + rest[0];
        } else {
          assert words[1..] == rest[1..];
          assert JoinWithSpace(rest) == rest[0] + " " + JoinWithSpace(rest[1..]);
          assert s == [s[0]] + s[1..];
        }
        forall k | 0 <= k < |words| ensures ' ' !in words[k] {
          if k > 0 { assert words[k] == rest[k]; }
        }
      }
    }
  }

  /** `.map((n) => n[0]).join("")`: an empty piece gives `undefined`, which joins as nothing. */
  function FirstChars(words: seq<string>): string
  {
    if words == [] then ""
    else (if words[0] == "" then "" else [words[0][0]]) + FirstChars(words[1..])
  }

  /** `getInitials`: the first two upper-cased initials of the name. */
  function GetInitials(name: string): (r: string)
    ensures |r| <= 2
    ensures forall i :: 0 <= i < |r| ==> !IsLowerAscii(r[i])
  {
    var joined := Upper(FirstChars(SplitOnSpace(name)));
    joined[..Min(|joined|, 2)]
  }

  /**
   * The characters that begin a word: not a space, and at the start of the
   * text or right after a space. `afterSpace` says whether the previous
   * character was a space (or there was none).
   */
  function WordStarts(s: string, afterSpace: bool): string
  {
    if s == [] then ""
    else (if s[0] != ' ' && afterSpace then [s[0]] else "") + WordStarts(s[1..], s[0] == ' ')
  }

  lemma {:induction false} FirstCharsOfSplit(s: string)
    ensures FirstChars(SplitOnSpace(s)) == WordStarts(s, true)
    ensures FirstChars(SplitOnSpace(s)[1..]) == WordStarts(s, false)
  {
    if s != [] {
      var rest := SplitOnSpace(s[1..]);
      FirstCharsOfSplit(s[1..]);
      if s[0] == ' ' {
        assert SplitOnSpace(s) == [""] + rest;
        assert ([""] + rest)[1..] == rest;
      } else {
        var words := SplitOnSpace(s);
        assert words == [[s[0]] + rest[0]] + rest[1..];
        assert words[1..] == rest[1..];
      }
    }
  }

  /**
   * The initials are the upper-cased first letters of the space-separated
   * words, in order, at most two of them; runs of spaces add nothing.
   */
  lemma InitialsAreWordStarts(name: string)
    ensures GetInitials(name) == Take(Upper(WordStarts(name, true)), 2)
  {
    FirstCharsOfSplit(name);
  }

  /** `formatPhone` of the dashboard: `(dd) ddddd-dddd` for 11 digits, otherwise the stored text. */
  function FormatPhone(phone: string): (r: string)
    ensures r == phone || (|r| == 15 && |Digits(phone)| == 11)
  {
    if phone == "" then ""
    else
      var c := Digits(phone);
      if |c| != 11 then phone
      else "(" + c[..2] + ") " + c[2..7] + "-" + c[7..]
  }

  /** Anything that does not hold exactly 11 digits, the empty phone included, is shown as stored. */
  lemma DisplayPhoneKeepsOtherInput(phone: string)
    requires |Digits(phone)| != 11
    ensures FormatPhone(phone) == phone
  {
  }

  /**
   * With exactly 11 digits the phone is shown in 15 characters that carry the
   * same digits; it is then the same text the registration mask produces.
   */
  lemma DisplayPhoneElevenDigits(phone: string)
    requires |Digits(phone)| == 11
    ensures |FormatPhone(phone)| == 15
    ensures Digits(FormatPhone(phone)) == Digits(phone)
    ensures FormatPhone(phone) == RegisterForm.FormatPhone(phone)
  {
    assert phone != "";
    var c := Digits(phone);
    assert c[7..] == c[7..Min(|c|, 11)];
    assert FormatPhone(phone) == RegisterForm.FormatPhone(phone);
    RegisterForm.FormatPhoneKeepsDigits(phone);
    assert Take(c, 11) == c;
  }
}
