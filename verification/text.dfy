/** String handling the bot applies to incoming chat text: Python's
    strip/lstrip, lower-casing, substring tests, `split(sep)[0]`, `int(...)`
    on decimal text, the price formatter and the normalisation of keyboard
    replies. Strings are sequences of Unicode code points, as in Python 3. */
module Text {
  import opened Wrappers

  /** The characters for which Python's `str.isspace()` holds; `strip()`
      without arguments removes exactly these. */
  const Whitespace: set<char> :=
    {'\U{9}', '\U{A}', '\U{B}', '\U{C}', '\U{D}', '\U{1C}', '\U{1D}', '\U{1E}', '\U{1F}',
     ' ', '\U{85}', '\U{A0}', '\U{1680}',
     '\U{2000}', '\U{2001}', '\U{2002}', '\U{2003}', '\U{2004}', '\U{2005}',
     '\U{2006}', '\U{2007}', '\U{2008}', '\U{2009}', '\U{200A}',
     '\U{2028}', '\U{2029}', '\U{202F}', '\U{205F}', '\U{3000}'}

  /** `s.lstrip(chars)`: drops the leading characters that are in `cs`. */
  function LStrip(s: string, cs: set<char>): string
  {
    if s != [] && s[0] in cs then LStrip(s[1..], cs) else s
  }

  /** `lstrip` removes exactly the longest prefix made of characters in `cs`:
      the result is a suffix, everything dropped is in `cs`, and what is left
      does not start with a character of `cs`. */
  lemma {:induction false} LStripSpec(s: string, cs: set<char>)
    ensures var r := LStrip(s, cs);
      && |r| <= |s| && r == s[|s| - |r|..]
      && (forall i :: 0 <= i < |s| - |r| ==> s[i] in cs)
      && (r != [] ==> r[0] !in cs)
  {
    if s != [] && s[0] in cs {
      LStripSpec(s[1..], cs);
      var r := LStrip(s, cs);
      forall i | 0 <= i < |s| - |r| ensures s[i] in cs {
        if i > 0 {
          assert s[i] == s[1..][i - 1];
        }
      }
    }
  }

  /** `s.rstrip(chars)`: drops the trailing characters that are in `cs`. */
  function RStrip(s: string, cs: set<char>): string
  {
    if s != [] && s[|s| - 1] in cs then RStrip(s[..|s| - 1], cs) else s
  }

  /** `rstrip` removes exactly the longest suffix made of characters in `cs`. */
  lemma {:induction false} RStripSpec(s: string, cs: set<char>)
    ensures var r := RStrip(s, cs);
      && |r| <= |s| && r == s[..|r|]
      && (forall i :: |r| <= i < |s| ==> s[i] in cs)
      && (r != [] ==> r[|r| - 1] !in cs)
  {
    if s != [] && s[|s| - 1] in cs {
      RStripSpec(s[..|s| - 1], cs);
    }
  }

  lemma LStripNothing(s: string, cs: set<char>)
    requires s != [] ==> s[0] !in cs
    ensures LStrip(s, cs) == s
  {
  }

  lemma RStripNothing(s: string, cs: set<char>)
    requires s != [] ==> s[|s| - 1] !in cs
    ensures RStrip(s, cs) == s
  {
  }

  /** `s.strip()`. */
  function Strip(s: string): string
  {
    RStrip(LStrip(s, Whitespace), Whitespace)
  }

  /** A string that neither begins nor ends with whitespace is its own `strip()`. */
  lemma StripTrimmed(s: string)
    requires s != [] ==> s[0] !in Whitespace && s[|s| - 1] !in Whitespace
    ensures Strip(s) == s
  {
    LStripNothing(s, Whitespace);
    RStripNothing(s, Whitespace);
  }

  /** Lower-casing of one character: the ASCII letters and the Russian
      alphabet (including Ё); every other character is left unchanged. */
  function LowerChar(c: char): (d: char)
    ensures !('A' <= d <= 'Z') && !('А' <= d <= 'Я') && d != 'Ё'
    ensures !('A' <= c <= 'Z') && !('А' <= c <= 'Я') && c != 'Ё' ==> d == c
    ensures ('A' <= c <= 'Z' || 'А' <= c <= 'Я') ==> d as int == c as int + 32
    ensures c == 'Ё' ==> d == 'ё'
  {
    if 'A' <= c <= 'Z' || 'А' <= c <= 'Я' then (c as int + 32) as char
    else if c == 'Ё' then 'ё'
    else c
  }

  /** `s.lower()`, character by character. */
  function Lower(s: string): (r: string)
    ensures |r| == |s|
  {
    seq(|s|, i requires 0 <= i < |s| => LowerChar(s[i]))
  }

  /** Lower-casing keeps every occurrence of a word, as an occurrence of the lower-cased word. */
  lemma LowerOccurs(s: string, w: string, i: int)
    requires OccursAt(s, w, i)
    ensures OccursAt(Lower(s), Lower(w), i)
  {
    assert Lower(s)[i..i + |w|] == Lower(w) by {
      forall k | 0 <= k < |w|
        ensures Lower(s)[i..i + |w|][k] == Lower(w)[k]
      {
        assert s[i..i + |w|][k] == w[k];
      }
    }
  }

  /** `s.startswith(p)`. */
  predicate StartsWith(s: string, p: string)
  {
    |p| <= |s| && s[..|p|] == p
  }

  /** `p` occurs in `s` starting at index `i`. */
  predicate OccursAt(s: string, p: string, i: int)
  {
    0 <= i && i + |p| <= |s| && s[i..i + |p|] == p
  }

  /** Python's `p in s` for strings. */
  predicate Contains(s: string, p: string)
    decreases |s|
  {
    StartsWith(s, p) || (s != [] && Contains(s[1..], p))
  }

  /** A string lacking the first character of `p` does not contain `p`. */
  lemma {:induction false} AbsentFirstChar(s: string, p: string)
    requires p != []
    requires forall i | 0 <= i < |s| :: s[i] != p[0]
    ensures !Contains(s, p)
    decreases |s|
  {
    if |p| <= |s| {
      assert s[..|p|][0] == s[0];
    }
    if s != [] {
      forall i | 0 <= i < |s[1..]|
        ensures s[1..][i] != p[0]
      {
        assert s[1..][i] == s[i + 1];
      }
      AbsentFirstChar(s[1..], p);
    }
  }

  lemma OccursAtTail(s: string, p: string, i: nat)
    requires s != []
    ensures OccursAt(s[1..], p, i) <==> OccursAt(s, p, i + 1)
  {
    if 0 <= i && i + |p| <= |s| - 1 {
      assert s[1..][i..i + |p|] == s[i + 1..i + 1 + |p|];
    }
  }

  /** `p in s` holds exactly when `p` occurs at some index of `s`. */
  lemma {:induction false} ContainsIff(s: string, p: string)
    ensures Contains(s, p) <==> exists i :: OccursAt(s, p, i)
    decreases |s|
  {
    if StartsWith(s, p) {
      assert OccursAt(s, p, 0);
    } else if s != [] {
      ContainsIff(s[1..], p);
      if exists i :: OccursAt(s[1..], p, i) {
        var i :| OccursAt(s[1..], p, i);
        OccursAtTail(s, p, i);
      }
      if exists i :: OccursAt(s, p, i) {
        var i :| OccursAt(s, p, i);
        if i > 0 {
          OccursAtTail(s, p, i - 1);
        }
      }
    }
  }

  /** `s.split(sep)[0]`: the text before the first occurrence of `sep`, or
      all of `s` when `sep` does not occur (Python rejects an empty `sep`). */
  function FirstField(s: string, sep: string): (r: string)
    requires sep != []
    ensures |r| <= |s| && r == s[..|r|]
    ensures forall i :: 0 <= i < |r| ==> !OccursAt(s, sep, i)
    ensures r == s || OccursAt(s, sep, |r|)
    decreases |s|
  {
    if |s| < |sep| then s
    else if s[..|sep|] == sep then []
    else
      var rest := FirstField(s[1..], sep);
      var r := [s[0]] + rest;
      assert forall i :: 0 <= i < |r| ==> !OccursAt(s, sep, i) by {
        forall i | 0 <= i < |r| ensures !OccursAt(s, sep, i) {
          if i > 0 {
            OccursAtTail(s, sep, i - 1);
          }
        }
      }
      OccursAtTail(s, sep, |rest|);
      r
  }

  /** The first field is determined by where the separator first occurs. */
  lemma FirstFieldAt(s: string, sep: string, k: nat)
    requires sep != []
    requires OccursAt(s, sep, k)
    requires forall i :: 0 <= i < k ==> !OccursAt(s, sep, i)
    ensures FirstField(s, sep) == s[..k]
  {
  }

  // ---------------------------------------------------------------------
  // Decimal integers: what `int(text)` accepts, and `str(n)`.

  predicate IsDigit(c: char)
  {
    '0' <= c <= '9'
  }

  predicate AllDigits(s: string)
  {
    forall i :: 0 <= i < |s| ==> IsDigit(s[i])
  }

  /** The value of a string of decimal digits, most significant first. */
  function DigitsValue(s: string): nat
    requires AllDigits(s)
  {
    if s == [] then 0
    else DigitsValue(s[..|s| - 1]) * 10 + (s[|s| - 1] as int - '0' as int)
  }

  /** `int(s)` on already stripped text: an optional `+` or `-` followed by
      one or more ASCII digits; anything else is a `ValueError` (None). */
  function ParseInt(s: string): (r: Option<int>)
    ensures r.Some? <==> (s != [] && AllDigits(s)) || (|s| >= 2 && (s[0] == '+' || s[0] == '-') && AllDigits(s[1..]))
    ensures s != [] && AllDigits(s) ==> r == Some(DigitsValue(s))
    ensures |s| >= 2 && s[0] == '+' && AllDigits(s[1..]) ==> r == Some(DigitsValue(s[1..]))
    ensures |s| >= 2 && s[0] == '-' && AllDigits(s[1..]) ==> r.Some? && r.value + DigitsValue(s[1..]) == 0
  {
    if s != [] && (s[0] == '+' || s[0] == '-') then
      var digits := s[1..];
      if digits != [] && AllDigits(digits) then
        var magnitude: int := DigitsValue(digits);
        Some(if s[0] == '-' then -magnitude else magnitude)
      else None
    else if s != [] && AllDigits(s) then Some(DigitsValue(s))
    else None
  }

  /** Leading zeros do not change the value: `int("007") == 7`. */
  lemma {:induction false} LeadingZero(s: string)
    requires AllDigits(s)
    ensures AllDigits(['0'] + s) && DigitsValue(['0'] + s) == DigitsValue(s)
  {
    if s != [] {
      LeadingZero(s[..|s| - 1]);
      assert (['0'] + s)[..|s|] == ['0'] + s[..|s| - 1];
    }
  }

  /** `int()` on a few typical replies: zero-padded, explicitly signed, a bare sign. */
  lemma ParseIntExamples(padded: string, signed: string, bare: string)
    requires padded == "007" && signed == "+3" && bare == "-"
    ensures ParseInt(padded) == Some(7) && ParseInt(signed) == Some(3) && ParseInt(bare) == None
  {
    var seven := "7";
    assert DigitsValue(seven) == 7;
    LeadingZero(seven);
    LeadingZero(['0'] + seven);
    assert padded == ['0'] + (['0'] + seven);
    assert signed[1..] == "3";
  }

  /** `str(n)` for a natural number. */
  function ShowNat(n: nat): (r: string)
    ensures r != [] && AllDigits(r)
    ensures r[0] != '0' || n == 0
  {
    if n < 10 then [('0' as int + n) as char]
    else ShowNat(n / 10) + [('0' as int + n % 10) as char]
  }

  /** `str(n)` for an integer. */
  function ShowInt(n: int): string
  {
    if n < 0 then "-" + ShowNat(-n) else ShowNat(n)
  }

  lemma {:induction false} ShowNatValue(n: nat)
    ensures DigitsValue(ShowNat(n)) == n
  {
    if n >= 10 {
      ShowNatValue(n / 10);
      var s := ShowNat(n);
      assert s[..|s| - 1] == ShowNat(n / 10);
    }
  }

  /** Reading back what `str(n)` printed gives `n`. */
  lemma ParseShowInt(n: int)
    ensures ParseInt(ShowInt(n)) == Some(n)
  {
    if n < 0 {
      ShowNatValue(-n);
      assert ShowInt(n)[1..] == ShowNat(-n);
    } else {
      ShowNatValue(n);
    }
  }

  /** No printed integer contains the character `c` unless it is a digit or the minus sign. */
  lemma ShowIntChars(n: int, c: char)
    requires !IsDigit(c) && c != '-'
    ensures c !in ShowInt(n)
  {
  }

  /** `format_price_rub_usd`: both amounts in one line, roubles first. */
  function FormatPriceRubUsd(rub: int, usd: int): string
  {
    ShowInt(rub) + "₽ / $" + ShowInt(usd)
  }

  /** The formatted line determines both amounts: distinct pairs never print alike. */
  lemma FormatPriceInjective(rub: int, usd: int, rub': int, usd': int)
    requires FormatPriceRubUsd(rub, usd) == FormatPriceRubUsd(rub', usd')
    ensures rub == rub' && usd == usd'
  {
    var a, b := ShowInt(rub), ShowInt(usd);
    var a', b' := ShowInt(rub'), ShowInt(usd');
    var mid := "₽ / $";
    var s := a + mid + b;
    assert s == a' + mid + b';
    ShowIntChars(rub, '₽');
    ShowIntChars(rub', '₽');
    assert s[|a|] == '₽' && s[|a'|] == '₽';
    assert |a| == |a'|;
    assert a == s[..|a|] == a';
    assert b == s[|a| + |mid|..] == b';
    ParseShowInt(rub);
    ParseShowInt(rub');
    ParseShowInt(usd);
    ParseShowInt(usd');
  }

  // ---------------------------------------------------------------------
  // Keyboard replies

  /** The marker put in front of every option button. */
  const PrimaryMarker: char := '\U{1F535}'
  /** The second marker: a white circle followed by the emoji variation
      selector; `lstrip` treats it as a set of two characters. */
  const SecondaryMarker: string := "\U{26AA}\U{FE0F}"
  /** The characters `lstrip(SecondaryMarker)` removes. */
  const SecondaryMarkerChars: set<char> := {'\U{26AA}', '\U{FE0F}'}
  /** Separates the Russian and the English caption on a button. */
  const ChoiceSeparator: string := " / "

  /** `parse_choice_text`: strip, drop leading markers, strip again and keep
      the Russian caption before " / ". */
  function ParseChoiceText(text: string): string
  {
    var clean := Strip(LStrip(LStrip(Strip(text), {PrimaryMarker}), SecondaryMarkerChars));
    if Contains(clean, ChoiceSeparator) then FirstField(clean, ChoiceSeparator) else clean
  }

  /** `caption` contains no " / ", and " / " cannot begin in its last characters either. */
  predicate NoSeparatorInside(caption: string)
  {
    forall i | 0 <= i < |caption| - 1 :: caption[i] != ' ' || caption[i + 1] != '/'
  }

  /** The separator first occurs right after a caption that holds none itself. */
  lemma {:induction false} FirstFieldOfCaption(ru: string, en: string)
    requires NoSeparatorInside(ru)
    ensures Contains(ru + ChoiceSeparator + en, ChoiceSeparator)
    ensures FirstField(ru + ChoiceSeparator + en, ChoiceSeparator) == ru
  {
    var core := ru + ChoiceSeparator + en;
    assert core[|ru|..|ru| + 3] == ChoiceSeparator;
    assert OccursAt(core, ChoiceSeparator, |ru|);
    ContainsIff(core, ChoiceSeparator);
    forall i | 0 <= i < |ru| ensures !OccursAt(core, ChoiceSeparator, i) {
      assert core[i] != ' ' || core[i + 1] != '/' by {
        if i + 1 < |ru| {
          assert core[i] == ru[i] && core[i + 1] == ru[i + 1];
        } else {
          assert core[i + 1] == ' ';
        }
      }
      assert core[i..i + 3][0] == core[i] && core[i..i + 3][1] == core[i + 1];
    }
    FirstFieldAt(core, ChoiceSeparator, |ru|);
    assert core[..|ru|] == ru;
  }

  /** Stripping and marker removal reduce a button to "<ru> / <en>". */
  lemma CleanButton(marker: string, ru: string, en: string)
    requires marker == [] || marker == [PrimaryMarker, ' ']
    requires ru != [] && ru[0] !in Whitespace && ru[0] != PrimaryMarker && ru[0] !in SecondaryMarkerChars
    requires en != [] && en[|en| - 1] !in Whitespace
    ensures Strip(LStrip(LStrip(Strip(marker + ru + ChoiceSeparator + en), {PrimaryMarker}), SecondaryMarkerChars))
            == ru + ChoiceSeparator + en
  {
    var button := marker + ru + ChoiceSeparator + en;
    var core := ru + ChoiceSeparator + en;
    assert button[0] !in Whitespace && button[|button| - 1] !in Whitespace;
    StripTrimmed(button);
    if marker == [] {
      assert button == core;
      CleanCore(core);
    } else {
      CleanMarked(button, core);
    }
  }

  lemma CleanCore(core: string)
    requires core != [] && core[0] !in Whitespace && core[0] != PrimaryMarker && core[0] !in SecondaryMarkerChars
    requires core[|core| - 1] !in Whitespace
    ensures Strip(LStrip(LStrip(core, {PrimaryMarker}), SecondaryMarkerChars)) == core
  {
    LStripNothing(core, {PrimaryMarker});
    LStripNothing(core, SecondaryMarkerChars);
    StripTrimmed(core);
  }

  lemma CleanMarked(button: string, core: string)
    requires button == [PrimaryMarker, ' '] + core
    requires core != [] && core[0] !in Whitespace && core[|core| - 1] !in Whitespace
    ensures Strip(LStrip(LStrip(button, {PrimaryMarker}), SecondaryMarkerChars)) == core
  {
    var spaced := " " + core;
    assert button[1..] == spaced;
    LStripNothing(spaced, {PrimaryMarker});
    assert LStrip(button, {PrimaryMarker}) == spaced;
    LStripNothing(spaced, SecondaryMarkerChars);
    assert spaced[1..] == core;
    LStripNothing(core, Whitespace);
    assert LStrip(spaced, Whitespace) == core;
    RStripNothing(core, Whitespace);
  }

  /** A button "<marker> <ru> / <en>" (or a plain "<ru> / <en>") is read back as its
      Russian caption. */
  lemma ParseChoiceTextOfButton(marker: string, ru: string, en: string)
    requires marker == [] || marker == [PrimaryMarker, ' ']
    requires ru != [] && ru[0] !in Whitespace && ru[0] != PrimaryMarker && ru[0] !in SecondaryMarkerChars
    requires NoSeparatorInside(ru)
    requires en != [] && en[|en| - 1] !in Whitespace
    ensures ParseChoiceText(marker + ru + ChoiceSeparator + en) == ru
  {
    CleanButton(marker, ru, en);
    FirstFieldOfCaption(ru, en);
  }
}
