/**
 * The plate-text normaliser applied to OCR output: strip, upper-case, keep
 * only letters, digits, dashes and spaces, and collapse runs of whitespace
 * into one space.
 */
module Ocr {
  import opened Wrappers
  import opened Seqs
  import opened AsciiText

  /** The characters `[A-Z0-9\- ]` that survive the first substitution. */
  predicate IsPlateChar(c: char) {
    IsUpperLetter(c) || IsDigit(c) || c == '-' || c == ' '
  }

  /** The plate characters other than the space: `[A-Z0-9-]`. */
  predicate IsPlateSymbol(c: char) {
    IsUpperLetter(c) || IsDigit(c) || c == '-'
  }

  /** `re.sub(r'[^A-Z0-9\- ]+', '', t)`: drops every character outside the class. */
  function KeepPlateChars(t: string): (r: string)
    ensures forall i :: 0 <= i < |r| ==> IsPlateChar(r[i]) && r[i] in t
    ensures forall i :: 0 <= i < |t| && IsPlateChar(t[i]) ==> t[i] in r
    ensures IsSubsequence(r, t)
  {
    FilterIsSubsequence(t, IsPlateChar);
    Filter(t, IsPlateChar)
  }

  /**
   * `re.sub(r'\s+', ' ', t)`: every maximal run of whitespace becomes one
   * space. `afterSpace` says whether the text before `t` ended inside a run
   * that has already produced its space.
   */
  function CollapseWhitespace(t: string, afterSpace: bool): (r: string)
    ensures |r| <= |t|
  {
    if t == [] then []
    else if IsSpace(t[0]) then
      if afterSpace then CollapseWhitespace(t[1..], true)
      else [' '] + CollapseWhitespace(t[1..], true)
    else
      [t[0]] + CollapseWhitespace(t[1..], false)
  }

  /**
   * What the collapse keeps: every character is a space or a
   * non-whitespace character of `t`, no two spaces are adjacent, and the
   * letters, digits and dashes are exactly those of `t`, in order.
   */
  lemma {:induction false} CollapseFacts(t: string, afterSpace: bool)
    ensures var r := CollapseWhitespace(t, afterSpace);
            && (forall i :: 0 <= i < |r| ==> r[i] == ' ' || (!IsSpace(r[i]) && r[i] in t))
            && (forall i :: 0 <= i < |r| - 1 ==> !(r[i] == ' ' && r[i + 1] == ' '))
            && (afterSpace && r != [] ==> r[0] != ' ')
            && Filter(r, IsPlateSymbol) == Filter(t, IsPlateSymbol)
  {
    if t != [] {
      if IsSpace(t[0]) {
        CollapseFacts(t[1..], true);
        if !afterSpace {
          var rest := CollapseWhitespace(t[1..], true);
          assert ([' '] + rest)[1..] == rest;
        }
      } else {
        CollapseFacts(t[1..], false);
        var rest := CollapseWhitespace(t[1..], false);
        assert ([t[0]] + rest)[1..] == rest;
      }
    }
  }

  /**
   * `normalize_plate(raw_text)`: "" for None or an empty string, otherwise
   * the stripped, upper-cased text with every character outside
   * `[A-Z0-9- ]` removed and whitespace runs collapsed to one space.
   * Stripping happens before the removal, so the result can still end in a
   * space ("A #" gives "A ").
   */
  function NormalizePlate(raw: Option<string>): (r: string)
    requires raw.Some? ==> IsAscii(raw.value)
    ensures raw.None? || raw == Some("") ==> r == ""
    ensures forall i :: 0 <= i < |r| ==> IsPlateChar(r[i])
    ensures forall i :: 0 <= i < |r| - 1 ==> !(r[i] == ' ' && r[i + 1] == ' ')
    ensures |r| <= |raw.GetOr("")|
  {
    if raw.None? || raw.value == "" then ""
    else
      var kept := KeepPlateChars(Upper(Strip(raw.value)));
      var r := CollapseWhitespace(kept, false);
      CollapseFacts(kept, false);
      assert forall i :: 0 <= i < |r| ==> IsPlateChar(r[i]) by {
        forall i | 0 <= i < |r| ensures IsPlateChar(r[i]) {
          if r[i] != ' ' {
            var j :| 0 <= j < |kept| && kept[j] == r[i];
          }
        }
      }
      r
  }

  /** A string made only of whitespace has no plate symbols. */
  lemma {:induction false} NoSymbolsInWhitespace(t: string)
    requires WhitespaceOnly(t)
    ensures Filter(t, IsPlateSymbol) == []
  {
    if t != [] {
      assert WhitespaceOnly(t[1..]);
      NoSymbolsInWhitespace(t[1..]);
    }
  }

  /** Upper-casing whitespace yields no plate symbols. */
  lemma {:induction false} NoSymbolsInUpperWhitespace(t: string)
    requires WhitespaceOnly(t)
    ensures Filter(Upper(t), IsPlateSymbol) == []
  {
    if t != [] {
      assert Upper(t) == [UpperChar(t[0])] + Upper(t[1..]);
      assert WhitespaceOnly(t[1..]);
      NoSymbolsInUpperWhitespace(t[1..]);
    }
  }

  /** Stripping removes only whitespace, so it removes no plate symbol. */
  lemma StripKeepsSymbols(raw: string)
    ensures Filter(Upper(Strip(raw)), IsPlateSymbol) == Filter(Upper(raw), IsPlateSymbol)
  {
    var a := LeadingSpaces(raw);
    var r := Strip(raw);
    var b := a + |r|;
    assert raw == raw[..a] + r + raw[b..];
    UpperConcat(raw[..a] + r, raw[b..]);
    UpperConcat(raw[..a], r);
    NoSymbolsInUpperWhitespace(raw[..a]);
    NoSymbolsInUpperWhitespace(raw[b..]);
    FilterConcat(Upper(raw[..a]) + Upper(r), Upper(raw[b..]), IsPlateSymbol);
    FilterConcat(Upper(raw[..a]), Upper(r), IsPlateSymbol);
  }

  /**
   * With the spaces taken out, the normalised plate is exactly the
   * upper-cased input restricted to `[A-Z0-9-]`: letters, digits and dashes
   * are never dropped, reordered or changed other than by upper-casing.
   */
  lemma NormalizeKeepsSymbols(raw: string)
    requires IsAscii(raw)
    ensures Filter(NormalizePlate(Some(raw)), IsPlateSymbol) == Filter(Upper(raw), IsPlateSymbol)
  {
    if raw != "" {
      var u := Upper(Strip(raw));
      FilterFilter(u, IsPlateChar, IsPlateSymbol, IsPlateSymbol);
      CollapseFacts(KeepPlateChars(u), false);
      StripKeepsSymbols(raw);
    }
  }

  /**
   * Text made only of letters (of either case), digits and dashes
   * normalises to its upper-cased form: lower-case letters come out as their
   * upper-case letters and nothing is removed.
   */
  lemma NormalizeUppercasesCleanText(raw: string)
    requires IsAscii(raw)
    requires forall i :: 0 <= i < |raw| ==> IsPlateSymbol(UpperChar(raw[i]))
    ensures NormalizePlate(Some(raw)) == Upper(raw)
  {
    if raw != "" {
      assert LeadingSpaces(raw) == 0 by {
        assert IsPlateSymbol(UpperChar(raw[0]));
      }
      assert TrailingSpaces(raw) == 0 by {
        assert IsPlateSymbol(UpperChar(raw[|raw| - 1]));
      }
      assert Strip(raw) == raw;
      FilterAll(Upper(raw), IsPlateChar);
      CollapseIdentity(Upper(raw), false);
    }
  }

  lemma {:induction false} CollapseIdentity(t: string, afterSpace: bool)
    requires forall i :: 0 <= i < |t| ==> IsPlateSymbol(t[i])
    ensures CollapseWhitespace(t, afterSpace) == t
  {
    if t != [] {
      CollapseIdentity(t[1..], false);
    }
  }

  /** Inside a run that has already produced its space, more whitespace produces nothing. */
  lemma {:induction false} SkipRun(w: string, v: string)
    requires WhitespaceOnly(w)
    ensures CollapseWhitespace(w + v, true) == CollapseWhitespace(v, true)
  {
    if w != [] {
      var t := w + v;
      assert t[0] == w[0] && IsSpace(t[0]);
      assert t[1..] == w[1..] + v;
      assert CollapseWhitespace(t, true) == CollapseWhitespace(t[1..], true);
      assert WhitespaceOnly(w[1..]);
      SkipRun(w[1..], v);
    } else {
      assert w + v == v;
    }
  }

  /**
   * A run of whitespace that follows text without whitespace becomes
   * exactly one space; the text before it is kept as it is.
   */
  lemma {:induction false} CollapseRun(u: string, w: string, v: string)
    requires forall i :: 0 <= i < |u| ==> !IsSpace(u[i])
    requires w != [] && WhitespaceOnly(w)
    ensures CollapseWhitespace(u + w + v, false) == u + [' '] + CollapseWhitespace(v, true)
  {
    var t := u + w + v;
    var rest := CollapseWhitespace(v, true);
    if u == [] {
      assert t == w + v;
      assert t[0] == w[0] && IsSpace(t[0]);
      assert t[1..] == w[1..] + v;
      assert CollapseWhitespace(t, false) == [' '] + CollapseWhitespace(t[1..], true);
      SkipRun(w[1..], v);
    } else {
      assert t[0] == u[0] && !IsSpace(t[0]);
      assert t[1..] == u[1..] + w + v;
      assert CollapseWhitespace(t, false) == [u[0]] + CollapseWhitespace(t[1..], false);
      CollapseRun(u[1..], w, v);
      assert u + [' '] + rest == [u[0]] + (u[1..] + [' '] + rest);
    }
  }

  /** `n` spaces. */
  function Spaces(n: nat): (s: string)
    ensures |s| == n && forall i :: 0 <= i < n ==> s[i] == ' '
  {
    seq(n, _ => ' ')
  }

  /**
   * Two words of letters, digits and dashes separated by any number of
   * spaces normalise to the upper-cased words with one space between them
   * ("mh  12" gives "MH 12").
   */
  lemma NormalizeSeparatesWords(a: string, n: nat, b: string)
    requires IsAscii(a) && IsAscii(b)
    requires a != [] && b != [] && n >= 1
    requires forall i :: 0 <= i < |a| ==> IsPlateSymbol(UpperChar(a[i]))
    requires forall i :: 0 <= i < |b| ==> IsPlateSymbol(UpperChar(b[i]))
    ensures IsAscii(a + Spaces(n) + b)
    ensures NormalizePlate(Some(a + Spaces(n) + b)) == Upper(a) + " " + Upper(b)
  {
    var sp := Spaces(n);
    var raw := a + sp + b;
    assert IsAscii(raw) by {
      forall i | 0 <= i < |raw| ensures raw[i] as int < 128 {
        if i < |a| {
          assert raw[i] == a[i];
        } else if i < |a| + n {
          assert raw[i] == ' ';
        } else {
          assert raw[i] == b[i - |a| - n];
        }
      }
    }
    assert LeadingSpaces(raw) == 0 by {
      assert raw[0] == a[0] && IsPlateSymbol(UpperChar(a[0]));
    }
    assert TrailingSpaces(raw) == 0 by {
      assert raw[|raw| - 1] == b[|b| - 1] && IsPlateSymbol(UpperChar(b[|b| - 1]));
    }
    assert Strip(raw) == raw;
    UpperConcat(a + sp, b);
    UpperConcat(a, sp);
    assert Upper(sp) == sp;
    var u := Upper(raw);
    assert u == Upper(a) + sp + Upper(b);
    FilterAll(u, IsPlateChar);
    assert WhitespaceOnly(sp);
    CollapseRun(Upper(a), sp, Upper(b));
    CollapseIdentity(Upper(b), true);
  }
}
