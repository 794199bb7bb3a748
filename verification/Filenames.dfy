/** Filename checking and sanitising.  The sanitiser makes one replacement pass after another, so a
    later pass could undo what an earlier one achieved. */
module Filenames {
  import opened PyStrings

  const DANGEROUS: seq<string> := ["/", "\\", "..", "\0", "<", ">", ":", "\"", "|", "?", "*"]

  /** The index of the two passes that are not a one-character replacement. */
  const DOTS := 2
  const NUL := 3

  ghost predicate IsSafe(name: string) {
    && (forall k | 0 <= k < |DANGEROUS| :: !Contains(name, DANGEROUS[k]))
    && !Blank(name)
    && (name == [] || name[0] != '.')
  }

  function PassText(k: nat, replacement: string): string {
    if k == NUL then "" else replacement
  }

  /** The name after the first `k` passes. */
  function Passes(name: string, replacement: string, k: nat): string
    requires k <= |DANGEROUS|
  {
    if k == 0 then name
    else Replace(Passes(name, replacement, k - 1), DANGEROUS[k - 1], PassText(k - 1, replacement))
  }

  function Sanitized(name: string, replacement: string): string {
    var stripped := LStrip(Passes(name, replacement, |DANGEROUS|), '.');
    if Blank(stripped) then "unnamed" else stripped
  }

  /** `sanitize_filename`. */
  method SanitizeFilename(filename: string, replacement: string) returns (result: string)
    ensures result == Sanitized(filename, replacement)
    ensures CleanReplacement(replacement) && '\0' !in filename ==> IsSafe(result)
    ensures IsSafe(filename) ==> result == filename
  {
    result := filename;
    for k := 0 to |DANGEROUS|
      invariant result == Passes(filename, replacement, k)
    {
      result := Replace(result, DANGEROUS[k], if k != NUL then replacement else "");
    }
    result := LStrip(result, '.');
    if Blank(result) {
      result := "unnamed";
    }
    if CleanReplacement(replacement) && '\0' !in filename {
      SanitizedIsSafe(filename, replacement);
    }
    if IsSafe(filename) {
      SafeIsFixed(filename, replacement);
    }
  }

  /** A replacement text that brings in nothing dangerous itself; "_" is one. */
  predicate CleanReplacement(r: string) {
    r != [] && forall c | c in r :: c !in "/\\\0<>:\"|?*."
  }

  lemma UnderscoreIsClean()
    ensures CleanReplacement("_")
  {
  }

  // ----- two dots in a row

  predicate NoDotPair(s: string) {
    forall i | 0 <= i < |s| - 1 :: !(s[i] == '.' && s[i + 1] == '.')
  }

  lemma NoDotPairContains(s: string)
    ensures NoDotPair(s) <==> !Contains(s, "..")
  {
    if !NoDotPair(s) {
      var i :| 0 <= i < |s| - 1 && s[i] == '.' && s[i + 1] == '.';
      assert ".." <= s[i..];
    }
    if Contains(s, "..") {
      var i :| 0 <= i <= |s| && ".." <= s[i..];
      assert s[i..][0] == s[i] && s[i..][1] == s[i + 1];
    }
  }

  lemma DotFreeThen(a: string, b: string)
    requires a != [] && '.' !in a && NoDotPair(b)
    ensures NoDotPair(a + b) && (a + b)[0] != '.'
  {
    var s := a + b;
    assert (a + b)[0] == a[0];
    forall i | 0 <= i < |s| - 1
      ensures !(s[i] == '.' && s[i + 1] == '.')
    {
      if i < |a| {
        assert s[i] == a[i];
      } else {
        assert s[i] == b[i - |a|] && s[i + 1] == b[i + 1 - |a|];
      }
    }
  }

  lemma CharThen(c: char, b: string)
    requires NoDotPair(b) && !(c == '.' && b != [] && b[0] == '.')
    ensures NoDotPair([c] + b)
  {
    var s := [c] + b;
    forall i | 0 <= i < |s| - 1
      ensures !(s[i] == '.' && s[i + 1] == '.')
    {
      assert s[i + 1] == b[i];
      if i > 0 {
        assert s[i] == b[i - 1];
      }
    }
  }

  /** The pass for ".." leaves no pair of dots. */
  lemma {:induction false} DotPassClears(s: string, r: string)
    requires r != [] && '.' !in r
    ensures var t := Replace(s, "..", r);
            NoDotPair(t) && (t != [] && t[0] == '.' ==> s[0] == '.' && !(".." <= s))
    decreases |s|
  {
    if s != [] {
      if ".." <= s {
        DotPassClears(s[2..], r);
        DotFreeThen(r, Replace(s[2..], "..", r));
      } else {
        DotPassClears(s[1..], r);
        var rest := Replace(s[1..], "..", r);
        CharThen(s[0], rest);
      }
    }
  }

  /** No later pass makes a new pair: its text is dot-free and not empty. */
  lemma {:induction false} PassKeepsNoPair(s: string, c: char, r: string)
    requires NoDotPair(s) && r != [] && '.' !in r
    ensures var t := Replace(s, [c], r);
            NoDotPair(t) && (t != [] && t[0] == '.' ==> s != [] && s[0] == '.')
    decreases |s|
  {
    if s != [] {
      var tail := s[1..];
      assert forall i | 0 <= i < |tail| :: tail[i] == s[i + 1];
      PassKeepsNoPair(s[1..], c, r);
      var rest := Replace(s[1..], [c], r);
      if [c] <= s {
        DotFreeThen(r, rest);
      } else {
        CharThen(s[0], rest);
      }
    }
  }

  // ----- the passes together

  /** After k passes the first k dangerous strings are gone, and stay gone. */
  lemma {:induction false} PassesClear(name: string, r: string, k: nat)
    requires k <= |DANGEROUS| && CleanReplacement(r) && '\0' !in name
    ensures var s := Passes(name, r, k);
            && '\0' !in s
            && (k > DOTS ==> NoDotPair(s))
            && forall j | 0 <= j < k && j != DOTS :: DANGEROUS[j][0] !in s
    decreases k
  {
    if k > 0 {
      PassesClear(name, r, k - 1);
      PassClears(Passes(name, r, k - 1), r, k - 1);
    }
  }

  lemma PassClears(s: string, r: string, k: nat)
    requires k < |DANGEROUS| && CleanReplacement(r) && '\0' !in s
    requires (k > DOTS ==> NoDotPair(s)) && forall j | 0 <= j < k && j != DOTS :: DANGEROUS[j][0] !in s
    ensures var t := Replace(s, DANGEROUS[k], PassText(k, r));
            && '\0' !in t
            && (k >= DOTS ==> NoDotPair(t))
            && forall j | 0 <= j <= k && j != DOTS :: DANGEROUS[j][0] !in t
  {
    var t := Replace(s, DANGEROUS[k], PassText(k, r));
    if k == NUL {
      ContainsChar(s, '\0');
      ReplaceAbsent(s, "\0", "");
    } else {
      forall x | x in t
        ensures x in s || x in r
        ensures k != DOTS ==> x != DANGEROUS[k][0] || x in r
      {
        ReplacePairChars(s, DANGEROUS[k], r, x);
        if k != DOTS {
          assert DANGEROUS[k] == [DANGEROUS[k][0]];
          ReplaceChars(s, DANGEROUS[k][0], r, x);
        }
      }
      if k == DOTS {
        DotPassClears(s, r);
      } else if k > DOTS {
        assert DANGEROUS[k] == [DANGEROUS[k][0]];
        PassKeepsNoPair(s, DANGEROUS[k][0], r);
      }
      DangerousChars();
    }
  }

  lemma DangerousChars()
    ensures forall j | 0 <= j < |DANGEROUS| && j != DOTS :: DANGEROUS[j] == [DANGEROUS[j][0]] && DANGEROUS[j][0] in "/\\\0<>:\"|?*."
  {
  }

  /** For every NUL-free name, and every replacement that is itself clean, the result is safe. */
  lemma SanitizedIsSafe(name: string, r: string)
    requires CleanReplacement(r) && '\0' !in name
    ensures IsSafe(Sanitized(name, r))
  {
    hide Passes, LStrip, IsSafe, Blank, NoDotPair, CleanReplacement;
    PassesClear(name, r, |DANGEROUS|);
    var s := Passes(name, r, |DANGEROUS|);
    StripKeepsNoPair(s);
    SafeUnlessPair(s);
  }

  lemma StripKeepsNoPair(s: string)
    requires NoDotPair(s)
    ensures NoDotPair(LStrip(s, '.'))
  {
    hide LStrip;
    var stripped := LStrip(s, '.');
    var skip := |s| - |stripped|;
    forall i | 0 <= i < |stripped| - 1
      ensures !(stripped[i] == '.' && stripped[i + 1] == '.')
    {
      assert stripped[i] == s[skip + i] && stripped[i + 1] == s[skip + i + 1];
    }
  }

  /** With the one-character strings gone, only a pair of dots can make the outcome unsafe. */
  lemma SafeUnlessPair(s: string)
    requires forall j | 0 <= j < |DANGEROUS| && j != DOTS :: DANGEROUS[j][0] !in s
    ensures var stripped := LStrip(s, '.');
            IsSafe(if Blank(stripped) then "unnamed" else stripped) <==> NoDotPair(stripped)
  {
    var stripped := LStrip(s, '.');
    if Blank(stripped) {
      hide IsSafe, LStrip;
      UnnamedIsSafe();
      BlankHasNoPair(stripped);
    } else if NoDotPair(stripped) {
      StrippedFrom(s);
      hide IsSafe, NoDotPair, Blank, LStrip;
      CharwiseSafe(stripped);
    } else {
      NoDotPairContains(stripped);
      assert DANGEROUS[DOTS] == "..";
    }
  }

  lemma StrippedFrom(s: string)
    ensures forall x | x in LStrip(s, '.') :: x in s
  {
    hide LStrip;
    var stripped := LStrip(s, '.');
    forall x | x in stripped ensures x in s {
      var i :| 0 <= i < |stripped| && stripped[i] == x;
      assert s[|s| - |stripped| + i] == x;
    }
  }

  lemma BlankHasNoPair(s: string)
    requires Blank(s)
    ensures NoDotPair(s)
  {
    forall i | 0 <= i < |s|
      ensures s[i] != '.'
    {
      assert s[i] in s && !IsSpace('.');
    }
  }

  lemma CharwiseSafe(s: string)
    requires NoDotPair(s) && !Blank(s) && (s == [] || s[0] != '.')
    requires forall j | 0 <= j < |DANGEROUS| && j != DOTS :: DANGEROUS[j][0] !in s
    ensures IsSafe(s)
  {
    DangerousChars();
    forall k | 0 <= k < |DANGEROUS|
      ensures !Contains(s, DANGEROUS[k])
    {
      if k == DOTS {
        NoDotPairContains(s);
      } else {
        ContainsChar(s, DANGEROUS[k][0]);
      }
    }
  }

  lemma UnnamedIsSafe()
    ensures IsSafe("unnamed")
  {
    var name := "unnamed";
    assert name[0] in name && !IsSpace(name[0]);
    CharwiseSafe(name);
  }

  /** A safe name is left as it is, whatever the replacement. */
  lemma SafeIsFixed(name: string, r: string)
    requires IsSafe(name)
    ensures Sanitized(name, r) == name
  {
    SafePasses(name, r, |DANGEROUS|);
  }

  lemma {:induction false} SafePasses(name: string, r: string, k: nat)
    requires IsSafe(name) && k <= |DANGEROUS|
    ensures Passes(name, r, k) == name
    decreases k
  {
    if k > 0 {
      SafePasses(name, r, k - 1);
      ReplaceAbsent(name, DANGEROUS[k - 1], PassText(k - 1, r));
    }
  }

  /** So sanitising again changes nothing. */
  lemma SanitizingTwice(name: string, r: string)
    requires CleanReplacement(r) && '\0' !in name
    ensures Sanitized(Sanitized(name, r), r) == Sanitized(name, r)
  {
    SanitizedIsSafe(name, r);
    SafeIsFixed(Sanitized(name, r), r);
  }

  // ----- names with NULs

  lemma {:induction false} StripCommutes(s: string, c: char, r: string)
    requires c != '.' && r != [] && '.' !in r
    ensures LStrip(Replace(s, [c], r), '.') == Replace(LStrip(s, '.'), [c], r)
    decreases |s|
  {
    if s != [] {
      if s[0] == '.' {
        StripCommutes(s[1..], c, r);
        assert Replace(s, [c], r)[1..] == Replace(s[1..], [c], r);
      } else {
        var t := Replace(s, [c], r);
        assert t[0] == (if [c] <= s then r[0] else s[0]);
      }
    }
  }

  /** A one-character pass does not take a pair of dots away either. */
  lemma {:induction false} PassKeepsPair(s: string, c: char, r: string)
    requires c != '.' && r != [] && !NoDotPair(s)
    ensures !NoDotPair(Replace(s, [c], r))
    decreases |s|
  {
    var i :| 0 <= i < |s| - 1 && s[i] == '.' && s[i + 1] == '.';
    var rest := Replace(s[1..], [c], r);
    var t := Replace(s, [c], r);
    if i == 0 {
      assert rest == ['.'] + Replace(s[1..][1..], [c], r);
      assert t[0] == '.' && t[1] == '.';
    } else {
      assert s[1..][i - 1] == '.' && s[1..][i] == '.';
      PassKeepsPair(s[1..], c, r);
      var j :| 0 <= j < |rest| - 1 && rest[j] == '.' && rest[j + 1] == '.';
      var skip := |t| - |rest|;
      assert t[skip + j] == rest[j] && t[skip + j + 1] == rest[j + 1];
    }
  }

  lemma PassKeepsStripped(s: string, c: char, r: string)
    requires c != '.' && r != [] && '.' !in r
    ensures NoDotPair(LStrip(Replace(s, [c], r), '.')) <==> NoDotPair(LStrip(s, '.'))
  {
    StripCommutes(s, c, r);
    if NoDotPair(LStrip(s, '.')) {
      PassKeepsNoPair(LStrip(s, '.'), c, r);
    } else {
      PassKeepsPair(LStrip(s, '.'), c, r);
    }
  }

  lemma {:induction false} PairsAfterNul(name: string, r: string, k: nat)
    requires CleanReplacement(r) && NUL < k <= |DANGEROUS|
    ensures NoDotPair(LStrip(Passes(name, r, k), '.')) <==> NoDotPair(LStrip(Passes(name, r, NUL + 1), '.'))
    decreases k
  {
    hide LStrip, NoDotPair, Replace;
    if k > NUL + 1 {
      PairsAfterNul(name, r, k - 1);
      OneCharacter(k - 1);
      PassKeepsStripped(Passes(name, r, k - 1), DANGEROUS[k - 1][0], r);
    }
  }

  lemma OneCharacter(k: nat)
    requires k < |DANGEROUS| && k != DOTS
    ensures DANGEROUS[k] == [DANGEROUS[k][0]] && DANGEROUS[k][0] != '.'
  {
  }

  /** The first k one-character strings are gone after k passes, NULs or not. */
  lemma {:induction false} CharsClear(name: string, r: string, k: nat)
    requires k <= |DANGEROUS| && CleanReplacement(r)
    ensures forall j | 0 <= j < k && j != DOTS :: DANGEROUS[j][0] !in Passes(name, r, k)
    decreases k
  {
    if k > 0 {
      CharsClear(name, r, k - 1);
      DangerousChars();
      var s, t := Passes(name, r, k - 1), Passes(name, r, k);
      forall x | x in t
        ensures x in s || x in r
        ensures k - 1 != DOTS ==> x != DANGEROUS[k - 1][0] || x in r
      {
        ReplacePairChars(s, DANGEROUS[k - 1], PassText(k - 1, r), x);
        if k - 1 != DOTS {
          assert DANGEROUS[k - 1] == [DANGEROUS[k - 1][0]];
          ReplaceChars(s, DANGEROUS[k - 1][0], PassText(k - 1, r), x);
        }
      }
    }
  }

  lemma SafeUnlessPairLeft(name: string, r: string)
    requires CleanReplacement(r)
    ensures IsSafe(Sanitized(name, r)) <==> NoDotPair(LStrip(Passes(name, r, NUL + 1), '.'))
  {
    hide IsSafe, LStrip, NoDotPair, Blank, Passes, CleanReplacement;
    PairsAfterNul(name, r, |DANGEROUS|);
    CharsClear(name, r, |DANGEROUS|);
    SafeUnlessPair(Passes(name, r, |DANGEROUS|));
  }

  /** Read a name from the left, taking two dots in a row together: a dot is joined to the one before it
      if only NULs stand between them and something other than dots and NULs came before both.
      `begun` says that such a thing has been read, `dot` that a single dot was the last. */
  predicate JoinsDots(name: string, begun: bool, dot: bool)
    decreases |name|
  {
    if name == [] then false
    else if name[0] == '.' then
      if |name| >= 2 && name[1] == '.' then JoinsDots(name[2..], true, false)
      else (begun && dot) || JoinsDots(name[1..], begun, begun)
    else if name[0] == '\0' then JoinsDots(name[1..], begun, dot)
    else JoinsDots(name[1..], true, false)
  }

  /** The same reading of a name in which NULs and pairs have been replaced. */
  predicate HasPair(name: string, begun: bool, dot: bool) {
    if name == [] then false
    else if name[0] == '.' then (begun && dot) || HasPair(name[1..], begun, begun)
    else HasPair(name[1..], true, false)
  }

  lemma {:induction false} HasPairFound(s: string, dot: bool)
    ensures HasPair(s, true, dot) <==> (dot && s != [] && s[0] == '.') || !NoDotPair(s)
    decreases |s|
  {
    if s != [] {
      var rest := s[1..];
      HasPairFound(rest, s[0] == '.');
      PairTail(s);
    }
  }

  lemma PairTail(s: string)
    requires s != []
    ensures NoDotPair(s) <==> NoDotPair(s[1..]) && !(|s| >= 2 && s[0] == '.' && s[1] == '.')
  {
    var rest := s[1..];
    assert forall i | 0 <= i < |rest| :: rest[i] == s[i + 1];
    if NoDotPair(rest) && !(|s| >= 2 && s[0] == '.' && s[1] == '.') {
      forall i | 0 <= i < |s| - 1 ensures !(s[i] == '.' && s[i + 1] == '.') {
        if i > 0 {
          assert s[i] == rest[i - 1] && s[i + 1] == rest[i];
        }
      }
    }
    if NoDotPair(s) {
      forall i | 0 <= i < |rest| - 1 ensures !(rest[i] == '.' && rest[i + 1] == '.') {
        assert s[i + 1] == rest[i] && s[i + 2] == rest[i + 1];
      }
    }
  }

  lemma {:induction false} HasPairStripped(s: string)
    ensures HasPair(s, false, false) <==> !NoDotPair(LStrip(s, '.'))
    decreases |s|
  {
    if s != [] {
      if s[0] == '.' {
        HasPairStripped(s[1..]);
      } else {
        HasPairFound(s, false);
      }
    }
  }

  lemma {:induction false} CleanBegins(r: string, rest: string, begun: bool, dot: bool)
    requires r != [] && '.' !in r && '\0' !in r
    ensures JoinsDots(r + rest, begun, dot) <==> JoinsDots(rest, true, false)
    ensures HasPair(r + rest, begun, dot) <==> HasPair(rest, true, false)
    ensures Replace(r + rest, "\0", "") == r + Replace(rest, "\0", "")
    decreases |r|
  {
    var s := r + rest;
    assert s[0] == r[0] && s[1..] == r[1..] + rest;
    if |r| == 1 {
      assert s[1..] == rest;
    } else {
      CleanBegins(r[1..], rest, true, false);
    }
    NulStep(r[0], r[1..] + rest);
    assert s == [r[0]] + (r[1..] + rest);
    if |r| == 1 {
      assert r[1..] + rest == rest;
    } else {
      assert [r[0]] + (r[1..] + Replace(rest, "\0", "")) == r + Replace(rest, "\0", "");
    }
  }

  lemma PairIsPrefix(s: string)
    requires |s| >= 2 && s[0] == '.'
    ensures ".." <= s <==> s[1] == '.'
  {
    assert s[..2] == [s[0], s[1]];
  }

  /** Reading the name is reading what the pass for ".." and the pass for NUL leave of it. */
  lemma {:induction false} JoinsIsPair(s: string, r: string, begun: bool, dot: bool)
    requires CleanReplacement(r)
    ensures JoinsDots(s, begun, dot) <==> HasPair(Replace(Replace(s, "..", r), "\0", ""), begun, dot)
    decreases |s|
  {
    if s != [] {
      if ".." <= s {
        JoinsIsPair(s[2..], r, true, false);
        CleanBegins(r, Replace(s[2..], "..", r), begun, dot);
        CleanBegins(r, Replace(Replace(s[2..], "..", r), "\0", ""), begun, dot);
        assert s[0] == '.' && s[1] == '.';
      } else {
        var rest := Replace(s[1..], "..", r);
        NulStep(s[0], rest);
        var after := Replace(rest, "\0", "");
        if s[0] == '.' && |s| >= 2 {
          PairIsPrefix(s);
        }
        JoinsIsPair(s[1..], r, if s[0] == '\0' || s[0] == '.' then begun else true,
                    if s[0] == '\0' then dot else if s[0] == '.' then begun else false);
        assert ([s[0]] + after)[1..] == after;
        assert s[0] == '\0' ==> [] + after == after;
      }
    }
  }

  /** A pass for another character does not change the reading. */
  lemma {:induction false} JoinsKept(s: string, c: char, r: string, begun: bool, dot: bool)
    requires CleanReplacement(r) && c != '.' && c != '\0'
    ensures JoinsDots(Replace(s, [c], r), begun, dot) <==> JoinsDots(s, begun, dot)
    decreases |s|
  {
    if s != [] {
      var t, rest := Replace(s, [c], r), Replace(s[1..], [c], r);
      if s[0] == c {
        JoinsKept(s[1..], c, r, true, false);
        CleanBegins(r, rest, begun, dot);
      } else {
        assert t == [s[0]] + rest && t[1..] == rest;
        if s[0] == '.' && |s| >= 2 && s[1] == '.' {
          JoinsKept(s[2..], c, r, true, false);
          assert s[1..][1..] == s[2..];
          assert rest == ['.'] + Replace(s[2..], [c], r);
          assert t[2..] == Replace(s[2..], [c], r);
        } else {
          assert s[0] == '.' && rest != [] ==> rest[0] != '.';
          JoinsKept(s[1..], c, r, if s[0] == '\0' || s[0] == '.' then begun else true,
                    if s[0] == '\0' then dot else if s[0] == '.' then begun else false);
        }
      }
    }
  }

  lemma FirstPasses(name: string, r: string)
    ensures Passes(name, r, NUL + 1) ==
            Replace(Replace(Replace(Replace(name, "/", r), "\\", r), "..", r), "\0", "")
  {
    hide Replace;
    assert Passes(name, r, 0) == name;
    assert Passes(name, r, 1) == Replace(name, "/", r);
    assert Passes(name, r, 2) == Replace(Passes(name, r, 1), "\\", r);
    assert Passes(name, r, 3) == Replace(Passes(name, r, 2), "..", r);
    assert Passes(name, r, 4) == Replace(Passes(name, r, 3), "\0", "");
  }

  /** For every name: the result is safe exactly if the name has no two dots, past its leading ones, that
      only NULs keep apart; the pass that deletes NULs comes after the pass for "..". */
  lemma SafeExactlyUnlessNulsJoinDots(name: string, r: string)
    requires CleanReplacement(r)
    ensures IsSafe(Sanitized(name, r)) <==> !JoinsDots(name, false, false)
  {
    hide IsSafe, Sanitized, NoDotPair, LStrip, HasPair, JoinsDots, CleanReplacement, Replace, Passes;
    SafeUnlessPairLeft(name, r);
    FirstPasses(name, r);
    HasPairStripped(Passes(name, r, NUL + 1));
    var p1 := Replace(name, "/", r);
    JoinsIsPair(Replace(p1, "\\", r), r, false, false);
    JoinsKept(p1, '\\', r, false, false);
    JoinsKept(name, '/', r, false, false);
  }

  lemma NulStep(c: char, rest: string)
    ensures Replace([c] + rest, "\0", "") == (if c == '\0' then [] else [c]) + Replace(rest, "\0", "")
  {
    var s := [c] + rest;
    assert s[0] == c && s[1..] == rest;
    if c == '\0' {
      assert "\0" <= s;
      assert Replace(s, "\0", "") == "" + Replace(rest, "\0", "");
    } else {
      assert !("\0" <= s);
      assert Replace(s, "\0", "") == [c] + Replace(rest, "\0", "");
    }
  }

  /** For instance, a dot, a NUL and a dot in the middle of a name. */
  lemma NulsCanJoinDots()
    ensures !IsSafe(Sanitized("a.\0.b", "_"))
  {
    var name := "a.\0.b";
    assert name[1..] == ".\0.b" && name[1..][1..] == "\0.b" && name[1..][1..][1..] == ".b";
    assert JoinsDots(".b", true, true);
    assert JoinsDots("\0.b", true, true);
    assert JoinsDots(".\0.b", true, false);
    UnderscoreIsClean();
    SafeExactlyUnlessNulsJoinDots(name, "_");
  }
}
