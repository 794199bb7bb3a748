/** The string methods the runtime uses, as Python defines them. */
module PyStrings {
  /** `pattern in s`. */
  ghost predicate Contains(s: string, pattern: string) {
    exists i | 0 <= i <= |s| :: pattern <= s[i..]
  }

  /** `s.replace(pattern, put)`: occurrences are taken from the left and do not overlap. */
  function Replace(s: string, pattern: string, put: string): string
    requires pattern != []
    decreases |s|
  {
    if s == [] then []
    else if pattern <= s then put + Replace(s[|pattern|..], pattern, put)
    else [s[0]] + Replace(s[1..], pattern, put)
  }

  /** `s.lstrip(c)` and `s.rstrip(c)` for one character. */
  function LStrip(s: string, c: char): (r: string)
    ensures r == [] || r[0] != c
    ensures |r| <= |s| && r == s[|s| - |r|..] && forall k | 0 <= k < |s| - |r| :: s[k] == c
  {
    if s != [] && s[0] == c then
      var r := LStrip(s[1..], c);
      assert s[1..][|s| - 1 - |r|..] == s[|s| - |r|..];
      assert forall k | 1 <= k < |s| - |r| :: s[k] == s[1..][k - 1];
      r
    else s
  }

  function RStrip(s: string, c: char): (r: string)
    ensures r == [] || r[|r| - 1] != c
    ensures |r| <= |s| && r == s[..|r|] && forall k | |r| <= k < |s| :: s[k] == c
  {
    if s != [] && s[|s| - 1] == c then RStrip(s[..|s| - 1], c) else s
  }

  /** `str.isspace` of one character. */
  predicate IsSpace(c: char) {
    var n := c as int;
    0x09 <= n <= 0x0D || 0x1C <= n <= 0x20 || n == 0x85 || n == 0xA0 || n == 0x1680 || 0x2000 <= n <= 0x200A
    || n == 0x2028 || n == 0x2029 || n == 0x202F || n == 0x205F || n == 0x3000
  }

  /** `not s or not s.strip()`. */
  predicate Blank(s: string) {
    forall c | c in s :: IsSpace(c)
  }

  // ----- facts about replacing

  lemma ContainsTail(s: string, pattern: string)
    requires s != []
    ensures Contains(s, pattern) <==> pattern <= s || Contains(s[1..], pattern)
  {
    assert s == s[0..];
    if Contains(s, pattern) {
      var i :| 0 <= i <= |s| && pattern <= s[i..];
      if i > 0 {
        assert s[i..] == s[1..][i - 1..];
      }
    }
    if Contains(s[1..], pattern) {
      var i :| 0 <= i <= |s| - 1 && pattern <= s[1..][i..];
      assert s[1..][i..] == s[i + 1..];
    }
  }

  lemma ContainsChar(s: string, c: char)
    ensures Contains(s, [c]) <==> c in s
  {
    if c in s {
      var i :| 0 <= i < |s| && s[i] == c;
      assert [c] <= s[i..];
    }
    if Contains(s, [c]) {
      var i :| 0 <= i <= |s| && [c] <= s[i..];
      assert s[i..][0] == s[i];
    }
  }

  lemma {:induction false} ReplaceAbsent(s: string, pattern: string, put: string)
    requires pattern != [] && !Contains(s, pattern)
    ensures Replace(s, pattern, put) == s
    decreases |s|
  {
    if s != [] {
      ContainsTail(s, pattern);
      ReplaceAbsent(s[1..], pattern, put);
    }
  }

  /** If the pattern occurs, deleting it shortens the string by at least its length. */
  lemma {:induction false} DeleteShortens(s: string, pattern: string)
    requires pattern != []
    ensures |Replace(s, pattern, [])| <= |s|
    ensures Contains(s, pattern) ==> |Replace(s, pattern, [])| <= |s| - |pattern|
    decreases |s|
  {
    if s != [] {
      ContainsTail(s, pattern);
      if pattern <= s {
        DeleteShortens(s[|pattern|..], pattern);
      } else {
        DeleteShortens(s[1..], pattern);
      }
    } else if Contains(s, pattern) {
      assert false;
    }
  }

  /** Where the characters of a result come from, for a one-character pattern. */
  lemma {:induction false} ReplaceChars(s: string, c: char, put: string, x: char)
    requires x in Replace(s, [c], put)
    ensures (x in s && x != c) || x in put
    decreases |s|
  {
    if s != [] {
      if [c] <= s {
        if x !in put {
          ReplaceChars(s[1..], c, put, x);
        }
      } else if x != s[0] {
        ReplaceChars(s[1..], c, put, x);
      }
    }
  }

  lemma {:induction false} ReplacePairChars(s: string, pattern: string, put: string, x: char)
    requires pattern != [] && x in Replace(s, pattern, put)
    ensures x in s || x in put
    decreases |s|
  {
    if s != [] {
      if pattern <= s {
        if x !in put {
          ReplacePairChars(s[|pattern|..], pattern, put, x);
        }
      } else if x != s[0] {
        ReplacePairChars(s[1..], pattern, put, x);
      }
    }
  }
}
