/** The replay scope of a workspace: a prefix and the digest of its two names in canonical JSON. */
module ScopeKeys {
  import opened Options
  import opened ImportStore

  const LEGACY := "model-import"
  const PREFIX := "model-import:workspace:"

  function HexDigit(d: nat): char
    requires d < 16
  {
    if d < 10 then ('0' as int + d) as char else ('a' as int + d - 10) as char
  }

  /** One character inside a JSON string, without escaping what is not ASCII. */
  function Escape(c: char): (e: string)
    ensures e != [] && e[0] != '"'
  {
    if c == '"' then "\\\""
    else if c == '\\' then "\\\\"
    else if c == '\n' then "\\n"
    else if c == '\r' then "\\r"
    else if c == '\t' then "\\t"
    else if c as int == 8 then "\\b"
    else if c as int == 12 then "\\f"
    else if c as int < 32 then "\\u00" + [HexDigit(c as int / 16), HexDigit(c as int % 16)]
    else [c]
  }

  /** A string's characters, its closing quote, and what follows. */
  function Closed(s: string, rest: string): string {
    if s == [] then ['"'] + rest else Escape(s[0]) + Closed(s[1..], rest)
  }

  /** `json.dumps([organization, workspace], ensure_ascii=False, separators=(",", ":"))`. */
  function Canonical(w: Workspace): string {
    "[\"" + Closed(w.organization, ",\"" + Closed(w.workspace, "]"))
  }

  function ScopeKey(digest: string -> string, scope: Option<Workspace>): string {
    match scope
    case None => LEGACY
    case Some(w) => PREFIX + digest(Canonical(w))
  }

  /** An escaped character can be told from what follows it. */
  lemma EscapePrefixFree(a: char, b: char, x: string, y: string)
    requires Escape(a) + x == Escape(b) + y
    ensures a == b && x == y
  {
    var ea, eb := Escape(a), Escape(b);
    var s, t := ea + x, eb + y;
    assert s[0] == ea[0] && t[0] == eb[0];
    if ea[0] == '\\' && eb[0] == '\\' {
      assert s[1] == ea[1] && t[1] == eb[1];
      if ea[1] == 'u' && eb[1] == 'u' {
        assert s[4] == ea[4] && t[4] == eb[4] && s[5] == ea[5] && t[5] == eb[5];
      }
    }
    assert a == b;
    assert s[|ea|..] == x && t[|eb|..] == y;
  }

  lemma Unclosed(c: char, x: string, y: string)
    ensures ['"'] + y != Escape(c) + x
  {
    assert (['"'] + y)[0] == '"' && (Escape(c) + x)[0] == Escape(c)[0];
  }

  /** A closing quote ends a string at the same place in both. */
  lemma {:induction false} ClosedInjective(s: string, t: string, x: string, y: string)
    requires Closed(s, x) == Closed(t, y)
    ensures s == t && x == y
    decreases |s|
  {
    hide Escape;
    if s == [] && t == [] {
      assert (['"'] + x)[1..] == x && (['"'] + y)[1..] == y;
    } else if s == [] {
      Unclosed(t[0], Closed(t[1..], y), x);
    } else if t == [] {
      Unclosed(s[0], Closed(s[1..], x), y);
    } else {
      EscapePrefixFree(s[0], t[0], Closed(s[1..], x), Closed(t[1..], y));
      ClosedInjective(s[1..], t[1..], x, y);
      assert s == [s[0]] + s[1..] && t == [t[0]] + t[1..];
    }
  }

  lemma Behind(head: string, x: string, y: string)
    requires head + x == head + y
    ensures x == y
  {
    assert (head + x)[|head|..] == x && (head + y)[|head|..] == y;
  }

  lemma CanonicalInjective(v: Workspace, w: Workspace)
    requires Canonical(v) == Canonical(w)
    ensures v == w
  {
    hide Closed;
    var x, y := Closed(v.workspace, "]"), Closed(w.workspace, "]");
    Behind("[\"", Closed(v.organization, ",\"" + x), Closed(w.organization, ",\"" + y));
    ClosedInjective(v.organization, w.organization, ",\"" + x, ",\"" + y);
    Behind(",\"", x, y);
    ClosedInjective(v.workspace, w.workspace, "]", "]");
  }

  /** With a digest that never collides, scopes have equal keys exactly if they are equal: no workspace
      shares replay keys with another one or with the legacy scope. */
  lemma ScopeKeysSeparate(digest: string -> string, a: Option<Workspace>, b: Option<Workspace>)
    requires forall x, y :: digest(x) == digest(y) ==> x == y
    ensures ScopeKey(digest, a) == ScopeKey(digest, b) <==> a == b
  {
    if a.Some? && b.Some? && ScopeKey(digest, a) == ScopeKey(digest, b) {
      assert ScopeKey(digest, a)[|PREFIX|..] == digest(Canonical(a.value));
      assert ScopeKey(digest, b)[|PREFIX|..] == digest(Canonical(b.value));
      CanonicalInjective(a.value, b.value);
    }
  }
}
