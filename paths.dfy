/** POSIX path arithmetic as Python's `posixpath` does it, on strings
    (no normalisation of `.`, `..` or repeated separators). */
module Paths {
  import opened Strings

  predicate IsAbsolute(path: string) {
    StartsWith(path, "/")
  }

  /** `os.path.join(a, b)`: an absolute `b` replaces `a`; otherwise one
      separator is inserted unless `a` is empty or already ends in one. */
  function PathJoin(a: string, b: string): (r: string)
    ensures IsAbsolute(b) ==> r == b
    ensures !IsAbsolute(b) ==> StartsWith(r, a) && EndsWith(r, b) && |r| >= |a| + |b|
  {
    if IsAbsolute(b) then b
    else if a == "" || EndsWith(a, "/") then a + b
    else a + "/" + b
  }

  /** `os.path.join(a, b, c)`. */
  function PathJoin3(a: string, b: string, c: string): string {
    PathJoin(PathJoin(a, b), c)
  }

  /** A name that does not start with a separator is relative. */
  lemma RelativeName(s: string)
    requires |s| > 0 && s[0] != '/'
    ensures !IsAbsolute(s)
  {
    assert s[..1][0] == s[0];
  }

  /** The usual case: a non-empty directory without a trailing separator
      and a relative name are glued with exactly one `/`. */
  lemma PathJoinPlain(a: string, b: string)
    requires a != "" && !EndsWith(a, "/") && !IsAbsolute(b)
    ensures PathJoin(a, b) == a + "/" + b
  {
  }

  /** `os.path.join(a, b, c)` with plain components is `a/b/c`. */
  lemma {:induction false} PathJoin3Plain(a: string, b: string, c: string)
    requires a != "" && !EndsWith(a, "/")
    requires b != "" && !IsAbsolute(b) && !EndsWith(b, "/")
    requires !IsAbsolute(c)
    ensures PathJoin3(a, b, c) == a + "/" + b + "/" + c
  {
    var ab := a + "/" + b;
    assert PathJoin(a, b) == ab;
    assert ab[|ab| - 1] == b[|b| - 1];
    assert b[|b| - 1..] != "/";
    assert !EndsWith(ab, "/") by { assert ab[|ab| - 1..] == b[|b| - 1..]; }
    assert PathJoin(ab, c) == ab + "/" + c;
  }

  /** Gluing a name that does not end in a separator gives a path that
      does not end in one either. */
  lemma PlainEnd(a: string, b: string)
    requires b != "" && !EndsWith(b, "/")
    ensures !EndsWith(a + "/" + b, "/")
  {
    var ab := a + "/" + b;
    assert ab[|ab| - 1..] == b[|b| - 1..];
  }

  /** `os.path.expanduser("~" + rest)` for a `rest` that starts with `/`:
      the home directory without its trailing separators, then `rest`. */
  function ExpandHome(home: string, rest: string): (r: string)
    requires IsAbsolute(rest)
    ensures EndsWith(r, rest) && StartsWith(r, RStrip(home, '/'))
  {
    RStrip(home, '/') + rest
  }

  /** The proper ancestors of a path that `os.makedirs` creates first:
      every prefix that ends just before a separator (the root excluded). */
  function Ancestors(path: string): set<string> {
    set i | 0 < i < |path| && path[i] == '/' :: path[..i]
  }

  predicate Within(path: string, root: string) {
    path == root || StartsWith(path, root + "/")
  }
}
