/** Python string operations used by the build scripts: `startswith`,
    `in`, `str.split` on one character, `str.join`, `str.replace`,
    `rstrip` of one character, `'%s' % n` for a natural number, and the
    one-keyword form of `str.format`. */
module Strings {

  datatype Option<+T> = None | Some(value: T)

  predicate StartsWith(s: string, prefix: string) {
    |prefix| <= |s| && s[..|prefix|] == prefix
  }

  predicate EndsWith(s: string, suffix: string) {
    |suffix| <= |s| && s[|s| - |suffix|..] == suffix
  }

  /** Python's `pat in s`. */
  lemma ConcatStartsWith(a: string, b: string)
    ensures StartsWith(a + b, a)
  {
    assert (a + b)[..|a|] == a;
  }

  lemma ConcatEndsWith(a: string, b: string)
    ensures EndsWith(a + b, b)
  {
    assert (a + b)[|a|..] == b;
  }

  predicate Contains(s: string, pat: string)
    decreases |s|
  {
    StartsWith(s, pat) || (|s| > 0 && Contains(s[1..], pat))
  }

  /** Python's `s.find(c)`, as an option instead of -1. */
  function IndexOf(s: string, c: char): (r: Option<nat>)
    ensures r.None? <==> c !in s
    ensures r.Some? ==> r.value < |s| && s[r.value] == c && c !in s[..r.value]
    decreases |s|
  {
    if |s| == 0 then None
    else if s[0] == c then Some(0)
    else match IndexOf(s[1..], c)
      case None => None
      case Some(j) => Some(j + 1)
  }

  lemma {:induction false} IndexOfAppend(a: string, b: string, c: char, j: nat)
    requires IndexOf(a, c) == Some(j)
    ensures IndexOf(a + b, c) == Some(j)
    decreases |a|
  {
    if a[0] != c {
      assert (a + b)[1..] == a[1..] + b;
      IndexOfAppend(a[1..], b, c, j - 1);
    }
  }

  /** Python's `s.split(sep)` for a one-character separator: never empty,
      one more piece than there are separators. */
  function Split(s: string, sep: char): (r: seq<string>)
    ensures |r| > 0
    ensures forall i :: 0 <= i < |r| ==> sep !in r[i]
    decreases |s|
  {
    if |s| == 0 then [""]
    else
      var rest := Split(s[1..], sep);
      if s[0] == sep then [""] + rest else [[s[0]] + rest[0]] + rest[1..]
  }

  /** Python's `sep.join(parts)`. */
  function Join(parts: seq<string>, sep: string): string
    decreases |parts|
  {
    if |parts| == 0 then ""
    else if |parts| == 1 then parts[0]
    else parts[0] + sep + Join(parts[1..], sep)
  }

  lemma JoinCons(p: string, ps: seq<string>, sep: string)
    requires |ps| > 0
    ensures Join([p] + ps, sep) == p + sep + Join(ps, sep)
  {
    assert ([p] + ps)[1..] == ps;
  }

  /** Joining two non-empty lists puts one separator between their joins. */
  lemma {:induction false} JoinAppend(a: seq<string>, b: seq<string>, sep: string)
    requires |a| > 0 && |b| > 0
    ensures Join(a + b, sep) == Join(a, sep) + sep + Join(b, sep)
    decreases |a|
  {
    if |a| == 1 {
      assert a + b == [a[0]] + b;
      JoinCons(a[0], b, sep);
    } else {
      assert a + b == [a[0]] + (a[1..] + b);
      JoinCons(a[0], a[1..] + b, sep);
      JoinAppend(a[1..], b, sep);
      assert a == [a[0]] + a[1..];
      JoinCons(a[0], a[1..], sep);
    }
  }

  /** Joining the pieces of a split gives back the string. */
  lemma {:induction false} JoinSplit(s: string, sep: char)
    ensures Join(Split(s, sep), [sep]) == s
    decreases |s|
  {
    if |s| > 0 {
      var rest := Split(s[1..], sep);
      JoinSplit(s[1..], sep);
      if s[0] == sep {
        JoinCons("", rest, [sep]);
      } else if |rest| == 1 {
        assert Split(s, sep) == [[s[0]] + rest[0]];
      } else {
        assert Split(s, sep) == [[s[0]] + rest[0]] + rest[1..];
        JoinCons([s[0]] + rest[0], rest[1..], [sep]);
        JoinCons(rest[0], rest[1..], [sep]);
        assert [rest[0]] + rest[1..] == rest;
      }
    }
  }

  /** A string without the separator splits into itself. */
  lemma {:induction false} SplitNoSep(s: string, sep: char)
    requires sep !in s
    ensures Split(s, sep) == [s]
    decreases |s|
  {
    if |s| > 0 {
      SplitNoSep(s[1..], sep);
      assert [s[0]] + s[1..] == s;
    }
  }

  /** The first separator closes the first piece. */
  lemma {:induction false} SplitAtFirst(a: string, sep: char, rest: string)
    requires sep !in a
    ensures Split(a + [sep] + rest, sep) == [a] + Split(rest, sep)
    decreases |a|
  {
    var s := a + [sep] + rest;
    if |a| == 0 {
      assert s[1..] == rest;
    } else {
      assert s[1..] == a[1..] + [sep] + rest;
      SplitAtFirst(a[1..], sep, rest);
      assert [a[0]] + a[1..] == a;
    }
  }

  /** Splitting a join of separator-free pieces gives back the pieces. */
  lemma {:induction false} SplitJoin(parts: seq<string>, sep: char)
    requires |parts| > 0
    requires forall i :: 0 <= i < |parts| ==> sep !in parts[i]
    ensures Split(Join(parts, [sep]), sep) == parts
    decreases |parts|
  {
    if |parts| == 1 {
      SplitNoSep(parts[0], sep);
    } else {
      SplitJoin(parts[1..], sep);
      SplitAtFirst(parts[0], sep, Join(parts[1..], [sep]));
      assert [parts[0]] + parts[1..] == parts;
    }
  }

  /** Python's `s.replace(pat, rep)`: every non-overlapping occurrence,
      scanning from the left. */
  function Replace(s: string, pat: string, rep: string): string
    requires |pat| > 0
    decreases |s|
  {
    if |s| < |pat| then s
    else if s[..|pat|] == pat then rep + Replace(s[|pat|..], pat, rep)
    else [s[0]] + Replace(s[1..], pat, rep)
  }

  /** Nothing to replace leaves the string alone. */
  lemma {:induction false} ReplaceAbsent(s: string, pat: string, rep: string)
    requires |pat| > 0 && !Contains(s, pat)
    ensures Replace(s, pat, rep) == s
    decreases |s|
  {
    if |s| >= |pat| {
      ReplaceAbsent(s[1..], pat, rep);
      assert [s[0]] + s[1..] == s;
    }
  }

  /** Replacing by a string of the same length keeps the length. */
  lemma {:induction false} ReplaceKeepsLength(s: string, pat: string, rep: string)
    requires |pat| > 0 && |rep| == |pat|
    ensures |Replace(s, pat, rep)| == |s|
    decreases |s|
  {
    if |s| >= |pat| {
      if s[..|pat|] == pat {
        ReplaceKeepsLength(s[|pat|..], pat, rep);
      } else {
        ReplaceKeepsLength(s[1..], pat, rep);
      }
    }
  }

  /** One step of `Replace` at a position where the pattern starts. */
  lemma ReplaceHit(s: string, pat: string, rep: string)
    requires |pat| > 0 && |s| >= |pat| && s[..|pat|] == pat
    ensures Replace(s, pat, rep) == rep + Replace(s[|pat|..], pat, rep)
  {
  }

  /** One step of `Replace` at a position where the pattern does not start. */
  lemma ReplaceMiss(s: string, pat: string, rep: string)
    requires |pat| > 0 && |s| >= |pat| && s[..|pat|] != pat
    ensures Replace(s, pat, rep) == [s[0]] + Replace(s[1..], pat, rep)
  {
  }

  /** A string shorter than the pattern is left alone. */
  lemma ReplaceShort(s: string, pat: string, rep: string)
    requires |pat| > 0 && |s| < |pat|
    ensures Replace(s, pat, rep) == s
  {
  }

  /** A pattern whose first character does not recur in it cannot overlap
      itself, so a trailing occurrence is always the one replaced last. */
  lemma {:induction false} ReplaceTrailing(x: string, pat: string, rep: string)
    requires |pat| > 0 && pat[0] !in pat[1..]
    ensures Replace(x + pat, pat, rep) == Replace(x, pat, rep) + rep
    decreases |x|
  {
    if |x| == 0 {
      var s := x + pat;
      assert s == pat && s[..|pat|] == pat && s[|pat|..] == [];
      ReplaceHit(s, pat, rep);
      ReplaceShort([], pat, rep);
    } else if |x| < |pat| {
      ReplaceTrailing(x[1..], pat, rep);
      TrailingShortCase(x, pat, rep);
    } else if x[..|pat|] == pat {
      ReplaceTrailing(x[|pat|..], pat, rep);
      TrailingHitCase(x, pat, rep);
    } else {
      ReplaceTrailing(x[1..], pat, rep);
      TrailingMissCase(x, pat, rep);
    }
  }

  lemma TrailingShortCase(x: string, pat: string, rep: string)
    requires |pat| > 0 && pat[0] !in pat[1..] && 0 < |x| < |pat|
    requires Replace(x[1..] + pat, pat, rep) == Replace(x[1..], pat, rep) + rep
    ensures Replace(x + pat, pat, rep) == Replace(x, pat, rep) + rep
  {
    var s := x + pat;
    // The copy of pat[0] at index |x| would have to match pat[|x|].
    assert pat[|x|] in pat[1..] by { assert pat[1..][|x| - 1] == pat[|x|]; }
    assert s[|x|] == pat[0];
    assert s[..|pat|] != pat by { assert s[..|pat|][|x|] == s[|x|]; }
    ReplaceMiss(s, pat, rep);
    assert s[1..] == x[1..] + pat;
    ReplaceShort(x[1..], pat, rep);
    ReplaceShort(x, pat, rep);
    assert [x[0]] + x[1..] == x;
    assert Replace(s, pat, rep) == [x[0]] + (x[1..] + rep);
  }

  lemma TrailingHitCase(x: string, pat: string, rep: string)
    requires |pat| > 0 && |x| >= |pat| && x[..|pat|] == pat
    requires Replace(x[|pat|..] + pat, pat, rep) == Replace(x[|pat|..], pat, rep) + rep
    ensures Replace(x + pat, pat, rep) == Replace(x, pat, rep) + rep
  {
    HitShifted(x, pat, rep);
    ReplaceHit(x, pat, rep);
    var r1 := Replace(x[|pat|..], pat, rep);
    assert rep + (r1 + rep) == (rep + r1) + rep;
  }

  /** A hit at the head of `x` is still a hit once `pat` is appended. */
  lemma HitShifted(x: string, pat: string, rep: string)
    requires |pat| > 0 && |x| >= |pat| && x[..|pat|] == pat
    ensures Replace(x + pat, pat, rep) == rep + Replace(x[|pat|..] + pat, pat, rep)
  {
    var s := x + pat;
    assert s[..|pat|] == pat;
    ReplaceHit(s, pat, rep);
    assert s[|pat|..] == x[|pat|..] + pat;
  }

  lemma TrailingMissCase(x: string, pat: string, rep: string)
    requires |pat| > 0 && |x| >= |pat| && x[..|pat|] != pat
    requires Replace(x[1..] + pat, pat, rep) == Replace(x[1..], pat, rep) + rep
    ensures Replace(x + pat, pat, rep) == Replace(x, pat, rep) + rep
  {
    MissShifted(x, pat, rep);
    ReplaceMiss(x, pat, rep);
    var r1 := Replace(x[1..], pat, rep);
    assert [x[0]] + (r1 + rep) == ([x[0]] + r1) + rep;
  }

  /** A miss at the head of `x` is still a miss once `pat` is appended. */
  lemma MissShifted(x: string, pat: string, rep: string)
    requires |pat| > 0 && |x| >= |pat| && x[..|pat|] != pat
    ensures Replace(x + pat, pat, rep) == [x[0]] + Replace(x[1..] + pat, pat, rep)
  {
    var s := x + pat;
    assert s[..|pat|] == x[..|pat|];
    ReplaceMiss(s, pat, rep);
    assert s[1..] == x[1..] + pat;
  }

  /** Python's `s.rstrip(c)` for one character. */
  function RStrip(s: string, c: char): (r: string)
    ensures |r| <= |s| && r == s[..|r|]
    ensures |r| == 0 || r[|r| - 1] != c
    ensures forall i :: |r| <= i < |s| ==> s[i] == c
    decreases |s|
  {
    if |s| > 0 && s[|s| - 1] == c then RStrip(s[..|s| - 1], c) else s
  }

  function DigitChar(d: nat): char
    requires d < 10
  {
    ('0' as int + d) as char
  }

  /** The number a string of decimal digits spells. */
  function DecimalValue(s: string): int
    decreases |s|
  {
    if |s| == 0 then 0 else DecimalValue(s[..|s| - 1]) * 10 + (s[|s| - 1] as int - '0' as int)
  }

  /** Python's `'%s' % n` for a natural number: its decimal digits. */
  function NatToString(n: nat): (r: string)
    ensures |r| > 0
    ensures forall i :: 0 <= i < |r| ==> '0' <= r[i] <= '9'
    decreases n
  {
    if n < 10 then [DigitChar(n)] else NatToString(n / 10) + [DigitChar(n % 10)]
  }

  /** The digits spell `n`, without a leading zero. */
  lemma {:induction false} NatToStringValue(n: nat)
    ensures DecimalValue(NatToString(n)) == n
    ensures n > 0 ==> NatToString(n)[0] != '0'
    decreases n
  {
    var r := NatToString(n);
    if n < 10 {
      assert r[..|r| - 1] == [];
    } else {
      NatToStringValue(n / 10);
      assert r[..|r| - 1] == NatToString(n / 10);
    }
  }

  /** Different numbers are spelled differently. */
  lemma NatToStringInjective(m: nat, n: nat)
    ensures NatToString(m) == NatToString(n) <==> m == n
  {
    NatToStringValue(m);
    NatToStringValue(n);
  }

  // ---------------------------------------------------------------------
  // `template.format(NAME=value)` with a single keyword argument.

  predicate BraceFree(s: string) {
    '{' !in s && '}' !in s
  }

  /** Brace-freedom checked position by position. */
  lemma BraceFreeAt(s: string)
    requires forall i :: 0 <= i < |s| ==> s[i] != '{' && s[i] != '}'
    ensures BraceFree(s)
  {
  }

  lemma BraceFreeAppend(a: string, b: string)
    requires BraceFree(a) && BraceFree(b)
    ensures BraceFree(a + b)
  {
  }

  function Prepend(x: string, r: Option<string>): Option<string> {
    match r
    case None => None
    case Some(v) => Some(x + v)
  }

  lemma PrependTwice(a: string, b: string, r: Option<string>)
    ensures Prepend(a, Prepend(b, r)) == Prepend(a + b, r)
  {
    if r.Some? {
      assert a + (b + r.value) == (a + b) + r.value;
    }
  }

  /** Python's `s.format(NAME=value)`: `{{` and `}}` stand for single braces,
      `{NAME}` is replaced by `value`, any other replacement field and any
      unmatched brace make the call raise (result `None`). */
  function Format(s: string, name: string, value: string): Option<string>
    decreases |s|
  {
    if |s| == 0 then Some("")
    else if s[0] == '{' then
      if |s| > 1 && s[1] == '{' then Prepend("{", Format(s[2..], name, value))
      else match IndexOf(s[1..], '}')
        case None => None
        case Some(j) =>
          if s[1..j + 1] == name then Prepend(value, Format(s[j + 2..], name, value)) else None
    else if s[0] == '}' then
      if |s| > 1 && s[1] == '}' then Prepend("}", Format(s[2..], name, value)) else None
    else Prepend([s[0]], Format(s[1..], name, value))
  }

  /** A string without braces formats to itself. */
  lemma {:induction false} FormatBraceFree(s: string, name: string, value: string)
    requires BraceFree(s)
    ensures Format(s, name, value) == Some(s)
    decreases |s|
  {
    if |s| > 0 {
      assert BraceFree(s[1..]) by {
        assert forall c :: c in s[1..] ==> c in s;
      }
      FormatBraceFree(s[1..], name, value);
      assert [s[0]] + s[1..] == s;
    }
  }

  /** Formatting reads a well-formed prefix independently of what follows. */
  lemma {:induction false} FormatAppend(a: string, b: string, name: string, value: string, x: string)
    requires Format(a, name, value) == Some(x)
    ensures Format(a + b, name, value) == Prepend(x, Format(b, name, value))
    decreases |a|
  {
    var s := a + b;
    if |a| == 0 {
      assert s == b && x == "";
      if Format(b, name, value).Some? {
        assert x + Format(b, name, value).value == Format(b, name, value).value;
      }
    } else if a[0] == '{' && |a| > 1 && a[1] == '{' {
      assert s[2..] == a[2..] + b;
      var v := Format(a[2..], name, value).value;
      FormatAppend(a[2..], b, name, value, v);
      PrependTwice("{", v, Format(b, name, value));
    } else if a[0] == '{' {
      assert |a| > 1;
      var j := IndexOf(a[1..], '}').value;
      FormatFieldStep(a, name, value, j);
      var v := Format(a[j + 2..], name, value).value;
      FormatAppend(a[j + 2..], b, name, value, v);
      FormatAppendField(a, b, name, value, j);
      PrependTwice(value, v, Format(b, name, value));
    } else if a[0] == '}' {
      assert |a| > 1 && a[1] == '}';
      assert s[2..] == a[2..] + b;
      var v := Format(a[2..], name, value).value;
      FormatAppend(a[2..], b, name, value, v);
      PrependTwice("}", v, Format(b, name, value));
    } else {
      assert s[1..] == a[1..] + b;
      var v := Format(a[1..], name, value).value;
      FormatAppend(a[1..], b, name, value, v);
      PrependTwice([a[0]], v, Format(b, name, value));
    }
  }

  /** The field step of `FormatAppend`: a field closed inside `a` is read
      the same way when `b` follows. */
  lemma FormatAppendField(a: string, b: string, name: string, value: string, j: nat)
    requires |a| > 1 && a[0] == '{' && a[1] != '{'
    requires IndexOf(a[1..], '}') == Some(j) && a[1..j + 1] == name
    ensures Format(a + b, name, value) == Prepend(value, Format(a[j + 2..] + b, name, value))
  {
    var s := a + b;
    assert s[1..] == a[1..] + b;
    IndexOfAppend(a[1..], b, '}', j);
    assert s[1..j + 1] == a[1..j + 1];
    assert s[j + 2..] == a[j + 2..] + b;
    FormatFieldStep(s, name, value, j);
  }

  /** One unfolding of `Format` at a field `{...}` whose closing brace is at `j + 1`. */
  lemma FormatFieldStep(s: string, name: string, value: string, j: nat)
    requires |s| > 1 && s[0] == '{' && s[1] != '{'
    requires IndexOf(s[1..], '}') == Some(j)
    ensures Format(s, name, value) ==
      if s[1..j + 1] == name then Prepend(value, Format(s[j + 2..], name, value)) else None
  {
  }

  /** `{NAME}` followed by brace-free text becomes `value` + that text. */
  lemma FormatField(name: string, value: string, suffix: string)
    requires BraceFree(name) && BraceFree(suffix)
    ensures Format("{" + name + "}" + suffix, name, value) == Some(value + suffix)
  {
    var s := "{" + name + "}" + suffix;
    assert s[1..] == name + "}" + suffix;
    assert IndexOf(name, '}') == None;
    IndexOfAppend(name + "}", suffix, '}', |name|) by {
      assert (name + "}")[..|name|] == name;
    }
    assert s[1..|name| + 1] == name;
    assert s[|name| + 2..] == suffix;
    FormatBraceFree(suffix, name, value);
  }

  /** Formats every string of a list; `None` as soon as one raises. */
  function FormatAll(ss: seq<string>, name: string, value: string): (r: Option<seq<string>>)
    ensures r.Some? ==> |r.value| == |ss|
    decreases |ss|
  {
    if |ss| == 0 then Some([])
    else match Format(ss[0], name, value)
      case None => None
      case Some(x) =>
        match FormatAll(ss[1..], name, value)
        case None => None
        case Some(xs) => Some([x] + xs)
  }

  /** Formatting a join of pieces is the join of the formatted pieces,
      as long as the separator has no braces. */
  lemma {:induction false} FormatJoin(ss: seq<string>, sep: string, name: string, value: string, xs: seq<string>)
    requires BraceFree(sep)
    requires FormatAll(ss, name, value) == Some(xs)
    ensures Format(Join(ss, sep), name, value) == Some(Join(xs, sep))
    decreases |ss|
  {
    if |ss| == 1 {
      FormatAllHead(ss, name, value, xs);
    } else if |ss| > 1 {
      FormatAllHead(ss, name, value, xs);
      FormatJoin(ss[1..], sep, name, value, xs[1..]);
      FormatJoinCons(ss[0], Join(ss[1..], sep), sep, name, value, xs[0], Join(xs[1..], sep));
    }
  }

  /** The first piece and the rest of a list that formats. */
  lemma FormatAllHead(ss: seq<string>, name: string, value: string, xs: seq<string>)
    requires |ss| > 0 && FormatAll(ss, name, value) == Some(xs)
    ensures Format(ss[0], name, value) == Some(xs[0])
    ensures FormatAll(ss[1..], name, value) == Some(xs[1..])
  {
  }

  /** One step of `FormatJoin`: a piece, a brace-free separator, the rest. */
  lemma FormatJoinCons(x: string, rest: string, sep: string, name: string, value: string, x0: string, xrest: string)
    requires BraceFree(sep)
    requires Format(x, name, value) == Some(x0) && Format(rest, name, value) == Some(xrest)
    ensures Format(x + sep + rest, name, value) == Some(x0 + sep + xrest)
  {
    FormatSepRest(sep, rest, name, value, xrest);
    FormatAppend(x, sep + rest, name, value, x0);
    AppendAssoc(x, sep, rest);
    AppendAssoc(x0, sep, xrest);
  }

  /** A brace-free separator in front of text that formats. */
  lemma FormatSepRest(sep: string, rest: string, name: string, value: string, xrest: string)
    requires BraceFree(sep) && Format(rest, name, value) == Some(xrest)
    ensures Format(sep + rest, name, value) == Some(sep + xrest)
  {
    FormatBraceFree(sep, name, value);
    FormatAppend(sep, rest, name, value, sep);
  }

  lemma AppendAssoc<T>(a: seq<T>, b: seq<T>, c: seq<T>)
    ensures a + b + c == a + (b + c)
  {
  }

  lemma {:induction false} FormatAllAppend(a: seq<string>, b: seq<string>, name: string, value: string, xa: seq<string>, xb: seq<string>)
    requires FormatAll(a, name, value) == Some(xa) && FormatAll(b, name, value) == Some(xb)
    ensures FormatAll(a + b, name, value) == Some(xa + xb)
    decreases |a|
  {
    if |a| == 0 {
      assert a + b == b;
      assert xa + xb == xb;
    } else {
      assert (a + b)[1..] == a[1..] + b;
      assert Format(a[0], name, value) == Some(xa[0]);
      assert FormatAll(a[1..], name, value) == Some(xa[1..]);
      FormatAllAppend(a[1..], b, name, value, xa[1..], xb);
      assert (a + b)[0] == a[0];
      assert [xa[0]] + (xa[1..] + xb) == xa + xb;
    }
  }

  /** Brace-free strings all format to themselves. */
  lemma {:induction false} FormatAllBraceFree(ss: seq<string>, name: string, value: string)
    requires forall i :: 0 <= i < |ss| ==> BraceFree(ss[i])
    ensures FormatAll(ss, name, value) == Some(ss)
    decreases |ss|
  {
    if |ss| > 0 {
      FormatBraceFree(ss[0], name, value);
      FormatAllBraceFree(ss[1..], name, value);
      assert [ss[0]] + ss[1..] == ss;
    }
  }
}
