/** The .NET string operations the modelled code relies on, over `string` = `seq<char>`. */
module Text {
  import opened Wrappers

  /** `char.IsWhiteSpace`: U+0009..U+000D, the space separators, U+0085 and the line/paragraph separators. */
  predicate IsWhiteSpace(c: char) {
    ('\t' <= c <= '\r') || c == ' ' || c == '\U{85}' || c == '\U{A0}' || c == '\U{1680}'
    || ('\U{2000}' <= c <= '\U{200A}') || c == '\U{2028}' || c == '\U{2029}'
    || c == '\U{202F}' || c == '\U{205F}' || c == '\U{3000}'
  }

  /** `string.IsNullOrWhiteSpace` on a string that is not null: empty or all white space. */
  predicate IsBlank(s: string) {
    forall i | 0 <= i < |s| :: IsWhiteSpace(s[i])
  }

  /** `string.IsNullOrWhiteSpace`. */
  predicate IsNullOrWhiteSpace(s: Option<string>) {
    s.None? || IsBlank(s.value)
  }

  /** `string.IsNullOrEmpty`. */
  predicate IsNullOrEmpty(s: Option<string>) {
    s.None? || s.value == []
  }

  /** `$"{s}"` for a nullable string: null renders as the empty string. */
  function Render(s: Option<string>): string {
    s.GetOr([])
  }

  /**
   * `string.StartsWith`, compared character by character. .NET compares with the current
   * culture, which may ignore some characters (a soft hyphen, for one); that is not modelled.
   */
  predicate StartsWith(s: string, prefix: string) {
    |prefix| <= |s| && s[..|prefix|] == prefix
  }

  /** `string.TrimStart()`: drops the leading white space and nothing else. */
  function TrimStart(s: string): (r: string)
    ensures |r| <= |s| && r == s[|s| - |r|..]
    ensures IsBlank(s[..|s| - |r|])
    ensures r != [] ==> !IsWhiteSpace(r[0])
    decreases |s|
  {
    if s != [] && IsWhiteSpace(s[0]) then
      var r := TrimStart(s[1..]);
      assert s[..|s| - |r|] == [s[0]] + s[1..][..|s| - 1 - |r|];
      r
    else s
  }

  /** `string.TrimEnd()`: drops the trailing white space and nothing else. */
  function TrimEnd(s: string): (r: string)
    ensures |r| <= |s| && r == s[..|r|]
    ensures IsBlank(s[|r|..])
    ensures r != [] ==> !IsWhiteSpace(r[|r| - 1])
    decreases |s|
  {
    if s != [] && IsWhiteSpace(s[|s| - 1]) then
      var r := TrimEnd(s[..|s| - 1]);
      assert s[|r|..] == s[..|s| - 1][|r|..] + [s[|s| - 1]];
      r
    else s
  }

  /** `string.Trim()`. */
  function Trim(s: string): (r: string)
    ensures r != [] ==> !IsWhiteSpace(r[0]) && !IsWhiteSpace(r[|r| - 1])
    ensures r == [] <==> IsBlank(s)
  {
    var u := TrimStart(s);
    var r := TrimEnd(u);
    assert u != [] ==> !IsBlank(s) by {
      if u != [] {
        assert s[|s| - |u|] == u[0];
      }
    }
    assert r == [] ==> IsBlank(s) by {
      if r == [] {
        assert s == s[..|s| - |u|] + u;
        assert IsBlank(u[0..]);
      }
    }
    r
  }

  /** `string.Concat` / `string.Join("", …)`. */
  function Concat(ss: seq<string>): string {
    if ss == [] then [] else Concat(ss[..|ss| - 1]) + ss[|ss| - 1]
  }

  /** `string.Join(sep, …)`. */
  function Join(sep: string, ss: seq<string>): string {
    if ss == [] then []
    else if |ss| == 1 then ss[0]
    else Join(sep, ss[..|ss| - 1]) + sep + ss[|ss| - 1]
  }

  /** True when `pat` occurs somewhere in `s`. */
  predicate Occurs(s: string, pat: string)
    decreases |s|
  {
    |pat| <= |s| && (s[..|pat|] == pat || Occurs(s[1..], pat))
  }

  /** Ordinal `string.Replace(pat, rep)`: left to right, non-overlapping. */
  function Replace(s: string, pat: string, rep: string): (r: string)
    requires pat != []
    ensures !Occurs(s, pat) ==> r == s
    decreases |s|
  {
    if |s| < |pat| then s
    else if s[..|pat|] == pat then rep + Replace(s[|pat|..], pat, rep)
    else [s[0]] + Replace(s[1..], pat, rep)
  }

  predicate IsDigit(c: char) {
    '0' <= c <= '9'
  }

  /** The number of leading decimal digits of `s`. */
  function DigitRun(s: string): (n: nat)
    ensures n <= |s|
    ensures forall i | 0 <= i < n :: IsDigit(s[i])
    ensures n < |s| ==> !IsDigit(s[n])
  {
    if s != [] && IsDigit(s[0]) then 1 + DigitRun(s[1..]) else 0
  }

  /** The value of a string of decimal digits. */
  function DigitsValue(s: string): nat
    requires forall i | 0 <= i < |s| :: IsDigit(s[i])
  {
    if s == [] then 0
    else
      assert IsDigit(s[|s| - 1]);
      DigitsValue(s[..|s| - 1]) * 10 + (s[|s| - 1] as int - '0' as int)
  }

  /** `int.ToString()` for a natural number. */
  function NatToString(n: nat): (s: string)
    ensures s != [] && forall i | 0 <= i < |s| :: IsDigit(s[i])
    ensures DigitsValue(s) == n
  {
    var d := ('0' as int + n % 10) as char;
    if n < 10 then [d]
    else
      var s := NatToString(n / 10) + [d];
      assert s[..|s| - 1] == NatToString(n / 10);
      s
  }

  /** Prepends `p` to a successful result and passes a failure on. */
  function Prefix(p: string, r: Result<string>): Result<string> {
    if r.Ok? then Ok(p + r.value) else r
  }

  /**
   * `string.Format(t, args)` for composite format items of the form `{index}`, with `{{` and `}}`
   * as escaped braces. A lone brace, a non-numeric item or an index past the arguments is a
   * FormatException.
   */
  function Format(t: string, args: seq<string>): Result<string>
    decreases |t|
  {
    if t == [] then Ok([])
    else if |t| >= 2 && t[0] == '{' && t[1] == '{' then Prefix("{", Format(t[2..], args))
    else if |t| >= 2 && t[0] == '}' && t[1] == '}' then Prefix("}", Format(t[2..], args))
    else if t[0] == '}' then Err(FormatError)
    else if t[0] == '{' then
      var n := DigitRun(t[1..]);
      if n == 0 || 1 + n == |t| || t[1 + n] != '}' then Err(FormatError)
      else
        var k := DigitsValue(t[1..1 + n]);
        if k < |args| then Prefix(args[k], Format(t[2 + n..], args)) else Err(FormatError)
    else Prefix([t[0]], Format(t[1..], args))
  }

  /** True when `t` holds no brace, so formatting copies it. */
  predicate BraceFree(t: string) {
    forall i | 0 <= i < |t| :: t[i] != '{' && t[i] != '}'
  }

  /** ASCII lower-casing of one character. */
  function LowerChar(c: char): char {
    if 'A' <= c <= 'Z' then (c as int + 32) as char else c
  }

  /** `string.ToLower()` on the ASCII letters. */
  function ToLower(s: string): string {
    seq(|s|, i requires 0 <= i < |s| => LowerChar(s[i]))
  }

  // ---------------------------------------------------------------------------------------------
  // Lemmas

  lemma {:induction false} ConcatAppend(a: seq<string>, b: seq<string>)
    ensures Concat(a + b) == Concat(a) + Concat(b)
    decreases |b|
  {
    if b == [] {
      assert a + b == a;
    } else {
      var init, last := b[..|b| - 1], b[|b| - 1];
      assert (a + b)[..|a + b| - 1] == a + init;
      assert (a + b)[|a + b| - 1] == last;
      ConcatAppend(a, init);
      calc {
        Concat(a + b);
        Concat(a + init) + last;
        (Concat(a) + Concat(init)) + last;
        Concat(a) + (Concat(init) + last);
      }
    }
  }

  lemma {:induction false} TrimStartOfAppend(x: string, y: string)
    ensures !IsBlank(x) ==> TrimStart(x + y) == TrimStart(x) + y
    ensures IsBlank(x) ==> TrimStart(x + y) == TrimStart(y)
    decreases |x|
  {
    if x == [] {
      assert x + y == y;
    } else if IsWhiteSpace(x[0]) {
      var xy := x + y;
      assert xy[0] == x[0];
      assert xy[1..] == x[1..] + y;
      assert TrimStart(xy) == TrimStart(x[1..] + y);
      assert TrimStart(x) == TrimStart(x[1..]);
      BlankTail(x);
      TrimStartOfAppend(x[1..], y);
    } else {
      var xy := x + y;
      assert xy[0] == x[0];
      assert !IsBlank(x);
    }
  }

  lemma BlankTail(x: string)
    requires x != [] && IsWhiteSpace(x[0])
    ensures IsBlank(x) <==> IsBlank(x[1..])
  {
    if IsBlank(x[1..]) {
      forall i | 0 <= i < |x| ensures IsWhiteSpace(x[i]) {
        if i > 0 { assert x[i] == x[1..][i - 1]; }
      }
    }
  }

  lemma BlankInit(y: string)
    requires y != [] && IsWhiteSpace(y[|y| - 1])
    ensures IsBlank(y) <==> IsBlank(y[..|y| - 1])
  {
    if IsBlank(y[..|y| - 1]) {
      forall i | 0 <= i < |y| ensures IsWhiteSpace(y[i]) {
        if i < |y| - 1 { assert y[i] == y[..|y| - 1][i]; }
      }
    }
  }

  lemma {:induction false} TrimEndOfAppend(x: string, y: string)
    ensures !IsBlank(y) ==> TrimEnd(x + y) == x + TrimEnd(y)
    ensures IsBlank(y) ==> TrimEnd(x + y) == TrimEnd(x)
    decreases |y|
  {
    if y == [] {
      assert x + y == x;
    } else if IsWhiteSpace(y[|y| - 1]) {
      var xy := x + y;
      assert xy[|xy| - 1] == y[|y| - 1];
      assert xy[..|xy| - 1] == x + y[..|y| - 1];
      assert TrimEnd(xy) == TrimEnd(x + y[..|y| - 1]);
      assert TrimEnd(y) == TrimEnd(y[..|y| - 1]);
      BlankInit(y);
      TrimEndOfAppend(x, y[..|y| - 1]);
    } else {
      var xy := x + y;
      assert xy[|xy| - 1] == y[|y| - 1];
      assert !IsBlank(y);
    }
  }

  /**
   * Prefix stability of a trimmed concatenation: once the trimmed text starts with `p`, it
   * still does after more text is appended.
   */
  lemma {:induction false} TrimmedPrefixStable(x: string, y: string, p: string)
    requires StartsWith(Trim(x), p)
    ensures StartsWith(Trim(x + y), p)
  {
    TrimStartOfAppend(x, y);
    if IsBlank(x) {
      assert p == [];
    } else {
      var u := TrimStart(x);
      TrimEndOfAppend(u, y);
      if !IsBlank(y) {
        var v := TrimEnd(y);
        StartsWithTrans(u, TrimEnd(u), p);
        assert (u + v)[..|u|] == u;
        StartsWithTrans(u + v, u, p);
      }
    }
  }

  lemma StartsWithTrans(s: string, t: string, p: string)
    requires StartsWith(s, t) && StartsWith(t, p)
    ensures StartsWith(s, p)
  {
    assert s[..|p|] == s[..|t|][..|p|];
  }

  /** A template without braces formats to itself, whatever the arguments. */
  lemma {:induction false} FormatBraceFree(t: string, args: seq<string>)
    requires BraceFree(t)
    ensures Format(t, args) == Ok(t)
    decreases |t|
  {
    if t != [] {
      FormatBraceFree(t[1..], args);
      assert [t[0]] + t[1..] == t;
    }
  }

  /** Formatting distributes over a brace-free literal followed by more template. */
  lemma {:induction false} FormatLiteralThen(l: string, t: string, args: seq<string>)
    requires BraceFree(l)
    ensures Format(l + t, args) == Prefix(l, Format(t, args))
    decreases |l|
  {
    if l == [] {
      assert l + t == t;
      var r := Format(t, args);
      if r.Ok? { assert l + r.value == r.value; }
    } else {
      assert (l + t)[0] == l[0];
      assert (l + t)[1..] == l[1..] + t;
      FormatLiteralThen(l[1..], t, args);
      assert Format(l + t, args) == Prefix([l[0]], Format(l[1..] + t, args));
      var r := Format(t, args);
      if r.Ok? {
        assert [l[0]] + (l[1..] + r.value) == l + r.value;
      }
    }
  }

  /** A brace-free literal, a placeholder `{k}` and more template format as the literal, argument k and the rest. */
  lemma FormatSlotThen(l: string, k: nat, t: string, args: seq<string>)
    requires BraceFree(l) && k < |args| && Format(t, args).Ok?
    ensures Format(l + ("{" + NatToString(k) + "}" + t), args) == Ok(l + (args[k] + Format(t, args).value))
  {
    FormatItemThen(k, t, args);
    FormatLiteralThen(l, "{" + NatToString(k) + "}" + t, args);
  }

  /** A placeholder `{k}` followed by more template formats as argument k followed by the rest. */
  lemma FormatItemThen(k: nat, t: string, args: seq<string>)
    requires k < |args|
    ensures Format("{" + NatToString(k) + "}" + t, args) == Prefix(args[k], Format(t, args))
  {
    var ks := NatToString(k);
    var s := "{" + ks + "}" + t;
    assert s[0] == '{';
    assert s[1..] == ks + "}" + t;
    var n := DigitRun(s[1..]);
    assert n == |ks| by {
      assert (s[1..])[|ks|] == '}';
      forall i | 0 <= i < |ks| ensures IsDigit(s[1..][i]) { assert s[1..][i] == ks[i]; }
      DigitRunAtLeast(s[1..], |ks|);
    }
    assert s[1..1 + n] == ks;
    assert s[2 + n..] == t;
    if |ks| == 0 {
    } else {
      assert !(s[1] == '{');
    }
  }

  lemma {:induction false} DigitRunAtLeast(s: string, m: nat)
    requires m < |s| && !IsDigit(s[m])
    requires forall i | 0 <= i < m :: IsDigit(s[i])
    ensures DigitRun(s) == m
    decreases m
  {
    if m > 0 {
      DigitRunAtLeast(s[1..], m - 1);
    }
  }
}
