/**
 * The JavaScript string built-ins the coordinator relies on: `trim()`,
 * `split('/')`, `includes(...)`, `startsWith(...)` and the decimal form a
 * template literal gives an integer.
 */
module Text {

  /** The characters `String.prototype.trim` removes: WhiteSpace and LineTerminator. */
  predicate IsWhitespace(c: char) {
    || c == '\t' || c == '\n' || c == '\U{B}' || c == '\U{C}' || c == '\r'
    || c == ' ' || c == '\U{A0}' || c == '\U{1680}'
    || ('\U{2000}' <= c <= '\U{200A}')
    || c == '\U{2028}' || c == '\U{2029}' || c == '\U{202F}' || c == '\U{205F}'
    || c == '\U{3000}' || c == '\U{FEFF}'
  }

  /** Drops leading whitespace. */
  function TrimStart(s: string): (r: string)
    ensures |r| <= |s| && r == s[|s| - |r|..]
    ensures r == [] || !IsWhitespace(r[0])
    ensures forall i :: 0 <= i < |s| - |r| ==> IsWhitespace(s[i])
  {
    if s != [] && IsWhitespace(s[0]) then TrimStart(s[1..]) else s
  }

  /** Drops trailing whitespace. */
  function TrimEnd(s: string): (r: string)
    ensures |r| <= |s| && r == s[..|r|]
    ensures r == [] || !IsWhitespace(r[|r| - 1])
    ensures forall i :: |r| <= i < |s| ==> IsWhitespace(s[i])
  {
    if s != [] && IsWhitespace(s[|s| - 1]) then TrimEnd(s[..|s| - 1]) else s
  }

  /** `s.trim()`: `s` without its leading and trailing whitespace. */
  function Trim(s: string): (r: string)
    ensures |r| <= |s|
    ensures r == [] || (!IsWhitespace(r[0]) && !IsWhitespace(r[|r| - 1]))
  {
    TrimEnd(TrimStart(s))
  }

  /** Whether `s` has whitespace at either end, i.e. whether trimming changes it. */
  predicate HasOuterWhitespace(s: string) {
    s != [] && (IsWhitespace(s[0]) || IsWhitespace(s[|s| - 1]))
  }

  lemma {:induction false} TrimStartFixed(s: string)
    requires s == [] || !IsWhitespace(s[0])
    ensures TrimStart(s) == s
  {
  }

  lemma {:induction false} TrimEndFixed(s: string)
    requires s == [] || !IsWhitespace(s[|s| - 1])
    ensures TrimEnd(s) == s
  {
  }

  /** Trimming leaves a string without outer whitespace unchanged, so `trim` is idempotent. */
  lemma {:induction false} TrimFixedPoint(s: string)
    ensures !HasOuterWhitespace(s) <==> Trim(s) == s
    ensures Trim(Trim(s)) == Trim(s)
  {
    if !HasOuterWhitespace(s) {
      TrimStartFixed(s);
      TrimEndFixed(s);
    }
    var t := Trim(s);
    TrimStartFixed(t);
    TrimEndFixed(t);
  }

  /** Trimming drops a leading run of whitespace up to the first other character. */
  lemma {:induction false} TrimStartPadded(pre: string, y: string)
    requires forall i :: 0 <= i < |pre| ==> IsWhitespace(pre[i])
    requires y == [] || !IsWhitespace(y[0])
    ensures TrimStart(pre + y) == y
    decreases |pre|
  {
    if pre == [] {
      assert pre + y == y;
      TrimStartFixed(y);
    } else {
      assert (pre + y)[0] == pre[0];
      assert (pre + y)[1..] == pre[1..] + y;
      TrimStartPadded(pre[1..], y);
    }
  }

  /** Trimming drops a trailing run of whitespace back to the last other character. */
  lemma {:induction false} TrimEndPadded(y: string, post: string)
    requires forall i :: 0 <= i < |post| ==> IsWhitespace(post[i])
    requires y == [] || !IsWhitespace(y[|y| - 1])
    ensures TrimEnd(y + post) == y
    decreases |post|
  {
    if post == [] {
      assert y + post == y;
      TrimEndFixed(y);
    } else {
      var s := y + post;
      assert s[|s| - 1] == post[|post| - 1];
      assert s[..|s| - 1] == y + post[..|post| - 1];
      TrimEndPadded(y, post[..|post| - 1]);
    }
  }

  /** `trim` recovers a non-empty string without outer whitespace from any whitespace padding around it. */
  lemma TrimPadded(pre: string, x: string, post: string)
    requires forall i :: 0 <= i < |pre| ==> IsWhitespace(pre[i])
    requires forall i :: 0 <= i < |post| ==> IsWhitespace(post[i])
    requires x != [] && !HasOuterWhitespace(x)
    ensures Trim(pre + x + post) == x
  {
    var y := x + post;
    assert pre + x + post == pre + y;
    assert y[0] == x[0];
    TrimStartPadded(pre, y);
    TrimEndPadded(x, post);
  }

  /** `s.split('/')` of JavaScript: the pieces between slashes, empty ones included. */
  function Split(s: string): (parts: seq<string>)
    ensures |parts| >= 1
    ensures forall i :: 0 <= i < |parts| ==> '/' !in parts[i]
  {
    if s == [] then [""]
    else
      var rest := Split(s[1..]);
      if s[0] == '/' then [""] + rest
      else [[s[0]] + rest[0]] + rest[1..]
  }

  /** `parts.join('/')`. */
  function Join(parts: seq<string>): (s: string)
    requires |parts| >= 1
  {
    if |parts| == 1 then parts[0] else parts[0] + "/" + Join(parts[1..])
  }

  /** Joining the pieces of a split gives back the original string. */
  lemma {:induction false} JoinSplit(s: string)
    ensures Join(Split(s)) == s
  {
    if s == [] {
    } else {
      var rest := Split(s[1..]);
      JoinSplit(s[1..]);
      if s[0] == '/' {
        assert Split(s) == [""] + rest;
        assert Join(Split(s)) == "" + "/" + Join(rest);
      } else {
        var parts := [[s[0]] + rest[0]] + rest[1..];
        assert Split(s) == parts;
        if |rest| == 1 {
          assert Join(parts) == [s[0]] + rest[0];
        } else {
          assert parts[1..] == rest[1..];
          assert Join(parts) == [s[0]] + rest[0] + "/" + Join(rest[1..]);
          assert Join(rest) == rest[0] + "/" + Join(rest[1..]);
        }
        assert s == [s[0]] + s[1..];
      }
    }
  }

  /** A slash-free prefix followed by a slash becomes the first piece of the split. */
  lemma {:induction false} SplitAfterSlashFree(p: string, s: string)
    requires '/' !in p
    ensures Split(p + "/" + s) == [p] + Split(s)
  {
    if p == [] {
      assert p + "/" + s == "/" + s;
      assert ("/" + s)[1..] == s;
    } else {
      var whole := p + "/" + s;
      assert whole[0] == p[0] && whole[1..] == p[1..] + "/" + s;
      SplitAfterSlashFree(p[1..], s);
      assert [p[0]] + p[1..] == p;
    }
  }

  /** A slash-free string splits into itself. */
  lemma {:induction false} SplitSlashFree(p: string)
    requires '/' !in p
    ensures Split(p) == [p]
  {
    if p != [] {
      SplitSlashFree(p[1..]);
      assert [p[0]] + p[1..] == p;
    }
  }

  /** Splitting a join of slash-free pieces gives back those pieces. */
  lemma {:induction false} SplitJoin(parts: seq<string>)
    requires |parts| >= 1
    requires forall i :: 0 <= i < |parts| ==> '/' !in parts[i]
    ensures Split(Join(parts)) == parts
  {
    if |parts| == 1 {
      SplitSlashFree(parts[0]);
    } else {
      SplitJoin(parts[1..]);
      SplitAfterSlashFree(parts[0], Join(parts[1..]));
      assert [parts[0]] + parts[1..] == parts;
    }
  }

  /** `s.includes(t)`. */
  predicate Contains(s: string, t: string)
    decreases |s|
  {
    t <= s || (s != [] && Contains(s[1..], t))
  }

  /** Every string contains itself surrounded by anything. */
  lemma {:induction false} ContainsInfix(a: string, t: string, b: string)
    ensures Contains(a + t + b, t)
  {
    if a == [] {
      assert a + t + b == t + b;
    } else {
      ContainsInfix(a[1..], t, b);
      assert (a + t + b)[1..] == a[1..] + t + b;
    }
  }

  predicate IsHexDigit(c: char) {
    ('0' <= c <= '9') || ('a' <= c <= 'f')
  }

  predicate IsDigit(c: char) {
    '0' <= c <= '9'
  }

  /** The decimal digits of `n`, as `String(n)` writes them. */
  function NatToString(n: nat): (r: string)
    ensures |r| >= 1 && (forall i :: 0 <= i < |r| ==> IsDigit(r[i]))
    ensures |r| > 1 ==> r[0] != '0'
  {
    var d := ['0' + (n % 10) as char];
    if n < 10 then d else NatToString(n / 10) + d
  }

  /** `String(n)` for an integer. */
  function IntToString(n: int): (r: string)
    ensures r != []
  {
    if n < 0 then "-" + NatToString(-n) else NatToString(n)
  }
}
