/**
 * The parts of Python's `str` that the dashboards and structure printers rely on:
 * `strip()`, `splitlines()`, `in`, `startswith`, `replace`, `isdigit`, `int`,
 * `join`, `count` and `*` on strings, each stated over `seq<char>`.
 */
module PyStr {

  /** `c.isspace()`: the characters Python's `str.strip()` removes by default. */
  predicate IsSpace(c: char) {
    ('\t' <= c <= '\r') || ('\U{1C}' <= c <= ' ') || c == '\U{85}' || c == '\U{A0}'
    || c == '\U{1680}' || ('\U{2000}' <= c <= '\U{200A}') || c == '\U{2028}' || c == '\U{2029}'
    || c == '\U{202F}' || c == '\U{205F}' || c == '\U{3000}'
  }

  predicate AllSpace(s: string) {
    forall i :: 0 <= i < |s| ==> IsSpace(s[i])
  }

  /** Number of leading whitespace characters of `s`. */
  function Lead(s: string): (k: nat)
    ensures k <= |s|
    ensures forall i :: 0 <= i < k ==> IsSpace(s[i])
    ensures k < |s| ==> !IsSpace(s[k])
  {
    if s == [] || !IsSpace(s[0]) then 0 else 1 + Lead(s[1..])
  }

  /** Length of `s` once its trailing whitespace is dropped. */
  function End(s: string): (k: nat)
    ensures k <= |s|
    ensures forall i :: k <= i < |s| ==> IsSpace(s[i])
    ensures k > 0 ==> !IsSpace(s[k - 1])
  {
    if s == [] || !IsSpace(s[|s| - 1]) then |s| else End(s[..|s| - 1])
  }

  /** `s.strip()`. */
  function Strip(s: string): (r: string)
    ensures r == [] <==> AllSpace(s)
    ensures r != [] ==> !IsSpace(r[0]) && !IsSpace(r[|r| - 1])
  {
    var t := s[Lead(s)..];
    assert AllSpace(s) ==> Lead(s) == |s|;
    assert !AllSpace(s) ==> Lead(s) < |s| && End(t) > 0;
    t[..End(t)]
  }

  /** What `strip()` keeps is a piece of the original text. */
  lemma StripWithin(s: string)
    ensures Contains(s, Strip(s))
  {
    var t := s[Lead(s)..];
    assert OccursAt(s, t[..End(t)], Lead(s));
  }

  /** Whitespace around a text with no whitespace at its ends is exactly what `strip()` removes. */
  lemma StripPadded(pre: string, x: string, post: string)
    requires AllSpace(pre) && AllSpace(post)
    requires x != [] ==> !IsSpace(x[0]) && !IsSpace(x[|x| - 1])
    ensures Strip(pre + x + post) == x
  {
    var s := pre + x + post;
    if x == [] {
      assert AllSpace(s) by {
        forall i | 0 <= i < |s| ensures IsSpace(s[i]) {
          if i < |pre| { assert s[i] == pre[i]; } else { assert s[i] == post[i - |pre|]; }
        }
      }
    } else {
      var k := Lead(s);
      assert forall i :: 0 <= i < |pre| ==> s[i] == pre[i];
      assert s[|pre|] == x[0];
      assert k == |pre|;
      var t := s[k..];
      assert t == x + post;
      var e := End(t);
      assert forall i :: |x| <= i < |t| ==> t[i] == post[i - |x|];
      assert t[|x| - 1] == x[|x| - 1];
      assert e == |x|;
      assert t[..e] == x;
    }
  }

  /** The characters at which `str.splitlines()` breaks a line ("\r\n" counts as one break). */
  predicate IsLineBreak(c: char) {
    c == '\n' || c == '\r' || c == '\U{B}' || c == '\U{C}' || ('\U{1C}' <= c <= '\U{1E}')
    || c == '\U{85}' || c == '\U{2028}' || c == '\U{2029}'
  }

  predicate NoBreak(s: string) {
    forall i :: 0 <= i < |s| ==> !IsLineBreak(s[i])
  }

  /** Index of the first line break in `s`, or `|s|` when there is none. */
  function FirstBreak(s: string): (k: nat)
    ensures k <= |s|
    ensures forall i :: 0 <= i < k ==> !IsLineBreak(s[i])
    ensures k < |s| ==> IsLineBreak(s[k])
  {
    if s == [] || IsLineBreak(s[0]) then 0 else 1 + FirstBreak(s[1..])
  }

  /** `s.splitlines()`: no trailing empty line, and "" gives no line at all. */
  function SplitLines(s: string): (lines: seq<string>)
    ensures forall k :: 0 <= k < |lines| ==> NoBreak(lines[k])
    ensures s == [] <==> lines == []
    ensures |lines| <= |s|
    decreases |s|
  {
    if s == [] then []
    else
      var i := FirstBreak(s);
      if i == |s| then [s]
      else
        var w := if s[i] == '\r' && i + 1 < |s| && s[i + 1] == '\n' then 2 else 1;
        [s[..i]] + SplitLines(s[i + w..])
  }

  /** The lines of `ls`, each followed by "\n": the shape of a command's line-oriented output. */
  function Terminated(ls: seq<string>): string {
    if ls == [] then [] else ls[0] + "\n" + Terminated(ls[1..])
  }

  /** One "\n"-terminated line at the front of a text splits off as the first line. */
  lemma SplitLinesStep(a: string, rest: string)
    requires NoBreak(a)
    ensures SplitLines(a + "\n" + rest) == [a] + SplitLines(rest)
  {
    var s := a + "\n" + rest;
    var i := FirstBreak(s);
    assert forall j :: 0 <= j < |a| ==> s[j] == a[j];
    assert s[|a|] == '\n';
    assert i == |a|;
    assert s[..i] == a;
    assert s[i + 1..] == rest;
  }

  lemma ConsAppend<T>(s: seq<T>, t: seq<T>)
    requires s != []
    ensures [s[0]] + (s[1..] + t) == s + t
  {
  }

  lemma SplitLast<T>(s: seq<T>)
    requires s != []
    ensures s == s[..|s| - 1] + [s[|s| - 1]]
  {
  }

  lemma TerminatedCons(ls: seq<string>, tail: string)
    requires ls != []
    ensures Terminated(ls) + tail == ls[0] + "\n" + (Terminated(ls[1..]) + tail)
  {
  }

  /** `splitlines()` recovers every "\n"-terminated line written before `tail`. */
  lemma {:induction false} SplitLinesTerminated(ls: seq<string>, tail: string)
    requires forall k :: 0 <= k < |ls| ==> NoBreak(ls[k])
    ensures SplitLines(Terminated(ls) + tail) == ls + SplitLines(tail)
  {
    if ls == [] {
      assert Terminated(ls) + tail == tail;
    } else {
      TerminatedCons(ls, tail);
      SplitLinesStep(ls[0], Terminated(ls[1..]) + tail);
      SplitLinesTerminated(ls[1..], tail);
      ConsAppend(ls, SplitLines(tail));
    }
  }

  lemma {:induction false} TerminatedSnoc(ls: seq<string>, x: string)
    ensures Terminated(ls + [x]) == Terminated(ls) + x + "\n"
  {
    if ls == [] {
      assert ls + [x] == [x];
    } else {
      assert (ls + [x])[1..] == ls[1..] + [x];
      TerminatedSnoc(ls[1..], x);
    }
  }

  /** A text without a line break is a single line. */
  lemma SplitLinesSingle(x: string)
    requires x != [] && NoBreak(x)
    ensures SplitLines(x) == [x]
  {
    assert FirstBreak(x) == |x|;
  }

  /** `sub in s`. */
  predicate Contains(s: string, sub: string) {
    exists i :: 0 <= i <= |s| - |sub| && OccursAt(s, sub, i)
  }

  predicate OccursAt(s: string, sub: string, i: int) {
    0 <= i <= |s| - |sub| && s[i..i + |sub|] == sub
  }

  /** Whatever occurs in a piece of `s` occurs in `s`. */
  lemma ContainsWithin(s: string, piece: string, sub: string)
    requires exists i :: 0 <= i <= |s| - |piece| && OccursAt(s, piece, i)
    requires Contains(piece, sub)
    ensures Contains(s, sub)
  {
    var i :| 0 <= i <= |s| - |piece| && OccursAt(s, piece, i);
    var j :| 0 <= j <= |piece| - |sub| && OccursAt(piece, sub, j);
    var a := s[i + j..i + j + |sub|];
    forall k | 0 <= k < |sub| ensures a[k] == sub[k] {
      assert a[k] == s[i..i + |piece|][j + k];
      assert sub[k] == piece[j..j + |sub|][k];
    }
    assert a == sub;
    assert OccursAt(s, sub, i + j);
  }

  /** `s.startswith(p)`. */
  predicate StartsWith(s: string, p: string) {
    |p| <= |s| && s[..|p|] == p
  }

  /** `s.replace(old, new)`: every non-overlapping occurrence of `pat` becomes `rep`, scanned left to right. */
  function ReplaceAll(s: string, pat: string, rep: string): string
    requires pat != []
    decreases |s|
  {
    if s == [] then []
    else if StartsWith(s, pat) then rep + ReplaceAll(s[|pat|..], pat, rep)
    else [s[0]] + ReplaceAll(s[1..], pat, rep)
  }

  /** `replace` leaves alone a prefix none of whose characters can start `pat`. */
  lemma {:induction false} ReplaceAllSkips(s: string, pat: string, rep: string, tail: string)
    requires pat != []
    requires forall i :: 0 <= i < |s| ==> s[i] != pat[0]
    ensures ReplaceAll(s + tail, pat, rep) == s + ReplaceAll(tail, pat, rep)
    decreases |s|
  {
    if s == [] {
      assert s + tail == tail;
    } else {
      var u := s + tail;
      assert u[0] == s[0];
      assert !StartsWith(u, pat);
      assert u[1..] == s[1..] + tail;
      ReplaceAllSkips(s[1..], pat, rep, tail);
      ConsAppend(s, ReplaceAll(tail, pat, rep));
    }
  }

  /** `replace` substitutes an occurrence found at the very start. */
  lemma ReplaceAllFront(pat: string, rep: string, tail: string)
    requires pat != []
    ensures ReplaceAll(pat + tail, pat, rep) == rep + ReplaceAll(tail, pat, rep)
  {
    assert (pat + tail)[..|pat|] == pat;
    assert (pat + tail)[|pat|..] == tail;
  }

  predicate IsDigit(c: char) {
    '0' <= c <= '9'
  }

  /** `s.isdigit()` for ASCII text: non-empty and made only of digits. */
  predicate IsDigits(s: string) {
    s != [] && forall i :: 0 <= i < |s| ==> IsDigit(s[i])
  }

  /** `int(s)` for a string of decimal digits (leading zeros allowed). */
  function DigitsValue(s: string): nat
    requires forall i :: 0 <= i < |s| ==> IsDigit(s[i])
  {
    if s == [] then 0
    else
      assert IsDigit(s[|s| - 1]);
      10 * DigitsValue(s[..|s| - 1]) + (s[|s| - 1] as int - '0' as int)
  }

  /** `str(n)` for a natural number. */
  function DecimalString(n: nat): (r: string)
    ensures IsDigits(r)
  {
    if n < 10 then [('0' as int + n) as char]
    else DecimalString(n / 10) + [('0' as int + n % 10) as char]
  }

  /** `int(str(n)) == n`. */
  lemma {:induction false} DecimalRoundTrip(n: nat)
    ensures DigitsValue(DecimalString(n)) == n
  {
    if n >= 10 {
      var r := DecimalString(n);
      assert r[..|r| - 1] == DecimalString(n / 10);
      DecimalRoundTrip(n / 10);
    }
  }

  /** `sep.join(xs)`. */
  function Join(sep: string, xs: seq<string>): string {
    if xs == [] then []
    else if |xs| == 1 then xs[0]
    else xs[0] + sep + Join(sep, xs[1..])
  }

  /** `s.count(c)` for a one-character pattern. */
  function CountChar(s: string, c: char): nat {
    if s == [] then 0 else (if s[0] == c then 1 else 0) + CountChar(s[1..], c)
  }

  /** A text occurs in itself, and in any text it begins. */
  lemma ContainsPrefix(a: string, b: string)
    ensures Contains(a + b, a)
  {
    assert OccursAt(a + b, a, 0);
  }

  /** Every item of a joined list occurs in the joined text. */
  lemma {:induction false} JoinContains(sep: string, xs: seq<string>, k: nat)
    requires k < |xs|
    ensures Contains(Join(sep, xs), xs[k])
  {
    if |xs| == 1 {
      assert Join(sep, xs) == xs[0] + [];
      ContainsPrefix(xs[0], []);
    } else if k == 0 {
      assert Join(sep, xs) == xs[0] + (sep + Join(sep, xs[1..]));
      ContainsPrefix(xs[0], sep + Join(sep, xs[1..]));
    } else {
      var head, rest := xs[0] + sep, Join(sep, xs[1..]);
      JoinContains(sep, xs[1..], k - 1);
      assert Join(sep, xs) == head + rest;
      assert OccursAt(head + rest, rest, |head|);
      ContainsWithin(head + rest, rest, xs[k]);
    }
  }

  /** The comprehension `[x for x in xs if keep(x)]`. */
  function Keep(xs: seq<string>, keep: string -> bool): (r: seq<string>)
    ensures |r| <= |xs|
    ensures forall x :: x in r <==> x in xs && keep(x)
  {
    if xs == [] then []
    else
      assert xs == xs[..|xs| - 1] + [xs[|xs| - 1]];
      Keep(xs[..|xs| - 1], keep) + (if keep(xs[|xs| - 1]) then [xs[|xs| - 1]] else [])
  }

  /** Filtering keeps the order of what it keeps: it distributes over concatenation. */
  lemma {:induction false} KeepAppend(a: seq<string>, b: seq<string>, keep: string -> bool)
    ensures Keep(a + b, keep) == Keep(a, keep) + Keep(b, keep)
    decreases |b|
  {
    if b != [] {
      var n := |b| - 1;
      assert (a + b)[..|a + b| - 1] == a + b[..n];
      KeepAppend(a, b[..n], keep);
    } else {
      assert a + b == a;
    }
  }
}
