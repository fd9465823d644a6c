/**
 * The handful of `str` and `os.path` operations the archiver relies on:
 * prefix and suffix tests, `split` on one character, `strip` of one
 * character, ASCII `lower`, `isdigit` and `int`, and POSIX `join` and
 * `dirname` for two components.
 */
module Text {

  predicate StartsWith(s: string, prefix: string) {
    |prefix| <= |s| && s[..|prefix|] == prefix
  }

  /** `s.endswith(suffix)`: a plain suffix test, with no notion of labels or segments. */
  predicate EndsWith(s: string, suffix: string) {
    |suffix| <= |s| && s[|s| - |suffix|..] == suffix
  }

  // ---------------------------------------------------------------------------
  // Digits

  predicate IsDigit(c: char) {
    '0' <= c <= '9'
  }

  predicate AllDigits(s: string) {
    forall i :: 0 <= i < |s| ==> IsDigit(s[i])
  }

  /** `s.isdigit()`: false on the empty string. */
  predicate IsDigitString(s: string) {
    s != [] && AllDigits(s)
  }

  /** `int(s)` for a string of decimal digits (leading zeros allowed). */
  function DigitsValue(s: string): nat
    requires AllDigits(s)
    decreases |s|
  {
    if s == [] then 0
    else 10 * DigitsValue(s[..|s| - 1]) + (s[|s| - 1] as int - '0' as int)
  }

  /** `str(n)` for a natural number. */
  function DecimalString(n: nat): (s: string)
    ensures IsDigitString(s)
    ensures n > 0 ==> s[0] != '0'
    decreases n
  {
    if n < 10 then [('0' as int + n) as char]
    else DecimalString(n / 10) + [('0' as int + n % 10) as char]
  }

  /** `int(str(n)) == n` */
  lemma {:induction false} DigitsValueOfDecimal(n: nat)
    ensures DigitsValue(DecimalString(n)) == n
  {
    var s := DecimalString(n);
    if n >= 10 {
      assert s[..|s| - 1] == DecimalString(n / 10);
      DigitsValueOfDecimal(n / 10);
    }
  }

  // ---------------------------------------------------------------------------
  // Searching

  /** The index of the first `c` in `s` at or after `i`, or `|s|` when there is none. */
  function IndexFrom(s: string, c: char, i: nat): (k: nat)
    requires i <= |s|
    ensures i <= k <= |s|
    ensures k < |s| ==> s[k] == c
    ensures forall m :: i <= m < k ==> s[m] != c
    decreases |s| - i
  {
    if i == |s| || s[i] == c then i else IndexFrom(s, c, i + 1)
  }

  lemma IndexFromIs(s: string, c: char, i: nat, k: nat)
    requires i <= k < |s| && s[k] == c
    requires forall m :: i <= m < k ==> s[m] != c
    ensures IndexFrom(s, c, i) == k
  {
  }

  /** The end of the run of digits that starts at `i`. */
  function DigitRunEnd(s: string, i: nat): (k: nat)
    requires i <= |s|
    ensures i <= k <= |s|
    ensures k < |s| ==> !IsDigit(s[k])
    ensures forall m :: i <= m < k ==> IsDigit(s[m])
    decreases |s| - i
  {
    if i == |s| || !IsDigit(s[i]) then i else DigitRunEnd(s, i + 1)
  }

  /** `s.rfind(c)`: the last index of `c`, or -1. */
  function LastIndexOf(s: string, c: char): (k: int)
    ensures -1 <= k < |s|
    ensures k >= 0 ==> s[k] == c
    ensures forall m :: k < m < |s| ==> s[m] != c
    decreases |s|
  {
    if s == [] then -1
    else if s[|s| - 1] == c then |s| - 1
    else LastIndexOf(s[..|s| - 1], c)
  }

  // ---------------------------------------------------------------------------
  // split

  /** `s.split(sep)` for a one-character separator. */
  function Split(s: string, sep: char): (pieces: seq<string>)
    ensures |pieces| >= 1
    decreases |s|
  {
    if s == [] then [""]
    else
      var rest := Split(s[1..], sep);
      if s[0] == sep then [""] + rest else [[s[0]] + rest[0]] + rest[1..]
  }

  /** `sep.join(pieces)` */
  function JoinWith(pieces: seq<string>, sep: char): string
    requires |pieces| >= 1
    decreases |pieces|
  {
    if |pieces| == 1 then pieces[0] else pieces[0] + [sep] + JoinWith(pieces[1..], sep)
  }

  /** Splitting loses nothing, and no piece contains the separator. */
  lemma {:induction false} SplitJoin(s: string, sep: char)
    ensures JoinWith(Split(s, sep), sep) == s
    ensures forall i :: 0 <= i < |Split(s, sep)| ==> sep !in Split(s, sep)[i]
    decreases |s|
  {
    if s != [] {
      var rest := Split(s[1..], sep);
      SplitJoin(s[1..], sep);
      if s[0] == sep {
        assert Split(s, sep) == [""] + rest;
      } else {
        var pieces := Split(s, sep);
        assert pieces == [[s[0]] + rest[0]] + rest[1..];
        if |rest| == 1 {
          assert JoinWith(pieces, sep) == [s[0]] + rest[0];
        } else {
          assert JoinWith(rest, sep) == rest[0] + [sep] + JoinWith(rest[1..], sep);
          assert pieces[1..] == rest[1..];
        }
        forall i | 0 <= i < |pieces| ensures sep !in pieces[i] {
          if i == 0 {
            assert sep !in rest[0];
          } else {
            assert pieces[i] == rest[i];
          }
        }
      }
    }
  }

  lemma {:induction false} SplitWithoutSeparator(s: string, sep: char)
    requires sep !in s
    ensures Split(s, sep) == [s]
    decreases |s|
  {
    if s != [] {
      assert s[0] in s;
      assert forall c :: c in s[1..] ==> c in s;
      SplitWithoutSeparator(s[1..], sep);
      assert [s[0]] + s[1..] == s;
    }
  }

  /** A separator cuts the string: the piece before it, then the pieces of the rest. */
  lemma {:induction false} SplitAtSeparator(a: string, b: string, sep: char)
    requires sep !in a
    ensures Split(a + [sep] + b, sep) == [a] + Split(b, sep)
    decreases |a|
  {
    if a == [] {
      assert a + [sep] + b == [sep] + b;
      assert ([sep] + b)[1..] == b;
    } else {
      assert (a + [sep] + b)[1..] == a[1..] + [sep] + b;
      SplitAtSeparator(a[1..], b, sep);
      assert [a[0]] + a[1..] == a;
    }
  }

  // ---------------------------------------------------------------------------
  // strip

  /** `s.lstrip(c)` */
  function TrimStart(s: string, c: char): (r: string)
    ensures |r| <= |s| && r == s[|s| - |r|..]
    ensures forall k :: 0 <= k < |s| - |r| ==> s[k] == c
    ensures r == [] || r[0] != c
    decreases |s|
  {
    if s != [] && s[0] == c then TrimStart(s[1..], c) else s
  }

  /** `s.rstrip(c)` */
  function TrimEnd(s: string, c: char): (r: string)
    ensures |r| <= |s| && r == s[..|r|]
    ensures forall k :: |r| <= k < |s| ==> s[k] == c
    ensures r == [] || r[|r| - 1] != c
    decreases |s|
  {
    if s != [] && s[|s| - 1] == c then TrimEnd(s[..|s| - 1], c) else s
  }

  /** `s.strip(c)` */
  function Strip(s: string, c: char): string {
    TrimEnd(TrimStart(s, c), c)
  }

  /**
   * What `strip` leaves: a contiguous part of the input, surrounded only by
   * the stripped character, that neither starts nor ends with it.
   */
  lemma StripShape(s: string, c: char) returns (lead: nat)
    ensures lead + |Strip(s, c)| <= |s|
    ensures Strip(s, c) == s[lead..lead + |Strip(s, c)|]
    ensures forall k :: 0 <= k < lead ==> s[k] == c
    ensures forall k :: lead + |Strip(s, c)| <= k < |s| ==> s[k] == c
    ensures Strip(s, c) == [] || (Strip(s, c)[0] != c && Strip(s, c)[|Strip(s, c)| - 1] != c)
  {
    var t := TrimStart(s, c);
    var r := TrimEnd(t, c);
    lead := |s| - |t|;
    assert r == t[..|r|];
    assert t == s[lead..];
    assert r == s[lead..lead + |r|];
    forall k | lead + |r| <= k < |s| ensures s[k] == c {
      assert s[k] == t[k - lead];
    }
    if r != [] {
      assert r[0] == t[0];
    }
  }

  /** A string that neither starts nor ends with `c` is left alone by `strip(c)`. */
  lemma StripUnbordered(s: string, c: char)
    requires s == [] || (s[0] != c && s[|s| - 1] != c)
    ensures Strip(s, c) == s
  {
  }

  // ---------------------------------------------------------------------------
  // replace

  /** `s.replace(target, replacement)` for single characters. */
  function ReplaceChar(s: string, target: char, replacement: char): (r: string)
    ensures |r| == |s|
  {
    seq(|s|, i requires 0 <= i < |s| => if s[i] == target then replacement else s[i])
  }

  // ---------------------------------------------------------------------------
  // lower

  function LowerChar(c: char): char {
    if 'A' <= c <= 'Z' then (c as int - 'A' as int + 'a' as int) as char else c
  }

  /** `s.lower()` for ASCII letters; every other character is kept. */
  function Lower(s: string): (r: string)
    ensures |r| == |s|
    ensures forall i :: 0 <= i < |s| ==> r[i] == LowerChar(s[i])
  {
    seq(|s|, i requires 0 <= i < |s| => LowerChar(s[i]))
  }

  // ---------------------------------------------------------------------------
  // os.path

  /** `os.path.join(a, b)` on POSIX. */
  function PathJoin(a: string, b: string): string {
    if StartsWith(b, "/") then b
    else if a == "" || EndsWith(a, "/") then a + b
    else a + "/" + b
  }

  /** `os.path.dirname(p)` on POSIX. */
  function Dirname(p: string): string {
    var head := p[..LastIndexOf(p, '/') + 1];
    if head != "" && exists k :: 0 <= k < |head| && head[k] != '/' then TrimEnd(head, '/') else head
  }

  /** The directory of a file joined onto a directory is that directory. */
  lemma {:induction false} DirnameOfJoin(dir: string, name: string)
    requires dir != "" && !EndsWith(dir, "/")
    requires '/' !in name
    ensures Dirname(PathJoin(dir, name)) == dir
  {
    assert !StartsWith(name, "/");
    var p := dir + "/" + name;
    assert PathJoin(dir, name) == p;
    var k := LastIndexOf(p, '/');
    assert p[|dir|] == '/';
    assert forall m :: |dir| < m < |p| ==> p[m] == name[m - |dir| - 1];
    assert k == |dir|;
    var head := p[..k + 1];
    assert head == dir + "/";
    assert head[|dir| - 1] == dir[|dir| - 1] != '/';
    var r := TrimEnd(head, '/');
    assert r == TrimEnd(dir, '/');
    assert TrimEnd(dir, '/') == dir;
  }

  /**
   * A name joined onto a sub-directory joined onto a directory: the three
   * parts with a separator between each, and the directory part is the join
   * of the first two.
   */
  lemma NestedJoin(dir: string, sub: string, name: string)
    requires dir != "" && !EndsWith(dir, "/")
    requires sub != "" && '/' !in sub && '/' !in name
    ensures PathJoin(PathJoin(dir, sub), name) == dir + "/" + sub + "/" + name
    ensures Dirname(PathJoin(PathJoin(dir, sub), name)) == PathJoin(dir, sub)
  {
    assert sub[0] in sub && sub[|sub| - 1] in sub;
    assert !StartsWith(sub, "/");
    var d := dir + "/" + sub;
    assert PathJoin(dir, sub) == d;
    assert d[|d| - 1] == sub[|sub| - 1];
    assert !EndsWith(d, "/");
    DirnameOfJoin(d, name);
  }
}
