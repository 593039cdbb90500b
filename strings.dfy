/** String helpers the pipeline relies on: `str.join`, `str.split`, `str.lower`,
    decimal formatting of integers and `os.path.splitext`. */
module Strings {

  /** `sep.join(parts)`. */
  function Join(sep: string, parts: seq<string>): string
  {
    if |parts| == 0 then ""
    else if |parts| == 1 then parts[0]
    else parts[0] + sep + Join(sep, parts[1..])
  }

  /** `s.split(c)` for a one-character separator: the pieces between occurrences of `c`. */
  function Split(s: string, c: char): (pieces: seq<string>)
    ensures |pieces| >= 1
  {
    if |s| == 0 then [""]
    else if s[0] == c then [""] + Split(s[1..], c)
    else
      var rest := Split(s[1..], c);
      [[s[0]] + rest[0]] + rest[1..]
  }

  /** Splitting a string without the separator gives the string itself. */
  lemma {:induction false} SplitWithout(a: string, c: char)
    requires c !in a
    ensures Split(a, c) == [a]
  {
    if |a| > 0 {
      assert a[0] != c;
      SplitWithout(a[1..], c);
      assert [a[0]] + a[1..] == a;
    }
  }

  /** The first piece ends at the first separator. */
  lemma {:induction false} SplitAt(a: string, c: char, b: string)
    requires c !in a
    ensures Split(a + [c] + b, c) == [a] + Split(b, c)
  {
    if |a| == 0 {
      assert a + [c] + b == [c] + b;
    } else {
      assert (a + [c] + b)[1..] == a[1..] + [c] + b;
      SplitAt(a[1..], c, b);
      assert [a[0]] + a[1..] == a;
    }
  }

  /** Splitting undoes joining when no part contains the separator. */
  lemma {:induction false} SplitJoin(parts: seq<string>, c: char)
    requires |parts| >= 1
    requires forall i :: 0 <= i < |parts| ==> c !in parts[i]
    ensures Split(Join([c], parts), c) == parts
  {
    if |parts| == 1 {
      SplitWithout(parts[0], c);
    } else {
      SplitJoin(parts[1..], c);
      SplitAt(parts[0], c, Join([c], parts[1..]));
      assert [parts[0]] + parts[1..] == parts;
    }
  }

  /** ASCII case folding of one character. */
  function LowerChar(ch: char): char
  {
    if 'A' <= ch <= 'Z' then (ch as int - 'A' as int + 'a' as int) as char else ch
  }

  /** `s.lower()` on ASCII letters; every other character is kept. */
  function Lower(s: string): (r: string)
    ensures |r| == |s|
    ensures forall i :: 0 <= i < |s| ==> r[i] == LowerChar(s[i])
  {
    if |s| == 0 then "" else [LowerChar(s[0])] + Lower(s[1..])
  }

  /** Lower-casing works character by character, so it distributes over concatenation. */
  lemma {:induction false} LowerAppend(a: string, b: string)
    ensures Lower(a + b) == Lower(a) + Lower(b)
  {
    if |a| == 0 {
      assert a + b == b;
    } else {
      assert (a + b)[1..] == a[1..] + b;
      LowerAppend(a[1..], b);
    }
  }

  predicate IsDigit(ch: char)
  {
    '0' <= ch <= '9'
  }

  predicate AllDigits(s: string)
  {
    forall i :: 0 <= i < |s| ==> IsDigit(s[i])
  }

  function DigitChar(d: nat): (ch: char)
    requires d < 10
    ensures IsDigit(ch) && ch as int - '0' as int == d
  {
    ('0' as int + d) as char
  }

  /** `str(n)` for a non-negative integer: its decimal digits, no sign, no leading zeros. */
  function Decimal(n: nat): (s: string)
    ensures |s| >= 1 && AllDigits(s)
  {
    if n < 10 then [DigitChar(n)] else Decimal(n / 10) + [DigitChar(n % 10)]
  }

  /** `int(s)` for a string of decimal digits: the reference reading of a decimal numeral. */
  function DecimalValue(s: string): nat
    requires AllDigits(s)
  {
    if |s| == 0 then 0
    else 10 * DecimalValue(s[..|s| - 1]) + (s[|s| - 1] as int - '0' as int)
  }

  /** Reading back the decimal digits of `n` gives `n`. */
  lemma {:induction false} DecimalRoundTrip(n: nat)
    ensures DecimalValue(Decimal(n)) == n
  {
    if n >= 10 {
      DecimalRoundTrip(n / 10);
      var s := Decimal(n);
      assert s[..|s| - 1] == Decimal(n / 10);
    }
  }

  /** Distinct numbers print differently. */
  lemma DecimalInjective(m: nat, n: nat)
    requires Decimal(m) == Decimal(n)
    ensures m == n
  {
    DecimalRoundTrip(m);
    DecimalRoundTrip(n);
  }

  /** `s.rfind(c)`: the index of the last occurrence of `c` in `s`, or -1. */
  function LastIndexOf(s: string, c: char): (r: int)
    ensures -1 <= r < |s|
    ensures r >= 0 ==> s[r] == c
    ensures forall k :: r < k < |s| ==> s[k] != c
  {
    if |s| == 0 then -1
    else if s[|s| - 1] == c then |s| - 1
    else LastIndexOf(s[..|s| - 1], c)
  }

  /** The extension half of `os.path.splitext(path)` on a POSIX path: from the last `.`
      of the final path component to the end, provided that dot is not part of the
      run of dots the component starts with; otherwise empty. */
  function Extension(path: string): (ext: string)
    ensures |ext| <= |path| && path[|path| - |ext|..] == ext
    ensures ext != "" ==> ext[0] == '.' && '.' !in ext[1..] && '/' !in ext
  {
    var sepIndex := LastIndexOf(path, '/');
    var dotIndex := LastIndexOf(path, '.');
    if dotIndex > sepIndex && exists k :: sepIndex < k < dotIndex && path[k] != '.'
    then path[dotIndex..]
    else ""
  }

  /** The final path component of `s` holds a character other than `.`. */
  predicate NamedComponent(s: string)
  {
    exists k :: 0 <= k < |s| && s[k] != '.' && s[k] != '/' && '/' !in s[k + 1..]
  }

  /** A name whose final component has a character other than `.` before its last
      dot has the suffix from that dot on as its extension (`a.pdf`, `a..pdf`,
      `dir/.x.pdf` give `.pdf`). */
  lemma {:induction false} ExtensionOfName(stem: string, suffix: string)
    requires NamedComponent(stem)
    requires '.' !in suffix && '/' !in suffix
    ensures Extension(stem + "." + suffix) == "." + suffix
  {
    var k :| 0 <= k < |stem| && stem[k] != '.' && stem[k] != '/' && '/' !in stem[k + 1..];
    var path := stem + "." + suffix;
    assert path[|stem|] == '.' && path[k] == stem[k];
    assert forall j :: |stem| < j < |path| ==> path[j] == suffix[j - |stem| - 1];
    assert forall j :: k < j < |stem| ==> path[j] == stem[k + 1..][j - k - 1];
    var dotIndex := LastIndexOf(path, '.');
    var sepIndex := LastIndexOf(path, '/');
    assert dotIndex == |stem|;
    assert sepIndex < k;
    assert path[dotIndex..] == "." + suffix;
  }

  /** Text free of `c` appended to `s` leaves the last occurrence of `c` where it was. */
  lemma {:induction false} LastIndexOfSkip(s: string, t: string, c: char)
    requires c !in t
    ensures LastIndexOf(s + t, c) == LastIndexOf(s, c)
  {
    if |t| == 0 {
      assert s + t == s;
    } else {
      assert (s + t)[|s + t| - 1] == t[|t| - 1];
      assert (s + t)[..|s + t| - 1] == s + t[..|t| - 1];
      LastIndexOfSkip(s, t[..|t| - 1], c);
    }
  }

  /** Where the last `/` is when the final component is `tail`, which has none. */
  lemma {:induction false} FinalSeparator(dir: string, tail: string)
    requires dir == "" || dir[|dir| - 1] == '/'
    requires '/' !in tail
    ensures LastIndexOf(dir + tail, '/') == |dir| - 1
  {
    LastIndexOfSkip(dir, tail, '/');
  }

  /** No extension when every character between the last `/` and the last `.` is a dot. */
  lemma OnlyDotsBeforeLastDot(path: string)
    requires forall k :: LastIndexOf(path, '/') < k < LastIndexOf(path, '.') ==> path[k] == '.'
    ensures Extension(path) == ""
  {
  }

  /** A final component that is a run of dots (possibly none) followed by a name
      without a dot has no extension (`.bashrc`, `..profile`, `notes`, `dir/.pdf`);
      the component is the whole path or follows a `/`. */
  lemma {:induction false} LeadingDotsNoExtension(dir: string, dots: nat, name: string)
    requires dir == "" || dir[|dir| - 1] == '/'
    requires '.' !in name && '/' !in name
    ensures Extension(dir + Repeat('.', dots) + name) == ""
  {
    var run := Repeat('.', dots);
    var lead := dir + run;
    var path := lead + name;
    assert path == dir + (run + name);
    assert '/' !in run + name;
    FinalSeparator(dir, run + name);
    LastIndexOfSkip(lead, name, '.');
    var dotIndex := LastIndexOf(lead, '.');
    if dots == 0 {
      assert lead == dir;
      assert dir != "" ==> dir[|dir| - 1] != '.';
      assert dotIndex <= |dir| - 1;
    } else {
      assert lead[|lead| - 1] == '.';
      assert dotIndex == |lead| - 1;
      forall k | |dir| <= k < dotIndex
        ensures path[k] == '.'
      {
        assert path[k] == run[k - |dir|];
      }
    }
    OnlyDotsBeforeLastDot(path);
  }

  /** `ch * n`. */
  function Repeat(ch: char, n: nat): (s: string)
    ensures |s| == n && forall i :: 0 <= i < n ==> s[i] == ch
  {
    if n == 0 then "" else [ch] + Repeat(ch, n - 1)
  }
}
