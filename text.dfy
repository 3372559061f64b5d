/** The few string operations of Python's standard library that the meeting
    analyzer relies on: `os.path.join`, the `name`, `stem` and `suffix` of a
    `pathlib.Path`, zero-padded decimal formatting (`{n:06d}`), `str.replace`
    of one character, `str.title` and `str.join`. Only POSIX paths and ASCII
    letters are modelled. */
module Text {

  // ---------------------------------------------------------------------
  // Paths

  /** `os.path.join(dir, name)` on POSIX. */
  function PathJoin(dir: string, name: string): string {
    if name != [] && name[0] == '/' then name
    else if dir == [] || dir[|dir| - 1] == '/' then dir + name
    else dir + "/" + name
  }

  /** The joined path ends with the name, and starts with the directory
      unless the name is absolute. */
  lemma PathJoinParts(dir: string, name: string)
    ensures var p := PathJoin(dir, name);
            && |p| >= |name| && p[|p| - |name|..] == name
            && (name != [] && name[0] != '/' && dir != [] ==> |p| >= |dir| && p[..|dir|] == dir)
  {
  }

  /** The characters after the last '/' of `p`. */
  function LastSegment(p: string): (s: string)
    ensures '/' !in s && |s| <= |p|
  {
    if p == [] || p[|p| - 1] == '/' then []
    else LastSegment(p[..|p| - 1]) + [p[|p| - 1]]
  }

  /** `pathlib.PurePosixPath(p).name`: the last component that is neither
      empty nor ".", or "" when there is none. */
  function Name(p: string): (n: string)
    ensures '/' !in n
    decreases |p|
  {
    var last := LastSegment(p);
    if last != "" && last != "." then last
    else if |last| < |p| then Name(p[..|p| - |last| - 1])
    else ""
  }

  /** Index of the last '.' in `s`, or -1. */
  function LastDot(s: string): (i: int)
    ensures -1 <= i < |s|
    ensures i >= 0 ==> s[i] == '.'
  {
    if s == [] then -1
    else if s[|s| - 1] == '.' then |s| - 1
    else LastDot(s[..|s| - 1])
  }

  /** `pathlib.Path(p).stem`: the name without its last suffix, where a
      leading dot or a trailing dot does not start a suffix. */
  function Stem(p: string): string {
    var name := Name(p);
    var i := LastDot(name);
    if 0 < i < |name| - 1 then name[..i] else name
  }

  /** `pathlib.Path(p).suffix`, including its dot, or "". */
  function Suffix(p: string): string {
    var name := Name(p);
    var i := LastDot(name);
    if 0 < i < |name| - 1 then name[i..] else ""
  }

  lemma {:induction false} LastSegmentAfterSlash(prefix: string, n: string)
    requires '/' !in n
    requires prefix == [] || prefix[|prefix| - 1] == '/'
    ensures LastSegment(prefix + n) == n
  {
    var s := prefix + n;
    if n != [] {
      var init := n[..|n| - 1];
      assert s[|s| - 1] == n[|n| - 1];
      assert n[|n| - 1] in n;
      assert s[..|s| - 1] == prefix + init;
      LastSegmentAfterSlash(prefix, init);
      assert n == init + [n[|n| - 1]];
    } else {
      assert s == prefix;
    }
  }

  lemma {:induction false} LastDotIgnoresDotless(s: string, t: string)
    requires '.' !in t
    ensures LastDot(s + t) == LastDot(s)
  {
    if t != [] {
      assert (s + t)[..|s + t| - 1] == s + t[..|t| - 1];
      LastDotIgnoresDotless(s, t[..|t| - 1]);
    } else {
      assert s + t == s;
    }
  }

  lemma LastDotBeforeExtension(stem: string, ext: string)
    requires '.' !in ext
    ensures LastDot(stem + "." + ext) == |stem|
  {
    LastDotIgnoresDotless(stem + ".", ext);
    assert (stem + ".")[..|stem|] == stem;
  }

  lemma NoSlashInName(stem: string, ext: string)
    requires '/' !in stem && '/' !in ext
    ensures '/' !in stem + "." + ext
  {
    forall c | c in stem + "." + ext ensures c != '/' {
      assert c in stem + "." || c in ext;
    }
  }

  /** The suffix of a name with a dot between a non-empty stem and a
      dot-free extension is that dot and extension. */
  lemma SuffixOfName(dir: string, stem: string, ext: string)
    requires stem != "" && '/' !in stem
    requires ext != "" && '/' !in ext && '.' !in ext
    ensures Suffix(PathJoin(dir, stem + "." + ext)) == "." + ext
  {
    var name := stem + "." + ext;
    assert |name| == |stem| + 1 + |ext|;
    NoSlashInName(stem, ext);
    NameOfJoin(dir, name);
    SuffixOfStemDotExt(PathJoin(dir, name), stem, ext);
  }

  lemma SuffixOfStemDotExt(p: string, stem: string, ext: string)
    requires stem != "" && ext != "" && '.' !in ext
    requires Name(p) == stem + "." + ext
    ensures Suffix(p) == "." + ext
  {
    var name := stem + "." + ext;
    LastDotBeforeExtension(stem, ext);
    assert name[|stem|..] == "." + ext;
    assert 0 < |stem| < |name| - 1;
    SuffixFromName(p, name);
  }

  lemma SuffixFromName(p: string, name: string)
    requires Name(p) == name
    ensures var i := LastDot(name); Suffix(p) == if 0 < i < |name| - 1 then name[i..] else ""
  {
  }

  /** A file name joined onto a directory is the name of the joined path. */
  lemma NameOfJoin(dir: string, n: string)
    requires '/' !in n && n != "" && n != "."
    ensures Name(PathJoin(dir, n)) == n
  {
    if dir == [] || dir[|dir| - 1] == '/' {
      LastSegmentAfterSlash(dir, n);
    } else {
      assert dir + "/" + n == (dir + "/") + n;
      LastSegmentAfterSlash(dir + "/", n);
    }
  }

  // ---------------------------------------------------------------------
  // Decimal numbers, as written by format specs such as `{n:06d}`

  function DigitChar(d: nat): (c: char)
    requires d < 10
    ensures '0' <= c <= '9'
  {
    ('0' as int + d) as char
  }

  function DigitValue(c: char): nat {
    if '0' <= c <= '9' then (c as int - '0' as int) as nat else 0
  }

  predicate AllDigits(s: string) {
    forall i :: 0 <= i < |s| ==> '0' <= s[i] <= '9'
  }

  /** The shortest decimal numeral of `n`. */
  function Decimal(n: nat): (s: string)
    ensures |s| >= 1 && AllDigits(s)
  {
    if n < 10 then [DigitChar(n)] else Decimal(n / 10) + [DigitChar(n % 10)]
  }

  /** The value of a string of decimal digits, leading zeros allowed. */
  function ParseDecimal(s: string): nat {
    if s == [] then 0 else ParseDecimal(s[..|s| - 1]) * 10 + DigitValue(s[|s| - 1])
  }

  function Zeros(k: nat): (z: string)
    ensures |z| == k && AllDigits(z)
  {
    if k == 0 then "" else Zeros(k - 1) + "0"
  }

  /** `format(n, "0<width>d")`: the numeral of `n`, left-padded with zeros to
      at least `width` characters, never truncated. */
  function Padded(n: nat, width: nat): (s: string)
    ensures |s| >= width && |s| >= 1
  {
    var d := Decimal(n);
    if |d| >= width then d else Zeros(width - |d|) + d
  }

  /** A padded numeral is all digits and reads back as the number. */
  lemma PaddedRoundTrip(n: nat, width: nat)
    ensures AllDigits(Padded(n, width))
    ensures ParseDecimal(Padded(n, width)) == n
  {
    var d := Decimal(n);
    DecimalRoundTrip(n);
    if |d| < width {
      LeadingZerosIgnored(width - |d|, d);
    }
  }

  lemma {:induction false} DecimalRoundTrip(n: nat)
    ensures ParseDecimal(Decimal(n)) == n
  {
    if n >= 10 {
      var s := Decimal(n);
      assert s[..|s| - 1] == Decimal(n / 10);
      DecimalRoundTrip(n / 10);
    }
  }

  lemma {:induction false} ZerosParseToZero(k: nat)
    ensures ParseDecimal(Zeros(k)) == 0
  {
    if k > 0 {
      assert Zeros(k)[..k - 1] == Zeros(k - 1);
      ZerosParseToZero(k - 1);
    }
  }

  lemma {:induction false} LeadingZerosIgnored(k: nat, s: string)
    ensures ParseDecimal(Zeros(k) + s) == ParseDecimal(s)
  {
    if s == [] {
      assert Zeros(k) + s == Zeros(k);
      ZerosParseToZero(k);
    } else {
      var t := Zeros(k) + s;
      assert t[..|t| - 1] == Zeros(k) + s[..|s| - 1];
      LeadingZerosIgnored(k, s[..|s| - 1]);
    }
  }

  /** Different numbers never get the same padded numeral, so generated file
      names such as `frame_000050.jpg` never collide. */
  lemma PaddedInjective(a: nat, b: nat, width: nat)
    requires a != b
    ensures Padded(a, width) != Padded(b, width)
  {
    PaddedRoundTrip(a, width);
    PaddedRoundTrip(b, width);
  }

  // ---------------------------------------------------------------------
  // Character replacement, title case and joining

  /** `s.replace(from, to)` for single characters. */
  function ReplaceChar(s: string, from: char, to: char): (r: string)
    ensures |r| == |s|
    ensures forall i :: 0 <= i < |s| ==> r[i] == (if s[i] == from then to else s[i])
  {
    if s == [] then [] else ReplaceChar(s[..|s| - 1], from, to) + [if s[|s| - 1] == from then to else s[|s| - 1]]
  }

  predicate IsLetter(c: char) {
    'a' <= c <= 'z' || 'A' <= c <= 'Z'
  }

  function Upper(c: char): char {
    if 'a' <= c <= 'z' then (c as int - 32) as char else c
  }

  function Lower(c: char): char {
    if 'A' <= c <= 'Z' then (c as int + 32) as char else c
  }

  /** `str.title` on ASCII text: a letter is upper-cased when the character
      before it is not a letter, lower-cased otherwise; other characters are
      unchanged. */
  function Title(s: string): (r: string)
    ensures |r| == |s|
  {
    seq(|s|, i requires 0 <= i < |s| => if i > 0 && IsLetter(s[i - 1]) then Lower(s[i]) else Upper(s[i]))
  }

  /** `sep.join(parts)`. */
  function JoinWith(sep: string, parts: seq<string>): string {
    if |parts| == 0 then ""
    else if |parts| == 1 then parts[0]
    else JoinWith(sep, parts[..|parts| - 1]) + sep + parts[|parts| - 1]
  }

  /** Joining one more part adds the separator and that part. */
  lemma JoinWithAppend(sep: string, parts: seq<string>, last: string)
    requires parts != []
    ensures JoinWith(sep, parts + [last]) == JoinWith(sep, parts) + sep + last
  {
    assert (parts + [last])[..|parts|] == parts;
  }
}
