/** String operations of Python's `str` that the agents rely on, written out
    over `seq<char>` (one `char` per Unicode code point, as in Python). */
module Text {
  import opened Wrappers

  // ---------------------------------------------------------------- prefixes

  predicate StartsWith(s: string, p: string) {
    |p| <= |s| && s[..|p|] == p
  }

  /** `sub` occurs in `s` at index `i`. */
  predicate OccursAt(s: string, sub: string, i: int) {
    0 <= i && i + |sub| <= |s| && s[i..i + |sub|] == sub
  }

  /** Python's `sub in s`, stated by its meaning. */
  predicate Contains(s: string, sub: string) {
    exists i :: 0 <= i <= |s| - |sub| && OccursAt(s, sub, i)
  }

  /** Left-to-right search for the first occurrence of `sub`, as `s.find(sub)`. */
  function Find(s: string, sub: string, from: nat): (r: Option<nat>)
    requires from <= |s|
    ensures r.Some? ==> from <= r.value && OccursAt(s, sub, r.value)
    ensures r.Some? ==> forall j :: from <= j < r.value ==> !OccursAt(s, sub, j)
    ensures r.None? ==> forall j :: from <= j <= |s| ==> !OccursAt(s, sub, j)
    decreases |s| - from
  {
    if from + |sub| > |s| then None
    else if s[from..from + |sub|] == sub then Some(from)
    else Find(s, sub, from + 1)
  }

  /** The search finds an occurrence exactly when the substring is there. */
  lemma FindIffContains(s: string, sub: string)
    ensures Find(s, sub, 0).Some? <==> Contains(s, sub)
  {
    var r := Find(s, sub, 0);
    if r.Some? {
      assert OccursAt(s, sub, r.value);
    }
  }

  // ---------------------------------------------------------------- case

  /** `c.lower()` restricted to ASCII letters. */
  function LowerChar(c: char): (r: char)
    ensures 'A' <= c <= 'Z' ==> 'a' <= r <= 'z'
    ensures !('A' <= c <= 'Z') ==> r == c
  {
    if 'A' <= c <= 'Z' then (c as int + 32) as char else c
  }

  function Lower(s: string): (r: string)
    ensures |r| == |s|
    ensures forall i :: 0 <= i < |s| ==> r[i] == LowerChar(s[i])
  {
    seq(|s|, i requires 0 <= i < |s| => LowerChar(s[i]))
  }

  // ---------------------------------------------------------------- whitespace

  /** Python's `str.isspace` for a single character. */
  predicate IsSpace(c: char) {
    c == ' ' || ('\t' <= c <= '\r') || ('\U{1c}' <= c <= '\U{1f}')
    || c == '\U{85}' || c == '\U{a0}' || c == '\U{1680}'
    || ('\U{2000}' <= c <= '\U{200a}') || c == '\U{2028}' || c == '\U{2029}'
    || c == '\U{202f}' || c == '\U{205f}' || c == '\U{3000}'
  }

  /** How many whitespace characters `s` starts with. */
  function LeadingSpaces(s: string): (n: nat)
    ensures n <= |s|
    ensures forall i :: 0 <= i < n ==> IsSpace(s[i])
    ensures n < |s| ==> !IsSpace(s[n])
  {
    if |s| == 0 || !IsSpace(s[0]) then 0 else 1 + LeadingSpaces(s[1..])
  }

  function TrimEnd(s: string): (r: string)
    ensures |r| <= |s| && r == s[..|r|]
    ensures |r| > 0 ==> !IsSpace(r[|r| - 1])
    ensures forall i :: |r| <= i < |s| ==> IsSpace(s[i])
  {
    if |s| > 0 && IsSpace(s[|s| - 1]) then TrimEnd(s[..|s| - 1]) else s
  }

  /** `s.strip()`: the piece of `s` that starts after its leading whitespace
      and is followed only by whitespace, with no whitespace at either end. */
  function Strip(s: string): (r: string)
    ensures LeadingSpaces(s) + |r| <= |s|
    ensures r == s[LeadingSpaces(s)..LeadingSpaces(s) + |r|]
    ensures forall i :: LeadingSpaces(s) + |r| <= i < |s| ==> IsSpace(s[i])
    ensures |r| > 0 ==> !IsSpace(r[0]) && !IsSpace(r[|r| - 1])
    ensures Contains(s, r)
  {
    var a := LeadingSpaces(s);
    var r := TrimEnd(s[a..]);
    assert OccursAt(s, r, a);
    r
  }

  /** Stripping twice strips nothing more. */
  lemma StripIdempotent(s: string)
    ensures Strip(Strip(s)) == Strip(s)
  {
    var r := Strip(s);
    var a := LeadingSpaces(r);
    assert a == 0;
  }

  // ---------------------------------------------------------------- replace

  /** `s.replace(pat, rep)`: every non-overlapping occurrence of `pat`, found
      left to right, is replaced by `rep`. */
  function ReplaceAll(s: string, pat: string, rep: string): (r: string)
    requires |pat| > 0
    ensures rep == pat ==> r == s
    decreases |s|
  {
    if |s| < |pat| then s
    else if s[..|pat|] == pat then rep + ReplaceAll(s[|pat|..], pat, rep)
    else [s[0]] + ReplaceAll(s[1..], pat, rep)
  }

  /** A text without the pattern comes back unchanged. */
  lemma {:induction false} ReplaceAbsent(s: string, pat: string, rep: string)
    requires |pat| > 0
    ensures !Contains(s, pat) ==> ReplaceAll(s, pat, rep) == s
    decreases |s|
  {
    if !Contains(s, pat) && |s| >= |pat| {
      assert !OccursAt(s, pat, 0);
      ContainsInTail(s, pat);
      ReplaceAbsent(s[1..], pat, rep);
    }
  }

  /** An occurrence in `s[1..]` is an occurrence in `s`. */
  lemma ContainsInTail(s: string, pat: string)
    requires |s| > 0
    ensures Contains(s[1..], pat) ==> Contains(s, pat)
  {
    if Contains(s[1..], pat) {
      var i :| 0 <= i <= |s| - 1 - |pat| && OccursAt(s[1..], pat, i);
      assert OccursAt(s, pat, i + 1);
    }
  }

  /** A text without a backtick holds no code fence. */
  lemma NoBacktickNoFence(s: string)
    ensures (forall i :: 0 <= i < |s| ==> s[i] != '`') ==> !Contains(s, "```json") && !Contains(s, "```")
  {
    if forall i :: 0 <= i < |s| ==> s[i] != '`' {
      forall i | 0 <= i <= |s| - 3 ensures !OccursAt(s, "```", i) && !OccursAt(s, "```json", i) {
        assert s[i..i + 3][0] == s[i];
      }
    }
  }

  /** An occurrence in `s[1..]` at `j` is one in `s` at `j + 1`. */
  lemma OccursInTail(s: string, pat: string, j: int)
    requires |s| > 0
    ensures OccursAt(s[1..], pat, j) ==> OccursAt(s, pat, j + 1)
  {
    if OccursAt(s[1..], pat, j) {
      assert s[j + 1..j + 1 + |pat|] == s[1..][j..j + |pat|];
    }
  }

  /** The replacement splits at the first occurrence: the text before it is
      kept, the occurrence becomes `rep`, and the rest is replaced in turn. */
  lemma {:induction false} FirstOccurrenceSplit(s: string, pat: string, rep: string, i: nat)
    requires |pat| > 0 && OccursAt(s, pat, i)
    requires forall j :: 0 <= j < i ==> !OccursAt(s, pat, j)
    ensures ReplaceAll(s, pat, rep) == s[..i] + rep + ReplaceAll(s[i + |pat|..], pat, rep)
    decreases i
  {
    if i == 0 {
      ReplaceAtStart(s, pat, rep);
      assert s[..0] + rep == rep;
    } else {
      var t := s[1..];
      FirstOccurrenceInTail(s, pat, i);
      var before, after := t[..i - 1], ReplaceAll(s[i + |pat|..], pat, rep);
      calc {
        ReplaceAll(s, pat, rep);
        { ReplaceSkipsFirst(s, pat, rep); }
        [s[0]] + ReplaceAll(t, pat, rep);
        { FirstOccurrenceSplit(t, pat, rep, i - 1);
          assert t[i - 1 + |pat|..] == s[i + |pat|..]; }
        [s[0]] + (before + rep + after);
        { ConcatRegroup([s[0]], before, rep, after); }
        [s[0]] + before + rep + after;
        { assert s[..i] == [s[0]] + before; }
        s[..i] + rep + after;
      }
    }
  }

  lemma ConcatRegroup(a: string, b: string, c: string, d: string)
    ensures a + (b + c + d) == a + b + c + d
  {
  }

  /** A text that starts and ends with a non-space strips to itself. */
  lemma StripUnpadded(s: string)
    requires |s| > 0 && !IsSpace(s[0]) && !IsSpace(s[|s| - 1])
    ensures Strip(s) == s
  {
    assert LeadingSpaces(s) == 0;
    assert |Strip(s)| == |s|;
  }

  /** A backtick-free body followed by the closing fence holds no "```json". */
  lemma NoJsonFenceBeforeClose(b: string)
    requires forall i :: 0 <= i < |b| ==> b[i] != '`'
    ensures !Contains(b + "```", "```json")
  {
    var s := b + "```";
    forall i | 0 <= i <= |s| - 7 ensures !OccursAt(s, "```json", i) {
      assert s[i..i + 7][0] == b[i];
    }
  }

  /** A text that begins with the pattern has that occurrence replaced first. */
  lemma ReplaceLeading(pat: string, x: string, rep: string)
    requires |pat| > 0
    ensures ReplaceAll(pat + x, pat, rep) == rep + ReplaceAll(x, pat, rep)
  {
    assert (pat + x)[..|pat|] == pat;
    assert (pat + x)[|pat|..] == x;
  }

  /** Removing "```json" from a fenced backtick-free body leaves the body and the closing fence. */
  lemma OpeningFenceRemoved(b: string)
    requires forall i :: 0 <= i < |b| ==> b[i] != '`'
    ensures ReplaceAll("```json" + b + "```", "```json", "") == b + "```"
  {
    var body := b + "```";
    assert "```json" + b + "```" == "```json" + body;
    ReplaceLeading("```json", body, "");
    NoJsonFenceBeforeClose(b);
    ReplaceAbsent(body, "```json", "");
    assert "" + body == body;
  }

  /** Removing "```" from a backtick-free body followed by "```" gives the body. */
  lemma {:induction false} DropClosingFence(b: string)
    requires forall i :: 0 <= i < |b| ==> b[i] != '`'
    ensures ReplaceAll(b + "```", "```", "") == b
    decreases |b|
  {
    var s := b + "```";
    if |b| == 0 {
      assert s == "```";
      ReplaceAtStart(s, "```", "");
      assert s[3..] == "";
    } else {
      assert s[..3][0] == b[0];
      ReplaceSkipsFirst(s, "```", "");
      assert s[1..] == b[1..] + "```";
      DropClosingFence(b[1..]);
    }
  }

  lemma ReplaceAtStart(s: string, pat: string, rep: string)
    requires |pat| > 0 && OccursAt(s, pat, 0)
    ensures ReplaceAll(s, pat, rep) == rep + ReplaceAll(s[|pat|..], pat, rep)
  {
    assert s[..|pat|] == pat;
  }

  lemma ReplaceSkipsFirst(s: string, pat: string, rep: string)
    requires |pat| > 0 && |s| > 0 && !OccursAt(s, pat, 0)
    ensures ReplaceAll(s, pat, rep) == [s[0]] + ReplaceAll(s[1..], pat, rep)
  {
  }

  /** A first occurrence at `i > 0` is the first occurrence at `i - 1` of the tail. */
  lemma FirstOccurrenceInTail(s: string, pat: string, i: nat)
    requires 0 < i && OccursAt(s, pat, i)
    requires forall j :: 0 <= j < i ==> !OccursAt(s, pat, j)
    ensures OccursAt(s[1..], pat, i - 1)
    ensures forall j :: 0 <= j < i - 1 ==> !OccursAt(s[1..], pat, j)
  {
    assert s[1..][i - 1..i - 1 + |pat|] == s[i..i + |pat|];
    forall j | 0 <= j < i - 1 ensures !OccursAt(s[1..], pat, j) {
      OccursInTail(s, pat, j);
    }
  }

  /** `s.replace(pat, rep)` at the occurrence `s.find(pat)` reports. */
  lemma ReplaceAtFind(s: string, pat: string, rep: string)
    requires |pat| > 0
    ensures Find(s, pat, 0).Some? ==>
      var i := Find(s, pat, 0).value;
      ReplaceAll(s, pat, rep) == s[..i] + rep + ReplaceAll(s[i + |pat|..], pat, rep)
  {
    if Find(s, pat, 0).Some? {
      FirstOccurrenceSplit(s, pat, rep, Find(s, pat, 0).value);
    }
  }

  /** Replacing a single character by a single character works position by
      position and keeps the length. */
  lemma {:induction false} ReplaceCharPointwise(s: string, c: char, d: char)
    ensures |ReplaceAll(s, [c], [d])| == |s|
    ensures forall i :: 0 <= i < |s| ==>
      ReplaceAll(s, [c], [d])[i] == (if s[i] == c then d else s[i])
  {
    if |s| > 0 {
      ReplaceCharPointwise(s[1..], c, d);
      var r := ReplaceAll(s, [c], [d]);
      var t := ReplaceAll(s[1..], [c], [d]);
      if s[..1] == [c] {
        assert r == [d] + t;
      } else {
        assert r == [s[0]] + t;
      }
    }
  }

  /** Removing every "```" that a left-to-right scan finds leaves no "```". */
  lemma {:induction false} RemovalLeavesNoFence(s: string)
    ensures !Contains(ReplaceAll(s, "```", ""), "```")
  {
    if |s| < 3 {
    } else if s[..3] == "```" {
      RemovalLeavesNoFence(s[3..]);
      assert ReplaceAll(s, "```", "") == ReplaceAll(s[3..], "```", "");
    } else {
      var t := ReplaceAll(s[1..], "```", "");
      var r := ReplaceAll(s, "```", "");
      assert r == [s[0]] + t;
      RemovalLeavesNoFence(s[1..]);
      forall i | 0 < i <= |r| - 3 ensures !OccursAt(r, "```", i) {
        assert !OccursAt(t, "```", i - 1);
        assert r[i..i + 3] == t[i - 1..i + 2];
      }
      assert !OccursAt(r, "```", 0);
    }
  }

  // ---------------------------------------------------------------- join

  /** The total length of the parts. */
  function SumLengths(parts: seq<string>): nat {
    if |parts| == 0 then 0 else |parts[0]| + SumLengths(parts[1..])
  }

  /** `sep.join(parts)`: the parts in order with one separator between neighbours. */
  function Join(sep: string, parts: seq<string>): (r: string)
    ensures |parts| == 0 ==> r == ""
    ensures |parts| == 1 ==> r == parts[0]
    ensures |parts| >= 1 ==> StartsWith(r, parts[0])
    decreases |parts|
  {
    if |parts| == 0 then ""
    else if |parts| == 1 then parts[0]
    else parts[0] + sep + Join(sep, parts[1..])
  }

  /** The joined text is as long as the parts plus one separator between neighbours. */
  lemma {:induction false} JoinLength(sep: string, parts: seq<string>)
    requires |parts| >= 1
    ensures |Join(sep, parts)| == SumLengths(parts) + (|parts| - 1) * |sep|
    decreases |parts|
  {
    if |parts| > 1 {
      JoinLength(sep, parts[1..]);
      assert (|parts| - 1) * |sep| == |sep| + (|parts| - 2) * |sep|;
    }
  }

  /** Where part `k` starts in `Join(sep, parts)`: the parts before it, each followed by `sep`. */
  function PartStart(sep: string, parts: seq<string>, k: nat): nat
    requires k <= |parts|
  {
    if k == 0 then 0 else |parts[0]| + |sep| + PartStart(sep, parts[1..], k - 1)
  }

  /** Part `k` sits after the parts before it and one separator per part,
      and a separator follows it unless it is the last. */
  lemma JoinAt(sep: string, parts: seq<string>, k: nat)
    requires k < |parts|
    ensures OccursAt(Join(sep, parts), parts[k], SumLengths(parts[..k]) + k * |sep|)
    ensures k + 1 < |parts| ==>
      OccursAt(Join(sep, parts), sep, SumLengths(parts[..k]) + k * |sep| + |parts[k]|)
  {
    JoinPartAt(sep, parts, k);
    if k + 1 < |parts| {
      JoinSeparatorAt(sep, parts, k);
    }
    PartStartValue(sep, parts, k);
  }

  lemma {:induction false} JoinPartAt(sep: string, parts: seq<string>, k: nat)
    requires k < |parts|
    ensures OccursAt(Join(sep, parts), parts[k], PartStart(sep, parts, k))
    decreases k
  {
    if k > 0 {
      var tail := parts[1..];
      JoinPartAt(sep, tail, k - 1);
      JoinUnfold(sep, parts);
      OccursAfterPrefix(parts[0] + sep, Join(sep, tail), parts[k], PartStart(sep, tail, k - 1));
    }
  }

  lemma {:induction false} JoinSeparatorAt(sep: string, parts: seq<string>, k: nat)
    requires k + 1 < |parts|
    ensures OccursAt(Join(sep, parts), sep, PartStart(sep, parts, k) + |parts[k]|)
    decreases k
  {
    var tail := parts[1..];
    JoinUnfold(sep, parts);
    if k == 0 {
      assert (parts[0] + sep + Join(sep, tail))[|parts[0]|..|parts[0]| + |sep|] == sep;
    } else {
      JoinSeparatorAt(sep, tail, k - 1);
      OccursAfterPrefix(parts[0] + sep, Join(sep, tail), sep, PartStart(sep, tail, k - 1) + |parts[k]|);
    }
  }

  lemma JoinUnfold(sep: string, parts: seq<string>)
    requires |parts| > 1
    ensures Join(sep, parts) == (parts[0] + sep) + Join(sep, parts[1..])
  {
  }

  /** The closed form of `PartStart`. */
  lemma {:induction false} PartStartValue(sep: string, parts: seq<string>, k: nat)
    requires k <= |parts|
    ensures PartStart(sep, parts, k) == SumLengths(parts[..k]) + k * |sep|
    decreases k
  {
    if k == 0 {
      assert parts[..0] == [];
    } else {
      var tail := parts[1..];
      PartStartValue(sep, tail, k - 1);
      assert parts[..k] == [parts[0]] + tail[..k - 1];
      assert k * |sep| == |sep| + (k - 1) * |sep|;
    }
  }

  /** An occurrence in `t` is one in `p + t`, shifted by `|p|`. */
  lemma OccursAfterPrefix(p: string, t: string, x: string, at: int)
    requires OccursAt(t, x, at)
    ensures OccursAt(p + t, x, |p| + at)
  {
    assert (p + t)[|p| + at..|p| + at + |x|] == t[at..at + |x|];
  }

  /** With two parts or more the separator shows up right after the first part. */
  lemma JoinHasSeparator(sep: string, parts: seq<string>)
    requires |parts| >= 2
    ensures OccursAt(Join(sep, parts), sep, |parts[0]|)
  {
    var r := Join(sep, parts);
    assert r == parts[0] + sep + Join(sep, parts[1..]);
    assert r[|parts[0]|..|parts[0]| + |sep|] == sep;
  }

  // ---------------------------------------------------------------- slicing

  /** `s[:n]`. */
  function Take(s: string, n: nat): (r: string)
    ensures |r| <= n && |r| <= |s|
    ensures StartsWith(s, r)
    ensures |s| <= n ==> r == s
    ensures |s| > n ==> |r| == n
  {
    if |s| <= n then s else s[..n]
  }

  /** `s.split(c)[0]`: everything before the first `c`, or all of `s`. */
  function BeforeFirst(s: string, c: char): (r: string)
    ensures StartsWith(s, r)
    ensures forall i :: 0 <= i < |r| ==> r[i] != c
    ensures |r| < |s| ==> s[|r|] == c
  {
    if |s| == 0 || s[0] == c then "" else [s[0]] + BeforeFirst(s[1..], c)
  }

  /** Where the last path component of `p` starts: just after its last '/'. */
  function BasenameStart(p: string): (k: nat)
    ensures k <= |p|
    ensures forall i :: k <= i < |p| ==> p[i] != '/'
    ensures k > 0 ==> p[k - 1] == '/'
  {
    if |p| == 0 || p[|p| - 1] == '/' then |p| else BasenameStart(p[..|p| - 1])
  }

  /** `os.path.basename(p)` on POSIX: everything after the last '/'. */
  function Basename(p: string): (r: string)
    ensures |r| <= |p|
    ensures forall i :: 0 <= i < |r| ==> r[i] == p[|p| - |r| + i] && r[i] != '/'
    ensures |r| < |p| ==> p[|p| - |r| - 1] == '/'
  {
    p[BasenameStart(p)..]
  }

  /** `os.path.join(dir, file)` on POSIX: an absolute `file` replaces `dir`;
      otherwise a '/' is inserted unless `dir` is empty or already ends in one. */
  function PathJoin(dir: string, file: string): (r: string)
    ensures StartsWith(file, "/") ==> r == file
    ensures !StartsWith(file, "/") ==> StartsWith(r, dir) && |r| <= |dir| + 1 + |file|
    ensures |file| <= |r| && r[|r| - |file|..] == file
    ensures |r| > |file| ==> r[|r| - |file| - 1] == '/'
    ensures !StartsWith(file, "/") && |dir| == 0 ==> r == file
    ensures !StartsWith(file, "/") && |dir| > 0 && dir[|dir| - 1] == '/' ==> r == dir + file
    ensures !StartsWith(file, "/") && |dir| > 0 && dir[|dir| - 1] != '/' ==> r == dir + "/" + file
  {
    if StartsWith(file, "/") then file
    else if |dir| == 0 then file
    else if dir[|dir| - 1] == '/' then dir + file
    else dir + "/" + file
  }

  // ---------------------------------------------------------------- numbers

  predicate IsDigit(c: char) {
    '0' <= c <= '9'
  }

  function DigitChar(d: nat): (c: char)
    requires d < 10
    ensures IsDigit(c) && c as int - '0' as int == d
  {
    (d + '0' as int) as char
  }

  /** `str(n)` for a natural number. */
  function NatToString(n: nat): (r: string)
    ensures |r| >= 1
    ensures forall i :: 0 <= i < |r| ==> IsDigit(r[i])
    ensures r[0] == '0' ==> n == 0
  {
    if n < 10 then [DigitChar(n)] else NatToString(n / 10) + [DigitChar(n % 10)]
  }

  /** The number a string of decimal digits denotes: the partner of `NatToString`. */
  function DigitsValue(s: string): nat
    requires forall i :: 0 <= i < |s| ==> IsDigit(s[i])
  {
    if |s| == 0 then 0
    else
      assert IsDigit(s[|s| - 1]);
      DigitsValue(s[..|s| - 1]) * 10 + (s[|s| - 1] as int - '0' as int)
  }

  /** Reading back the decimal rendering gives the number again, so distinct
      numbers render as distinct strings. */
  lemma {:induction false} NatToStringRoundTrip(n: nat)
    ensures DigitsValue(NatToString(n)) == n
  {
    if n >= 10 {
      NatToStringRoundTrip(n / 10);
      var s := NatToString(n);
      assert s[..|s| - 1] == NatToString(n / 10);
    }
  }
}
