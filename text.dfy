/** The string operations the voucher composer is built from, with Python's
    semantics: `str.replace`, `str.find`, `str.strip`, `"".join` and
    `str(int)`. */
module Text {
  import opened Wrappers

  // ---------------------------------------------------------------------
  // Occurrences and the leftmost match (`str.find`)
  // ---------------------------------------------------------------------

  /** `w` occurs in `s` starting at index `p`. */
  predicate OccursAt(s: string, w: string, p: nat) {
    p + |w| <= |s| && s[p..p + |w|] == w
  }

  /** `w in s`, Python's substring test. */
  ghost predicate Contains(s: string, w: string) {
    exists p: nat :: OccursAt(s, w, p)
  }

  /** `p` is where the left-to-right scan of `s` first meets `w`. */
  ghost predicate FirstOccurrence(s: string, w: string, p: nat) {
    OccursAt(s, w, p) && forall q: nat :: q < p ==> !OccursAt(s, w, q)
  }

  lemma OccursAtSuffix(s: string, w: string, k: nat, q: nat)
    requires k <= |s|
    ensures OccursAt(s[k..], w, q) <==> OccursAt(s, w, q + k)
  {
    if q + k + |w| <= |s| {
      assert s[k..][q..q + |w|] == s[q + k..q + k + |w|];
    }
  }

  /** `s.find(w, p)`: the first index at or after `p` where `w` occurs. */
  function FindFrom(s: string, w: string, p: nat): (r: Option<nat>)
    requires p <= |s|
    ensures r.Some? ==> p <= r.value && OccursAt(s, w, r.value)
    ensures r.Some? ==> forall q: nat :: p <= q < r.value ==> !OccursAt(s, w, q)
    ensures r.None? ==> forall q: nat :: p <= q ==> !OccursAt(s, w, q)
    decreases |s| - p
  {
    if p + |w| > |s| then None
    else if s[p..p + |w|] == w then Some(p)
    else FindFrom(s, w, p + 1)
  }

  /** `s.find(w)`, with `None` for Python's `-1`. */
  function Find(s: string, w: string): (r: Option<nat>)
    ensures r.Some? <==> Contains(s, w)
    ensures r.Some? ==> FirstOccurrence(s, w, r.value)
  {
    FindFrom(s, w, 0)
  }

  // ---------------------------------------------------------------------
  // Literal replace-all (`str.replace`)
  // ---------------------------------------------------------------------

  /** `s.replace(pat, rep)`: every non-overlapping occurrence of `pat`,
      found left to right, is replaced by `rep`. An empty `pat` matches
      before every character and at the end, as in Python. */
  function ReplaceAll(s: string, pat: string, rep: string): string {
    if pat == [] then InsertEverywhere(s, rep) else ReplaceFrom(s, pat, rep, 0)
  }

  /** The scan of `str.replace` from index `i` on: the replaced text of
      `s[i..]`. */
  function ReplaceFrom(s: string, pat: string, rep: string, i: nat): string
    requires pat != [] && i <= |s|
    decreases |s| - i
  {
    if i + |pat| > |s| then s[i..]
    else if OccursAt(s, pat, i) then rep + ReplaceFrom(s, pat, rep, i + |pat|)
    else [s[i]] + ReplaceFrom(s, pat, rep, i + 1)
  }

  /** `s.replace("", rep)`. */
  function InsertEverywhere(s: string, rep: string): (r: string)
    ensures |r| == |s| + (|s| + 1) * |rep|
  {
    if s == [] then rep else rep + [s[0]] + InsertEverywhere(s[1..], rep)
  }

  lemma {:induction false} ReplaceFromAbsent(s: string, pat: string, rep: string, i: nat)
    requires pat != [] && i <= |s|
    requires forall q: nat :: i <= q ==> !OccursAt(s, pat, q)
    ensures ReplaceFrom(s, pat, rep, i) == s[i..]
    decreases |s| - i
  {
    if i + |pat| <= |s| {
      ReplaceFromAbsent(s, pat, rep, i + 1);
      assert s[i..] == [s[i]] + s[i + 1..];
    }
  }

  /** A text without the pattern comes back unchanged, whatever the
      replacement: deletion of an absent block is a no-op. */
  lemma ReplaceAllAbsent(s: string, pat: string, rep: string)
    requires pat != []
    requires !Contains(s, pat)
    ensures ReplaceAll(s, pat, rep) == s
  {
    ReplaceFromAbsent(s, pat, rep, 0);
  }

  lemma {:induction false} ReplaceFromSplit(s: string, pat: string, rep: string, i: nat, p: nat)
    requires pat != [] && i <= p && OccursAt(s, pat, p)
    requires forall q: nat :: i <= q < p ==> !OccursAt(s, pat, q)
    ensures ReplaceFrom(s, pat, rep, i) == s[i..p] + rep + ReplaceFrom(s, pat, rep, p + |pat|)
    decreases p - i
  {
    if i < p {
      ReplaceFromSplit(s, pat, rep, i + 1, p);
      assert s[i..p] == [s[i]] + s[i + 1..p];
    }
  }

  /** Replacement splits at the leftmost occurrence: everything before it
      is kept, the occurrence becomes `rep`, and the scan resumes right
      after it - the definition by `str.find` that CPython uses. */
  lemma ReplaceAllAtFirst(s: string, pat: string, rep: string, p: nat)
    requires pat != []
    requires FirstOccurrence(s, pat, p)
    ensures ReplaceAll(s, pat, rep) == s[..p] + rep + ReplaceFrom(s, pat, rep, p + |pat|)
  {
    ReplaceFromSplit(s, pat, rep, 0, p);
  }

  /** The same split, stated with `str.find`. */
  lemma ReplaceAllAtFind(s: string, pat: string, rep: string)
    requires pat != []
    ensures Find(s, pat).None? ==> ReplaceAll(s, pat, rep) == s
    ensures Find(s, pat).Some? ==>
      var p := Find(s, pat).value;
      ReplaceAll(s, pat, rep) == s[..p] + rep + ReplaceFrom(s, pat, rep, p + |pat|)
  {
    match Find(s, pat)
    case None => ReplaceAllAbsent(s, pat, rep);
    case Some(p) => ReplaceAllAtFirst(s, pat, rep, p);
  }

  lemma {:induction false} ReplaceFromNotLonger(s: string, pat: string, rep: string, i: nat)
    requires pat != [] && |rep| <= |pat| && i <= |s|
    ensures |ReplaceFrom(s, pat, rep, i)| <= |s| - i
    decreases |s| - i
  {
    if i + |pat| <= |s| {
      if OccursAt(s, pat, i) {
        ReplaceFromNotLonger(s, pat, rep, i + |pat|);
      } else {
        ReplaceFromNotLonger(s, pat, rep, i + 1);
      }
    }
  }

  /** A replacement no longer than the pattern never makes the text longer. */
  lemma ReplaceAllNotLonger(s: string, pat: string, rep: string)
    requires pat != [] && |rep| <= |pat|
    ensures |ReplaceAll(s, pat, rep)| <= |s|
  {
    ReplaceFromNotLonger(s, pat, rep, 0);
  }

  /** Replacing an occurring pattern by something strictly shorter (a
      deletion in particular) strictly shortens the text, so the text
      changes exactly when the pattern occurs. */
  lemma ReplaceAllShortens(s: string, pat: string, rep: string)
    requires pat != [] && |rep| < |pat|
    requires Contains(s, pat)
    ensures |ReplaceAll(s, pat, rep)| < |s|
  {
    var p := Find(s, pat).value;
    ReplaceAllAtFirst(s, pat, rep, p);
    ReplaceFromNotLonger(s, pat, rep, p + |pat|);
  }

  /** The last `k` characters of `s`. */
  function Suffix(s: string, k: nat): string
    requires k <= |s|
  {
    s[|s| - k..]
  }

  /** The first `k` characters of `s`. */
  function Prefix(s: string, k: nat): string
    requires k <= |s|
  {
    s[..k]
  }

  /** The replacement cannot re-form the pattern with its neighbours: it does
      not contain the pattern, no end of it starts the pattern and no start
      of it ends the pattern, and it is at least as long as the pattern. */
  ghost predicate NoOverlap(pat: string, rep: string) {
    && pat != []
    && |rep| >= |pat|
    && !Contains(rep, pat)
    && (forall k: nat :: 0 < k < |pat| ==> Suffix(rep, k) != Prefix(pat, k))
    && (forall k: nat :: 0 < k < |pat| ==> Suffix(pat, k) != Prefix(rep, k))
  }

  /** The first `m < |pat|` characters of the scan from `i` are the next
      `j` characters of the original followed by the first `m - j`
      characters of a replacement (`j == m`: no replacement has started). */
  lemma {:induction false} ReplacedPrefix(t: string, pat: string, rep: string, i: nat, m: nat)
    returns (j: nat)
    requires pat != [] && |rep| >= |pat| && i + m <= |t| && m < |pat|
    ensures m <= |ReplaceFrom(t, pat, rep, i)| && j <= m
    ensures ReplaceFrom(t, pat, rep, i)[..m] == t[i..i + j] + rep[..m - j]
    decreases |t| - i
  {
    var r := ReplaceFrom(t, pat, rep, i);
    if i + |pat| > |t| {
      j := m;
    } else if OccursAt(t, pat, i) {
      j := 0;
    } else if m == 0 {
      j := 0;
    } else {
      var r1 := ReplaceFrom(t, pat, rep, i + 1);
      var j1 := ReplacedPrefix(t, pat, rep, i + 1, m - 1);
      j := j1 + 1;
      assert r[..m] == [t[i]] + r1[..m - 1];
      assert t[i..i + j] == [t[i]] + t[i + 1..i + 1 + j1];
    }
  }

  /** An occurrence starting inside `rep` and ending past it would make an
      end of `rep` a start of the pattern. */
  lemma StraddleAtEnd(pat: string, rep: string, r2: string, p: nat)
    requires p < |rep| < p + |pat| <= |rep| + |r2|
    requires Suffix(rep, |rep| - p) != Prefix(pat, |rep| - p)
    ensures !OccursAt(rep + r2, pat, p)
  {
    var r := rep + r2;
    assert r[p..p + |pat|][..|rep| - p] == rep[p..];
  }

  /** An occurrence in `rep + r2` lies in `rep`, in `r2`, or across the seam. */
  lemma NoPatternAfterMatch(pat: string, rep: string, r2: string)
    requires NoOverlap(pat, rep) && !Contains(r2, pat)
    ensures !Contains(rep + r2, pat)
  {
    var r := rep + r2;
    forall p: nat ensures !OccursAt(r, pat, p) {
      if p + |pat| <= |r| {
        if p + |pat| <= |rep| {
          assert r[p..p + |pat|] == rep[p..p + |pat|];
          assert !OccursAt(rep, pat, p);
        } else if p >= |rep| {
          assert r[p..p + |pat|] == r2[p - |rep|..p - |rep| + |pat|];
          assert !OccursAt(r2, pat, p - |rep|);
        } else {
          StraddleAtEnd(pat, rep, r2, p);
        }
      }
    }
  }

  /** The seam argument on plain sequences: `c`, then the first `j`
      characters of `t`, then a start of `rep` is not the pattern, unless
      `[c] + t` is. */
  lemma NoPatternAtSeam(pat: string, rep: string, c: char, t: string, r1: string, j: nat)
    requires NoOverlap(pat, rep) && |t| == |pat| - 1 && [c] + t != pat
    requires j <= |t| <= |r1| && r1[..|t|] == t[..j] + rep[..|t| - j]
    ensures ([c] + r1)[..|pat|] != pat
  {
    var r := [c] + r1;
    var k := |t| - j;
    assert r[..|pat|] == [c] + r1[..|t|];
    var w := [c] + t[..j] + rep[..k];
    if k == 0 {
      assert t[..j] == t;
    } else {
      assert Suffix(w, k) == Prefix(rep, k);
    }
  }

  /** The scan that skipped index `i` cannot start with the pattern: the
      original would have matched at `i`, or the pattern would end with a
      start of the replacement. `r1` is the scan from `i + 1`, of which
      only its first `|pat| - 1` characters matter. */
  lemma NoPatternAtSkip(s: string, pat: string, rep: string, i: nat, r1: string, j: nat)
    requires NoOverlap(pat, rep) && i + |pat| <= |s| && !OccursAt(s, pat, i)
    requires |pat| - 1 <= |r1| && j <= |pat| - 1
    requires r1[..|pat| - 1] == s[i + 1..i + 1 + j] + rep[..|pat| - 1 - j]
    ensures !OccursAt([s[i]] + r1, pat, 0)
  {
    var t := SkippedWindow(s, pat, i, j);
    NoPatternAtSeam(pat, rep, s[i], t, r1, j);
  }

  /** The `|pat| - 1` characters after a non-match at `i`. */
  lemma SkippedWindow(s: string, pat: string, i: nat, j: nat) returns (t: string)
    requires pat != [] && i + |pat| <= |s| && !OccursAt(s, pat, i) && j < |pat|
    ensures |t| == |pat| - 1 && [s[i]] + t != pat && t[..j] == s[i + 1..i + 1 + j]
  {
    t := s[i + 1..i + |pat|];
    assert [s[i]] + t == s[i..i + |pat|];
  }

  /** An occurrence in `[c] + r1` is at its start or inside `r1`. */
  lemma ConsNoPattern(pat: string, c: char, r1: string)
    requires !OccursAt([c] + r1, pat, 0) && !Contains(r1, pat)
    ensures !Contains([c] + r1, pat)
  {
    var r := [c] + r1;
    forall p: nat | 0 < p && p + |pat| <= |r| ensures !OccursAt(r, pat, p) {
      assert r[p..p + |pat|] == r1[p - 1..p - 1 + |pat|];
      assert !OccursAt(r1, pat, p - 1);
    }
  }

  lemma {:induction false} ReplaceFromRemovesPattern(s: string, pat: string, rep: string, i: nat)
    requires NoOverlap(pat, rep) && i <= |s|
    ensures !Contains(ReplaceFrom(s, pat, rep, i), pat)
    decreases |s| - i
  {
    if i + |pat| > |s| {
      assert forall p: nat :: !OccursAt(s[i..], pat, p);
    } else if OccursAt(s, pat, i) {
      ReplaceFromRemovesPattern(s, pat, rep, i + |pat|);
      NoPatternAfterMatch(pat, rep, ReplaceFrom(s, pat, rep, i + |pat|));
    } else {
      var r1 := ReplaceFrom(s, pat, rep, i + 1);
      ReplaceFromRemovesPattern(s, pat, rep, i + 1);
      var j := ReplacedPrefix(s, pat, rep, i + 1, |pat| - 1);
      NoPatternAtSkip(s, pat, rep, i, r1, j);
      ConsNoPattern(pat, s[i], r1);
    }
  }

  /** After replacing every occurrence by a non-overlapping replacement, the
      pattern no longer occurs anywhere in the text. */
  lemma ReplaceAllRemovesPattern(s: string, pat: string, rep: string)
    requires NoOverlap(pat, rep)
    ensures !Contains(ReplaceAll(s, pat, rep), pat)
  {
    ReplaceFromRemovesPattern(s, pat, rep, 0);
  }

  /** A pattern whose first character never appears in `s` does not occur
      in `s`. */
  lemma AbsentByFirstChar(s: string, w: string)
    requires w != [] && w[0] !in s
    ensures !Contains(s, w)
  {
    forall p: nat ensures !OccursAt(s, w, p) {
      if p + |w| <= |s| {
        assert s[p..p + |w|][0] == s[p];
      }
    }
  }

  // ---------------------------------------------------------------------
  // Whitespace and `str.strip`
  // ---------------------------------------------------------------------

  /** Python's `str.isspace` on one character. */
  predicate IsSpace(c: char) {
    || c == ' ' || ('\t' <= c <= '\r') || ('\U{1c}' <= c <= '\U{1f}')
    || c == '\U{85}' || c == '\U{a0}' || c == '\U{1680}'
    || ('\U{2000}' <= c <= '\U{200a}') || c == '\U{2028}' || c == '\U{2029}'
    || c == '\U{202f}' || c == '\U{205f}' || c == '\U{3000}'
  }

  /** Every character is whitespace (the empty string included). */
  predicate Blank(s: string) {
    forall i :: 0 <= i < |s| ==> IsSpace(s[i])
  }

  /** `s.lstrip()` */
  function TrimStart(s: string): (r: string)
    ensures r != [] ==> !IsSpace(r[0])
    ensures r == [] <==> Blank(s)
  {
    if s != [] && IsSpace(s[0]) then TrimStart(s[1..]) else s
  }

  /** `s.rstrip()` */
  function TrimEnd(s: string): (r: string)
    ensures r == [] <==> Blank(s)
  {
    if s != [] && IsSpace(s[|s| - 1]) then TrimEnd(s[..|s| - 1]) else s
  }

  /** `s.strip()` */
  function Strip(s: string): string {
    TrimEnd(TrimStart(s))
  }

  /** Python's truthiness of `name and name.strip()`. */
  predicate Named(name: string) {
    name != [] && Strip(name) != []
  }

  /** A name counts as present exactly when it has a character that is not
      whitespace. */
  lemma NamedIff(name: string)
    ensures Named(name) <==> exists i :: 0 <= i < |name| && !IsSpace(name[i])
  {
    var t := TrimStart(name);
    if t != [] {
      assert !IsSpace(t[0]);
    }
  }

  // ---------------------------------------------------------------------
  // `"".join` and `str(int)`
  // ---------------------------------------------------------------------

  /** `"".join(parts)` */
  function Concat(parts: seq<string>): string {
    if parts == [] then "" else Concat(parts[..|parts| - 1]) + parts[|parts| - 1]
  }

  predicate IsDigit(c: char) {
    '0' <= c <= '9'
  }

  function DigitChar(d: nat): (c: char)
    requires d < 10
    ensures IsDigit(c) && c as int - '0' as int == d
  {
    ('0' as int + d) as char
  }

  /** `str(n)` for a non-negative integer: decimal, no leading zeros. */
  function NatToString(n: nat): (r: string)
    ensures r != []
    ensures forall i :: 0 <= i < |r| ==> IsDigit(r[i])
    ensures r[0] == '0' ==> n == 0
  {
    if n < 10 then [DigitChar(n)] else NatToString(n / 10) + [DigitChar(n % 10)]
  }

  function DigitValue(c: char): nat
    requires IsDigit(c)
  {
    c as int - '0' as int
  }

  /** `int(s)` on a string of decimal digits. */
  function ParseDecimal(s: string): nat
    requires forall i :: 0 <= i < |s| ==> IsDigit(s[i])
  {
    if s == [] then 0
    else 10 * ParseDecimal(s[..|s| - 1]) + DigitValue(s[|s| - 1])
  }

  /** Serial numbers read back as the numbers they render. */
  lemma {:induction false} ParseNatToString(n: nat)
    ensures ParseDecimal(NatToString(n)) == n
  {
    if n >= 10 {
      ParseNatToString(n / 10);
      var r := NatToString(n);
      assert r[..|r| - 1] == NatToString(n / 10);
    }
  }
}
