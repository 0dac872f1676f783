/** Character classes, case mapping, trimming, substring tests and the few
    regular-expression shapes the chat code uses (a literal prefix, an
    optional filler such as an article, then a captured word or a lazy
    capture up to '.', ',' or the end of the text). */
module TextMatch {

  datatype Option<T> = None | Some(value: T)

  // ---------------------------------------------------------------- characters

  predicate IsUpper(c: char) { 'A' <= c <= 'Z' }

  predicate IsLower(c: char) { 'a' <= c <= 'z' }

  /** The `\w` class of a JavaScript regular expression: [A-Za-z0-9_]. */
  predicate IsWordChar(c: char) {
    IsUpper(c) || IsLower(c) || ('0' <= c <= '9') || c == '_'
  }

  /** The characters JavaScript's `.` refuses to match. */
  predicate IsLineTerminator(c: char) {
    c == '\n' || c == '\r' || c == '\U{2028}' || c == '\U{2029}'
  }

  /** The white space and line terminators that `String.prototype.trim` removes. */
  predicate IsJsSpace(c: char) {
    || c == ' ' || c == '\t' || c == '\U{000B}' || c == '\U{000C}' || c == '\U{00A0}'
    || c == '\U{FEFF}' || c == '\U{1680}' || ('\U{2000}' <= c <= '\U{200A}') || c == '\U{202F}'
    || c == '\U{205F}' || c == '\U{3000}' || IsLineTerminator(c)
  }

  function Lower(c: char): (d: char)
    ensures !IsUpper(d)
    ensures IsUpper(c) ==> IsLower(d) && d as int == c as int + 32
    ensures !IsUpper(c) ==> d == c
  {
    if IsUpper(c) then (c as int + 32) as char else c
  }

  function Upper(c: char): (d: char)
    ensures !IsLower(d)
    ensures IsLower(c) ==> IsUpper(d) && d as int + 32 == c as int
    ensures !IsLower(c) ==> d == c
  {
    if IsLower(c) then (c as int - 32) as char else c
  }

  /** `toLowerCase` on the ASCII letters; every other character is kept. */
  function LowerStr(s: string): (r: string)
    ensures |r| == |s|
    ensures forall i :: 0 <= i < |s| ==> r[i] == Lower(s[i])
  {
    seq(|s|, i requires 0 <= i < |s| => Lower(s[i]))
  }

  /** `w.charAt(0).toUpperCase() + w.slice(1)`. */
  function UpperFirst(w: string): (r: string)
    ensures |r| == |w|
    ensures w != [] ==> r[0] == Upper(w[0]) && r[1..] == w[1..]
  {
    if w == [] then [] else [Upper(w[0])] + w[1..]
  }

  // ------------------------------------------------------------------ trimming

  function TrimStart(s: string): (r: string)
    ensures |r| <= |s| && r == s[|s| - |r|..]
    ensures r == [] || !IsJsSpace(r[0])
  {
    if s != [] && IsJsSpace(s[0]) then TrimStart(s[1..]) else s
  }

  /** Everything TrimStart drops is white space. */
  lemma {:induction false} TrimStartDropsSpace(s: string)
    ensures forall i :: 0 <= i < |s| - |TrimStart(s)| ==> IsJsSpace(s[i])
  {
    if s != [] && IsJsSpace(s[0]) {
      TrimStartDropsSpace(s[1..]);
    }
  }

  function TrimEnd(s: string): (r: string)
    ensures |r| <= |s| && r == s[..|r|]
    ensures r == [] || !IsJsSpace(r[|r| - 1])
  {
    if s != [] && IsJsSpace(s[|s| - 1]) then TrimEnd(s[..|s| - 1]) else s
  }

  /** Everything TrimEnd drops is white space. */
  lemma {:induction false} TrimEndDropsSpace(s: string)
    ensures forall i :: |TrimEnd(s)| <= i < |s| ==> IsJsSpace(s[i])
  {
    if s != [] && IsJsSpace(s[|s| - 1]) {
      TrimEndDropsSpace(s[..|s| - 1]);
    }
  }

  /** `String.prototype.trim`. */
  function Trim(s: string): (r: string)
    ensures |r| <= |s|
    ensures r == [] || (!IsJsSpace(r[0]) && !IsJsSpace(r[|r| - 1]))
  {
    TrimEnd(TrimStart(s))
  }

  /** A string trims to the empty string exactly when it is all white space. */
  lemma TrimEmptyIff(s: string)
    ensures Trim(s) == [] <==> forall i :: 0 <= i < |s| ==> IsJsSpace(s[i])
  {
    var t := TrimStart(s);
    TrimStartDropsSpace(s);
    TrimEndDropsSpace(t);
    if Trim(s) == [] {
      forall i | 0 <= i < |s| ensures IsJsSpace(s[i]) {
        if i >= |s| - |t| {
          assert s[i] == t[i - (|s| - |t|)];
        }
      }
    } else {
      var r := Trim(s);
      assert r == t[..|r|];
      assert t[0] == r[0];
      assert s[|s| - |t|] == t[0];
    }
  }

  // ------------------------------------------------------------------ length

  /** A character outside the Basic Multilingual Plane, which UTF-16 stores
      as a surrogate pair. */
  predicate IsAstral(c: char) { c as int > 0xFFFF }

  /** `s.length` of a JavaScript string: the number of UTF-16 code units,
      two for each astral character and one for every other. */
  function Utf16Length(s: string): (n: nat)
    ensures |s| <= n <= 2 * |s|
    ensures n == |s| <==> forall i :: 0 <= i < |s| ==> !IsAstral(s[i])
    ensures n == 2 * |s| <==> forall i :: 0 <= i < |s| ==> IsAstral(s[i])
  {
    if s == [] then 0
    else
      var rest := Utf16Length(s[1..]);
      assert forall i :: 1 <= i < |s| ==> s[i] == s[1..][i - 1];
      (if IsAstral(s[0]) then 2 else 1) + rest
  }

  /** Two emoji are two characters but four UTF-16 code units. */
  lemma TwoEmojiAreFourUnits()
    ensures |"\U{1F622}\U{1F622}"| == 2
    ensures Utf16Length("\U{1F622}\U{1F622}") == 4
  {
    var s := "\U{1F622}\U{1F622}";
    assert s[1..] == "\U{1F622}";
    assert s[1..][1..] == "";
  }

  // --------------------------------------------------------- substring tests

  /** `lit` occurs in `s` at position `p`. */
  predicate OccursAt(s: string, p: nat, lit: string) {
    p + |lit| <= |s| && s[p..p + |lit|] == lit
  }

  /** `s.includes(lit)`. */
  predicate Contains(s: string, lit: string) {
    exists p: nat | p <= |s| :: OccursAt(s, p, lit)
  }

  /** `lit` (written in lower case) occurs at `p` when letters are compared
      without regard to case, as under the `i` flag of a regular expression. */
  predicate OccursAtIgnoringCase(s: string, p: nat, lit: string) {
    p + |lit| <= |s| && LowerStr(s[p..p + |lit|]) == lit
  }

  /** `parts.join(sep)`. */
  function Join(parts: seq<string>, sep: string): (r: string)
    ensures parts == [] ==> r == []
    ensures |parts| == 1 ==> r == parts[0]
  {
    if parts == [] then []
    else if |parts| == 1 then parts[0]
    else Join(parts[..|parts| - 1], sep) + sep + parts[|parts| - 1]
  }

  /** Every part can be found in the joined string. */
  lemma {:induction false} JoinContains(parts: seq<string>, sep: string, i: nat)
    requires i < |parts|
    ensures Contains(Join(parts, sep), parts[i])
  {
    var r := Join(parts, sep);
    if |parts| == 1 {
      assert OccursAt(r, 0, parts[i]);
    } else {
      var init := Join(parts[..|parts| - 1], sep);
      assert r == init + sep + parts[|parts| - 1];
      if i == |parts| - 1 {
        var p := |init + sep|;
        assert r[p..p + |parts[i]|] == parts[i];
        assert OccursAt(r, p, parts[i]);
      } else {
        JoinContains(parts[..|parts| - 1], sep, i);
        var p: nat :| p <= |init| && OccursAt(init, p, parts[i]);
        assert r[p..p + |parts[i]|] == init[p..p + |parts[i]|];
        assert OccursAt(r, p, parts[i]);
      }
    }
  }

  /** Lower-casing a string keeps every occurrence, lower-cased. */
  lemma LowerKeepsOccurrence(s: string, p: nat, lit: string)
    requires OccursAt(s, p, lit)
    ensures OccursAt(LowerStr(s), p, LowerStr(lit))
  {
    assert LowerStr(s)[p..p + |lit|] == LowerStr(lit);
  }

  /** `xs.slice(-n)`: the last `n` elements, or all of them when there are fewer. */
  function LastN<T>(xs: seq<T>, n: nat): (r: seq<T>)
    ensures |r| == if |xs| < n then |xs| else n
    ensures r == xs[|xs| - |r|..]
  {
    if |xs| <= n then xs else xs[|xs| - n..]
  }

  // ------------------------------------------------------ regular expressions

  /** What a pattern captures after its prefix and filler. */
  datatype Capture =
    | WordRun   // (\w+)
    | Lazy      // (.+?)(?:\.|,|$)

  /** `prefix` followed by the first of `fillers` after which the capture
      succeeds; `(?:a |an )?` is the fillers ["a ", "an ", ""] and `a? ` is
      ["a ", " "]. Every prefix and filler is written in lower case and
      compared without regard to case. */
  datatype Pattern = Pattern(prefix: string, fillers: seq<string>, capture: Capture)

  /** Length of the run of word characters starting at `q`. */
  function WordLength(s: string, q: nat): (n: nat)
    requires q <= |s|
    ensures q + n <= |s|
    ensures forall i :: q <= i < q + n ==> IsWordChar(s[i])
    ensures q + n == |s| || !IsWordChar(s[q + n])
    decreases |s| - q
  {
    if q < |s| && IsWordChar(s[q]) then 1 + WordLength(s, q + 1) else 0
  }

  predicate IsDelimiter(c: char) { c == '.' || c == ',' }

  /** The lazy capture has consumed s[..e] (with s[e-1] its last character):
      stop at the first place where a delimiter or the end follows. */
  function LazyEndFrom(s: string, q: nat, e: nat): (r: Option<nat>)
    requires q < e <= |s|
    requires forall i :: q <= i < e - 1 ==> !IsLineTerminator(s[i])
    requires forall i :: q < i < e ==> !IsDelimiter(s[i])
    ensures r.Some? ==> e <= r.value <= |s|
    ensures r.Some? ==> forall i :: q <= i < r.value ==> !IsLineTerminator(s[i])
    ensures r.Some? ==> r.value == |s| || IsDelimiter(s[r.value])
    ensures r.Some? ==> forall i :: q < i < r.value ==> !IsDelimiter(s[i])
    decreases |s| - e
  {
    if IsLineTerminator(s[e - 1]) then None
    else if e == |s| || IsDelimiter(s[e]) then Some(e)
    else LazyEndFrom(s, q, e + 1)
  }

  /** End of the capture `(.+?)(?:\.|,|$)` that starts at `q`. */
  function LazyEnd(s: string, q: nat): (r: Option<nat>)
    ensures r.Some? ==> q < r.value <= |s|
    ensures r.Some? ==> forall i :: q <= i < r.value ==> !IsLineTerminator(s[i])
    ensures r.Some? ==> r.value == |s| || IsDelimiter(s[r.value])
    ensures r.Some? ==> forall i :: q < i < r.value ==> !IsDelimiter(s[i])
  {
    if q < |s| then LazyEndFrom(s, q, q + 1) else None
  }

  /** The text a capture of kind `cap` takes when it starts at `q`. */
  function CaptureAt(s: string, q: nat, cap: Capture): (r: Option<string>)
    ensures r.Some? ==> |r.value| >= 1
    ensures r.Some? && cap == WordRun ==>
      (forall i :: 0 <= i < |r.value| ==> IsWordChar(r.value[i]))
    ensures r.Some? && cap == WordRun ==>
      q + |r.value| <= |s| && r.value == s[q..q + |r.value|]
      && (q + |r.value| == |s| || !IsWordChar(s[q + |r.value|]))
    ensures cap == WordRun ==> (r.Some? <==> q < |s| && IsWordChar(s[q]))
  {
    match cap
    case WordRun =>
      if q < |s| && IsWordChar(s[q]) then Some(s[q..q + WordLength(s, q)]) else None
    case Lazy =>
      match LazyEnd(s, q)
      case Some(e) => Some(s[q..e])
      case None => None
  }

  /** The first filler, in order, after which the capture succeeds. */
  function TryFillers(s: string, q: nat, fillers: seq<string>, cap: Capture): (r: Option<string>)
    ensures r.Some? ==> exists f :: f in fillers && OccursAtIgnoringCase(s, q, f)
                          && CaptureAt(s, q + |f|, cap) == r
    ensures r.None? ==> forall f :: f in fillers && OccursAtIgnoringCase(s, q, f)
                          ==> CaptureAt(s, q + |f|, cap).None?
  {
    if fillers == [] then None
    else if OccursAtIgnoringCase(s, q, fillers[0]) && CaptureAt(s, q + |fillers[0]|, cap).Some?
    then CaptureAt(s, q + |fillers[0]|, cap)
    else TryFillers(s, q, fillers[1..], cap)
  }

  /** What the pattern captures when the match starts at `p`. */
  function MatchAt(s: string, pat: Pattern, p: nat): Option<string> {
    if OccursAtIgnoringCase(s, p, pat.prefix)
    then TryFillers(s, p + |pat.prefix|, pat.fillers, pat.capture)
    else None
  }

  /** What the pattern captures at each start position 0 .. |s|. */
  function MatchesAt(s: string, pat: Pattern): (ms: seq<Option<string>>)
    ensures |ms| == |s| + 1
    ensures forall k :: 0 <= k <= |s| ==> ms[k] == MatchAt(s, pat, k)
  {
    seq(|s| + 1, k requires 0 <= k <= |s| => MatchAt(s, pat, k))
  }

  /** The first present result at or after `p`. */
  function FirstPresent(ms: seq<Option<string>>, p: nat): Option<string>
    decreases |ms| - p
  {
    if p >= |ms| then None
    else if ms[p].Some? then ms[p]
    else FirstPresent(ms, p + 1)
  }

  /** FirstPresent returns the result at the first present position from
      `p` on, and None only when no result from `p` on is present. */
  lemma {:induction false} FirstPresentIsFirst(ms: seq<Option<string>>, p: nat)
    ensures FirstPresent(ms, p).Some? ==>
      exists k :: (p <= k < |ms| && ms[k] == FirstPresent(ms, p)
        && forall j :: p <= j < k ==> ms[j].None?)
    ensures FirstPresent(ms, p).None? ==> forall j :: p <= j < |ms| ==> ms[j].None?
    decreases |ms| - p
  {
    if p < |ms| && ms[p].None? {
      FirstPresentIsFirst(ms, p + 1);
      if FirstPresent(ms, p + 1).Some? {
        var k :| p + 1 <= k < |ms| && ms[k] == FirstPresent(ms, p + 1)
          && forall j :: p + 1 <= j < k ==> ms[j].None?;
        assert forall j :: p <= j < k ==> ms[j].None?;
      }
    }
  }

  /** `s.match(pattern)?.[1]`: the capture of the leftmost match
      (FindLeftmost). */
  function Find(s: string, pat: Pattern): (r: Option<string>)
    ensures r.Some? ==> |r.value| >= 1
  {
    var ms := MatchesAt(s, pat);
    FirstPresentIsFirst(ms, 0);
    FirstPresent(ms, 0)
  }

  /** Find returns the capture at the leftmost position where the pattern
      matches, and None when it matches nowhere. */
  lemma FindLeftmost(s: string, pat: Pattern)
    ensures Find(s, pat).Some? ==>
      exists k: nat :: (k <= |s| && MatchAt(s, pat, k) == Find(s, pat)
        && forall j :: 0 <= j < k ==> MatchAt(s, pat, j).None?)
    ensures Find(s, pat).None? ==> forall j :: 0 <= j <= |s| ==> MatchAt(s, pat, j).None?
  {
    var ms := MatchesAt(s, pat);
    FirstPresentIsFirst(ms, 0);
    if Find(s, pat).Some? {
      var k :| 0 <= k < |ms| && ms[k] == FirstPresent(ms, 0)
        && forall j :: 0 <= j < k ==> ms[j].None?;
      assert MatchAt(s, pat, k) == Find(s, pat);
    }
  }

  /** Matching compares letters without regard to case, so lower-casing the
      text first finds the match at the same place. */
  lemma OccursAtLowered(s: string, p: nat, lit: string)
    ensures OccursAtIgnoringCase(LowerStr(s), p, lit) <==> OccursAtIgnoringCase(s, p, lit)
  {
    if p + |lit| <= |s| {
      assert LowerStr(LowerStr(s)[p..p + |lit|]) == LowerStr(s[p..p + |lit|]);
    }
  }
}
