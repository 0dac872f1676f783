/** extractPersonalInformation of app/api/chat/route.ts: scans the last five
    messages, lower-cased and joined, for a name, a job, relationship words
    and interests, and merges what it finds into the context the client sent. */
module ChatExtraction {
  import opened TextMatch
  import opened PersonalContexts

  datatype Message = Message(role: string, content: string)

  /** /my name is (\w+)/i, /i'm (\w+)/i, /call me (\w+)/i, /i am (\w+)/i */
  const NamePatterns: seq<Pattern> := [
    Pattern("my name is ", [""], WordRun),
    Pattern("i'm ", [""], WordRun),
    Pattern("call me ", [""], WordRun),
    Pattern("i am ", [""], WordRun)]

  /** /i work as (?:a |an )?(\w+)/i, /i'm (?:a |an )?(\w+)/i, /my job is (\w+)/i, /i do (\w+)/i */
  const JobPatterns: seq<Pattern> := [
    Pattern("i work as ", ["a ", "an ", ""], WordRun),
    Pattern("i'm ", ["a ", "an ", ""], WordRun),
    Pattern("my job is ", [""], WordRun),
    Pattern("i do ", [""], WordRun)]

  /** Captures the job patterns must not take for a job. */
  const NotJobs: seq<string> := ["feeling", "doing", "going", "having"]

  const RelationshipKeywords: seq<string> := [
    "husband", "wife", "partner", "boyfriend", "girlfriend", "spouse", "kids",
    "children", "family", "parents", "mom", "dad", "sister", "brother"]

  /** /i love (\w+)/i, /i enjoy (\w+)/i, /i like (\w+)/i, /my hobby is (\w+)/i */
  const InterestPatterns: seq<Pattern> := [
    Pattern("i love ", [""], WordRun),
    Pattern("i enjoy ", [""], WordRun),
    Pattern("i like ", [""], WordRun),
    Pattern("my hobby is ", [""], WordRun)]

  /** The contents of the last five messages, lower-cased, joined by spaces. */
  function RecentText(messages: seq<Message>): string {
    var recent := LastN(messages, 5);
    Join(seq(|recent|, i requires 0 <= i < |recent| => LowerStr(recent[i].content)), " ")
  }

  /** The result of matching each pattern against the text. */
  function Results(text: string, patterns: seq<Pattern>): (rs: seq<Option<string>>)
    ensures |rs| == |patterns|
    ensures forall i :: 0 <= i < |patterns| ==> rs[i] == Find(text, patterns[i])
  {
    seq(|patterns|, i requires 0 <= i < |patterns| => Find(text, patterns[i]))
  }

  /** A result the loop accepts: a capture outside `rejected`. */
  predicate Accepted(r: Option<string>, rejected: seq<string>) {
    r.Some? && r.value !in rejected
  }

  /** The first accepted result. */
  function FirstAccepted(rs: seq<Option<string>>, rejected: seq<string>): (r: Option<string>)
    ensures r.Some? ==> r.value !in rejected
  {
    if rs == [] then None
    else if Accepted(rs[0], rejected) then rs[0]
    else FirstAccepted(rs[1..], rejected)
  }

  /** FirstAccepted returns the first accepted result, and None only when
      no result is accepted. */
  lemma {:induction false} FirstAcceptedIsFirst(rs: seq<Option<string>>, rejected: seq<string>)
    ensures var r := FirstAccepted(rs, rejected);
      (r.Some? ==> exists i :: (0 <= i < |rs| && rs[i] == r &&
         forall j :: 0 <= j < i ==> !Accepted(rs[j], rejected)))
      && (r.None? <==> forall i :: 0 <= i < |rs| ==> !Accepted(rs[i], rejected))
  {
    if rs != [] && !Accepted(rs[0], rejected) {
      var rest := rs[1..];
      FirstAcceptedIsFirst(rest, rejected);
      assert forall i :: 1 <= i < |rs| ==> rs[i] == rest[i - 1];
      var r := FirstAccepted(rest, rejected);
      if r.Some? {
        var i :| 0 <= i < |rest| && rest[i] == r &&
          forall j :: 0 <= j < i ==> !Accepted(rest[j], rejected);
        assert rs[i + 1] == r;
      }
    }
  }

  /** The capture of the first pattern, in order, that matches with a capture
      outside `rejected`. */
  function FirstCapture(text: string, patterns: seq<Pattern>, rejected: seq<string>): (r: Option<string>)
    ensures r.Some? ==> r.value !in rejected
  {
    FirstAccepted(Results(text, patterns), rejected)
  }

  /** FirstCapture is the capture of the first pattern whose capture is
      accepted, and None only when none is. */
  lemma FirstCaptureIsFirst(text: string, patterns: seq<Pattern>, rejected: seq<string>)
    ensures var rs := Results(text, patterns);
      var r := FirstCapture(text, patterns, rejected);
      && (r.Some? ==> |r.value| >= 1)
      && (r.Some? ==> exists k :: (0 <= k < |rs| && rs[k] == r
            && forall j :: 0 <= j < k ==> !Accepted(rs[j], rejected)))
      && (r.None? <==> forall j :: 0 <= j < |rs| ==> !Accepted(rs[j], rejected))
  {
    var rs := Results(text, patterns);
    FirstAcceptedIsFirst(rs, rejected);
    var r := FirstCapture(text, patterns, rejected);
    if r.Some? {
      var k :| 0 <= k < |rs| && rs[k] == r && forall j :: 0 <= j < k ==> !Accepted(rs[j], rejected);
      assert rs[k] == Find(text, patterns[k]);
    }
  }

  /** The values of the results that are present, in order. */
  function Present(rs: seq<Option<string>>): (ws: seq<string>)
    ensures |ws| <= |rs|
    ensures forall w :: w in ws ==> Some(w) in rs
  {
    if rs == [] then []
    else
      var init := rs[..|rs| - 1];
      var ws := Present(init);
      assert forall w :: w in ws ==> Some(w) in rs by {
        forall w | w in ws ensures Some(w) in rs {
          var i :| 0 <= i < |init| && init[i] == Some(w);
          assert rs[i] == Some(w);
        }
      }
      ws + (if rs[|rs| - 1].Some? then [rs[|rs| - 1].value] else [])
  }

  /** One more result after `rs`. */
  lemma PresentSnoc(rs: seq<Option<string>>, r: Option<string>)
    ensures Present(rs + [r]) == Present(rs) + (if r.Some? then [r.value] else [])
  {
    assert (rs + [r])[..|rs|] == rs;
  }

  /** The captures of every matching pattern, in pattern order. */
  function AllCaptures(text: string, patterns: seq<Pattern>): seq<string> {
    Present(Results(text, patterns))
  }

  /** `keywords.filter((keyword) => text.includes(keyword))`
      (FoundKeywordsIff). */
  function FoundKeywords(text: string, keywords: seq<string>): (r: seq<string>)
    ensures |r| <= |keywords|
  {
    if keywords == [] then []
    else
      var init := keywords[..|keywords| - 1];
      var last := keywords[|keywords| - 1];
      FoundKeywords(text, init) + (if Contains(text, last) then [last] else [])
  }

  /** A keyword is kept exactly when the text contains it. */
  lemma {:induction false} FoundKeywordsIff(text: string, keywords: seq<string>)
    ensures forall k :: k in FoundKeywords(text, keywords) <==> k in keywords && Contains(text, k)
  {
    if keywords != [] {
      var init := keywords[..|keywords| - 1];
      var last := keywords[|keywords| - 1];
      FoundKeywordsIff(text, init);
      assert keywords == init + [last];
    }
  }

  /** The merged context and the hasPersonalInfo flag. */
  function Extracted(messages: seq<Message>, existing: PersonalContext): (PersonalContext, bool) {
    if messages == [] then (existing, false)
    else
      var text := RecentText(messages);
      Merged(existing, FirstCapture(text, NamePatterns, []), FirstCapture(text, JobPatterns, NotJobs),
        FoundKeywords(text, RelationshipKeywords), AllCaptures(text, InterestPatterns))
  }

  /** The context with what one scan found merged in: a found name
      (Capitalised) or job replaces the old one, found relationships and
      interests are appended; the flag says whether anything was found. */
  function Merged(existing: PersonalContext, name: Option<string>, job: Option<string>,
                  relationships: seq<string>, interests: seq<string>): (PersonalContext, bool)
  {
    (existing.(
       name := if name.Some? then UpperFirst(name.value) else existing.name,
       job := if job.Some? then job.value else existing.job,
       relationships := existing.relationships + relationships,
       interests := existing.interests + interests),
     name.Some? || job.Some? || relationships != [] || interests != [])
  }

  /** The first-match loop over a pattern list, breaking at the first
      acceptable capture. */
  method FirstMatch(text: string, patterns: seq<Pattern>, rejected: seq<string>) returns (r: Option<string>)
    ensures r == FirstCapture(text, patterns, rejected)
  {
    ghost var rs := Results(text, patterns);
    for i := 0 to |patterns|
      invariant FirstAccepted(rs[i..], rejected) == FirstCapture(text, patterns, rejected)
    {
      assert rs[i..][1..] == rs[i + 1..];
      var m := Find(text, patterns[i]);
      if m.Some? && m.value !in rejected {
        return m;
      }
    }
    return None;
  }

  /** The loop over a pattern list that keeps every capture. */
  method AllMatches(text: string, patterns: seq<Pattern>) returns (captures: seq<string>)
    ensures captures == AllCaptures(text, patterns)
  {
    ghost var rs := Results(text, patterns);
    captures := [];
    for i := 0 to |patterns|
      invariant captures == Present(rs[..i])
    {
      assert rs[..i + 1][..i] == rs[..i];
      var m := Find(text, patterns[i]);
      if m.Some? {
        captures := captures + [m.value];
      }
    }
    assert rs[..|patterns|] == rs;
  }

  /** extractPersonalInformation: scans the recent text for a name, a job,
      relationship keywords and interests, and merges what it found. */
  method ExtractPersonalInformation(messages: seq<Message>, existing: PersonalContext)
    returns (info: PersonalContext, hasPersonalInfo: bool)
    ensures (info, hasPersonalInfo) == Extracted(messages, existing)
  {
    if messages == [] {
      return existing, false;
    }
    var text := RecentText(messages);
    var name := FirstMatch(text, NamePatterns, []);
    var job := FirstMatch(text, JobPatterns, NotJobs);
    var found := FoundKeywords(text, RelationshipKeywords);
    var interests := AllMatches(text, InterestPatterns);
    info, hasPersonalInfo := MergeFound(existing, name, job, found, interests);
  }

  /** The updates of extractPersonalInformation, each raising the flag. */
  method MergeFound(existing: PersonalContext, name: Option<string>, job: Option<string>,
                    found: seq<string>, interests: seq<string>)
    returns (info: PersonalContext, hasPersonalInfo: bool)
    ensures (info, hasPersonalInfo) == Merged(existing, name, job, found, interests)
  {
    info := existing;
    hasPersonalInfo := false;
    if name.Some? {
      info := info.(name := UpperFirst(name.value));
      hasPersonalInfo := true;
    }
    if job.Some? {
      info := info.(job := job.value);
      hasPersonalInfo := true;
    }
    if |found| > 0 {
      info := info.(relationships := info.relationships + found);
      hasPersonalInfo := true;
    }
    if interests != [] {
      info := info.(interests := info.interests + interests);
      hasPersonalInfo := true;
    }
    ghost var merged := Merged(existing, name, job, found, interests).0;
    assert info.name == merged.name && info.job == merged.job;
    assert info.relationships == merged.relationships && info.interests == merged.interests;
  }

  // ---------------------------------------------------------------- properties

  /** The flag is raised exactly when a name or a job was found or a list
      grew; without it the context comes back unchanged; a new job is never
      one of the excluded words. */
  lemma ExtractionShape(messages: seq<Message>, existing: PersonalContext)
    ensures var (info, has) := Extracted(messages, existing);
      (has <==> (messages != [] &&
         (FirstCapture(RecentText(messages), NamePatterns, []).Some?
          || FirstCapture(RecentText(messages), JobPatterns, NotJobs).Some?
          || |info.relationships| > |existing.relationships|
          || |info.interests| > |existing.interests|)))
      && (!has ==> info == existing)
      && (info.job != existing.job ==> info.job !in NotJobs)
  {
  }

  /** Nothing is removed and nothing is deduplicated: the lists only grow,
      so a second request over the same messages appends the same
      relationship words again. */
  lemma RepeatedExtractionDuplicates(messages: seq<Message>, existing: PersonalContext)
    requires messages != []
    ensures var once := Extracted(messages, existing).0;
      var twice := Extracted(messages, once).0;
      var found := FoundKeywords(RecentText(messages), RelationshipKeywords);
      twice.relationships == existing.relationships + found + found
  {
  }

  /** A pattern whose prefix holds a character that occurs nowhere in the
      text, in either case, matches nowhere. */
  lemma NoMatchWithoutPrefixChar(s: string, pat: Pattern, m: nat)
    requires m < |pat.prefix|
    requires forall c :: c in s ==> Lower(c) != pat.prefix[m]
    ensures Find(s, pat).None?
  {
    forall p | 0 <= p <= |s| ensures MatchAt(s, pat, p).None? {
      if p + |pat.prefix| <= |s| {
        var w := LowerStr(s[p..p + |pat.prefix|]);
        assert w[m] == Lower(s[p + m]) && s[p + m] in s;
      }
    }
    FindLeftmost(s, pat);
  }

  /** The name after extraction: the first name capture, capitalised, or
      the name already known. */
  lemma ExtractedName(messages: seq<Message>, existing: PersonalContext)
    requires messages != []
    ensures var name := FirstCapture(RecentText(messages), NamePatterns, []);
      Extracted(messages, existing).0.name == if name.Some? then UpperFirst(name.value) else existing.name
  {
  }

  /** When the first pattern fails and the second captures `w`, with
      nothing rejected, the first capture is `w`. */
  lemma SecondPatternFirst(text: string, patterns: seq<Pattern>, w: string)
    requires |patterns| >= 2
    requires Find(text, patterns[0]).None? && Find(text, patterns[1]) == Some(w)
    ensures FirstCapture(text, patterns, []) == Some(w)
  {
    var rs := Results(text, patterns);
    assert rs[0] == Find(text, patterns[0]) && rs[1] == Find(text, patterns[1]);
    assert !Accepted(rs[0], []);
    assert FirstAccepted(rs, []) == FirstAccepted(rs[1..], []);
    assert rs[1..][0] == rs[1];
    assert Accepted(rs[1], []);
  }

  /** A single lower-case message is the whole recent text. */
  lemma OnlyMessageText(messages: seq<Message>)
    requires |messages| == 1 && LowerStr(messages[0].content) == messages[0].content
    ensures RecentText(messages) == messages[0].content
  {
    assert LastN(messages, 5) == messages;
  }

  /** Text without upper-case letters is its own lower-case form. */
  lemma LowerCaseFixed(s: string)
    requires forall c :: c in s ==> !IsUpper(c)
    ensures LowerStr(s) == s
  {
    assert forall i :: 0 <= i < |s| ==> s[i] in s;
  }

  /** A run of n word characters from q, not followed by one, has length n. */
  lemma {:induction false} WordRunLength(s: string, q: nat, n: nat)
    requires q + n <= |s|
    requires forall i :: q <= i < q + n ==> IsWordChar(s[i])
    requires q + n == |s| || !IsWordChar(s[q + n])
    ensures WordLength(s, q) == n
    decreases n
  {
    if n > 0 {
      WordRunLength(s, q + 1, n - 1);
    }
  }

  /** A word right after a single-filler word-run pattern's prefix at the
      start of the text is what that pattern finds first. */
  lemma WordAfterPrefixIsFound(s: string, pat: Pattern, w: string, rest: string)
    requires pat.fillers == [""] && pat.capture == WordRun
    requires LowerStr(pat.prefix) == pat.prefix
    requires s == pat.prefix + w + rest
    requires w != [] && forall i :: 0 <= i < |w| ==> IsWordChar(w[i])
    requires rest == [] || !IsWordChar(rest[0])
    ensures Find(s, pat) == Some(w)
  {
    var q := |pat.prefix|;
    assert s[0..q] == pat.prefix;
    assert OccursAtIgnoringCase(s, 0, pat.prefix);
    assert OccursAtIgnoringCase(s, q, "");
    WordCaptured(pat.prefix, w, rest);
    assert MatchAt(s, pat, 0) == Some(w);
    assert MatchesAt(s, pat)[0] == Some(w);
  }

  /** The word run after a prefix is exactly the word that follows it. */
  lemma WordCaptured(prefix: string, w: string, rest: string)
    requires w != [] && forall i :: 0 <= i < |w| ==> IsWordChar(w[i])
    requires rest == [] || !IsWordChar(rest[0])
    ensures CaptureAt(prefix + w + rest, |prefix|, WordRun) == Some(w)
  {
    var s, q := prefix + w + rest, |prefix|;
    WordRunLength(s, q, |w|) by {
      forall i | q <= i < q + |w| ensures IsWordChar(s[i]) {
        assert s[i] == w[i - q];
      }
      if q + |w| < |s| {
        assert s[q + |w|] == rest[0];
      }
    }
    assert s[q..q + |w|] == w;
  }

  /** "i'm <word>" at the start of the only message, with no "my name is"
      anywhere, makes that word the name: "i'm feeling sad" gives the
      name "Feeling" (Capitalised), while the job patterns reject it. */
  lemma ImWordIsTakenForAName(role: string, message: string, w: string, rest: string, existing: PersonalContext)
    requires message == "i'm " + w + rest
    requires w != [] && forall i :: 0 <= i < |w| ==> IsWordChar(w[i])
    requires rest == [] || !IsWordChar(rest[0])
    requires forall c :: c in message ==> !IsUpper(c)
    requires Find(message, NamePatterns[0]).None?
    ensures Extracted([Message(role, message)], existing).0.name == UpperFirst(w)
  {
    ImWordIsFirstCapture(message, w, rest);
    LowerCaseFixed(message);
    OnlyMessageName([Message(role, message)], existing, w);
  }

  /** A single lower-case message whose first name capture is `w` names
      the user `w`, Capitalised. */
  lemma OnlyMessageName(messages: seq<Message>, existing: PersonalContext, w: string)
    requires |messages| == 1 && LowerStr(messages[0].content) == messages[0].content
    requires FirstCapture(messages[0].content, NamePatterns, []) == Some(w)
    ensures Extracted(messages, existing).0.name == UpperFirst(w)
  {
    OnlyMessageText(messages);
    ExtractedName(messages, existing);
  }

  /** Without a "my name is", the "i'm" name pattern's word is the first
      name capture. */
  lemma ImWordIsFirstCapture(message: string, w: string, rest: string)
    requires message == "i'm " + w + rest
    requires w != [] && forall i :: 0 <= i < |w| ==> IsWordChar(w[i])
    requires rest == [] || !IsWordChar(rest[0])
    requires Find(message, NamePatterns[0]).None?
    ensures FirstCapture(message, NamePatterns, []) == Some(w)
  {
    assert NamePatterns[1].prefix == "i'm ";
    assert LowerStr("i'm ") == "i'm ";
    WordAfterPrefixIsFound(message, NamePatterns[1], w, rest);
    SecondPatternFirst(message, NamePatterns, w);
  }

  lemma Capitalised()
    ensures UpperFirst("feeling") == "Feeling"
  {
    var w := "feeling";
    assert Upper(w[0]) == 'F';
    assert [Upper(w[0])] + w[1..] == "Feeling";
  }

  /** The letters of "i'm feeling sad": none upper-case, none a 'y'. */
  lemma FeelingTextLetters(text: string)
    requires text == "i'm feeling sad"
    ensures forall c :: c in text ==> !IsUpper(c) && Lower(c) != 'y'
  {
  }

  lemma NamePrefixHasY()
    ensures |NamePatterns[0].prefix| > 1 && NamePatterns[0].prefix[1] == 'y'
  {
  }

  lemma FeelingIsAWord(w: string)
    requires w == "feeling"
    ensures w != [] && forall i :: 0 <= i < |w| ==> IsWordChar(w[i])
  {
  }

  /** "i'm feeling sad" as the only message sets the name to "Feeling". */
  lemma FeelingIsTakenForAName(role: string)
    ensures Extracted([Message(role, "i'm feeling sad")], EmptyContext).0.name == "Feeling"
  {
    var text, w, rest := "i'm feeling sad", "feeling", " sad";
    assert text == "i'm " + w + rest;
    FeelingTextLetters(text);
    NamePrefixHasY();
    NoMatchWithoutPrefixChar(text, NamePatterns[0], 1);
    FeelingIsAWord(w);
    assert !IsWordChar(rest[0]);
    ImWordIsTakenForAName(role, text, w, rest, EmptyContext);
    Capitalised();
  }

  // ---------------------------------------------------------------------
  // A worked example: "my name is alex and i work as a teacher"
  // ---------------------------------------------------------------------

  /** When the m-th prefix character occurs in the text only at i0, the
      pattern can match only at i0 - m. */
  lemma MatchOnlyWhereCharIs(s: string, pat: Pattern, m: nat, i0: nat)
    requires m < |pat.prefix| && m <= i0 < |s|
    requires forall i :: 0 <= i < |s| && i != i0 ==> Lower(s[i]) != pat.prefix[m]
    ensures forall j :: 0 <= j <= |s| && j != i0 - m ==> MatchAt(s, pat, j).None?
  {
    forall j | 0 <= j <= |s| && j != i0 - m ensures MatchAt(s, pat, j).None? {
      if j + |pat.prefix| <= |s| {
        var w := LowerStr(s[j..j + |pat.prefix|]);
        assert w[m] == Lower(s[j + m]);
      }
    }
  }

  /** Under the same condition, a match at i0 - m is what Find returns. */
  lemma FoundWhereCharIs(s: string, pat: Pattern, m: nat, i0: nat, w: string)
    requires m < |pat.prefix| && m <= i0 < |s|
    requires forall i :: 0 <= i < |s| && i != i0 ==> Lower(s[i]) != pat.prefix[m]
    requires MatchAt(s, pat, i0 - m) == Some(w)
    ensures Find(s, pat) == Some(w)
  {
    MatchOnlyWhereCharIs(s, pat, m, i0);
    FindLeftmost(s, pat);
    var r := Find(s, pat);
    var j0: nat := i0 - m;
    assert MatchAt(s, pat, j0).Some?;
    if r.Some? {
      var k: nat :| k <= |s| && MatchAt(s, pat, k) == r
        && forall j :: 0 <= j < k ==> MatchAt(s, pat, j).None?;
      assert k == i0 - m;
    }
  }

  /** A literal written in lower case occurs, ignoring case, where it is
      spliced into a text. */
  lemma LiteralAt(a: string, lit: string, b: string)
    requires forall c :: c in lit ==> !IsUpper(c)
    ensures OccursAtIgnoringCase(a + lit + b, |a|, lit)
  {
    LowerCaseFixed(lit);
    assert (a + lit + b)[|a|..|a| + |lit|] == lit;
  }

  const ExampleMessage := "my name is alex and i work as a teacher"

  /** The example message cut where the patterns look at it. */
  lemma ExampleParts()
    ensures ExampleMessage == "my name is " + "alex" + " and " + "i work as " + "a " + "teacher"
  {
  }

  /** The name pattern "my name is" finds "alex" in the example. */
  lemma ExampleName()
    ensures FirstCapture(ExampleMessage, NamePatterns, []) == Some("alex")
  {
    ExampleNameFound();
    assert Results(ExampleMessage, NamePatterns)[0] == Some("alex");
  }

  lemma ExampleNameFound()
    ensures Find(ExampleMessage, NamePatterns[0]) == Some("alex")
  {
    var pre, w, rest := "my name is ", "alex", " and " + "i work as " + "a " + "teacher";
    ExampleParts();
    assert ExampleMessage == pre + w + rest;
    assert NamePatterns[0].prefix == pre;
    assert forall c :: c in pre ==> !IsUpper(c);
    LowerCaseFixed(pre);
    assert forall i :: 0 <= i < |w| ==> IsWordChar(w[i]);
    assert rest[0] == ' ';
    WordAfterPrefixIsFound(ExampleMessage, NamePatterns[0], w, rest);
  }

  /** The job pattern "i work as (?:a |an )?" finds "teacher" in the example. */
  lemma ExampleJob()
    ensures Find(ExampleMessage, JobPatterns[0]) == Some("teacher")
  {
    ExampleOnlyW();
    ExampleJobAt();
    FoundWhereCharIs(ExampleMessage, JobPatterns[0], 2, 22, "teacher");
  }

  /** The example has a single 'w', the third character of "i work as ". */
  lemma ExampleOnlyW()
    ensures 2 < |JobPatterns[0].prefix| && JobPatterns[0].prefix[2] == 'w' && |ExampleMessage| > 22
    ensures forall i :: 0 <= i < |ExampleMessage| && i != 22 ==> Lower(ExampleMessage[i]) != 'w'
  {
  }

  /** A pattern whose prefix and first filler are spliced into the text,
      followed by a word, matches there and captures that word. */
  lemma PrefixFillerWordMatch(a: string, prefix: string, filler: string, w: string, more: seq<string>)
    requires forall c :: c in prefix ==> !IsUpper(c)
    requires forall c :: c in filler ==> !IsUpper(c)
    requires w != [] && forall i :: 0 <= i < |w| ==> IsWordChar(w[i])
    ensures MatchAt(a + prefix + filler + w, Pattern(prefix, [filler] + more, WordRun), |a|) == Some(w)
  {
    var s := a + prefix + filler + w;
    var q := |a| + |prefix|;
    assert OccursAtIgnoringCase(s, |a|, prefix) by {
      assert s == a + prefix + (filler + w);
      LiteralAt(a, prefix, filler + w);
    }
    assert OccursAtIgnoringCase(s, q, filler) by {
      LiteralAt(a + prefix, filler, w);
    }
    assert CaptureAt(s, q + |filler|, WordRun) == Some(w) by {
      assert s == a + prefix + filler + w + "";
      WordCaptured(a + prefix + filler, w, "");
    }
    FirstFillerMatch(s, |a|, Pattern(prefix, [filler] + more, WordRun), w);
  }

  /** When the prefix occurs at p and the capture succeeds after the first
      filler, the match at p is that capture. */
  lemma FirstFillerMatch(s: string, p: nat, pat: Pattern, w: string)
    requires pat.fillers != []
    requires OccursAtIgnoringCase(s, p, pat.prefix)
    requires OccursAtIgnoringCase(s, p + |pat.prefix|, pat.fillers[0])
    requires CaptureAt(s, p + |pat.prefix| + |pat.fillers[0]|, pat.capture) == Some(w)
    ensures MatchAt(s, pat, p) == Some(w)
  {
    var q := p + |pat.prefix|;
    var f := pat.fillers[0];
    assert OccursAtIgnoringCase(s, q, f) && CaptureAt(s, q + |f|, pat.capture).Some?;
    assert TryFillers(s, q, pat.fillers, pat.capture) == CaptureAt(s, q + |f|, pat.capture);
  }

  /** At position 20 the job pattern matches, takes the filler "a " and
      captures "teacher". */
  lemma ExampleJobAt()
    ensures MatchAt(ExampleMessage, JobPatterns[0], 20) == Some("teacher")
  {
    var a, job, filler, w := "my name is alex and ", "i work as ", "a ", "teacher";
    ExampleParts();
    assert ExampleMessage == a + job + filler + w;
    assert JobPatterns[0] == Pattern(job, [filler] + ["an ", ""], WordRun);
    assert forall c :: c in job ==> !IsUpper(c);
    assert forall c :: c in filler ==> !IsUpper(c);
    assert forall i :: 0 <= i < |w| ==> IsWordChar(w[i]);
    PrefixFillerWordMatch(a, job, filler, w, ["an ", ""]);
  }

  /** The first accepted job capture of the example is "teacher". */
  lemma ExampleJobCapture()
    ensures FirstCapture(ExampleMessage, JobPatterns, NotJobs) == Some("teacher")
  {
    ExampleJob();
    var rs := Results(ExampleMessage, JobPatterns);
    assert rs[0] == Some("teacher");
    assert "teacher" !in NotJobs;
  }

  /** "my name is alex and i work as a teacher", as the only message, gives
      the name "Alex" and the job "teacher", and reports that personal
      information was found. */
  lemma ExampleExtraction(messages: seq<Message>, existing: PersonalContext)
    requires |messages| == 1 && messages[0].content == ExampleMessage
    ensures Extracted(messages, existing).0.name == "Alex"
    ensures Extracted(messages, existing).0.job == "teacher"
    ensures Extracted(messages, existing).1
  {
    ExampleIsLowerCase();
    OnlyMessageText(messages);
    ExampleName();
    ExampleJobCapture();
    ExtractedName(messages, existing);
    ExtractedJob(messages, existing);
    CapitalisedAlex();
  }

  lemma ExampleIsLowerCase()
    ensures LowerStr(ExampleMessage) == ExampleMessage
  {
    assert forall c :: c in ExampleMessage ==> !IsUpper(c);
    LowerCaseFixed(ExampleMessage);
  }

  lemma CapitalisedAlex()
    ensures UpperFirst("alex") == "Alex"
  {
    var w := "alex";
    assert [Upper(w[0])] + w[1..] == "Alex";
  }

  /** The job after extraction: the first accepted job capture, or the job
      already known; and the flag is set whenever a name or a job is found. */
  lemma ExtractedJob(messages: seq<Message>, existing: PersonalContext)
    requires messages != []
    ensures var text := RecentText(messages);
      var job := FirstCapture(text, JobPatterns, NotJobs);
      && Extracted(messages, existing).0.job == (if job.Some? then job.value else existing.job)
      && (job.Some? || FirstCapture(text, NamePatterns, []).Some? ==> Extracted(messages, existing).1)
  {
  }
}
