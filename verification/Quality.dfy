/**
 The degraded-response detector. A string is a sequence of Unicode scalar values; which of them are
 whitespace or alphanumeric, and how a string is lower-cased, is left to a `Unicode` parameter of which
 only one fact is used: the space is whitespace.
 */
module Quality {
  import opened Prelude
  import opened Counting

  datatype Unicode = Unicode(isSpace: char -> bool, isAlnum: char -> bool, lower: string -> string)

  datatype DegradedReason = EmptyContent | RepetitiveLoop | TruncatedMidWord | KnownErrorPhrase

  /** Only the message contents of a response's choices matter to the detector. */
  datatype ChatResponse = ChatResponse(id: string, choices: seq<string>)

  const KNOWN_ERROR_PHRASES: seq<string> := ["i cannot", "as an ai", "i'm sorry, but i"]
  const REPETITION_WINDOW: nat := 3
  const REPETITION_THRESHOLD: nat := 5
  const TRUNCATION_MIN_LEN: nat := 100

  // ---------------------------------------------------------------- strings and words

  ghost predicate Blank(u: Unicode, s: string) {
    forall i :: 0 <= i < |s| ==> u.isSpace(s[i])
  }

  /** `trim().is_empty()`. */
  predicate TrimmedEmpty(u: Unicode, s: string)
    ensures TrimmedEmpty(u, s) <==> Blank(u, s)
  {
    s == "" || (u.isSpace(s[0]) && TrimmedEmpty(u, s[1..]))
  }

  /** Length of the run of non-space characters at the front of `s`. */
  function WordLen(u: Unicode, s: string): (n: nat)
    ensures n <= |s|
    ensures forall i :: 0 <= i < n ==> !u.isSpace(s[i])
    ensures n < |s| ==> u.isSpace(s[n])
  {
    if s == "" || u.isSpace(s[0]) then 0 else 1 + WordLen(u, s[1..])
  }

  /** `split_whitespace().collect()`. */
  function Words(u: Unicode, s: string): seq<string>
    decreases |s|
  {
    if s == "" then []
    else if u.isSpace(s[0]) then Words(u, s[1..])
    else [s[..WordLen(u, s)]] + Words(u, s[WordLen(u, s)..])
  }

  function Join(parts: seq<string>, separator: string): string {
    if parts == [] then ""
    else if |parts| == 1 then parts[0]
    else parts[0] + separator + Join(parts[1..], separator)
  }

  predicate OccursAt(s: string, part: string, i: nat) {
    i + |part| <= |s| && s[i..i + |part|] == part
  }

  predicate Contains(s: string, part: string) {
    exists i: nat | i <= |s| :: OccursAt(s, part, i)
  }

  /** `str::len`, which counts UTF-8 bytes and not characters. */
  function ByteLen(s: string): nat {
    if s == "" then 0
    else (if s[0] < 0x80 as char then 1 else if s[0] < 0x800 as char then 2
          else if s[0] < 0x10000 as char then 3 else 4) + ByteLen(s[1..])
  }

  ghost predicate IsWord(u: Unicode, w: string) {
    w != "" && forall i :: 0 <= i < |w| ==> !u.isSpace(w[i])
  }

  lemma {:induction false} WordsAreWords(u: Unicode, s: string)
    ensures forall w :: w in Words(u, s) ==> IsWord(u, w)
    decreases |s|
  {
    if s == "" {
    } else if u.isSpace(s[0]) {
      WordsAreWords(u, s[1..]);
    } else {
      WordsAreWords(u, s[WordLen(u, s)..]);
    }
  }

  lemma {:induction false} NoWordsIffBlank(u: Unicode, s: string)
    ensures Words(u, s) == [] <==> Blank(u, s)
    decreases |s|
  {
    if s != "" && u.isSpace(s[0]) {
      NoWordsIffBlank(u, s[1..]);
      assert s == [s[0]] + s[1..];
    }
  }

  /** The first word ends at the first space. */
  lemma {:induction false} WordLenIs(u: Unicode, s: string, n: nat)
    requires n < |s| && u.isSpace(s[n]) && forall i :: 0 <= i < n ==> !u.isSpace(s[i])
    ensures WordLen(u, s) == n
  {
    if n > 0 {
      WordLenIs(u, s[1..], n - 1);
    }
  }

  lemma WordLenSplit(u: Unicode, a: string, c: char, b: string)
    requires u.isSpace(c) && a != "" && !u.isSpace(a[0])
    ensures var n := WordLen(u, a); n > 0 && WordLen(u, a + [c] + b) == n
  {
    var n, s := WordLen(u, a), a + [c] + b;
    assert s[n] == if n < |a| then a[n] else c;
    assert forall i :: 0 <= i < n ==> s[i] == a[i];
    WordLenIs(u, s, n);
  }

  /** The first word of a string that starts with one, and the string after it. */
  lemma FirstWord(u: Unicode, a: string, c: char, b: string)
    requires u.isSpace(c) && a != "" && !u.isSpace(a[0])
    ensures var n := WordLen(u, a);
            && 0 < n <= |a|
            && Words(u, a) == [a[..n]] + Words(u, a[n..])
            && Words(u, a + [c] + b) == [a[..n]] + Words(u, a[n..] + [c] + b)
  {
    var n, s := WordLen(u, a), a + [c] + b;
    WordLenSplit(u, a, c, b);
    assert s[0] == a[0] && s[..n] == a[..n] && s[n..] == a[n..] + [c] + b;
  }

  /** A separating whitespace character splits the word list in two. */
  lemma {:induction false} WordsSplit(u: Unicode, a: string, c: char, b: string)
    requires u.isSpace(c)
    ensures Words(u, a + [c] + b) == Words(u, a) + Words(u, b)
    decreases |a|
  {
    if a == "" {
      assert (a + [c] + b)[1..] == b;
    } else if u.isSpace(a[0]) {
      assert (a + [c] + b)[1..] == a[1..] + [c] + b;
      WordsSplit(u, a[1..], c, b);
    } else {
      FirstWord(u, a, c, b);
      WordsSplit(u, a[WordLen(u, a)..], c, b);
    }
  }

  /** With `WordsSplit` this says what all words are: a string without whitespace is its own word, the empty one has none. */
  lemma WordsOfWord(u: Unicode, w: string)
    requires forall i :: 0 <= i < |w| ==> !u.isSpace(w[i])
    ensures Words(u, w) == if w == "" then [] else [w]
  {
    if w != "" {
      assert WordLen(u, w) == |w|;
      assert w[..|w|] == w && w[|w|..] == "";
    }
  }

  // ---------------------------------------------------------------- the aggregate

  /** All choice contents joined by single spaces. */
  function AggregateContent(response: ChatResponse): string {
    Join(response.choices, " ")
  }

  /** Where choice `k` starts if the choices stand one after the other with one character between them. */
  ghost function Offset(parts: seq<string>, k: nat): nat
    requires k <= |parts|
  {
    if k == 0 then 0 else |parts[0]| + 1 + Offset(parts[1..], k - 1)
  }

  lemma SliceOfRest(s: string, d: nat, m: nat, n: nat)
    requires d + m <= d + n <= |s|
    ensures s[d..][m..n] == s[d + m..d + n]
  {
  }

  lemma {:induction false} JoinAt(parts: seq<string>, k: nat)
    requires k < |parts|
    ensures var s, n := Join(parts, " "), Offset(parts, k);
            && n + |parts[k]| <= |s| && s[n..n + |parts[k]|] == parts[k]
            && (k > 0 ==> n > 0 && s[n - 1] == ' ')
            && (k == |parts| - 1 ==> |s| == n + |parts[k]|)
  {
    var s := Join(parts, " ");
    if |parts| == 1 {
      assert s[0..|s|] == s;
    } else if k == 0 {
      assert s[0..|parts[0]|] == parts[0];
    } else {
      var rest, d := parts[1..], |parts[0]| + 1;
      JoinAt(rest, k - 1);
      assert s[d..] == Join(rest, " ") && s[d - 1] == ' ';
      var m := Offset(rest, k - 1);
      SliceOfRest(s, d, m, m + |parts[k]|);
    }
  }

  /** Character by character: the choices in order, one space between neighbours, nothing before or after. */
  lemma AggregateExact(response: ChatResponse, k: nat)
    requires k < |response.choices|
    ensures var s, n, choice := AggregateContent(response), Offset(response.choices, k), response.choices[k];
            && n + |choice| <= |s| && s[n..n + |choice|] == choice
            && (k > 0 ==> n > 0 && s[n - 1] == ' ')
            && (k == |response.choices| - 1 ==> |s| == n + |choice|)
  {
    JoinAt(response.choices, k);
  }

  /** The UTF-8 lengths of the choices together. */
  ghost function BytesOf(parts: seq<string>): nat {
    if parts == [] then 0 else ByteLen(parts[0]) + BytesOf(parts[1..])
  }

  lemma {:induction false} ByteLenAppend(a: string, b: string)
    ensures ByteLen(a + b) == ByteLen(a) + ByteLen(b)
  {
    if a == "" {
      assert a + b == b;
    } else {
      ByteLenAppend(a[1..], b);
      assert (a + b)[1..] == a[1..] + b;
    }
  }

  /** With `ByteLenAppend` this says what the length is: the UTF-8 width of each character. */
  lemma ByteLenOfChar(c: char)
    ensures ByteLen([c]) == if c as int <= 0x7F then 1 else if c as int <= 0x7FF then 2 else if c as int <= 0xFFFF then 3 else 4
  {
    assert [c][1..] == "";
  }

  lemma {:induction false} BytesOfJoin(parts: seq<string>)
    requires parts != []
    ensures ByteLen(Join(parts, " ")) == BytesOf(parts) + |parts| - 1
  {
    if |parts| == 1 {
      assert parts[1..] == [];
    } else {
      BytesOfJoin(parts[1..]);
      ByteLenAppend(parts[0] + " ", Join(parts[1..], " "));
      ByteLenAppend(parts[0], " ");
      ByteLenOfChar(' ');
    }
  }

  ghost function AllWords(u: Unicode, parts: seq<string>): seq<string> {
    if parts == [] then [] else Words(u, parts[0]) + AllWords(u, parts[1..])
  }

  lemma {:induction false} WordsOfJoin(u: Unicode, parts: seq<string>)
    requires u.isSpace(' ')
    ensures Words(u, Join(parts, " ")) == AllWords(u, parts)
  {
    if |parts| == 1 {
      assert parts[1..] == [];
    } else if |parts| > 1 {
      WordsSplit(u, parts[0], ' ', Join(parts[1..], " "));
      WordsOfJoin(u, parts[1..]);
    }
  }

  /** The words of the aggregate are the words of the choices, one choice after the other. */
  lemma WordsOfAggregate(u: Unicode, response: ChatResponse)
    requires u.isSpace(' ')
    ensures Words(u, AggregateContent(response)) == AllWords(u, response.choices)
  {
    WordsOfJoin(u, response.choices);
  }

  lemma {:induction false} AllWordsEmpty(u: Unicode, parts: seq<string>)
    ensures AllWords(u, parts) == [] <==> forall i :: 0 <= i < |parts| ==> Blank(u, parts[i])
  {
    if parts != [] {
      NoWordsIffBlank(u, parts[0]);
      AllWordsEmpty(u, parts[1..]);
      assert forall i :: 1 <= i < |parts| ==> parts[i] == parts[1..][i - 1];
    }
  }

  // ---------------------------------------------------------------- repetition

  ghost function Windows(words: seq<string>): seq<seq<string>> {
    if |words| < REPETITION_WINDOW then []
    else seq(|words| - REPETITION_WINDOW + 1,
             i requires 0 <= i <= |words| - REPETITION_WINDOW => words[i..i + REPETITION_WINDOW])
  }

  ghost predicate SameThree(words: seq<string>, i: nat, k: nat) {
    i + 3 <= |words| && k + 3 <= |words| && words[i..i + 3] == words[k..k + 3]
  }

  /** The positions at which the same three words start as at `k`. */
  ghost function StartsLike(words: seq<string>, k: nat): set<nat> {
    set i: nat | i < |words| && SameThree(words, i, k)
  }

  /** Some three consecutive words start at five or more positions of the word list. */
  ghost predicate Repetitive(words: seq<string>) {
    exists k: nat :: k + 3 <= |words| && |StartsLike(words, k)| >= 5
  }

  /** The windows of the loop count the same thing. */
  lemma WindowsRepeat(words: seq<string>)
    ensures Repeats(Windows(words), REPETITION_THRESHOLD) <==> Repetitive(words)
  {
    var ws := Windows(words);
    forall k: nat | k + 3 <= |words| ensures Positions(ws, ws[k]) == StartsLike(words, k) {
      assert forall i: nat :: i < |ws| ==> (ws[i] == ws[k] <==> SameThree(words, i, k));
    }
    if Repetitive(words) {
      var k: nat :| k + 3 <= |words| && |StartsLike(words, k)| >= 5;
      assert |Positions(ws, ws[k])| >= 5;
    }
    if Repeats(ws, REPETITION_THRESHOLD) {
      var k :| 0 <= k < |ws| && |Positions(ws, ws[k])| >= 5;
      assert |StartsLike(words, k)| >= 5;
    }
  }

  lemma JoinThree(w: seq<string>)
    requires |w| == 3
    ensures Join(w, " ") == w[0] + " " + w[1] + " " + w[2]
  {
    var t := w[1..];
    assert t[1..] == [w[2]];
    assert Join(t, " ") == w[1] + " " + w[2];
    assert w[0] + " " + (w[1] + " " + w[2]) == w[0] + " " + w[1] + " " + w[2];
  }

  lemma FirstSpace(u: Unicode, a: string, x: string, b: string, y: string)
    requires u.isSpace(' ') && IsWord(u, a) && IsWord(u, b)
    requires a + " " + x == b + " " + y
    ensures a == b && x == y
  {
    var s, t := a + " " + x, b + " " + y;
    assert u.isSpace(s[|a|]) && forall i :: 0 <= i < |a| ==> !u.isSpace(s[i]);
    assert u.isSpace(t[|b|]) && forall i :: 0 <= i < |b| ==> !u.isSpace(t[i]);
    assert a == s[..|a|] && b == t[..|b|];
    assert x == s[|a| + 1..] && y == t[|b| + 1..];
  }

  lemma SpacesAssociate(a: string, b: string, c: string)
    ensures a + " " + b + " " + c == a + " " + (b + " " + c)
  {
  }

  /** The map key of the counting loop determines the three words: joining is injective on words. */
  lemma JoinInjective(u: Unicode, v: seq<string>, w: seq<string>)
    requires u.isSpace(' ') && |v| == |w| == 3
    requires forall i :: 0 <= i < 3 ==> IsWord(u, v[i]) && IsWord(u, w[i])
    requires Join(v, " ") == Join(w, " ")
    ensures v == w
  {
    var a, b, c := v[0], v[1], v[2];
    var x, y, z := w[0], w[1], w[2];
    assert a + " " + (b + " " + c) == x + " " + (y + " " + z) by {
      JoinThree(v);
      JoinThree(w);
      SpacesAssociate(a, b, c);
      SpacesAssociate(x, y, z);
    }
    FirstSpace(u, a, b + " " + c, x, y + " " + z);
    FirstSpace(u, b, c, y, z);
    assert v == [a, b, c] && w == [x, y, z];
  }

  /** What the map of counts holds after the first `n` windows. */
  ghost predicate Counted(ws: seq<seq<string>>, n: nat, counts: map<string, nat>)
    requires n <= |ws|
  {
    && (forall key :: key in counts ==> exists j :: 0 <= j < n && key == Join(ws[j], " "))
    && (forall j :: 0 <= j < n ==> Join(ws[j], " ") in counts
                                   && counts[Join(ws[j], " ")] == |Positions(ws[..n], ws[j])| < REPETITION_THRESHOLD)
  }

  ghost predicate AllTriples(u: Unicode, ws: seq<seq<string>>) {
    forall i :: 0 <= i < |ws| ==> IsTriple(u, ws[i])
  }

  ghost predicate IsTriple(u: Unicode, w: seq<string>) {
    |w| == 3 && IsWord(u, w[0]) && IsWord(u, w[1]) && IsWord(u, w[2])
  }

  lemma WindowsAreTriples(u: Unicode, words: seq<string>)
    requires forall w :: w in words ==> IsWord(u, w)
    ensures AllTriples(u, Windows(words))
  {
  }

  /** What the map held for the key of window `n` is the count of that window so far. */
  lemma KeyCount(u: Unicode, ws: seq<seq<string>>, n: nat, counts: map<string, nat>)
    requires u.isSpace(' ') && n < |ws| && AllTriples(u, ws) && Counted(ws, n, counts)
    ensures var key := Join(ws[n], " ");
            (if key in counts then counts[key] else 0) == |Positions(ws[..n], ws[n])|
  {
    var key := Join(ws[n], " ");
    if key in counts {
      var j :| 0 <= j < n && key == Join(ws[j], " ");
      JoinInjective(u, ws[j], ws[n]);
    } else {
      assert Positions(ws[..n], ws[n]) == {};
    }
  }

  lemma CountStep(u: Unicode, ws: seq<seq<string>>, n: nat, counts: map<string, nat>, count: nat)
    requires u.isSpace(' ') && n < |ws| && AllTriples(u, ws) && Counted(ws, n, counts)
    requires var key := Join(ws[n], " "); count == (if key in counts then counts[key] else 0) + 1
    ensures count == |Positions(ws[..n + 1], ws[n])|
    ensures count < REPETITION_THRESHOLD ==> Counted(ws, n + 1, counts[Join(ws[n], " ") := count])
  {
    var key := Join(ws[n], " ");
    KeyCount(u, ws, n, counts);
    PositionsStep(ws, n, ws[n]);
    if count < REPETITION_THRESHOLD {
      var after := counts[key := count];
      forall j | 0 <= j < n + 1
        ensures Join(ws[j], " ") in after
                && after[Join(ws[j], " ")] == |Positions(ws[..n + 1], ws[j])| < REPETITION_THRESHOLD
      {
        PositionsStep(ws, n, ws[j]);
        if Join(ws[j], " ") == key {
          JoinInjective(u, ws[j], ws[n]);
        }
      }
      forall k | k in after ensures exists j :: 0 <= j < n + 1 && k == Join(ws[j], " ") {
        if k != key {
          var j :| 0 <= j < n && k == Join(ws[j], " ");
        }
      }
    }
  }

  lemma LoopVerdicts(ws: seq<seq<string>>, n: nat, counts: map<string, nat>)
    requires n <= |ws|
    ensures n == |ws| && Counted(ws, n, counts) ==> !Repeats(ws, REPETITION_THRESHOLD)
    ensures 0 < n && |Positions(ws[..n], ws[n - 1])| >= REPETITION_THRESHOLD ==> Repeats(ws, REPETITION_THRESHOLD)
  {
    if n == |ws| {
      assert ws[..n] == ws;
    }
    if 0 < n {
      PositionsPrefix(ws, n, ws[n - 1]);
    }
  }

  /** Exact for every content: true iff some triple of words starts at five or more positions. */
  method HasRepetitiveLoop(u: Unicode, content: string) returns (r: bool)
    requires u.isSpace(' ')
    ensures r <==> Repetitive(Words(u, content))
  {
    var words := Words(u, content);
    WindowsRepeat(words);
    if |words| < REPETITION_WINDOW {
      return false;
    }
    ghost var ws := Windows(words);
    WordsAreWords(u, content);
    WindowsAreTriples(u, words);
    var counts: map<string, nat> := map[];
    for i := 0 to |words| - REPETITION_WINDOW + 1
      invariant Counted(ws, i, counts)
    {
      var key := Join(words[i..i + REPETITION_WINDOW], " ");
      var count := (if key in counts then counts[key] else 0) + 1;
      assert ws[i] == words[i..i + REPETITION_WINDOW];
      CountStep(u, ws, i, counts, count);
      counts := counts[key := count];
      if count >= REPETITION_THRESHOLD {
        LoopVerdicts(ws, i + 1, counts);
        return true;
      }
    }
    LoopVerdicts(ws, |ws|, counts);
    return false;
  }

  // ---------------------------------------------------------------- the verdict

  ghost predicate HasKnownPhrase(u: Unicode, content: string) {
    exists i :: 0 <= i < |KNOWN_ERROR_PHRASES| && Contains(u.lower(content), KNOWN_ERROR_PHRASES[i])
  }

  ghost predicate Truncated(u: Unicode, content: string) {
    ByteLen(content) > TRUNCATION_MIN_LEN && content != "" && u.isAlnum(content[|content| - 1])
  }

  /** The ordered rules, the first that applies giving the reason. */
  ghost function Verdict(u: Unicode, response: ChatResponse): Option<DegradedReason> {
    var content := AggregateContent(response);
    if Blank(u, content) then Some(EmptyContent)
    else if HasKnownPhrase(u, content) then Some(KnownErrorPhrase)
    else if Repetitive(Words(u, content)) then Some(RepetitiveLoop)
    else if Truncated(u, content) then Some(TruncatedMidWord)
    else None
  }

  method IsDegraded(u: Unicode, response: ChatResponse) returns (reason: Option<DegradedReason>)
    requires u.isSpace(' ')
    ensures reason == Verdict(u, response)
  {
    var content := AggregateContent(response);
    if TrimmedEmpty(u, content) {
      return Some(EmptyContent);
    }
    var lower := u.lower(content);
    for i := 0 to |KNOWN_ERROR_PHRASES|
      invariant forall j :: 0 <= j < i ==> !Contains(lower, KNOWN_ERROR_PHRASES[j])
    {
      if Contains(lower, KNOWN_ERROR_PHRASES[i]) {
        return Some(KnownErrorPhrase);
      }
    }
    var looping := HasRepetitiveLoop(u, content);
    if looping {
      return Some(RepetitiveLoop);
    }
    if ByteLen(content) > TRUNCATION_MIN_LEN {
      if content != "" && u.isAlnum(content[|content| - 1]) {
        return Some(TruncatedMidWord);
      }
    }
    return None;
  }

  /** Empty is reported iff every choice is blank; in particular for a response with no choices. */
  lemma EmptyIffAllBlank(u: Unicode, response: ChatResponse)
    requires u.isSpace(' ')
    ensures Verdict(u, response) == Some(EmptyContent)
            <==> forall i :: 0 <= i < |response.choices| ==> Blank(u, response.choices[i])
  {
    NoWordsIffBlank(u, AggregateContent(response));
    WordsOfAggregate(u, response);
    AllWordsEmpty(u, response.choices);
  }

  ghost predicate AllBlank(u: Unicode, response: ChatResponse) {
    forall i :: 0 <= i < |response.choices| ==> Blank(u, response.choices[i])
  }

  /** One of the three known phrases stands at position `i`. */
  ghost predicate PhraseAt(s: string, i: nat) {
    i <= |s| && ("i cannot" <= s[i..] || "as an ai" <= s[i..] || "i'm sorry, but i" <= s[i..])
  }

  ghost predicate Refuses(u: Unicode, response: ChatResponse) {
    exists i: nat :: PhraseAt(u.lower(AggregateContent(response)), i)
  }

  /** More than 100 bytes, counting the spaces between choices, and a last character that is alphanumeric. */
  ghost predicate CutOff(u: Unicode, response: ChatResponse) {
    && response.choices != [] && BytesOf(response.choices) + |response.choices| - 1 > 100
    && (var last := response.choices[|response.choices| - 1];
        u.isAlnum(if last == "" then ' ' else last[|last| - 1]))
  }

  lemma RefusesIff(u: Unicode, response: ChatResponse)
    ensures HasKnownPhrase(u, AggregateContent(response)) <==> Refuses(u, response)
  {
    var s := u.lower(AggregateContent(response));
    assert KNOWN_ERROR_PHRASES[0] == "i cannot" && KNOWN_ERROR_PHRASES[1] == "as an ai"
           && KNOWN_ERROR_PHRASES[2] == "i'm sorry, but i";
    forall part: string, i: nat ensures OccursAt(s, part, i) <==> i <= |s| && part <= s[i..] {
      if i + |part| <= |s| {
        assert s[i..][..|part|] == s[i..i + |part|];
      }
    }
    if i: nat :| PhraseAt(s, i) {
      assert OccursAt(s, "i cannot", i) || OccursAt(s, "as an ai", i) || OccursAt(s, "i'm sorry, but i", i);
    }
    if j :| 0 <= j < |KNOWN_ERROR_PHRASES| && Contains(s, KNOWN_ERROR_PHRASES[j]) {
      var i: nat :| i <= |s| && OccursAt(s, KNOWN_ERROR_PHRASES[j], i);
      assert PhraseAt(s, i);
    }
  }

  lemma CutOffIff(u: Unicode, response: ChatResponse)
    ensures Truncated(u, AggregateContent(response)) <==> CutOff(u, response)
  {
    var parts := response.choices;
    if parts != [] {
      BytesOfJoin(parts);
      JoinAt(parts, |parts| - 1);
      var s, n, last := Join(parts, " "), Offset(parts, |parts| - 1), parts[|parts| - 1];
      if last != "" {
        assert s[|s| - 1] == s[n..n + |last|][|last| - 1];
      } else if |parts| == 1 {
        assert BytesOf(parts) == 0;
      }
    }
  }

  /** Each verdict is given exactly if its rule applies to the choices and none before it does. */
  lemma VerdictIff(u: Unicode, response: ChatResponse)
    requires u.isSpace(' ')
    ensures var v := Verdict(u, response);
            var blank, refuses := AllBlank(u, response), Refuses(u, response);
            var repetitive, cutOff := Repetitive(AllWords(u, response.choices)), CutOff(u, response);
            && (v == Some(EmptyContent) <==> blank)
            && (v == Some(KnownErrorPhrase) <==> !blank && refuses)
            && (v == Some(RepetitiveLoop) <==> !blank && !refuses && repetitive)
            && (v == Some(TruncatedMidWord) <==> !blank && !refuses && !repetitive && cutOff)
            && (v == None <==> !blank && !refuses && !repetitive && !cutOff)
  {
    EmptyIffAllBlank(u, response);
    WordsOfAggregate(u, response);
    RefusesIff(u, response);
    CutOffIff(u, response);
  }

  /** Spacing and choice boundaries do not matter: equal word lists get equal emptiness and repetition tests. */
  lemma VerdictDependsOnWords(u: Unicode, a: ChatResponse, b: ChatResponse)
    requires u.isSpace(' ')
    requires AllWords(u, a.choices) == AllWords(u, b.choices)
    ensures Blank(u, AggregateContent(a)) <==> Blank(u, AggregateContent(b))
    ensures Repetitive(Words(u, AggregateContent(a))) <==> Repetitive(Words(u, AggregateContent(b)))
    ensures Verdict(u, a) == Some(EmptyContent) <==> Verdict(u, b) == Some(EmptyContent)
  {
    WordsOfAggregate(u, a);
    WordsOfAggregate(u, b);
    NoWordsIffBlank(u, AggregateContent(a));
    NoWordsIffBlank(u, AggregateContent(b));
  }
}
