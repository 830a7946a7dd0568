/** Finding the JSON object in a language model's reply: thinking blocks are stripped wherever they are
    closed, in any letter case, and what lies between the first opening and the last closing brace is
    taken. */
module DecisionParser {
  import opened Results

  // ----- Searching ----------------------------------------------------------------------------

  /** ASCII case folding, as the `i` flag of a non-Unicode regular expression does it for letters. */
  function Lower(c: char): char {
    if 'A' <= c <= 'Z' then ((c as int) + 32) as char else c
  }

  /** A spelling of a lower-case pattern, in any case. */
  predicate Spells(text: string, pattern: string) {
    |text| == |pattern| && forall k | 0 <= k < |text| :: Lower(text[k]) == pattern[k]
  }

  predicate Matches(s: string, at: nat, pattern: string) {
    at + |pattern| <= |s| && Spells(s[at..at + |pattern|], pattern)
  }

  /** The first occurrence at or after a position. */
  function Find(s: string, from: nat, pattern: string): (r: Option<nat>)
    ensures r.Some? ==> from <= r.value && r.value + |pattern| <= |s|
    decreases |s| - from
  {
    if Matches(s, from, pattern) then Some(from)
    else if from >= |s| then None
    else Find(s, from + 1, pattern)
  }

  lemma {:induction false} FindMeaning(s: string, from: nat, pattern: string)
    ensures match Find(s, from, pattern)
            case Some(i) => Matches(s, i, pattern) && forall j | from <= j < i :: !Matches(s, j, pattern)
            case None => forall j: nat | from <= j :: !Matches(s, j, pattern)
    decreases |s| - from
  {
    if !Matches(s, from, pattern) && from < |s| { FindMeaning(s, from + 1, pattern); }
  }

  ghost predicate Contains(s: string, pattern: string) { exists j: nat :: Matches(s, j, pattern) }

  // ----- Stripping ----------------------------------------------------------------------------

  const THINK := "<think>"
  const END_THINK := "</think>"
  const THINKING := "<thinking>"
  const END_THINKING := "</thinking>"

  /** `replace(/open[\s\S]*?close/gi, '')`: each leftmost opening tag goes, with everything up to the
      next closing tag; an opening tag that is never closed stays, and ends the search. */
  function StripBlocks(s: string, open: string, close: string): (r: string)
    requires |open| > 0
    ensures |r| <= |s|
    decreases |s|
  {
    match Find(s, 0, open)
    case None => s
    case Some(o) =>
      match FindClosing(s, o, open, close)
      case None => s
      case Some(c) => s[..o] + StripBlocks(Behind(s, c, close), open, close)
  }

  function FindClosing(s: string, o: nat, open: string, close: string): (r: Option<nat>)
    ensures r.Some? ==> o + |open| <= r.value && r.value + |close| <= |s|
  {
    Find(s, o + |open|, close)
  }

  function Behind(s: string, at: nat, tag: string): string
    requires at + |tag| <= |s|
  {
    s[at + |tag|..]
  }

  /** White space as `trim` knows it. */
  predicate IsSpace(c: char) {
    c in {'\t', '\n', '\r', ' ', '\U{000B}', '\U{000C}', '\U{00A0}', '\U{FEFF}', '\U{1680}', '\U{2028}', '\U{2029}',
        '\U{202F}', '\U{205F}', '\U{3000}'}
    || '\U{2000}' <= c <= '\U{200A}'
  }

  function TrimStart(s: string): string { if s != "" && IsSpace(s[0]) then TrimStart(s[1..]) else s }

  function TrimEnd(s: string): string { if s != "" && IsSpace(s[|s| - 1]) then TrimEnd(s[..|s| - 1]) else s }

  function StripThinkingBlocks(raw: string): string {
    TrimEnd(TrimStart(StripBlocks(StripBlocks(raw, THINK, END_THINK), THINKING, END_THINKING)))
  }

  // ----- Extracting ---------------------------------------------------------------------------

  /** `indexOf`, with -1 for absence. */
  function IndexOf(s: string, c: char): (i: int)
    ensures -1 <= i < |s|
    ensures i >= 0 ==> s[i] == c && forall j | 0 <= j < i :: s[j] != c
    ensures i == -1 ==> c !in s
  {
    if s == "" then -1
    else if s[0] == c then 0
    else var i := IndexOf(s[1..], c);
         assert forall j | 0 < j < |s| :: s[j] == s[1..][j - 1];
         if i == -1 then -1 else i + 1
  }

  /** `lastIndexOf` */
  function LastIndexOf(s: string, c: char): (i: int)
    ensures -1 <= i < |s|
    ensures i >= 0 ==> s[i] == c && forall j | i < j < |s| :: s[j] != c
    ensures i == -1 ==> c !in s
  {
    if s == "" then -1
    else if s[|s| - 1] == c then |s| - 1
    else LastIndexOf(s[..|s| - 1], c)
  }

  function ExtractJsonObject(raw: string): Option<string> {
    var start, end := IndexOf(raw, '{'), LastIndexOf(raw, '}');
    if start == -1 || end == -1 || end < start then None else Some(raw[start..end + 1])
  }

  function CleanLlmOutput(raw: string): Option<string> { ExtractJsonObject(StripThinkingBlocks(raw)) }

  // ----- What extraction finds ------------------------------------------------------------------

  /** `s[i..j]` starts with an opening and ends with a closing brace. */
  predicate Braced(s: string, i: nat, j: nat) {
    i + 2 <= j <= |s| && s[i] == '{' && s[j - 1] == '}'
  }

  /** The extraction is the longest substring between braces, and absent exactly when there is none. */
  lemma ExtractsTheLongestObject(raw: string)
    ensures match ExtractJsonObject(raw)
            case None => forall i: nat, j: nat :: !Braced(raw, i, j)
            case Some(t) =>
              exists i: nat, j: nat :: Braced(raw, i, j) && t == raw[i..j]
                && forall i': nat, j': nat | Braced(raw, i', j') :: i <= i' && j' <= j
  {
    var start, end := IndexOf(raw, '{'), LastIndexOf(raw, '}');
    forall i: nat, j: nat | Braced(raw, i, j)
      ensures 0 <= start <= i && j - 1 <= end
    {
      assert raw[i] in raw && raw[j - 1] in raw;
    }
    if !(start == -1 || end == -1 || end < start) {
      assert start != end;
      assert Braced(raw, start, end + 1);
    }
  }

  /** Whatever else surrounds it, text without an opening brace before and without a closing brace
      after an object leaves the extraction the object. */
  lemma ExtractsTheObject(prefix: string, json: string, suffix: string)
    requires '{' !in prefix && '}' !in suffix
    requires Braced(json, 0, |json|)
    ensures ExtractJsonObject(prefix + json + suffix) == Some(json)
  {
    var raw := prefix + json + suffix;
    FirstAfter(prefix, json + suffix, '{');
    LastBefore(prefix + json, suffix, '}');
    assert prefix + (json + suffix) == raw;
    assert (json + suffix)[0] == '{' && (prefix + json)[|prefix + json| - 1] == '}';
    assert raw[|prefix|..|prefix| + |json|] == json;
  }

  lemma FirstAfter(before: string, s: string, c: char)
    requires c !in before
    ensures IndexOf(before + s, c) == if IndexOf(s, c) == -1 then -1 else |before| + IndexOf(s, c)
  {
    var raw, i := before + s, IndexOf(s, c);
    assert forall k | 0 <= k < |before| :: raw[k] == before[k] && before[k] in before;
    assert forall k | |before| <= k < |raw| :: raw[k] == s[k - |before|];
    if i >= 0 { assert raw[|before| + i] == c; }
  }

  lemma LastBefore(s: string, after: string, c: char)
    requires c !in after
    ensures LastIndexOf(s + after, c) == LastIndexOf(s, c)
  {
    var raw, i := s + after, LastIndexOf(s, c);
    assert forall k | |s| <= k < |raw| :: raw[k] == after[k - |s|] && after[k - |s|] in after;
    assert forall k | 0 <= k < |s| :: raw[k] == s[k];
    if i >= 0 { assert raw[i] == c; }
  }

  // ----- Trimming does not matter ----------------------------------------------------------------

  lemma {:induction false} TrimStartCuts(s: string)
    ensures exists spaces: string :: s == spaces + TrimStart(s) && forall c | c in spaces :: IsSpace(c)
  {
    if s != "" && IsSpace(s[0]) {
      TrimStartCuts(s[1..]);
      var spaces: string :| s[1..] == spaces + TrimStart(s[1..]) && forall c | c in spaces :: IsSpace(c);
      assert s == [s[0]] + spaces + TrimStart(s);
    } else {
      assert s == "" + TrimStart(s);
    }
  }

  lemma {:induction false} TrimEndCuts(s: string)
    ensures exists spaces: string :: s == TrimEnd(s) + spaces && forall c | c in spaces :: IsSpace(c)
  {
    if s != "" && IsSpace(s[|s| - 1]) {
      var init := s[..|s| - 1];
      TrimEndCuts(init);
      var spaces: string :| init == TrimEnd(init) + spaces && forall c | c in spaces :: IsSpace(c);
      assert s == init + [s[|s| - 1]];
      Associate(TrimEnd(init), spaces, [s[|s| - 1]]);
      assert s == TrimEnd(s) + (spaces + [s[|s| - 1]]);
    } else {
      assert s == TrimEnd(s) + "";
    }
  }

  lemma Associate(a: string, b: string, c: string)
    ensures a + b + c == a + (b + c)
  {
  }

  /** Braces are not white space, so trimming never changes what is extracted. */
  lemma TrimIsInvisible(s: string)
    ensures ExtractJsonObject(TrimEnd(TrimStart(s))) == ExtractJsonObject(s)
  {
    TrimStartCuts(s);
    TrimEndCuts(TrimStart(s));
    var before: string :| s == before + TrimStart(s) && forall c | c in before :: IsSpace(c);
    var after: string :| TrimStart(s) == TrimEnd(TrimStart(s)) + after && forall c | c in after :: IsSpace(c);
    assert !IsSpace('{') && !IsSpace('}');
    PrefixIsInvisible(before, TrimStart(s));
    SuffixIsInvisible(TrimEnd(TrimStart(s)), after);
  }

  lemma SliceBehind(a: string, b: string, i: nat, j: nat)
    requires i <= j <= |b|
    ensures (a + b)[|a| + i..|a| + j] == b[i..j]
  {
  }

  lemma SliceBefore(a: string, b: string, i: nat, j: nat)
    requires i <= j <= |a|
    ensures (a + b)[i..j] == a[i..j]
  {
  }

  lemma PrefixIsInvisible(before: string, s: string)
    requires '{' !in before && '}' !in before
    ensures ExtractJsonObject(before + s) == ExtractJsonObject(s)
  {
    var start, end := IndexOf(s, '{'), LastIndexOf(s, '}');
    FirstAfter(before, s, '{');
    LastAfter(before, s, '}');
    if 0 <= start <= end { SliceBehind(before, s, start, end + 1); }
  }

  lemma SuffixIsInvisible(s: string, after: string)
    requires '{' !in after && '}' !in after
    ensures ExtractJsonObject(s + after) == ExtractJsonObject(s)
  {
    var start, end := IndexOf(s, '{'), LastIndexOf(s, '}');
    FirstBefore(s, after, '{');
    LastBefore(s, after, '}');
    if 0 <= start <= end { SliceBefore(s, after, start, end + 1); }
  }

  lemma LastAfter(before: string, s: string, c: char)
    requires c !in before
    ensures LastIndexOf(before + s, c) == if LastIndexOf(s, c) == -1 then -1 else |before| + LastIndexOf(s, c)
  {
    var raw, i := before + s, LastIndexOf(s, c);
    assert forall k | 0 <= k < |before| :: raw[k] == before[k] && before[k] in before;
    assert forall k | |before| <= k < |raw| :: raw[k] == s[k - |before|];
    if i >= 0 { assert raw[|before| + i] == c; }
  }

  lemma FirstBefore(s: string, after: string, c: char)
    requires c !in after
    ensures IndexOf(s + after, c) == IndexOf(s, c)
  {
    var raw, i := s + after, IndexOf(s, c);
    assert forall k | |s| <= k < |raw| :: raw[k] == after[k - |s|] && after[k - |s|] in after;
    assert forall k | 0 <= k < |s| :: raw[k] == s[k];
    if i >= 0 { assert raw[i] == c; }
  }

  // ----- Where a tag can occur --------------------------------------------------------------------

  /** A tag opens with an angle bracket and has no other. */
  predicate IsTag(p: string) { |p| > 0 && p[0] == '<' && forall k | 0 < k < |p| :: p[k] != '<' }

  lemma TagOpens(text: string, tag: string, k: nat)
    requires Spells(text, tag) && IsTag(tag) && k < |tag|
    ensures text[k] == '<' <==> k == 0
  {
    assert Lower(text[k]) == tag[k];
  }

  /** No occurrence of a tag begins in `a` and ends beyond it, when what follows begins like a tag. */
  lemma NoStraddle(a: string, b: string, p: string, at: nat)
    requires IsTag(p) && |b| > 0 && b[0] == '<' && at < |a|
    ensures Matches(a + b, at, p) <==> Matches(a, at, p)
  {
    var s := a + b;
    if at + |p| <= |a| {
      assert s[at..at + |p|] == a[at..at + |p|];
    } else if Matches(s, at, p) {
      TagOpens(s[at..at + |p|], p, |a| - at);
    }
  }

  lemma MatchesBehind(a: string, b: string, p: string, at: nat)
    ensures Matches(a + b, |a| + at, p) <==> Matches(b, at, p)
  {
    if at + |p| <= |b| {
      assert (a + b)[|a| + at..|a| + at + |p|] == b[at..at + |p|];
    }
  }

  lemma NothingToStrip(s: string, open: string, close: string)
    requires |open| > 0 && !Contains(s, open)
    ensures StripBlocks(s, open, close) == s
  {
    FindMeaning(s, 0, open);
  }

  lemma FoundAt(s: string, from: nat, pattern: string, at: nat)
    requires from <= at && Matches(s, at, pattern) && forall j | from <= j < at :: !Matches(s, j, pattern)
    ensures Find(s, from, pattern) == Some(at)
  {
    FindMeaning(s, from, pattern);
  }

  /** The search for the closing tag passes over the inside of a block. */
  lemma FindsTheClosingTag(opening: string, inner: string, closing: string, rest: string, close: string)
    requires IsTag(close) && Spells(closing, close) && !Contains(inner, close)
    ensures Find(opening + inner + closing + rest, |opening|, close) == Some(|opening| + |inner|)
  {
    var s, end := opening + inner + closing + rest, |opening| + |inner|;
    TagOpens(closing, close, 0);
    Regroup(opening, inner, closing, rest);
    forall j: nat | |opening| <= j < end
      ensures !Matches(s, j, close)
    {
      NotYetClosed(opening, inner, closing + rest, close, j);
    }
    assert s[end..end + |close|] == closing;
    FoundAt(s, |opening|, close, end);
  }

  lemma CutOut(opening: string, inner: string, closing: string, rest: string)
    ensures (opening + inner + closing + rest)[|opening| + |inner| + |closing|..] == rest
  {
  }

  /** A leading closed block goes entirely, up to the first closing tag after its opening one; the search goes
      on behind it. */
  lemma LeadingBlockGoes(opening: string, inner: string, closing: string, rest: string, open: string, close: string)
    requires IsTag(open) && IsTag(close) && Spells(opening, open) && Spells(closing, close)
    requires !Contains(inner, close)
    ensures StripBlocks(opening + inner + closing + rest, open, close) == StripBlocks(rest, open, close)
  {
    var s := opening + inner + closing + rest;
    assert s[0..|open|] == opening;
    FoundAt(s, 0, open, 0);
    FindsTheClosingTag(opening, inner, closing, rest, close);
    CutOut(opening, inner, closing, rest);
  }

  /** Text, and a closed block behind it. */
  datatype Segment = Segment(before: string, opening: string, inner: string, closing: string)
  {
    function Text(): string { before + (opening + inner + closing) }

    ghost predicate Closed(open: string, close: string) {
      !Contains(before, open) && Spells(opening, open) && Spells(closing, close) && !Contains(inner, close)
    }
  }

  function Written(ss: seq<Segment>, rest: string): string {
    if ss == [] then rest else ss[0].Text() + Written(ss[1..], rest)
  }

  function Unblocked(ss: seq<Segment>, rest: string): string {
    if ss == [] then rest else ss[0].before + Unblocked(ss[1..], rest)
  }

  /** Every closed block goes, and the text between the blocks stays, in order; what follows the last of them
      stays if it opens no further block, or opens one that it does not close. */
  lemma {:induction false} EveryBlockGoes(ss: seq<Segment>, rest: string, open: string, close: string)
    requires IsTag(open) && IsTag(close) && forall s | s in ss :: s.Closed(open, close)
    requires forall o: nat, c: nat | Matches(rest, o, open) && o + |open| <= c :: !Matches(rest, c, close)
    ensures StripBlocks(Written(ss, rest), open, close) == Unblocked(ss, rest)
  {
    if ss == [] {
      NothingCloses(rest, open, close);
    } else {
      assert ss[0] in ss && forall s | s in ss[1..] :: s in ss;
      EveryBlockGoes(ss[1..], rest, open, close);
      SegmentGoes(ss[0], Written(ss[1..], rest), open, close);
    }
  }

  lemma {:induction false} NothingCloses(s: string, open: string, close: string)
    requires |open| > 0 && forall o: nat, c: nat | Matches(s, o, open) && o + |open| <= c :: !Matches(s, c, close)
    ensures StripBlocks(s, open, close) == s
  {
    if o :| Find(s, 0, open) == Some(o) { NeverClosed(s, o, open, close); }
  }

  lemma {:induction false} NeverClosed(s: string, o: nat, open: string, close: string)
    requires Find(s, 0, open) == Some(o)
    requires forall c: nat | Matches(s, o, open) && o + |open| <= c :: !Matches(s, c, close)
    ensures Find(s, o + |open|, close) == None
  {
    FindMeaning(s, 0, open);
    FindMeaning(s, o + |open|, close);
  }

  lemma {:induction false} SegmentGoes(s: Segment, rest: string, open: string, close: string)
    requires IsTag(open) && IsTag(close) && s.Closed(open, close)
    ensures StripBlocks(s.Text() + rest, open, close) == s.before + StripBlocks(rest, open, close)
  {
    SegmentOpens(s, rest, open, close);
    SegmentCloses(s, rest, open, close);
    SegmentParts(s, rest);
    Spelled(s.opening, open);
    Spelled(s.closing, close);
    BlockCut(s.Text() + rest, s.before, rest, |s.before| + |s.opening| + |s.inner|, open, close);
  }

  lemma {:induction false} SegmentOpens(s: Segment, rest: string, open: string, close: string)
    requires IsTag(open) && s.Closed(open, close)
    ensures Find(s.Text() + rest, 0, open) == Some(|s.before|)
  {
    Regroupings(s.before, s.opening, s.inner, s.closing, rest);
    OpensAt(s.before, s.opening, s.inner + s.closing + rest, open);
  }

  lemma {:induction false} SegmentCloses(s: Segment, rest: string, open: string, close: string)
    requires IsTag(close) && s.Closed(open, close)
    ensures var head := s.before + s.opening;
            Find(s.Text() + rest, |head|, close) == Some(|head| + |s.inner|)
  {
    Regroupings(s.before, s.opening, s.inner, s.closing, rest);
    FindsTheClosingTag(s.before + s.opening, s.inner, s.closing, rest, close);
  }

  lemma SegmentParts(s: Segment, rest: string)
    ensures (s.Text() + rest)[..|s.before|] == s.before
    ensures var end := |s.before| + |s.opening| + |s.inner| + |s.closing|;
            end <= |s.Text() + rest| && (s.Text() + rest)[end..] == rest
  {
  }

  lemma Spelled(text: string, pattern: string)
    requires Spells(text, pattern)
    ensures |text| == |pattern|
  {
  }

  /** The block found is cut out. */
  lemma {:induction false} BlockCut(s: string, before: string, rest: string, end: nat, open: string, close: string)
    requires |open| > 0 && Find(s, 0, open) == Some(|before|) && FindClosing(s, |before|, open, close) == Some(end)
    requires s[..|before|] == before && Behind(s, end, close) == rest
    ensures StripBlocks(s, open, close) == before + StripBlocks(rest, open, close)
  {
  }

  lemma {:induction false} Regroupings(a: string, b: string, c: string, d: string, e: string)
    ensures a + (b + c + d) + e == a + b + c + d + e == a + b + (c + d + e)
    ensures (a + (b + c + d) + e)[..|a|] == a
  {
  }

  lemma {:induction false} OpensAt(before: string, opening: string, tail: string, open: string)
    requires IsTag(open) && Spells(opening, open) && !Contains(before, open)
    ensures Find(before + opening + tail, 0, open) == Some(|before|)
  {
    var s := before + opening + tail;
    TagOpens(opening, open, 0);
    assert s == before + (opening + tail);
    forall j: nat | 0 <= j < |before| ensures !Matches(s, j, open) {
      NoStraddle(before, opening + tail, open, j);
    }
    assert s[|before|..|before| + |open|] == opening;
    FoundAt(s, 0, open, |before|);
  }

  lemma Regroup(a: string, b: string, c: string, d: string)
    ensures a + b + c + d == a + (b + (c + d))
  {
  }

  /** Where a tag does not occur inside, it does not occur from inside into what follows. */
  lemma NotYetClosed(before: string, inner: string, tail: string, p: string, j: nat)
    requires IsTag(p) && |tail| > 0 && tail[0] == '<'
    requires !Contains(inner, p) && |before| <= j < |before| + |inner|
    ensures !Matches(before + (inner + tail), j, p)
  {
    MatchesBehind(before, inner + tail, p, j - |before|);
    NoStraddle(inner, tail, p, j - |before|);
  }

  // ----- The pipeline on the replies it is meant for ---------------------------------------------

  /** What a reply may start with: nothing, or one closed thinking block of either kind. */
  datatype Block =
    | NoBlock
    | ThinkBlock(opening: string, inner: string, closing: string)
    | ThinkingBlock(opening: string, inner: string, closing: string)
  {
    function Text(): string { if NoBlock? then "" else opening + inner + closing }

    /** The block's tags are spelled in any case, its inside does not close it, and a `<thinking>`
        block holds no opening `<think>`. */
    ghost predicate Closed() {
      match this
      case NoBlock => true
      case ThinkBlock(_, _, _) => Spells(opening, THINK) && Spells(closing, END_THINK) && !Contains(inner, END_THINK)
      case ThinkingBlock(_, _, _) =>
        Spells(opening, THINKING) && Spells(closing, END_THINKING) && !Contains(inner, END_THINKING)
            && !Contains(inner, THINK)
    }
  }

  lemma NoThinkInOpening(opening: string, tail: string, j: nat)
    requires Spells(opening, THINKING) && j < |opening|
    ensures !Matches(opening + tail, j, THINK)
  {
    var s := opening + tail;
    assert s[j] == opening[j] && s[6] == opening[6] && Lower(opening[6]) == THINKING[6];
    TagOpens(opening, THINKING, j);
    AMatchIsTheTag(s, j);
  }

  lemma NoThinkInClosing(closing: string, tail: string, j: nat)
    requires Spells(closing, END_THINKING) && j < |closing|
    ensures !Matches(closing + tail, j, THINK)
  {
    var s := closing + tail;
    assert s[j] == closing[j] && s[1] == closing[1] && Lower(closing[1]) == END_THINKING[1];
    TagOpens(closing, END_THINKING, j);
    AMatchIsTheTag(s, j);
  }

  /** The shorter tag does not occur where a `<thinking>` block stands. */
  lemma NoThinkInThinking(opening: string, inner: string, closing: string, rest: string)
    requires ThinkingBlock(opening, inner, closing).Closed() && !Contains(rest, THINK)
    ensures !Contains(opening + inner + closing + rest, THINK)
  {
    var s, tail, n := opening + inner + closing + rest, closing + rest, |opening|;
    TagOpens(closing, END_THINKING, 0);
    Regroup(opening, inner, closing, rest);
    forall j: nat
      ensures !Matches(s, j, THINK)
    {
      if j < n {
        NoThinkInOpening(opening, inner + tail, j);
      } else if j < n + |inner| {
        NotYetClosed(opening, inner, tail, THINK, j);
      } else {
        var k := j - n - |inner|;
        MatchesBehind(opening, inner + tail, THINK, j - n);
        MatchesBehind(inner, tail, THINK, k);
        if k < |closing| {
          NoThinkInClosing(closing, rest, k);
        } else {
          MatchesBehind(closing, rest, THINK, k - |closing|);
        }
      }
    }
  }

  lemma AMatchIsTheTag(s: string, j: nat)
    ensures Matches(s, j, THINK) ==> j + 7 <= |s| && s[j] == '<' && Lower(s[j + 1]) == 't' && Lower(s[j + 6]) == '>'
  {
    if Matches(s, j, THINK) {
      var t := s[j..j + 7];
      assert Lower(t[0]) == THINK[0] && Lower(t[1]) == THINK[1] && Lower(t[6]) == THINK[6];
    }
  }

  /** Letters of either case spell a tag, and nothing else does. */
  lemma TagsInAnyCase(text: string)
    ensures Spells("<Think>", THINK) && Spells("</THINK>", END_THINK) && Spells("<thinKing>", THINKING)
    ensures Spells(text, THINK) ==> |text| == 7 && text[0] == '<' && text[1] in {'t', 'T'} && text[6] == '>'
  {
    if Spells(text, THINK) {
      assert Lower(text[0]) == THINK[0] && Lower(text[1]) == THINK[1] && Lower(text[6]) == THINK[6];
    }
  }

  lemma TheTagsAreTags()
    ensures IsTag(THINK) && IsTag(END_THINK) && IsTag(THINKING) && IsTag(END_THINKING)
  {
  }

  lemma ThinkBlockGoes(opening: string, inner: string, closing: string, rest: string)
    requires ThinkBlock(opening, inner, closing).Closed() && !Contains(rest, THINK)
    ensures StripBlocks(opening + inner + closing + rest, THINK, END_THINK) == rest
  {
    TheTagsAreTags();
    LeadingBlockGoes(opening, inner, closing, rest, THINK, END_THINK);
    NothingToStrip(rest, THINK, END_THINK);
  }

  lemma ThinkingBlockGoes(opening: string, inner: string, closing: string, rest: string)
    requires ThinkingBlock(opening, inner, closing).Closed() && !Contains(rest, THINKING)
    ensures StripBlocks(opening + inner + closing + rest, THINKING, END_THINKING) == rest
  {
    TheTagsAreTags();
    LeadingBlockGoes(opening, inner, closing, rest, THINKING, END_THINKING);
    NothingToStrip(rest, THINKING, END_THINKING);
  }

  lemma BlockGoes(b: Block, rest: string)
    requires b.Closed() && !Contains(rest, THINK) && !Contains(rest, THINKING)
    ensures StripBlocks(StripBlocks(b.Text() + rest, THINK, END_THINK), THINKING, END_THINKING) == rest
  {
    NothingToStrip(rest, THINKING, END_THINKING);
    match b
    case NoBlock =>
      assert "" + rest == rest;
      NothingToStrip(rest, THINK, END_THINK);
    case ThinkBlock(opening, inner, closing) =>
      ThinkBlockGoes(opening, inner, closing, rest);
    case ThinkingBlock(opening, inner, closing) =>
      NoThinkInThinking(opening, inner, closing, rest);
      NothingToStrip(b.Text() + rest, THINK, END_THINK);
      ThinkingBlockGoes(opening, inner, closing, rest);
  }

  /** From an optional closed thinking block, prose without an opening brace, an object, and prose
      without a closing brace, with no thinking tag opened after the block, the pipeline returns
      exactly the object. */
  lemma CleanReturnsTheObject(b: Block, prefix: string, json: string, suffix: string)
    requires b.Closed() && '{' !in prefix && '}' !in suffix && Braced(json, 0, |json|)
    requires !Contains(prefix + json + suffix, THINK) && !Contains(prefix + json + suffix, THINKING)
    ensures CleanLlmOutput(b.Text() + (prefix + json + suffix)) == Some(json)
  {
    var rest := prefix + json + suffix;
    BlockGoes(b, rest);
    TrimIsInvisible(rest);
    ExtractsTheObject(prefix, json, suffix);
  }
}
