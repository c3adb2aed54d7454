/**
 * The text protocol of the interactive search stage: the answer is cut into
 * blocks at every `|||`, blocks whose trimmed length is 10 or less are
 * dropped, and every other block becomes one job whose fields are read with
 * the first match of `Title:\s*(.+)`, `Company:\s*(.+)`, `Score:\s*(\d+)`
 * and `Reason:\s*(.+)`, each falling back to its own default. The
 * application link is a synthesized search link unless the first grounding
 * source whose title mentions the company carries a URI.
 */
module JobParser {
  import opened Wrappers
  import opened Text
  import opened Seqs
  import opened Types

  const Separator := "|||"
  const TitleKey := "Title:"
  const CompanyKey := "Company:"
  const ScoreKey := "Score:"
  const ReasonKey := "Reason:"
  const DefaultTitle := "Opportunity"
  const DefaultCompany := "Unknown Company"
  const DefaultScore: nat := 75
  const DefaultReason := "Skills alignment detected."

  // ------------------------------------------------------------ the regex subset

  /**
   * The capture group of `\s*(.+)` matched at the very start of `rest`.
   * `\s*` is greedy: when it would swallow all of `rest`, it gives
   * characters back until `.+` can start on one that is not a line
   * terminator; when there is none the match fails here.
   */
  function LineAt(rest: string): (r: Option<string>)
    ensures r.Some? ==> r.value != [] && forall k :: 0 <= k < |r.value| ==> !IsLineTerminator(r.value[k])
  {
    var j := LeadingSpaces(rest);
    if j < |rest| then Some(rest[j..j + LineLength(rest[j..])])
    else
      match LastNonTerminator(rest)
      case Some(q) => Some(rest[q..q + LineLength(rest[q..])])
      case None => None
  }

  /** The capture group of `\s*(\d+)` matched at the very start of `rest`. */
  function DigitsAtStart(rest: string): (r: Option<string>)
    ensures r.Some? ==> r.value != [] && forall k :: 0 <= k < |r.value| ==> IsDigit(r.value[k])
  {
    var j := LeadingSpaces(rest);
    if j < |rest| && IsDigit(rest[j]) then Some(rest[j..j + DigitRun(rest[j..])]) else None
  }

  /**
   * The capture group of `key\s*(.+)` at its leftmost match starting at or
   * after `from`: every occurrence of `key` is tried in turn.
   */
  function LineCapture(s: string, key: string, from: nat): (r: Option<string>)
    requires |key| > 0
    ensures r.Some? ==> r.value != [] && forall k :: 0 <= k < |r.value| ==> !IsLineTerminator(r.value[k])
    decreases |s| - from
  {
    match FindFrom(s, key, from)
    case None => None
    case Some(p) =>
      match LineAt(s[p + |key|..])
      case Some(c) => Some(c)
      case None => LineCapture(s, key, p + 1)
  }

  /** The capture group of `key\s*(\d+)` at its leftmost match starting at or after `from`. */
  function DigitsCapture(s: string, key: string, from: nat): (r: Option<string>)
    requires |key| > 0
    ensures r.Some? ==> r.value != [] && forall k :: 0 <= k < |r.value| ==> IsDigit(r.value[k])
    decreases |s| - from
  {
    match FindFrom(s, key, from)
    case None => None
    case Some(p) =>
      match DigitsAtStart(s[p + |key|..])
      case Some(ds) => Some(ds)
      case None => DigitsCapture(s, key, p + 1)
  }

  /** `block.match(/key\s*(.+)/)?.[1]?.trim() || default`. */
  function FieldOr(block: string, key: string, default: string): string
    requires |key| > 0
  {
    match LineCapture(block, key, 0)
    case Some(c) => if Trim(c) != "" then Trim(c) else default
    case None => default
  }

  /** `parseInt(block.match(/Score:\s*(\d+)/)?.[1] || "75")`. */
  function ScoreOf(block: string): nat {
    match DigitsCapture(block, ScoreKey, 0)
    case Some(ds) => ParseDigits(ds)
    case None => DefaultScore
  }

  // ------------------------------------------------------------ application link

  /** A grounding source: `chunk.web?.title` and `chunk.web?.uri`. */
  datatype Chunk = Chunk(title: Option<string>, uri: Option<string>)

  /** The test handed to `groundingChunks.find`. */
  predicate ChunkMentions(chunk: Chunk, companyName: string) {
    |companyName| > 2 && Contains(ToLower(chunk.title.GetOr("")), companyName)
  }

  /** The index `find` stops at, searching from `from`. */
  function FirstMention(chunks: seq<Chunk>, companyName: string, from: nat): (r: Option<nat>)
    ensures r.Some? ==> from <= r.value < |chunks| && ChunkMentions(chunks[r.value], companyName)
    ensures r.Some? ==> forall k :: from <= k < r.value ==> !ChunkMentions(chunks[k], companyName)
    ensures r.None? ==> forall k :: from <= k < |chunks| ==> !ChunkMentions(chunks[k], companyName)
    decreases |chunks| - from
  {
    if from >= |chunks| then None
    else if ChunkMentions(chunks[from], companyName) then Some(from)
    else FirstMention(chunks, companyName, from + 1)
  }

  /** A URI counts only when it is present and not empty (`relevantChunk?.web?.uri`). */
  predicate HasUri(chunk: Chunk) {
    chunk.uri.Some? && chunk.uri.value != ""
  }

  /** The default link: a web search for title, company and country. */
  function SearchUrl(title: string, company: string, country: string, enc: string -> string): string {
    "https://www.google.com/search?q=" + enc(title + " " + company + " job apply " + country)
  }

  /**
   * The application link of a parsed job. Only the first source whose
   * lower-cased title contains the lower-cased company name is looked at;
   * a later source is never used, even when the first one has no URI.
   */
  function ApplicationUrl(title: string, company: string, country: string, chunks: seq<Chunk>,
                          enc: string -> string): (r: string)
    ensures |company| <= 2 ==> r == SearchUrl(title, company, country, enc)
    ensures forall k :: 0 <= k < |chunks| && ChunkMentions(chunks[k], ToLower(company))
                        && (forall m :: 0 <= m < k ==> !ChunkMentions(chunks[m], ToLower(company)))
                        ==> r == if HasUri(chunks[k]) then chunks[k].uri.value
                                 else SearchUrl(title, company, country, enc)
    ensures (forall k :: 0 <= k < |chunks| ==> !ChunkMentions(chunks[k], ToLower(company)))
            ==> r == SearchUrl(title, company, country, enc)
  {
    var fallback := SearchUrl(title, company, country, enc);
    match FirstMention(chunks, ToLower(company), 0)
    case Some(k) => if HasUri(chunks[k]) then chunks[k].uri.value else fallback
    case None => fallback
  }

  // ------------------------------------------------------------ blocks to jobs

  /** `job-${index}-${Date.now()}`. */
  function JobId(index: nat, stamp: nat): string {
    "job-" + NatToString(index) + "-" + NatToString(stamp)
  }

  /** The job built from one kept block. */
  function BlockToJob(block: string, index: nat, stamp: nat, chunks: seq<Chunk>, country: string,
                      enc: string -> string): JobOpportunity
  {
    var title := FieldOr(block, TitleKey, DefaultTitle);
    var company := FieldOr(block, CompanyKey, DefaultCompany);
    JobOpportunity(
      JobId(index, stamp), title, company, ScoreOf(block),
      FieldOr(block, ReasonKey, DefaultReason),
      ApplicationUrl(title, company, country, chunks, enc), false)
  }

  /** The `filter(block => block.trim().length > 10)` test. */
  predicate KeepBlock(block: string) {
    |Trim(block)| > 10
  }

  function KeptBlocks(text: string): seq<string> {
    Filter(Split(text, Separator), KeepBlock)
  }

  /**
   * The jobs parsed from a search answer; `clock(i)` is the value `Date.now()`
   * returns while job `i` is built.
   */
  function ParseJobs(text: string, chunks: seq<Chunk>, country: string, clock: nat -> nat,
                     enc: string -> string): (jobs: seq<JobOpportunity>)
    ensures |jobs| == |KeptBlocks(text)|
    ensures forall i :: 0 <= i < |jobs| ==>
              jobs[i] == BlockToJob(KeptBlocks(text)[i], i, clock(i), chunks, country, enc)
  {
    var blocks := KeptBlocks(text);
    seq(|blocks|, i requires 0 <= i < |blocks| => BlockToJob(blocks[i], i, clock(i), chunks, country, enc))
  }

  // ------------------------------------------------------------ the requested format

  /** One job in the format the search prompt asks the model to use. */
  datatype Listing = Listing(title: string, company: string, score: nat, reason: string)

  function RenderBlock(l: Listing): string {
    TitleKey + " " + l.title + "\n" + CompanyKey + " " + l.company + "\n"
    + ScoreKey + " " + NatToString(l.score) + "\n" + ReasonKey + " " + l.reason
  }

  /** A whole answer: the blocks of the listings separated by `|||`. */
  function RenderListings(ls: seq<Listing>): string {
    Join(seq(|ls|, i requires 0 <= i < |ls| => RenderBlock(ls[i])), Separator)
  }

  /** The fields of a parsed job, in the shape of a listing. */
  function Summary(job: JobOpportunity): Listing {
    Listing(job.title, job.company, job.matchScore, job.reasoning)
  }
}

/** What is proved about the block parser. */
module JobParserFacts {
  import opened Wrappers
  import opened Text
  import opened Seqs
  import opened Types
  import opened JobParser

  // ------------------------------------------------------------ filtering and ids

  /**
   * A block survives exactly when it is one of the `|||`-separated pieces of
   * the answer and its trimmed length exceeds 10; so a block of exactly ten
   * significant characters is dropped.
   */
  lemma KeptBlocksExactly(text: string, b: string)
    ensures b in KeptBlocks(text) <==> b in Split(text, Separator) && |Trim(b)| > 10
  {
    FilterMembership(Split(text, Separator), KeepBlock, b);
  }

  lemma DashAfterDigits(a: string, b: string)
    requires forall k :: 0 <= k < |a| ==> IsDigit(a[k])
    ensures Find(a + "-" + b, "-") == Some(|a|)
  {
    var s := a + "-" + b;
    assert s[|a|..|a| + 1] == "-";
    forall m | 0 <= m < |a| ensures !Occurs(s, "-", m) {
      assert s[m..m + 1] == [a[m]];
    }
    FindAt(s, "-", 0, |a|);
  }

  /** The index can be read back from an id: it is the digits before the second dash. */
  lemma JobIdIndex(i: nat, stamp: nat)
    ensures var x := JobId(i, stamp); var d := NatToString(i);
            |x| >= 4 + |d| && Find(x[4..], "-") == Some(|d|) && x[4..4 + |d|] == d
  {
    var d := NatToString(i);
    var x := JobId(i, stamp);
    assert x[4..] == d + "-" + NatToString(stamp);
    DashAfterDigits(d, NatToString(stamp));
  }

  /** Jobs with different indices get different ids, whatever the clock says. */
  lemma JobIdsDistinct(i: nat, s: nat, k: nat, t: nat)
    requires i != k
    ensures JobId(i, s) != JobId(k, t)
  {
    JobIdIndex(i, s);
    JobIdIndex(k, t);
    NatToStringInjective(i, k);
  }

  /** Every parsed job is marked as real, and the ids of one batch are pairwise distinct. */
  lemma ParsedJobsReal(text: string, chunks: seq<Chunk>, country: string, clock: nat -> nat,
                       enc: string -> string)
    ensures var jobs := ParseJobs(text, chunks, country, clock, enc);
            && (forall i :: 0 <= i < |jobs| ==> !jobs[i].isSimulated && jobs[i].id == JobId(i, clock(i)))
            && (forall i, j :: 0 <= i < j < |jobs| ==> jobs[i].id != jobs[j].id)
  {
    var jobs := ParseJobs(text, chunks, country, clock, enc);
    forall i, j | 0 <= i < j < |jobs| ensures jobs[i].id != jobs[j].id {
      JobIdsDistinct(i, clock(i), j, clock(j));
    }
  }

  // ------------------------------------------------------------ field values

  /** A text field is either its default or a trimmed single line. */
  lemma FieldShape(block: string, key: string, default: string)
    requires |key| > 0
    ensures FieldOr(block, key, default) == default || TrimmedLine(FieldOr(block, key, default))
  {
    var c := LineCapture(block, key, 0);
    if c.Some? {
      TrimOneLine(c.value);
    }
  }

  /** A block without the key always gets the default. */
  lemma FieldAbsent(block: string, key: string, default: string)
    requires |key| > 0 && Find(block, key).None?
    ensures FieldOr(block, key, default) == default
  {
    assert FindFrom(block, key, 0).None?;
    assert LineCapture(block, key, 0).None?;
  }

  lemma LeadingOneSpace(v: string, tail: string)
    requires v != [] && !IsSpace(v[0])
    ensures LeadingSpaces(" " + v + tail) == 1
  {
    assert (" " + v + tail)[1..] == v + tail;
  }

  lemma LineLengthOf(v: string, tail: string)
    requires forall k :: 0 <= k < |v| ==> !IsLineTerminator(v[k])
    requires tail == [] || tail[0] == '\n'
    ensures LineLength(v + tail) == |v|
  {
    if tail != [] { assert (v + tail)[|v|] == '\n'; }
  }

  lemma DigitRunOf(ds: string, tail: string)
    requires forall k :: 0 <= k < |ds| ==> IsDigit(ds[k])
    requires tail != [] && tail[0] == '\n'
    ensures DigitRun(ds + tail) == |ds|
  {
    assert (ds + tail)[|ds|] == '\n';
  }

  /** What follows a key found at `|x|` in `x + key + rest`. */
  lemma AfterKey(x: string, key: string, rest: string)
    ensures (x + key + rest)[|x| + |key|..] == rest
  {
  }

  /** When a key is found at `|x|` and is followed by one space and a plain value, the value is captured. */
  lemma FieldAt(s: string, x: string, key: string, v: string, tail: string, default: string)
    requires |key| > 0 && s == x + key + (" " + v + tail) && Find(s, key) == Some(|x|)
    requires v != [] && !IsSpace(v[0]) && !IsSpace(v[|v| - 1])
    requires forall k :: 0 <= k < |v| ==> !IsLineTerminator(v[k])
    requires tail == [] || tail[0] == '\n'
    ensures FieldOr(s, key, default) == v
  {
    var rest := " " + v + tail;
    assert LineAt(rest) == Some(v) by {
      LeadingOneSpace(v, tail);
      assert rest[1..] == v + tail;
      LineLengthOf(v, tail);
      assert rest[1..1 + |v|] == v;
    }
    AfterKey(x, key, rest);
    assert LineCapture(s, key, 0) == Some(v);
    TrimClean(v);
  }

  lemma DigitsCaptureAt(s: string, x: string, key: string, ds: string, tail: string)
    requires |key| > 0 && s == x + key + (" " + ds + tail) && Find(s, key) == Some(|x|)
    requires ds != [] && forall k :: 0 <= k < |ds| ==> IsDigit(ds[k])
    requires tail != [] && tail[0] == '\n'
    ensures DigitsCapture(s, key, 0) == Some(ds)
  {
    var rest := " " + ds + tail;
    assert DigitsAtStart(rest) == Some(ds) by {
      LeadingOneSpace(ds, tail);
      assert rest[1..] == ds + tail;
      DigitRunOf(ds, tail);
      assert rest[1..1 + |ds|] == ds;
    }
    AfterKey(x, key, rest);
  }

  /** The same for the score: a digit string after the key and a space is read back. */
  lemma DigitsAt(s: string, x: string, ds: string, tail: string)
    requires s == x + ScoreKey + (" " + ds + tail) && Find(s, ScoreKey) == Some(|x|)
    requires ds != [] && forall k :: 0 <= k < |ds| ==> IsDigit(ds[k])
    requires tail != [] && tail[0] == '\n'
    ensures ScoreOf(s) == ParseDigits(ds)
  {
    DigitsCaptureAt(s, x, ScoreKey, ds, tail);
  }

  /** The score is whatever number is written, not clipped to 100. */
  lemma ScoreNotCapped(n: nat)
    ensures ScoreOf(ScoreKey + " " + NatToString(n) + "\n") == n
  {
    var s := ScoreKey + " " + NatToString(n) + "\n";
    assert s == "" + ScoreKey + (" " + NatToString(n) + "\n");
    assert s[0..|ScoreKey|] == ScoreKey;
    FindAt(s, ScoreKey, 0, 0);
    DigitsAt(s, "", NatToString(n), "\n");
    ParseNatToString(n);
  }

  // ------------------------------------------------------------ the round trip

  /** A value that survives the format: one line, trimmed, non-empty, without `:` or `|`. */
  predicate PlainValue(v: string) {
    && v != [] && !IsSpace(v[0]) && !IsSpace(v[|v| - 1])
    && forall k :: 0 <= k < |v| ==> !IsLineTerminator(v[k]) && v[k] != ':' && v[k] != '|'
  }

  predicate PlainListing(l: Listing) {
    PlainValue(l.title) && PlainValue(l.company) && PlainValue(l.reason)
  }

  /** A key ending in `:` cannot occur in a line whose only colons sit in a prefix that lacks the key's first letter. */
  lemma KeyNotInLine(prefix: string, v: string, key: string)
    requires |key| > 0 && key[|key| - 1] == ':' && key[0] !in prefix
    requires forall k :: 0 <= k < |v| ==> v[k] != ':'
    ensures Find(prefix + v, key).None?
  {
    var s := prefix + v;
    forall m | 0 <= m ensures !Occurs(s, key, m) {
      if m + |key| <= |s| {
        if m < |prefix| {
          assert s[m..m + |key|][0] == prefix[m];
        } else {
          assert s[m..m + |key|][|key| - 1] == v[m + |key| - 1 - |prefix|];
        }
      }
    }
  }

  lemma DigitsHaveNoColon(d: string)
    requires forall k :: 0 <= k < |d| ==> IsDigit(d[k])
    ensures forall k :: 0 <= k < |d| ==> d[k] != ':'
  {
  }

  /** A field on a line below lines that do not mention its key. */
  lemma FieldBelow(above: string, key: string, v: string, tail: string, default: string)
    requires |key| > 0 && '\n' !in key && Find(above, key).None?
    requires v != [] && !IsSpace(v[0]) && !IsSpace(v[|v| - 1])
    requires forall k :: 0 <= k < |v| ==> !IsLineTerminator(v[k])
    requires tail == [] || tail[0] == '\n'
    ensures FieldOr(above + "\n" + (key + " " + v + tail), key, default) == v
  {
    var rest := key + " " + v + tail;
    var s := above + "\n" + rest;
    assert Find(rest, key) == Some(0) by {
      assert rest[0..|key|] == key;
      FindAt(rest, key, 0, 0);
    }
    FindAfterLine(above, rest, key, 0);
    assert s == (above + "\n") + key + (" " + v + tail);
    FieldAt(s, above + "\n", key, v, tail, default);
  }

  /** A number on a line below lines that do not mention its key. */
  lemma DigitsBelow(above: string, key: string, ds: string, tail: string)
    requires |key| > 0 && '\n' !in key && Find(above, key).None?
    requires ds != [] && forall k :: 0 <= k < |ds| ==> IsDigit(ds[k])
    requires tail != [] && tail[0] == '\n'
    ensures DigitsCapture(above + "\n" + (key + " " + ds + tail), key, 0) == Some(ds)
  {
    var rest := key + " " + ds + tail;
    var s := above + "\n" + rest;
    assert Find(rest, key) == Some(0) by {
      assert rest[0..|key|] == key;
      FindAt(rest, key, 0, 0);
    }
    FindAfterLine(above, rest, key, 0);
    assert s == (above + "\n") + key + (" " + ds + tail);
    DigitsCaptureAt(s, above + "\n", key, ds, tail);
  }

  /** A field on the first line of a block. */
  lemma FieldOnTop(key: string, v: string, tail: string, default: string)
    requires |key| > 0
    requires v != [] && !IsSpace(v[0]) && !IsSpace(v[|v| - 1])
    requires forall k :: 0 <= k < |v| ==> !IsLineTerminator(v[k])
    requires tail == [] || tail[0] == '\n'
    ensures FieldOr(key + " " + v + tail, key, default) == v
  {
    var s := key + " " + v + tail;
    assert Find(s, key) == Some(0) by {
      assert s[0..|key|] == key;
      FindAt(s, key, 0, 0);
    }
    assert s == "" + key + (" " + v + tail);
    FieldAt(s, "", key, v, tail, default);
  }

  lemma TitleInBlock(l: Listing)
    requires PlainListing(l)
    ensures FieldOr(RenderBlock(l), TitleKey, DefaultTitle) == l.title
  {
    var tail := "\n" + CompanyKey + " " + l.company + "\n" + ScoreKey + " " + NatToString(l.score)
                + "\n" + ReasonKey + " " + l.reason;
    assert RenderBlock(l) == TitleKey + " " + l.title + tail;
    FieldOnTop(TitleKey, l.title, tail, DefaultTitle);
  }

  lemma CompanyInBlock(l: Listing)
    requires PlainListing(l)
    ensures FieldOr(RenderBlock(l), CompanyKey, DefaultCompany) == l.company
  {
    var l1 := TitleKey + " " + l.title;
    var tail := "\n" + ScoreKey + " " + NatToString(l.score) + "\n" + ReasonKey + " " + l.reason;
    assert RenderBlock(l) == l1 + "\n" + (CompanyKey + " " + l.company + tail);
    KeyNotInLine(TitleKey + " ", l.title, CompanyKey);
    FieldBelow(l1, CompanyKey, l.company, tail, DefaultCompany);
  }

  lemma ScoreInBlock(l: Listing)
    requires PlainListing(l)
    ensures ScoreOf(RenderBlock(l)) == l.score
  {
    var d := NatToString(l.score);
    var l1 := TitleKey + " " + l.title;
    var l2 := CompanyKey + " " + l.company;
    var tail := "\n" + ReasonKey + " " + l.reason;
    assert RenderBlock(l) == (l1 + "\n" + l2) + "\n" + (ScoreKey + " " + d + tail);
    assert Find(l1 + "\n" + l2, ScoreKey).None? by {
      KeyNotInLine(TitleKey + " ", l.title, ScoreKey);
      KeyNotInLine(CompanyKey + " ", l.company, ScoreKey);
      FindNoneAfterLine(l1, l2, ScoreKey);
    }
    DigitsBelow(l1 + "\n" + l2, ScoreKey, d, tail);
    ParseNatToString(l.score);
  }

  lemma ReasonInBlock(l: Listing)
    requires PlainListing(l)
    ensures FieldOr(RenderBlock(l), ReasonKey, DefaultReason) == l.reason
  {
    var d := NatToString(l.score);
    var l1 := TitleKey + " " + l.title;
    var l2 := CompanyKey + " " + l.company;
    var l3 := ScoreKey + " " + d;
    var above := l1 + "\n" + l2 + "\n" + l3;
    assert RenderBlock(l) == above + "\n" + (ReasonKey + " " + l.reason + "");
    assert Find(above, ReasonKey).None? by {
      KeyNotInLine(TitleKey + " ", l.title, ReasonKey);
      KeyNotInLine(CompanyKey + " ", l.company, ReasonKey);
      FindNoneAfterLine(l1, l2, ReasonKey);
      DigitsHaveNoColon(d);
      KeyNotInLine(ScoreKey + " ", d, ReasonKey);
      FindNoneAfterLine(l1 + "\n" + l2, l3, ReasonKey);
    }
    FieldBelow(above, ReasonKey, l.reason, "", DefaultReason);
  }

  /** A rendered block has no `|` and is long enough to be kept. */
  lemma BlockSurvivesSplit(l: Listing)
    requires PlainListing(l)
    ensures '|' !in RenderBlock(l)
    ensures KeepBlock(RenderBlock(l))
  {
    var b := RenderBlock(l);
    assert '|' !in b by {
      var d := NatToString(l.score);
      assert '|' !in d;
    }
    assert Trim(b) == b by {
      assert b[0] == 'T';
      assert b[|b| - 1] == l.reason[|l.reason| - 1];
      TrimClean(b);
    }
  }

  /**
   * Parsing an answer written exactly as the prompt asks gives back, in
   * order, one job per listing with its title, company, score and reason.
   */
  lemma ParseRendered(ls: seq<Listing>, chunks: seq<Chunk>, country: string, clock: nat -> nat,
                      enc: string -> string)
    requires forall i :: 0 <= i < |ls| ==> PlainListing(ls[i])
    ensures var jobs := ParseJobs(RenderListings(ls), chunks, country, clock, enc);
            |jobs| == |ls| && forall i :: 0 <= i < |ls| ==> Summary(jobs[i]) == ls[i]
  {
    var blocks := seq(|ls|, i requires 0 <= i < |ls| => RenderBlock(ls[i]));
    if |ls| == 0 {
      assert RenderListings(ls) == "";
      assert Split("", Separator) == [""];
      assert Trim("") == "";
    } else {
      forall i | 0 <= i < |blocks| ensures Separator[0] !in blocks[i] && KeepBlock(blocks[i]) {
        BlockSurvivesSplit(ls[i]);
      }
      SplitJoin(blocks, Separator);
      FilterAll(blocks, KeepBlock);
      assert KeptBlocks(RenderListings(ls)) == blocks;
      forall i | 0 <= i < |ls| ensures Summary(ParseJobs(RenderListings(ls), chunks, country, clock, enc)[i]) == ls[i] {
        TitleInBlock(ls[i]);
        CompanyInBlock(ls[i]);
        ScoreInBlock(ls[i]);
        ReasonInBlock(ls[i]);
      }
    }
  }
}
