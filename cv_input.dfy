/**
 * The CV intake panel (`components/CVInput.tsx`): the submit guard, the
 * page-by-page text extraction of an uploaded PDF and the white-space
 * cleanup of the extracted text. PDF.js is an oracle: the outcome of loading
 * the document (its page count or the error) and, per page number, the
 * strings of the page's text items or the error.
 */
module CVInput {
  import opened Wrappers
  import opened Text
  import opened Seqs
  import opened Types

  const PdfType := "application/pdf"
  const NotPdfAlert := "Please upload a valid PDF file."
  const ExtractionAlert :=
    "Failed to extract text from PDF. It might be encrypted or image-only. Please copy/paste text manually."

  // ------------------------------------------------------------ submit guard

  /** `handleSubmit`: the analysis is started only for a CV text that is not all white space. */
  function Submits(text: string): (analyze: bool)
    ensures analyze <==> exists k :: 0 <= k < |text| && !IsSpace(text[k])
  {
    Trim(text) != ""
  }

  // ------------------------------------------------------------ page texts

  /** The text of one page: its item strings joined by single spaces. */
  function PageText(items: seq<string>): string {
    Join(items, " ")
  }

  /**
   * The text of pages `1..n` as the loop builds it: each page's text followed
   * by a line break, in page order; the first page that cannot be read ends
   * the extraction with its error.
   */
  function PagesText(page: nat -> Result<seq<string>, Exception>, n: nat): Result<string, Exception> {
    if n == 0 then Success("")
    else match PagesText(page, n - 1)
      case Failure(e) => Failure(e)
      case Success(t) =>
        match page(n)
        case Failure(e) => Failure(e)
        case Success(items) => Success(t + PageText(items) + "\n")
  }

  /** Loading the document, then reading its pages. */
  function Extraction(load: Result<nat, Exception>, page: nat -> Result<seq<string>, Exception>)
    : Result<string, Exception>
  {
    match load
    case Failure(e) => Failure(e)
    case Success(n) => PagesText(page, n)
  }

  /** The page loop of `handlePdfUpload`. */
  method ExtractPages(numPages: nat, page: nat -> Result<seq<string>, Exception>) returns (r: Result<string, Exception>)
    ensures r == PagesText(page, numPages)
  {
    var fullText := "";
    var i := 1;
    while i <= numPages
      invariant 1 <= i <= numPages + 1
      invariant PagesText(page, i - 1) == Success(fullText)
    {
      var items := page(i);
      if items.Failure? {
        FailureSticks(page, i, numPages);
        return Failure(items.error);
      }
      fullText := fullText + PageText(items.value) + "\n";
      i := i + 1;
    }
    return Success(fullText);
  }

  /** The document load followed by the page loop. */
  method Extract(load: Result<nat, Exception>, page: nat -> Result<seq<string>, Exception>)
    returns (r: Result<string, Exception>)
    ensures r == Extraction(load, page)
  {
    if load.Failure? {
      return Failure(load.error);
    }
    r := ExtractPages(load.value, page);
  }

  /** Once a page fails, every longer run fails with the same error. */
  lemma {:induction false} FailureSticks(page: nat -> Result<seq<string>, Exception>, m: nat, n: nat)
    requires m <= n && PagesText(page, m).Failure?
    ensures PagesText(page, n) == PagesText(page, m)
  {
    if m < n {
      FailureSticks(page, m, n - 1);
    }
  }

  // ------------------------------------------------------------ white-space cleanup

  /** A character that is not white space. */
  predicate Visible(c: char) {
    !IsSpace(c)
  }

  /** White space at position `k` and at the next one. */
  predicate SpacePair(s: string, k: nat)
    requires k + 1 < |s|
  {
    IsSpace(s[k]) && IsSpace(s[k + 1])
  }

  /** No two white-space characters in a row. */
  predicate NoDoubleSpace(s: string) {
    forall k: nat :: k + 1 < |s| ==> !SpacePair(s, k)
  }

  /** Every white-space character is a plain space. */
  predicate PlainSpaces(s: string) {
    forall k :: 0 <= k < |s| && IsSpace(s[k]) ==> s[k] == ' '
  }

  /** `replace(/\s+/g, ' ')`: every maximal run of white space becomes one plain space. */
  function Collapse(s: string): (r: string)
    ensures |r| <= |s|
    ensures r == [] <==> s == []
    ensures s != [] ==> (IsSpace(r[0]) <==> IsSpace(s[0]))
    ensures PlainSpaces(r)
    decreases |s|
  {
    if s == [] then []
    else if IsSpace(s[0]) then [' '] + Collapse(TrimStart(s))
    else [s[0]] + Collapse(s[1..])
  }

  /** A collapsed text never has two white-space characters in a row. */
  lemma {:induction false} CollapseSingles(s: string)
    ensures NoDoubleSpace(Collapse(s))
    decreases |s|
  {
    if s != [] {
      var rest := if IsSpace(s[0]) then TrimStart(s) else s[1..];
      CollapseSingles(rest);
      var r := Collapse(s);
      assert r == [r[0]] + Collapse(rest);
      ConsSingles(r);
    }
  }

  /** Single spaces after the first character and none at its head mean single spaces throughout. */
  lemma ConsSingles(r: string)
    requires r != [] && NoDoubleSpace(r[1..])
    requires |r| > 1 ==> !(IsSpace(r[0]) && IsSpace(r[1]))
    ensures NoDoubleSpace(r)
  {
    var tail := r[1..];
    forall k: nat | k + 1 < |r| ensures !SpacePair(r, k) {
      if k > 0 {
        assert r[k] == tail[k - 1] && r[k + 1] == tail[k];
        assert !SpacePair(tail, k - 1);
      }
    }
  }

  /** `replace(/\s+/g, ' ').trim()`: the text `onTextChange` receives. */
  function Clean(s: string): string {
    Trim(Collapse(s))
  }

  /** Trimming cuts blank ends off: `Trim(s)` is the slice `s[i..j]` between them. */
  lemma {:induction false} TrimSlices(s: string) returns (i: nat, j: nat)
    ensures i <= j <= |s| && Trim(s) == s[i..j] && IsBlank(s[..i]) && IsBlank(s[j..])
  {
    var t := TrimStart(s);
    i := |s| - |t|;
    var r := TrimEnd(t);
    j := i + |r|;
    Within(s, i, |r|);
    LeadBlank(s);
    TailBlank(t);
    Beyond(s, i, |r|);
  }

  /** What `TrimStart` drops is blank. */
  lemma LeadBlank(s: string)
    ensures IsBlank(s[..|s| - |TrimStart(s)|])
  {
    var i := |s| - |TrimStart(s)|;
    forall k | 0 <= k < i ensures IsSpace(s[..i][k]) {
      assert s[..i][k] == s[k];
    }
  }

  /** What `TrimEnd` drops is blank. */
  lemma TailBlank(t: string)
    ensures IsBlank(t[|TrimEnd(t)|..])
  {
    var n := |TrimEnd(t)|;
    forall k | 0 <= k < |t| - n ensures IsSpace(t[n..][k]) {
      assert t[n..][k] == t[n + k];
    }
  }

  /** The first `n` elements of the suffix from `i` are the slice `s[i..i + n]`. */
  lemma Within<T>(s: seq<T>, i: nat, n: nat)
    requires i + n <= |s|
    ensures s[i..][..n] == s[i..i + n]
  {
  }

  /** Dropping `n` more elements of the suffix from `i` leaves the suffix from `i + n`. */
  lemma Beyond<T>(s: seq<T>, i: nat, n: nat)
    requires i + n <= |s|
    ensures s[i..][n..] == s[i + n..]
  {
  }

  /** A blank string has no visible character. */
  lemma {:induction false} BlankFilter(s: string)
    requires IsBlank(s)
    ensures Filter(s, Visible) == []
  {
    if s != [] {
      BlankFilter(s[1..]);
    }
  }

  /** A string is blank exactly when it has no visible character. */
  lemma {:induction false} BlankIff(s: string)
    ensures IsBlank(s) <==> Filter(s, Visible) == []
  {
    if IsBlank(s) {
      BlankFilter(s);
    } else {
      var k :| 0 <= k < |s| && !IsSpace(s[k]);
      FilterMembership(s, Visible, s[k]);
    }
  }

  /** Collapsing keeps every visible character, in order. */
  lemma {:induction false} CollapseKeepsVisible(s: string)
    ensures Filter(Collapse(s), Visible) == Filter(s, Visible)
    decreases |s|
  {
    if s != [] {
      var head, rest, out;
      if IsSpace(s[0]) {
        rest := TrimStart(s);
        head := s[..|s| - |rest|];
        out := [' '];
        BlankFilter(head);
        BlankFilter(out);
      } else {
        rest := s[1..];
        head := [s[0]];
        out := head;
      }
      assert s == head + rest;
      assert Collapse(s) == out + Collapse(rest);
      assert Filter(out, Visible) == Filter(head, Visible);
      CollapseKeepsVisible(rest);
      FilterConcat(head, rest, Visible);
      FilterConcat(out, Collapse(rest), Visible);
    }
  }

  /** A string whose white space is single plain spaces collapses to itself. */
  lemma {:induction false} CollapseFixed(s: string)
    requires PlainSpaces(s) && NoDoubleSpace(s)
    ensures Collapse(s) == s
    decreases |s|
  {
    if s != [] {
      var rest := s[1..];
      RestSpaces(s);
      CollapseFixed(rest);
      if IsSpace(s[0]) {
        if |s| > 1 {
          assert !SpacePair(s, 0);
          assert rest[0] == s[1];
        }
        assert TrimStart(s) == TrimStart(rest) == rest;
      }
      assert s == [s[0]] + rest;
    }
  }

  /** Dropping the first character keeps the single plain spaces of the rest. */
  lemma RestSpaces(s: string)
    requires s != [] && NoDoubleSpace(s) && PlainSpaces(s)
    ensures NoDoubleSpace(s[1..]) && PlainSpaces(s[1..])
  {
    var r := s[1..];
    forall k: nat | k + 1 < |r| ensures !SpacePair(r, k) {
      assert r[k] == s[k + 1] && r[k + 1] == s[k + 2];
      assert !SpacePair(s, k + 1);
    }
    forall k | 0 <= k < |r| && IsSpace(r[k]) ensures r[k] == ' ' {
      assert r[k] == s[k + 1];
    }
  }

  /** A slice keeps the single plain spaces of the whole. */
  lemma SliceSpaces(c: string, i: nat, j: nat)
    requires i <= j <= |c| && NoDoubleSpace(c) && PlainSpaces(c)
    ensures NoDoubleSpace(c[i..j]) && PlainSpaces(c[i..j])
  {
    var r := c[i..j];
    forall k: nat | k + 1 < |r| ensures !SpacePair(r, k) {
      assert r[k] == c[i + k] && r[k + 1] == c[i + k + 1];
      assert !SpacePair(c, i + k);
    }
    forall k | 0 <= k < |r| && IsSpace(r[k]) ensures r[k] == ' ' {
      assert r[k] == c[i + k];
    }
  }

  /** A sequence is its prefix, middle and suffix put back together. */
  lemma Pieces<T>(c: seq<T>, i: nat, j: nat)
    requires i <= j <= |c|
    ensures c == c[..i] + c[i..j] + c[j..]
  {
  }

  /** Blank ends add no visible character. */
  lemma BlankEnds(c: string, i: nat, j: nat)
    requires i <= j <= |c| && IsBlank(c[..i]) && IsBlank(c[j..])
    ensures Filter(c[i..j], Visible) == Filter(c, Visible)
  {
    Pieces(c, i, j);
    FilterConcat(c[..i] + c[i..j], c[j..], Visible);
    FilterConcat(c[..i], c[i..j], Visible);
    BlankFilter(c[..i]);
    BlankFilter(c[j..]);
  }

  /**
   * The cleaned text has no white space at either end, no two white-space
   * characters in a row, and only plain spaces as white space.
   */
  lemma CleanSpacing(s: string)
    ensures var r := Clean(s);
            && (r == [] || (!IsSpace(r[0]) && !IsSpace(r[|r| - 1])))
            && NoDoubleSpace(r) && PlainSpaces(r)
  {
    var c := Collapse(s);
    CollapseSingles(s);
    var i, j := TrimSlices(c);
    SliceSpaces(c, i, j);
  }

  /** The cleaned text holds exactly the visible characters of the input, in their order. */
  lemma CleanVisible(s: string)
    ensures Filter(Clean(s), Visible) == Filter(s, Visible)
  {
    var c := Collapse(s);
    var i, j := TrimSlices(c);
    BlankEnds(c, i, j);
    CollapseKeepsVisible(s);
  }

  /** The cleaned text is empty exactly when the input is blank. */
  lemma CleanBlank(s: string)
    ensures Clean(s) == [] <==> IsBlank(s)
  {
    var c := Collapse(s);
    CollapseKeepsVisible(s);
    BlankIff(c);
    BlankIff(s);
  }

  /** Cleaning an already cleaned text changes nothing. */
  lemma CleanIdempotent(s: string)
    ensures Clean(Clean(s)) == Clean(s)
  {
    var r := Clean(s);
    CleanSpacing(s);
    CollapseFixed(r);
    if r != [] {
      TrimClean(r);
    }
  }

  /** The cleaned text can be submitted exactly when the raw text could. */
  lemma CleanKeepsSubmit(s: string)
    ensures Submits(Clean(s)) == Submits(s)
  {
    CleanBlank(s);
    CleanBlank(Clean(s));
  }

  // ------------------------------------------------------------ the panel

  /** The first selected file, reduced to its MIME type. */
  datatype PdfFile = PdfFile(mimeType: string)

  /**
   * The panel's state: the CV text it shows (written through
   * `onTextChange`), the processing flag, the value of the hidden file input
   * and the alerts it has shown.
   */
  class Panel {
    var text: string
    var isPdfProcessing: bool
    var inputValue: string
    var alerts: seq<string>

    constructor(text: string)
      ensures this.text == text && !isPdfProcessing && inputValue == "" && alerts == []
    {
      this.text := text;
      isPdfProcessing := false;
      inputValue := "";
      alerts := [];
    }

    /**
     * `handlePdfUpload`: without a file nothing happens; a file that is not
     * a PDF only raises the alert; otherwise the cleaned text of all pages
     * replaces the CV text, or the failure alert is raised and the text is
     * kept; either way the flag ends cleared and the file input emptied.
     */
    method HandlePdfUpload(file: Option<PdfFile>, load: Result<nat, Exception>,
                           page: nat -> Result<seq<string>, Exception>)
      modifies this
      ensures file.None? ==>
                text == old(text) && isPdfProcessing == old(isPdfProcessing)
                && inputValue == old(inputValue) && alerts == old(alerts)
      ensures file.Some? && file.value.mimeType != PdfType ==>
                text == old(text) && isPdfProcessing == old(isPdfProcessing)
                && inputValue == old(inputValue) && alerts == old(alerts) + [NotPdfAlert]
      ensures file.Some? && file.value.mimeType == PdfType ==> !isPdfProcessing && inputValue == ""
      ensures file.Some? && file.value.mimeType == PdfType && Extraction(load, page).Success? ==>
                text == Clean(Extraction(load, page).value) && alerts == old(alerts)
      ensures file.Some? && file.value.mimeType == PdfType && Extraction(load, page).Failure? ==>
                text == old(text) && alerts == old(alerts) + [ExtractionAlert]
    {
      if file.None? {
        return;
      }
      if file.value.mimeType != PdfType {
        alerts := alerts + [NotPdfAlert];
        return;
      }
      isPdfProcessing := true;
      var extracted := Extract(load, page);
      Settle(extracted);
    }

    /** The end of `handlePdfUpload` once the extraction is settled: the text or the alert, then the `finally` block. */
    method Settle(extracted: Result<string, Exception>)
      modifies this
      ensures extracted.Success? ==> text == Clean(extracted.value) && alerts == old(alerts)
      ensures extracted.Failure? ==> text == old(text) && alerts == old(alerts) + [ExtractionAlert]
      ensures !isPdfProcessing && inputValue == ""
    {
      if extracted.Success? {
        text := Clean(extracted.value);
      } else {
        alerts := alerts + [ExtractionAlert];
      }
      isPdfProcessing := false;
      inputValue := "";
    }
  }
}

/** What the extraction loop promises about page order and failures. */
module CVInputFacts {
  import opened Wrappers
  import opened Text
  import opened Types
  import opened CVInput

  /** Reading more pages only appends: the text of the first `m` pages is a prefix of that of `n`. */
  lemma {:induction false} PagesInOrder(page: nat -> Result<seq<string>, Exception>, m: nat, n: nat)
    requires m <= n && PagesText(page, n).Success?
    ensures PagesText(page, m).Success?
    ensures |PagesText(page, m).value| <= |PagesText(page, n).value|
    ensures PagesText(page, n).value[..|PagesText(page, m).value|] == PagesText(page, m).value
  {
    if m < n {
      PagesInOrder(page, m, n - 1);
    }
  }

  /**
   * The extraction fails exactly when some page in `1..n` cannot be read,
   * and then with the error of the first such page.
   */
  lemma {:induction false} PagesFailure(page: nat -> Result<seq<string>, Exception>, n: nat)
    ensures PagesText(page, n).Failure? <==> exists i :: 1 <= i <= n && page(i).Failure?
    ensures PagesText(page, n).Failure? ==>
              exists i :: 1 <= i <= n && page(i).Failure? && PagesText(page, n).error == page(i).error
                          && forall j :: 1 <= j < i ==> page(j).Success?
  {
    if n > 0 {
      PagesFailure(page, n - 1);
    }
  }

  /** Each page's text is followed by its own line break. */
  lemma PageEndsLine(page: nat -> Result<seq<string>, Exception>, n: nat)
    requires n > 0 && PagesText(page, n).Success?
    ensures page(n).Success?
    ensures var t := PagesText(page, n).value;
            var p := PageText(page(n).value) + "\n";
            |p| <= |t| && t[|t| - |p|..] == p
  {
  }
}
