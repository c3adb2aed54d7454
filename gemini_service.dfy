/**
 * The browser-side calls to the language model (`services/geminiService.ts`).
 * The model itself is an oracle: a function from the request and the attempt
 * number to a reply or a thrown error. `clientFault` stands for a throw of
 * the client constructor, which runs before any `try` of these functions.
 */
module GeminiService {
  import opened Wrappers
  import opened Text
  import opened Types
  import opened JobParser
  import Retry

  const Attempts: nat := 3
  const BackoffMs: nat := 1000
  const MaxCvChars: nat := 40000
  const CvTextHeader := "CV TEXT:\n"
  const NoAnalysis := Exception("No analysis generated")

  /** The waits between failed attempts grow linearly: 1 s, 2 s, ... */
  predicate BackedOff(delays: seq<nat>) {
    forall k :: 0 <= k < |delays| ==> delays[k] == BackoffMs * (k + 1)
  }

  /** How a JavaScript template literal shows a value that may be absent. */
  function Shown(v: Option<string>): string {
    v.GetOr("undefined")
  }

  function First(s: seq<string>): Option<string> {
    if |s| > 0 then Some(s[0]) else None
  }

  /** `s.slice(0, n)`. */
  function Leading(s: seq<string>, n: nat): (r: seq<string>)
    ensures |r| == if |s| < n then |s| else n
    ensures forall k :: 0 <= k < |r| ==> r[k] == s[k]
  {
    if |s| < n then s else s[..n]
  }

  // ------------------------------------------------------------ analyzeCV

  /** What the user hands in: pasted text, or a CV image. */
  datatype CVInput = TextInput(text: string) | ImageInput(mimeType: string, data: string)

  /** One part of the request; `Instructions` is the fixed analysis prompt. */
  datatype Part = Instructions | TextPart(text: string) | InlineData(mimeType: string, data: string)

  /** The CV text actually sent: at most the first 40,000 characters. */
  function SafeText(t: string): (r: string)
    ensures |r| == if |t| > MaxCvChars then MaxCvChars else |t|
    ensures r == t[..|r|]
  {
    if |t| > MaxCvChars then t[..MaxCvChars] else t
  }

  /** The request parts: the instructions, then the CV as text or as inline image data. */
  function Contents(input: CVInput): (r: seq<Part>)
    ensures |r| == 2 && r[0] == Instructions
    ensures input.TextInput? ==>
              TextPart(CvTextHeader + SafeText(input.text)) in r && forall p :: p in r ==> !p.InlineData?
    ensures input.ImageInput? ==>
              InlineData(input.mimeType, input.data) in r && forall p :: p in r ==> !p.TextPart?
  {
    match input
    case TextInput(t) => [Instructions, TextPart(CvTextHeader + SafeText(t))]
    case ImageInput(m, d) => [Instructions, InlineData(m, d)]
  }

  /** One attempt: an empty reply is an error; otherwise the reply is parsed as JSON. */
  function AnalysisAttempt(reply: Result<string, Exception>, parse: string -> Result<CVAnalysis, Exception>)
    : (r: Result<CVAnalysis, Exception>)
    ensures reply.Failure? ==> r == Failure(reply.error)
    ensures reply == Success("") ==> r == Failure(NoAnalysis)
    ensures reply.Success? && reply.value != "" ==> r == parse(reply.value)
  {
    match reply
    case Failure(e) => Failure(e)
    case Success(text) => if text == "" then Failure(NoAnalysis) else parse(text)
  }

  /**
   * `analyzeCV`: up to three attempts with 1 s and 2 s waits between them;
   * the first parsed analysis wins, and after three failures the last error
   * is rethrown.
   */
  method AnalyzeCV(input: CVInput, clientFault: Option<Exception>,
                   generate: (seq<Part>, nat) -> Result<string, Exception>,
                   parse: string -> Result<CVAnalysis, Exception>)
    returns (r: Result<CVAnalysis, Exception>, tries: nat, delays: seq<nat>)
    ensures clientFault.Some? ==> r == Failure(clientFault.value) && tries == 0 && delays == []
    ensures clientFault.None? ==>
              && 1 <= tries <= Attempts
              && |delays| == tries - 1 && BackedOff(delays)
              && (forall k :: 0 <= k < tries - 1 ==> AnalysisAttempt(generate(Contents(input), k), parse).Failure?)
              && r == AnalysisAttempt(generate(Contents(input), tries - 1), parse)
              && (r.Failure? ==> tries == Attempts)
    ensures clientFault.None? ==>
              (r.Success? <==> exists k :: 0 <= k < Attempts && AnalysisAttempt(generate(Contents(input), k), parse).Success?)
  {
    if clientFault.Some? {
      return Failure(clientFault.value), 0, [];
    }
    var attempt := (contents: seq<Part>, k: nat) => AnalysisAttempt(generate(contents, k), parse);
    r, tries, delays := Retry.Retry(attempt, Contents(input), Attempts, BackoffMs);
    assert forall k: nat :: attempt(Contents(input), k) == AnalysisAttempt(generate(Contents(input), k), parse);
    if r.Success? {
      assert AnalysisAttempt(generate(Contents(input), tries - 1), parse).Success?;
    }
  }

  // ------------------------------------------------------------ searchOpportunities

  /** What the search prompt is built from. */
  datatype SearchRequest = SearchRequest(role: string, skills: string, level: string, country: string)

  /** The parts of a search response that are read: its text (`""` when absent) and its grounding chunks. */
  datatype SearchReply = SearchReply(text: string, chunks: seq<Chunk>)

  /** `userSelectedRole || analysis.suggestedRoles[0]`: an empty selection falls through. */
  function TargetRole(selected: Option<string>, analysis: CVAnalysis): Option<string> {
    if selected.Some? && selected.value != "" then selected else First(analysis.suggestedRoles)
  }

  /** The first five hard skills joined by `", "`. */
  function SkillsList(hardSkills: seq<string>, n: nat): string {
    Join(Leading(hardSkills, n), ", ")
  }

  function SearchRequestOf(analysis: CVAnalysis, country: string, selected: Option<string>): SearchRequest {
    SearchRequest(Shown(TargetRole(selected, analysis)), SkillsList(analysis.hardSkills, 5),
                  analysis.experienceLevel, country)
  }

  /** `adjacentIndustries[0] || fallback`. */
  function IndustryOr(industries: seq<string>, fallback: string): string {
    if |industries| > 0 && industries[0] != "" then industries[0] else fallback
  }

  /**
   * The three fixed jobs returned when the search fails or yields nothing.
   * An absent role is the JavaScript `undefined`: shown as `undefined` inside
   * text, and as an empty title for the first job.
   */
  function SimulatedJobs(analysis: CVAnalysis, country: string, role: Option<string>, enc: string -> string)
    : seq<JobOpportunity>
  {
    var shown := Shown(role);
    [ JobOpportunity("sim-1", role.GetOr(""), "Confidential Tech Partner", 92,
        "Your experience with " + Shown(First(analysis.hardSkills)) + " is in high demand for this role type in "
          + country + ".",
        "https://www.linkedin.com/jobs/search/?keywords=" + enc(shown) + "&location=" + enc(country), true),
      JobOpportunity("sim-2", shown + " Lead", "Global Innovations Corp", 88,
        "Strong alignment with your background in " + IndustryOr(analysis.adjacentIndustries, "tech") + ".",
        "https://www.indeed.com/jobs?q=" + enc(shown + " " + IndustryOr(analysis.adjacentIndustries, ""))
          + "&l=" + enc(country), true),
      JobOpportunity("sim-3", "Senior " + shown, "Future Systems Ltd", 85,
        "Based on your " + analysis.experienceLevel + " level and soft skills in "
          + Shown(First(analysis.softSkills)) + ".",
        "https://www.google.com/search?ibp=htl;jobs&q=" + enc("Senior " + shown + " " + country + " jobs"), true) ]
  }

  /** The jobs a search ends with, given the outcome of its last attempt. */
  function SweepJobs(reply: Result<SearchReply, Exception>, analysis: CVAnalysis, country: string,
                     selected: Option<string>, clock: nat -> nat, enc: string -> string)
    : (jobs: seq<JobOpportunity>)
    ensures |jobs| > 0
  {
    var fallback := SimulatedJobs(analysis, country, TargetRole(selected, analysis), enc);
    match reply
    case Failure(_) => fallback
    case Success(rep) =>
      var jobs := ParseJobs(rep.text, rep.chunks, country, clock, enc);
      if |jobs| > 0 then jobs else fallback
  }

  /**
   * How a sweep of `request` ended: `tries` attempts, all but the last
   * failed, the waits between them, and the jobs made of the last outcome.
   */
  predicate SweepOutcome(analysis: CVAnalysis, country: string, selected: Option<string>,
                         search: (SearchRequest, nat) -> Result<SearchReply, Exception>, request: SearchRequest,
                         clock: nat -> nat, enc: string -> string,
                         jobs: seq<JobOpportunity>, tries: nat, delays: seq<nat>)
  {
    && 1 <= tries <= Attempts
    && |delays| == tries - 1 && BackedOff(delays)
    && (forall k :: 0 <= k < tries - 1 ==> search(request, k).Failure?)
    && (search(request, tries - 1).Failure? ==> tries == Attempts)
    && jobs == SweepJobs(search(request, tries - 1), analysis, country, selected, clock, enc)
  }

  /**
   * The `try` block of `searchOpportunities`: up to three attempts with the
   * same backoff as the analysis; a last failure, or an answer with no job
   * in it, ends in the simulated jobs, so the list is never empty.
   */
  method Sweep(analysis: CVAnalysis, country: string, selected: Option<string>,
               search: (SearchRequest, nat) -> Result<SearchReply, Exception>, request: SearchRequest,
               clock: nat -> nat, enc: string -> string)
    returns (jobs: seq<JobOpportunity>, tries: nat, delays: seq<nat>)
    ensures |jobs| > 0
    ensures SweepOutcome(analysis, country, selected, search, request, clock, enc, jobs, tries, delays)
  {
    var reply;
    reply, tries, delays := Retry.Retry(search, request, Attempts, BackoffMs);
    jobs := SweepJobs(reply, analysis, country, selected, clock, enc);
  }

  /** `searchOpportunities`: the request is built from the analysis, then the sweep runs. */
  method SearchOpportunities(analysis: CVAnalysis, country: string, selected: Option<string>,
                             clientFault: Option<Exception>,
                             search: (SearchRequest, nat) -> Result<SearchReply, Exception>,
                             clock: nat -> nat, enc: string -> string)
    returns (r: Result<seq<JobOpportunity>, Exception>, tries: nat, delays: seq<nat>)
    ensures clientFault.Some? ==> r == Failure(clientFault.value) && tries == 0 && delays == []
    ensures clientFault.None? ==> r.Success? && |r.value| > 0
    ensures clientFault.None? ==>
              SweepOutcome(analysis, country, selected, search, SearchRequestOf(analysis, country, selected),
                           clock, enc, r.value, tries, delays)
  {
    if clientFault.Some? {
      return Failure(clientFault.value), 0, [];
    }
    var jobs;
    jobs, tries, delays := Sweep(analysis, country, selected, search, SearchRequestOf(analysis, country, selected),
                                 clock, enc);
    r := Success(jobs);
  }

  // ------------------------------------------------------------ generateOutreach

  /** What the outreach prompt is built from. */
  datatype OutreachRequest = OutreachRequest(company: string, title: string, skills: string, reasoning: string,
                                             level: string)

  const OutreachEmptyReply := "I am very interested in this role and believe my skills are a great match."

  function OutreachFallback(title: string): string {
    "I am writing to express my strong interest in the " + title + " position. My background aligns perfectly with your needs."
  }

  function OutreachRequestOf(job: JobOpportunity, analysis: CVAnalysis): OutreachRequest {
    OutreachRequest(job.company, job.title, SkillsList(analysis.hardSkills, 3), job.reasoning,
                    analysis.experienceLevel)
  }

  /** `generateOutreach`: one call; an empty reply or an error gives a fixed message. */
  function GenerateOutreach(job: JobOpportunity, analysis: CVAnalysis, clientFault: Option<Exception>,
                            generate: OutreachRequest -> Result<string, Exception>): (r: Result<string, Exception>)
    ensures clientFault.Some? ==> r == Failure(clientFault.value)
    ensures clientFault.None? ==> r.Success? && r.value != ""
    ensures clientFault.None? && generate(OutreachRequestOf(job, analysis)).Failure? ==>
              Contains(r.value, job.title)
    ensures clientFault.None? && generate(OutreachRequestOf(job, analysis)).Success? ==>
              r.value == (if generate(OutreachRequestOf(job, analysis)).value != ""
                          then generate(OutreachRequestOf(job, analysis)).value else OutreachEmptyReply)
  {
    if clientFault.Some? then Failure(clientFault.value)
    else
      match generate(OutreachRequestOf(job, analysis))
      case Success(text) => Success(if text != "" then text else OutreachEmptyReply)
      case Failure(_) =>
        ContainsWithin("I am writing to express my strong interest in the ", job.title,
                       " position. My background aligns perfectly with your needs.");
        Success(OutreachFallback(job.title))
  }

  // ------------------------------------------------------------ generateAlertConfirmation

  datatype ConfirmationRequest = ConfirmationRequest(role: string, country: string, email: string)

  function RadarMessage(role: string, country: string, email: string): string {
    "Radar active. Scanning for " + role + " in " + country + ". Reports will be sent to " + email + "."
  }

  /** `generateAlertConfirmation`: one call; an empty reply or an error gives the fixed radar message. */
  function GenerateAlertConfirmation(role: string, country: string, email: string, clientFault: Option<Exception>,
                                     generate: ConfirmationRequest -> Result<string, Exception>)
    : (r: Result<string, Exception>)
    ensures clientFault.Some? ==> r == Failure(clientFault.value)
    ensures clientFault.None? ==> r.Success? && r.value != ""
    ensures clientFault.None? ==>
              match generate(ConfirmationRequest(role, country, email))
              case Success(text) => r.value == (if text != "" then text else RadarMessage(role, country, email))
              case Failure(_) => r.value == RadarMessage(role, country, email)
  {
    if clientFault.Some? then Failure(clientFault.value)
    else
      match generate(ConfirmationRequest(role, country, email))
      case Success(text) => Success(if text != "" then text else RadarMessage(role, country, email))
      case Failure(_) => Success(RadarMessage(role, country, email))
  }
}

/** What is proved about the model-facing calls. */
module GeminiServiceFacts {
  import opened Wrappers
  import opened Text
  import opened Types
  import opened JobParser
  import opened JobParserFacts
  import opened GeminiService

  /** A CV within the limit is sent whole; a longer one loses exactly its tail beyond 40,000 characters. */
  lemma CvTruncation(t: string)
    ensures |t| <= MaxCvChars ==> TextPart(CvTextHeader + t) in Contents(TextInput(t))
    ensures |t| > MaxCvChars ==>
              TextPart(CvTextHeader + t[..MaxCvChars]) in Contents(TextInput(t)) &&
              TextPart(CvTextHeader + t) !in Contents(TextInput(t))
  {
    if |t| > MaxCvChars {
      var c := Contents(TextInput(t));
      assert c[1] == TextPart(CvTextHeader + t[..MaxCvChars]);
      assert |CvTextHeader + t| != |CvTextHeader + t[..MaxCvChars]|;
    }
  }

  /** The radar message names the role, the place and the address. */
  lemma RadarMessageNamesAll(role: string, country: string, email: string)
    ensures Contains(RadarMessage(role, country, email), role)
    ensures Contains(RadarMessage(role, country, email), country)
    ensures Contains(RadarMessage(role, country, email), email)
  {
    var m := RadarMessage(role, country, email);
    assert m == "Radar active. Scanning for " + role + (" in " + country + ". Reports will be sent to " + email + ".");
    ContainsWithin("Radar active. Scanning for ", role,
                   " in " + country + ". Reports will be sent to " + email + ".");
    assert m == ("Radar active. Scanning for " + role + " in ") + country + (". Reports will be sent to " + email + ".");
    ContainsWithin("Radar active. Scanning for " + role + " in ", country, ". Reports will be sent to " + email + ".");
    assert m == ("Radar active. Scanning for " + role + " in " + country + ". Reports will be sent to ") + email + ".";
    ContainsWithin("Radar active. Scanning for " + role + " in " + country + ". Reports will be sent to ", email, ".");
  }

  /** A non-empty explicit choice beats the suggestions; otherwise the first suggestion is used. */
  lemma TargetRoleChoice(selected: Option<string>, analysis: CVAnalysis)
    ensures selected.Some? && selected.value != "" ==> TargetRole(selected, analysis) == selected
    ensures (selected.None? || selected.value == "") && |analysis.suggestedRoles| > 0 ==>
              TargetRole(selected, analysis) == Some(analysis.suggestedRoles[0])
    ensures TargetRole(selected, analysis).None? <==>
              (selected.None? || selected.value == "") && |analysis.suggestedRoles| == 0
  {
  }

  /** The skills line lists the first `n` skills in order, recoverable by splitting on `", "` when no skill has a comma. */
  lemma SkillsListParts(hardSkills: seq<string>, n: nat)
    requires |hardSkills| > 0 && n > 0
    requires forall i :: 0 <= i < |hardSkills| ==> ',' !in hardSkills[i]
    ensures Split(SkillsList(hardSkills, n), ", ") == Leading(hardSkills, n)
  {
    var parts := Leading(hardSkills, n);
    forall i | 0 <= i < |parts| ensures ", "[0] !in parts[i] {
      assert parts[i] == hardSkills[i];
    }
    SplitJoin(parts, ", ");
  }

  /**
   * The fallback: three simulated jobs with distinct ids, scores strictly
   * decreasing, every title naming the target role when there is one.
   */
  lemma SimulatedShape(analysis: CVAnalysis, country: string, role: Option<string>, enc: string -> string)
    ensures var sim := SimulatedJobs(analysis, country, role, enc);
            && |sim| == 3
            && (forall i :: 0 <= i < 3 ==> sim[i].isSimulated)
            && (forall i, j :: 0 <= i < j < 3 ==> sim[i].id != sim[j].id && sim[i].matchScore > sim[j].matchScore)
            && (role.Some? ==> forall i :: 0 <= i < 3 ==> Contains(sim[i].title, role.value))
  {
    var sim := SimulatedJobs(analysis, country, role, enc);
    if role.Some? {
      var v := role.value;
      ContainsWithin("", v, "");
      assert sim[0].title == "" + v + "";
      ContainsWithin("", v, " Lead");
      assert sim[1].title == "" + v + " Lead";
      ContainsWithin("Senior ", v, "");
      assert sim[2].title == "Senior " + v + "";
    }
  }

  /** A simulated id can never equal the id of a parsed job. */
  lemma SimulatedIdsApart(analysis: CVAnalysis, country: string, role: Option<string>, enc: string -> string,
                          index: nat, stamp: nat)
    ensures forall i :: 0 <= i < 3 ==> SimulatedJobs(analysis, country, role, enc)[i].id != JobId(index, stamp)
  {
    assert JobId(index, stamp)[0] == 'j';
  }

  /**
   * A search ends either with real parsed jobs only, exactly those parsed
   * from the last reply, or with the simulated jobs only.
   */
  lemma SweepAllOrNothing(reply: Result<SearchReply, Exception>, analysis: CVAnalysis, country: string,
                          selected: Option<string>, clock: nat -> nat, enc: string -> string)
    ensures var jobs := SweepJobs(reply, analysis, country, selected, clock, enc);
            || (&& reply.Success?
                && jobs == ParseJobs(reply.value.text, reply.value.chunks, country, clock, enc)
                && |jobs| > 0
                && forall i :: 0 <= i < |jobs| ==> !jobs[i].isSimulated)
            || jobs == SimulatedJobs(analysis, country, TargetRole(selected, analysis), enc)
  {
    if reply.Success? {
      ParsedJobsReal(reply.value.text, reply.value.chunks, country, clock, enc);
    }
  }

  /**
   * An answer in the requested format, returned on some attempt, is what
   * the search yields: its listings in order, none simulated.
   */
  lemma SweepOfRenderedAnswer(ls: seq<Listing>, chunks: seq<Chunk>, analysis: CVAnalysis, country: string,
                              selected: Option<string>, clock: nat -> nat, enc: string -> string)
    requires |ls| > 0 && forall i :: 0 <= i < |ls| ==> PlainListing(ls[i])
    ensures var jobs := SweepJobs(Success(SearchReply(RenderListings(ls), chunks)), analysis, country, selected,
                                  clock, enc);
            |jobs| == |ls| && forall i :: 0 <= i < |ls| ==> Summary(jobs[i]) == ls[i] && !jobs[i].isSimulated
  {
    ParseRendered(ls, chunks, country, clock, enc);
    ParsedJobsReal(RenderListings(ls), chunks, country, clock, enc);
  }
}
