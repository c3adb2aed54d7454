/** The records of `types.ts`. */
module Types {

  /** One of the three boolean search strings of an analysis (`label` is a Dafny keyword, hence `labelText`). */
  datatype BooleanSearchString = BooleanSearchString(labelText: string, query: string, explanation: string)

  /** The structured reading of a CV (`CVAnalysis`). */
  datatype CVAnalysis = CVAnalysis(
    hardSkills: seq<string>,
    softSkills: seq<string>,
    experienceLevel: string,
    suggestedRoles: seq<string>,
    adjacentIndustries: seq<string>,
    antigravityBooleanStrings: seq<BooleanSearchString>)

  /**
   * A job found by the search stage (`JobOpportunity`). The two optional
   * fields of the interface are always set by the code that builds jobs, so
   * they are plain fields here.
   */
  datatype JobOpportunity = JobOpportunity(
    id: string,
    title: string,
    company: string,
    matchScore: nat,
    reasoning: string,
    applicationUrl: string,
    isSimulated: bool)

  /** The `AppPhase` enum. */
  datatype AppPhase = Idle | Analyzing | ReviewAnalysis | Searching | Results | Error

  /** A thrown JavaScript error, reduced to its message. */
  datatype Exception = Exception(message: string)
}
