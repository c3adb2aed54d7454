/**
 * The page controller (`App.tsx`): the state of the single-page app, how it
 * is saved to and restored from the browser's local storage, how the URL
 * hash follows the phase, and the handlers that run the two pipeline stages.
 *
 * React's batching is modelled by applying the persistence effect once after
 * each batch of updates (before and after the awaited call of a handler).
 * The browser's location is the `hash` field; `pushes` counts the history
 * entries the app adds.
 */
module App {
  import opened Wrappers
  import opened Types
  import opened GeminiService

  // ------------------------------------------------------------ local storage

  const PhaseKey := "antigravity_phase"
  const AnalysisKey := "antigravity_analysis"
  const JobsKey := "antigravity_opportunities"
  const CvTextKey := "antigravity_cvText"
  const CountryKey := "antigravity_country"
  const RoleKey := "antigravity_selectedRole"
  const AlertKey := "antigravity_alert_active"

  const DefaultCountry := "United States"
  const AnalysisFailed := "Failed to decode CV. Please ensure the text is readable and try again."
  const SearchFailed := "Connection to job sector lost. Retrying orbital scan recommended."

  /** The six keys of a session (the alert flag is kept apart). */
  function SessionKeys(): set<string> {
    {PhaseKey, AnalysisKey, JobsKey, CvTextKey, CountryKey, RoleKey}
  }

  /**
   * A stored value: a plain string, a phase name, or the JSON text of an
   * analysis or of a job list (kept as the value it encodes).
   */
  datatype Stored = Str(text: string) | PhaseName(phase: AppPhase)
                  | AnalysisJson(analysis: CVAnalysis) | JobsJson(jobs: seq<JobOpportunity>)

  type Storage = map<string, Stored>

  /** The part of the state that is persisted. */
  datatype Session = Session(
    phase: AppPhase,
    analysis: Option<CVAnalysis>,
    opportunities: seq<JobOpportunity>,
    cvText: string,
    country: string,
    selectedRole: Option<string>)

  /** The state after `reset` (and of a first visit). */
  const Fresh := Session(Idle, None, [], "", DefaultCountry, None)

  /** JavaScript truthiness of an optional string. */
  predicate Truthy(v: Option<string>) {
    v.Some? && v.value != ""
  }

  /** The persistence effect: phase, CV text and country always; the others only when set. */
  function Persist(s: Storage, v: Session): Storage {
    var s1 := s[PhaseKey := PhaseName(v.phase)];
    var s2 := if v.analysis.Some? then s1[AnalysisKey := AnalysisJson(v.analysis.value)] else s1;
    var s3 := if |v.opportunities| > 0 then s2[JobsKey := JobsJson(v.opportunities)] else s2;
    var s4 := s3[CvTextKey := Str(v.cvText)][CountryKey := Str(v.country)];
    if Truthy(v.selectedRole) then s4[RoleKey := Str(v.selectedRole.value)] else s4
  }

  /** The keys `Persist` writes for a session. */
  function Written(v: Session): set<string> {
    {PhaseKey, CvTextKey, CountryKey}
    + (if v.analysis.Some? then {AnalysisKey} else {})
    + (if |v.opportunities| > 0 then {JobsKey} else {})
    + (if Truthy(v.selectedRole) then {RoleKey} else {})
  }

  /** `localStorage.getItem(key) || fallback` for a string entry. */
  function StringOr(s: Storage, key: string, fallback: string): string {
    if key in s && s[key].Str? && s[key].text != "" then s[key].text else fallback
  }

  /**
   * The lazy initial values of the state hooks: each stored value is taken
   * back, and a missing one (or an empty string) gives the default.
   */
  function Load(s: Storage): (v: Session)
    ensures PhaseKey in s && s[PhaseKey].PhaseName? ==> v.phase == s[PhaseKey].phase
    ensures PhaseKey !in s ==> v.phase == Idle
    ensures v.phase != Idle ==> PhaseKey in s && s[PhaseKey] == PhaseName(v.phase)
    ensures v.analysis.Some? <==> AnalysisKey in s && s[AnalysisKey].AnalysisJson?
    ensures v.analysis.Some? ==> s[AnalysisKey] == AnalysisJson(v.analysis.value)
    ensures v.opportunities != [] ==> JobsKey in s && s[JobsKey] == JobsJson(v.opportunities)
    ensures v.country != ""
    ensures v.country == DefaultCountry || (CountryKey in s && s[CountryKey] == Str(v.country))
    ensures CountryKey !in s || s[CountryKey] == Str("") ==> v.country == DefaultCountry
    ensures v.selectedRole.None? || (RoleKey in s && s[RoleKey] == Str(v.selectedRole.value) && v.selectedRole.value != "")
    ensures RoleKey !in s || s[RoleKey] == Str("") ==> v.selectedRole.None?
  {
    Session(
      if PhaseKey in s && s[PhaseKey].PhaseName? then s[PhaseKey].phase else Idle,
      if AnalysisKey in s && s[AnalysisKey].AnalysisJson? then Some(s[AnalysisKey].analysis) else None,
      if JobsKey in s && s[JobsKey].JobsJson? then s[JobsKey].jobs else [],
      StringOr(s, CvTextKey, ""),
      StringOr(s, CountryKey, DefaultCountry),
      if StringOr(s, RoleKey, "") != "" then Some(StringOr(s, RoleKey, "")) else None)
  }

  // ------------------------------------------------------------ URL hash

  /** The hash fragment (without `#`) a phase is shown under; `""` for the others. */
  function HashFor(p: AppPhase): (h: string)
    ensures h != "" <==> p == ReviewAnalysis || p == Results
    ensures h == "analysis" <==> p == ReviewAnalysis
    ensures h == "results" <==> p == Results
  {
    if p == ReviewAnalysis then "analysis" else if p == Results then "results" else ""
  }

  /** `handleNavigation`: the phase after a `popstate`/`hashchange` event for `hash`. */
  function NavigationPhase(hash: string, hasJobs: bool, hasAnalysis: bool, current: AppPhase): (p: AppPhase)
    ensures p == Results && current != Results ==> hash == "#results" && hasJobs
    ensures p == ReviewAnalysis && current != ReviewAnalysis ==> hash == "#analysis" && hasAnalysis
    ensures p == Idle && current != Idle ==> hash == "" || hash == "#"
    ensures hash == "" || hash == "#" ==> p == Idle
    ensures p != current ==> p in {Results, ReviewAnalysis, Idle}
  {
    if hash == "#results" && hasJobs then Results
    else if hash == "#analysis" && hasAnalysis then ReviewAnalysis
    else if hash == "" || hash == "#" then Idle
    else current
  }

  /** The mount effect that puts the hash back after a reload. */
  function RestoredHash(hash: string, p: AppPhase): string {
    if hash == "" && HashFor(p) != "" then "#" + HashFor(p) else hash
  }

  /** The image picked for analysis. */
  datatype CvImage = CvImage(mimeType: string, data: string)

  class AppState {
    var phase: AppPhase
    var analysis: Option<CVAnalysis>
    var opportunities: seq<JobOpportunity>
    var error: Option<string>
    var cvText: string
    var cvImage: Option<CvImage>
    var country: string
    var selectedRole: Option<string>
    var alertActive: bool
    var hash: string
    var pushes: nat
    var storage: Storage

    function Current(): Session
      reads this
    {
      Session(phase, analysis, opportunities, cvText, country, selectedRole)
    }

    /** Storage already holds what the persistence effect would write for the current session. */
    predicate Valid()
      reads this
    {
      Persist(storage, Current()) == storage
    }

    /** The CV handed to `analyzeCV`: the image when one is set, the text otherwise. */
    function Input(): CVInput
      reads this
    {
      if cvImage.Some? then ImageInput(cvImage.value.mimeType, cvImage.value.data) else TextInput(cvText)
    }

    /**
     * Mounting the app on a page whose storage is `stored` and whose hash is
     * `initialHash`: the hooks load, the alert flag is read, the
     * persistence effect runs and the hash is restored.
     */
    constructor(stored: Storage, initialHash: string)
      ensures Current() == Load(stored)
      ensures error.None? && cvImage.None?
      ensures alertActive <==> AlertKey in stored && stored[AlertKey] == Str("true")
      ensures hash == RestoredHash(initialHash, Load(stored).phase) && pushes == 0
      ensures storage == Persist(stored, Load(stored))
      ensures Valid()
    {
      var v := Load(stored);
      phase, analysis, opportunities := v.phase, v.analysis, v.opportunities;
      cvText, country, selectedRole := v.cvText, v.country, v.selectedRole;
      error, cvImage := None, None;
      alertActive := AlertKey in stored && stored[AlertKey] == Str("true");
      storage := Persist(stored, v);
      hash := RestoredHash(initialHash, v.phase);
      pushes := 0;
      PersistIdempotent(stored, v);
    }

    /** `navigateToPhase`: a history entry is added only when the hash actually changes. */
    method NavigateToPhase(p: AppPhase)
      modifies this
      ensures phase == p
      ensures hash == if HashFor(p) != "" then "#" + HashFor(p) else ""
      ensures pushes == if hash == old(hash) then old(pushes) else old(pushes) + 1
      ensures analysis == old(analysis) && opportunities == old(opportunities) && error == old(error)
      ensures cvText == old(cvText) && cvImage == old(cvImage) && country == old(country)
      ensures selectedRole == old(selectedRole) && alertActive == old(alertActive) && storage == old(storage)
    {
      phase := p;
      var h := HashFor(p);
      if h != "" {
        if hash != "#" + h {
          hash := "#" + h;
          pushes := pushes + 1;
        }
      } else {
        if hash != "" {
          hash := "";
          pushes := pushes + 1;
        }
      }
    }

    /** `handleNavigation`, run when the browser moves to an entry whose hash is `newHash`. */
    method HandleNavigation(newHash: string)
      requires Valid()
      modifies this
      ensures hash == newHash && pushes == old(pushes)
      ensures phase == NavigationPhase(newHash, |old(opportunities)| > 0, old(analysis).Some?, old(phase))
      ensures Current() == old(Current()).(phase := phase)
      ensures error == old(error) && cvImage == old(cvImage) && alertActive == old(alertActive)
      ensures storage == Persist(old(storage), Current())
      ensures Valid()
    {
      hash := newHash;
      phase := NavigationPhase(newHash, |opportunities| > 0, analysis.Some?, phase);
      storage := Persist(storage, Current());
      PersistIdempotent(old(storage), Current());
    }

    /**
     * `handleAnalysis`: the country gets its default, the phase becomes
     * analysing, then the analysis either opens the review (with its hash)
     * or leaves the fixed error message and the idle phase.
     */
    method HandleAnalysis(clientFault: Option<Exception>,
                          generate: (seq<Part>, nat) -> Result<string, Exception>,
                          parse: string -> Result<CVAnalysis, Exception>)
      returns (ghost tries: nat)
      requires Valid()
      modifies this
      ensures phase == ReviewAnalysis || phase == Idle
      ensures phase == ReviewAnalysis <==>
                clientFault.None? &&
                exists k :: 0 <= k < Attempts && AnalysisAttempt(generate(Contents(old(Input())), k), parse).Success?
      ensures phase == ReviewAnalysis ==>
                && error.None? && hash == "#analysis" && analysis.Some?
                && 1 <= tries <= Attempts
                && (forall k :: 0 <= k < tries - 1 ==> AnalysisAttempt(generate(Contents(old(Input())), k), parse).Failure?)
                && AnalysisAttempt(generate(Contents(old(Input())), tries - 1), parse) == Success(analysis.value)
                && pushes == old(pushes) + (if old(hash) == "#analysis" then 0 else 1)
      ensures phase == Idle ==>
                error == Some(AnalysisFailed) && analysis == old(analysis) && hash == old(hash) && pushes == old(pushes)
      ensures country == if old(country) == "" then DefaultCountry else old(country)
      ensures opportunities == old(opportunities) && selectedRole == old(selectedRole)
      ensures cvText == old(cvText) && cvImage == old(cvImage) && alertActive == old(alertActive)
      ensures storage == Persist(Persist(old(storage), old(Current()).(phase := Analyzing, country := country)), Current())
      ensures Valid()
    {
      var input := Input();
      BeginAnalysis();
      var r, n, delays := AnalyzeCV(input, clientFault, generate, parse);
      tries := n;
      FinishAnalysis(r);
    }

    /** The updates `handleAnalysis` makes before it awaits the analysis, and the effect that follows them. */
    method BeginAnalysis()
      requires Valid()
      modifies this
      ensures Current() == old(Current()).(phase := Analyzing, country := if old(country) == "" then DefaultCountry else old(country))
      ensures error.None? && storage == Persist(old(storage), Current())
      ensures cvImage == old(cvImage) && alertActive == old(alertActive) && hash == old(hash) && pushes == old(pushes)
      ensures Valid()
    {
      if country == "" {
        country := DefaultCountry;
      }
      phase := Analyzing;
      error := None;
      storage := Persist(storage, Current());
      PersistIdempotent(old(storage), Current());
    }

    /** The updates `handleAnalysis` makes once the analysis is settled, and the effect that follows them. */
    method FinishAnalysis(r: Result<CVAnalysis, Exception>)
      requires Valid()
      modifies this
      ensures r.Success? ==> Current() == old(Current()).(phase := ReviewAnalysis, analysis := Some(r.value))
      ensures r.Success? ==> error == old(error) && hash == "#analysis"
      ensures r.Success? ==> pushes == if old(hash) == hash then old(pushes) else old(pushes) + 1
      ensures r.Failure? ==> Current() == old(Current()).(phase := Idle)
      ensures r.Failure? ==> error == Some(AnalysisFailed) && hash == old(hash) && pushes == old(pushes)
      ensures storage == Persist(old(storage), Current())
      ensures cvImage == old(cvImage) && alertActive == old(alertActive)
      ensures Valid()
    {
      if r.Success? {
        analysis := Some(r.value);
        NavigateToPhase(ReviewAnalysis);
      } else {
        error := Some(AnalysisFailed);
        phase := Idle;
      }
      storage := Persist(storage, Current());
      PersistIdempotent(old(storage), Current());
    }

    /**
     * `handleSearch`: nothing happens without an analysis. Otherwise the
     * role is chosen, the phase becomes searching, and the sweep either
     * opens the results (with their hash), which are then the sweep's jobs
     * (`jobs`, after `tries` attempts with the waits `delays`), or returns
     * to the review with the fixed error message and the old jobs.
     */
    method HandleSearch(specificRole: Option<string>, clientFault: Option<Exception>,
                        search: (SearchRequest, nat) -> Result<SearchReply, Exception>,
                        clock: nat -> nat, enc: string -> string)
      returns (ghost jobs: seq<JobOpportunity>, ghost tries: nat, ghost delays: seq<nat>)
      requires Valid()
      modifies this
      ensures old(analysis).None? ==> Current() == old(Current()) && storage == old(storage)
      ensures old(analysis).None? ==> error == old(error) && hash == old(hash) && pushes == old(pushes)
      ensures old(analysis).Some? ==> selectedRole == TargetRole(specificRole, old(analysis).value)
      ensures old(analysis).Some? && clientFault.None? ==>
                && phase == Results && error.None? && hash == "#results" && opportunities == jobs && |jobs| > 0
                && pushes == old(pushes) + (if old(hash) == "#results" then 0 else 1)
                && SweepOutcome(old(analysis).value, old(country), selectedRole, search,
                                SearchRequestOf(old(analysis).value, old(country), selectedRole),
                                clock, enc, jobs, tries, delays)
      ensures old(analysis).Some? && clientFault.Some? ==>
                && phase == ReviewAnalysis && error == Some(SearchFailed) && opportunities == old(opportunities)
                && hash == old(hash) && pushes == old(pushes)
      ensures old(analysis).Some? ==>
                storage == Persist(Persist(old(storage), old(Current()).(phase := Searching, selectedRole := selectedRole)),
                                   Current())
      ensures analysis == old(analysis) && cvText == old(cvText) && country == old(country)
      ensures cvImage == old(cvImage) && alertActive == old(alertActive)
      ensures Valid()
    {
      if analysis.None? {
        return [], 0, [];
      }
      var a, c, role := analysis.value, country, TargetRole(specificRole, analysis.value);
      BeginSearch(role);
      var r;
      r, tries, delays := SearchOpportunities(a, c, role, clientFault, search, clock, enc);
      jobs := if r.Success? then r.value else [];
      FinishSearch(r);
    }

    /** The updates `handleSearch` makes before it awaits the sweep, and the effect that follows them. */
    method BeginSearch(role: Option<string>)
      requires Valid()
      modifies this
      ensures Current() == old(Current()).(phase := Searching, selectedRole := role)
      ensures error.None? && storage == Persist(old(storage), Current())
      ensures cvImage == old(cvImage) && alertActive == old(alertActive) && hash == old(hash) && pushes == old(pushes)
      ensures Valid()
    {
      phase := Searching;
      error := None;
      selectedRole := role;
      storage := Persist(storage, Current());
      PersistIdempotent(old(storage), Current());
    }

    /** The updates `handleSearch` makes once the sweep is settled, and the effect that follows them. */
    method FinishSearch(r: Result<seq<JobOpportunity>, Exception>)
      requires Valid()
      modifies this
      ensures r.Success? ==> Current() == old(Current()).(phase := Results, opportunities := r.value)
      ensures r.Success? ==> error == old(error) && hash == "#results"
      ensures r.Success? ==> pushes == if old(hash) == hash then old(pushes) else old(pushes) + 1
      ensures r.Failure? ==> Current() == old(Current()).(phase := ReviewAnalysis)
      ensures r.Failure? ==> error == Some(SearchFailed) && hash == old(hash) && pushes == old(pushes)
      ensures storage == Persist(old(storage), Current())
      ensures cvImage == old(cvImage) && alertActive == old(alertActive)
      ensures Valid()
    {
      if r.Success? {
        opportunities := r.value;
        NavigateToPhase(Results);
      } else {
        error := Some(SearchFailed);
        phase := ReviewAnalysis;
      }
      storage := Persist(storage, Current());
      PersistIdempotent(old(storage), Current());
    }

    /** `handleSubscribe`: the flag is set and stored as `'true'`. */
    method HandleSubscribe()
      requires Valid()
      modifies this
      ensures alertActive && storage == old(storage)[AlertKey := Str("true")]
      ensures Current() == old(Current()) && error == old(error) && cvImage == old(cvImage)
      ensures hash == old(hash) && pushes == old(pushes)
      ensures Valid()
    {
      alertActive := true;
      storage := storage[AlertKey := Str("true")];
      PersistOtherKey(old(storage), Current(), AlertKey, Some(Str("true")));
    }

    /** `handleUnsubscribe`: the flag is cleared and its key removed. */
    method HandleUnsubscribe()
      requires Valid()
      modifies this
      ensures !alertActive && storage == old(storage) - {AlertKey}
      ensures Current() == old(Current()) && error == old(error) && cvImage == old(cvImage)
      ensures hash == old(hash) && pushes == old(pushes)
      ensures Valid()
    {
      alertActive := false;
      storage := storage - {AlertKey};
      PersistOtherKey(old(storage), Current(), AlertKey, None);
    }

    /**
     * `reset`: the session returns to its first-visit values, the six keys
     * are removed, a history entry without hash is pushed, and the
     * persistence effect then writes the fresh phase, CV text and country.
     */
    method Reset()
      modifies this
      ensures Current() == Fresh && error.None? && cvImage.None?
      ensures hash == "" && pushes == old(pushes) + 1
      ensures alertActive == old(alertActive)
      ensures storage == Persist(old(storage) - SessionKeys(), Fresh)
      ensures Valid()
    {
      phase, analysis, opportunities, error := Idle, None, [], None;
      country, cvText, cvImage, selectedRole := DefaultCountry, "", None, None;
      var cleared := storage - SessionKeys();
      hash := "";
      pushes := pushes + 1;
      storage := Persist(cleared, Current());
      PersistIdempotent(cleared, Current());
    }
  }

  // ------------------------------------------------------------ lemmas the class needs

  /** Persisting twice is persisting once: storage is a fixed point after the effect. */
  lemma PersistIdempotent(s: Storage, v: Session)
    ensures Persist(Persist(s, v), v) == Persist(s, v)
  {
    PersistEntries(s, v);
    PersistEntries(Persist(s, v), v);
  }

  /** Exactly the `Written` keys are set, to their values; every other entry is left as it was. */
  lemma PersistEntries(s: Storage, v: Session)
    ensures Persist(s, v).Keys == s.Keys + Written(v)
    ensures forall k :: k in s && k !in Written(v) ==> Persist(s, v)[k] == s[k]
    ensures Persist(s, v)[PhaseKey] == PhaseName(v.phase)
    ensures Persist(s, v)[CvTextKey] == Str(v.cvText) && Persist(s, v)[CountryKey] == Str(v.country)
    ensures v.analysis.Some? ==> Persist(s, v)[AnalysisKey] == AnalysisJson(v.analysis.value)
    ensures |v.opportunities| > 0 ==> Persist(s, v)[JobsKey] == JobsJson(v.opportunities)
    ensures Truthy(v.selectedRole) ==> Persist(s, v)[RoleKey] == Str(v.selectedRole.value)
  {
  }

  /** Changing a key outside the session commutes with the persistence effect. */
  lemma PersistOtherKey(s: Storage, v: Session, k: string, x: Option<Stored>)
    requires k !in SessionKeys()
    requires Persist(s, v) == s
    ensures var t := if x.Some? then s[k := x.value] else s - {k};
            Persist(t, v) == t
  {
    var t := if x.Some? then s[k := x.value] else s - {k};
    PersistEntries(s, v);
    PersistEntries(t, v);
    assert Persist(t, v).Keys == t.Keys;
  }
}

/** What the persistence, reload and navigation rules of the page promise. */
module AppFacts {
  import opened Wrappers
  import opened Types
  import opened App

  /**
   * Reloading the page restores the session that was persisted: phase and
   * CV text always, the country unless empty, and the analysis, the jobs
   * and the role whenever they were set; an unset one comes back as it was
   * stored before.
   */
  lemma ReloadRestores(s: Storage, v: Session)
    ensures var w := Load(Persist(s, v));
            && w.phase == v.phase
            && (v.cvText != "" ==> w.cvText == v.cvText)
            && (v.country != "" ==> w.country == v.country)
            && (v.analysis.Some? ==> w.analysis == v.analysis)
            && (v.analysis.None? ==> w.analysis == Load(s).analysis)
            && (|v.opportunities| > 0 ==> w.opportunities == v.opportunities)
            && (|v.opportunities| == 0 ==> w.opportunities == Load(s).opportunities)
            && (Truthy(v.selectedRole) ==> w.selectedRole == v.selectedRole)
            && (!Truthy(v.selectedRole) ==> w.selectedRole == Load(s).selectedRole)
  {
    PersistEntries(s, v);
  }

  /** After `reset` a reload gives the first-visit session, whatever was stored before. */
  lemma ResetReloadsFresh(s: Storage)
    ensures Load(Persist(s - SessionKeys(), Fresh)) == Fresh
    ensures AnalysisKey !in Persist(s - SessionKeys(), Fresh)
    ensures JobsKey !in Persist(s - SessionKeys(), Fresh)
    ensures RoleKey !in Persist(s - SessionKeys(), Fresh)
  {
    PersistEntries(s - SessionKeys(), Fresh);
  }

  /** The storage of every session kept by `AppState` reloads to it (given a country and a set role). */
  lemma ValidReloads(s: Storage, v: Session)
    requires Persist(s, v) == s
    requires v.country != "" && v.analysis.Some? && |v.opportunities| > 0 && Truthy(v.selectedRole)
    ensures Load(s) == Session(v.phase, v.analysis, v.opportunities, StringOr(s, CvTextKey, ""), v.country, v.selectedRole)
    ensures Load(s).cvText == v.cvText
  {
    PersistEntries(s, v);
  }

  /**
   * The hash a phase is shown under leads back to that phase when its data
   * is there; without the data the event leaves the phase alone.
   */
  lemma HashRoundTrip(p: AppPhase, hasJobs: bool, hasAnalysis: bool, current: AppPhase)
    requires HashFor(p) != ""
    ensures p == Results && hasJobs ==> NavigationPhase("#" + HashFor(p), hasJobs, hasAnalysis, current) == p
    ensures p == ReviewAnalysis && hasAnalysis ==> NavigationPhase("#" + HashFor(p), hasJobs, hasAnalysis, current) == p
    ensures NavigationPhase("#" + HashFor(p), hasJobs, hasAnalysis, current) in {p, current}
  {
  }

  /**
   * The `hashchange` event that `navigateToPhase` fires by setting the hash
   * never moves the app away from the phase it just set, whatever data the
   * listener sees.
   */
  lemma NavigationEventHarmless(p: AppPhase, hasJobs: bool, hasAnalysis: bool)
    requires HashFor(p) != ""
    ensures NavigationPhase("#" + HashFor(p), hasJobs, hasAnalysis, p) == p
  {
  }

  /** After a reload with no hash, the restored hash leads back to the restored phase. */
  lemma RestoredHashLeadsBack(p: AppPhase, hasJobs: bool, hasAnalysis: bool)
    requires p == Results ==> hasJobs
    requires p == ReviewAnalysis ==> hasAnalysis
    requires HashFor(p) != ""
    ensures NavigationPhase(RestoredHash("", p), hasJobs, hasAnalysis, Idle) == p
  {
  }
}
