/**
 * The scheduled alert sweep (`supabase/functions/check-alerts/index.ts`).
 * The store, the model's search endpoint, the JSON parser, the mail service
 * and the clock are oracles; the sweep itself is the loop over the active
 * alerts, in store order, with its skip rules and its bookkeeping: the list
 * of results and the `last_alerted_at` column, kept as a map from alert id
 * to timestamp.
 */
module CheckAlerts {
  import opened Wrappers
  import opened Text
  import opened Seqs
  import opened Types

  /** A row of the `job_alerts` table. */
  datatype Alert = Alert(id: string, email: string, role: string, country: string, isActive: bool)

  /** One job of an alert mail: the keys the search prompt asks for. */
  datatype AlertJob = AlertJob(title: string, company: string, url: string)

  /** What the mail service is handed (the styling of the mail is not modelled). */
  datatype Email = Email(to: string, subject: string, role: string, country: string, jobCount: nat, listHtml: string)

  /** The mail call either throws or answers with `res.ok` and the body text. */
  datatype SendOutcome = Threw(error: Exception) | Replied(ok: bool, body: string)

  /** One element of `results`. */
  datatype Entry = Sent(email: string, jobsFound: nat) | Failed(email: string, error: string) | SkippedNoKey(email: string)

  /** The HTTP answer: the preflight `ok`, the 200 with the results, or the 400 with an error message. */
  datatype Response = Preflight | Ok(results: seq<Entry>) | BadRequest(message: string)

  /**
   * The environment of one run. `geminiKey`/`resendKey` are the two
   * variables (absent or empty counts as missing); `search(alert)` is the
   * reply text of the model (`""` when it has none) or the thrown error;
   * `now(i)` is the timestamp written while handling the `i`-th active alert.
   */
  datatype Services = Services(
    geminiKey: Option<string>,
    resendKey: Option<string>,
    search: Alert -> Result<string, Exception>,
    parseJson: string -> Result<seq<AlertJob>, Exception>,
    send: Email -> SendOutcome,
    enc: string -> string,
    now: nat -> string)

  function Status(e: Entry): string {
    match e
    case Sent(_, _) => "sent"
    case Failed(_, _) => "failed"
    case SkippedNoKey(_) => "skipped (no email key)"
  }

  function StatusCode(r: Response): nat {
    if r.BadRequest? then 400 else 200
  }

  predicate KeyPresent(key: Option<string>) {
    key.Some? && key.value != ""
  }

  function IsActive(a: Alert): bool {
    a.isActive
  }

  /** The rows the `is_active = true` query returns, in store order. */
  function ActiveAlerts(rows: seq<Alert>): seq<Alert> {
    Filter(rows, IsActive)
  }

  // ------------------------------------------------------------ one alert

  /**
   * `text.match(/\[.*\]/s)?.[0]`: from the first `[` to the last `]`, when
   * that `]` comes after that `[`.
   */
  function JsonCandidate(text: string): Option<string> {
    match (FirstIndexOf(text, '['), LastIndexOf(text, ']'))
    case (Some(i), Some(j)) => if i < j then Some(text[i..j + 1]) else None
    case _ => None
  }

  /** The single entry used when the reply holds no bracketed text. */
  function FallbackJob(alert: Alert, enc: string -> string): AlertJob {
    AlertJob(alert.role + " Opportunities", "Various",
             "https://www.google.com/search?q=" + enc(alert.role + " jobs in " + alert.country))
  }

  /** The jobs found for an alert, or `None` when the search step threw and the alert is skipped. */
  function JobsFor(alert: Alert, svc: Services): Option<seq<AlertJob>> {
    if !KeyPresent(svc.geminiKey) then None
    else
      match svc.search(alert)
      case Failure(_) => None
      case Success(text) =>
        match JsonCandidate(text)
        case None => Some([FallbackJob(alert, svc.enc)])
        case Some(candidate) =>
          match svc.parseJson(candidate)
          case Failure(_) => None
          case Success(jobs) => Some(jobs)
  }

  /** One list item per job. */
  function ListItem(j: AlertJob): string {
    "<li><a href=\"" + j.url + "\"><strong>" + j.title + "</strong> at " + j.company + "</a></li>"
  }

  function ListHtml(jobs: seq<AlertJob>): string {
    if jobs == [] then "" else ListItem(jobs[0]) + ListHtml(jobs[1..])
  }

  function Subject(count: nat, role: string): string {
    "JobNado Alert: " + NatToString(count) + (" New " + role + " Jobs")
  }

  function EmailFor(alert: Alert, jobs: seq<AlertJob>): Email {
    Email(alert.email, Subject(|jobs|, alert.role), alert.role, alert.country, |jobs|, ListHtml(jobs))
  }

  /** What handling one alert does to the run. */
  datatype Step = Skip | Append(entry: Entry, touch: bool) | Abort(error: Exception)

  function StepOf(alert: Alert, svc: Services): Step {
    match JobsFor(alert, svc)
    case None => Skip
    case Some(jobs) =>
      if |jobs| == 0 then Skip
      else if !KeyPresent(svc.resendKey) then Append(SkippedNoKey(alert.email), false)
      else
        match svc.send(EmailFor(alert, jobs))
        case Threw(e) => Abort(e)
        case Replied(ok, body) =>
          if ok then Append(Sent(alert.email, |jobs|), true) else Append(Failed(alert.email, body), false)
  }

  /** The results entry a step appends. */
  function Appended(step: Step): seq<Entry> {
    match step
    case Append(e, _) => [e]
    case _ => []
  }

  /** The timestamps after a step on the `i`-th alert. */
  function Stamped(m: map<string, string>, alert: Alert, i: nat, step: Step, svc: Services): map<string, string> {
    match step
    case Append(_, true) => m[alert.id := svc.now(i)]
    case _ => m
  }

  /** The body of the loop for the `i`-th active alert. */
  method HandleAlert(alert: Alert, i: nat, svc: Services, results: seq<Entry>, lastAlerted: map<string, string>)
    returns (abort: Option<Exception>, results': seq<Entry>, lastAlerted': map<string, string>)
    ensures abort.Some? <==> StepOf(alert, svc).Abort?
    ensures StepOf(alert, svc).Abort? ==>
              abort == Some(StepOf(alert, svc).error) && results' == results && lastAlerted' == lastAlerted
    ensures !StepOf(alert, svc).Abort? ==>
              && abort.None?
              && results' == results + Appended(StepOf(alert, svc))
              && lastAlerted' == Stamped(lastAlerted, alert, i, StepOf(alert, svc), svc)
  {
    abort, results', lastAlerted' := None, results, lastAlerted;
    // the inner try: any throw skips the alert
    var jobs: seq<AlertJob>;
    if !KeyPresent(svc.geminiKey) {
      return;
    }
    var reply := svc.search(alert);
    if reply.Failure? {
      return;
    }
    var candidate := JsonCandidate(reply.value);
    if candidate.Some? {
      var parsed := svc.parseJson(candidate.value);
      if parsed.Failure? {
        return;
      }
      jobs := parsed.value;
    } else {
      jobs := [FallbackJob(alert, svc.enc)];
    }
    assert JobsFor(alert, svc) == Some(jobs);
    if |jobs| == 0 {
      return;
    }
    if KeyPresent(svc.resendKey) {
      var outcome := svc.send(EmailFor(alert, jobs));
      if outcome.Threw? {
        return Some(outcome.error), results, lastAlerted;
      }
      if outcome.ok {
        results' := results + [Sent(alert.email, |jobs|)];
        lastAlerted' := lastAlerted[alert.id := svc.now(i)];
      } else {
        results' := results + [Failed(alert.email, outcome.body)];
      }
    } else {
      results' := results + [SkippedNoKey(alert.email)];
    }
  }

  // ------------------------------------------------------------ the whole sweep

  /** The results a run appends for `alerts`, provided none of them aborts it. */
  function Entries(alerts: seq<Alert>, svc: Services): seq<Entry> {
    if alerts == [] then []
    else
      Entries(alerts[..|alerts| - 1], svc) + Appended(StepOf(alerts[|alerts| - 1], svc))
  }

  /** The `last_alerted_at` column after handling `alerts`. */
  function Touch(stored: map<string, string>, alerts: seq<Alert>, svc: Services): map<string, string> {
    if alerts == [] then stored
    else
      var i := |alerts| - 1;
      Stamped(Touch(stored, alerts[..i], svc), alerts[i], i, StepOf(alerts[i], svc), svc)
  }

  /** The position of the first alert whose mail call throws. */
  function FirstAbort(alerts: seq<Alert>, svc: Services): (r: Option<nat>)
    ensures r.Some? ==> r.value < |alerts| && StepOf(alerts[r.value], svc).Abort?
                        && forall k :: 0 <= k < r.value ==> !StepOf(alerts[k], svc).Abort?
    ensures r.None? ==> forall k :: 0 <= k < |alerts| ==> !StepOf(alerts[k], svc).Abort?
  {
    if alerts == [] then None
    else if StepOf(alerts[0], svc).Abort? then Some(0)
    else match FirstAbort(alerts[1..], svc)
         case Some(k) => Some(k + 1)
         case None => None
  }

  lemma PrefixStep(alerts: seq<Alert>, i: nat, svc: Services, stored: map<string, string>)
    requires i < |alerts|
    ensures Entries(alerts[..i + 1], svc) == Entries(alerts[..i], svc) + Appended(StepOf(alerts[i], svc))
    ensures Touch(stored, alerts[..i + 1], svc) ==
              Stamped(Touch(stored, alerts[..i], svc), alerts[i], i, StepOf(alerts[i], svc), svc)
  {
    assert alerts[..i + 1][..i] == alerts[..i];
  }

  /**
   * The loop over the active alerts: it runs to the end with every result
   * appended, or stops at the first alert whose mail call throws.
   */
  method SweepAlerts(alerts: seq<Alert>, svc: Services, stored: map<string, string>)
    returns (abort: Option<Exception>, results: seq<Entry>, lastAlerted: map<string, string>)
    ensures FirstAbort(alerts, svc).None? ==>
              abort.None? && results == Entries(alerts, svc) && lastAlerted == Touch(stored, alerts, svc)
    ensures FirstAbort(alerts, svc).Some? ==>
              var k := FirstAbort(alerts, svc).value;
              abort == Some(StepOf(alerts[k], svc).error) && lastAlerted == Touch(stored, alerts[..k], svc)
  {
    results, lastAlerted := [], stored;
    var i := 0;
    while i < |alerts|
      invariant 0 <= i <= |alerts|
      invariant forall k :: 0 <= k < i ==> !StepOf(alerts[k], svc).Abort?
      invariant results == Entries(alerts[..i], svc)
      invariant lastAlerted == Touch(stored, alerts[..i], svc)
    {
      PrefixStep(alerts, i, svc, stored);
      abort, results, lastAlerted := HandleAlert(alerts[i], i, svc, results, lastAlerted);
      if abort.Some? {
        assert FirstAbort(alerts, svc) == Some(i);
        return;
      }
      assert forall k :: 0 <= k < i + 1 ==> !StepOf(alerts[k], svc).Abort?;
      i := i + 1;
    }
    assert alerts[..i] == alerts;
    abort := None;
  }

  /** The answer of a run over the store's rows, and the timestamps it leaves behind. */
  function RunSpec(rows: seq<Alert>, svc: Services, stored: map<string, string>): (Response, map<string, string>) {
    var active := ActiveAlerts(rows);
    match FirstAbort(active, svc)
    case None => (Ok(Entries(active, svc)), Touch(stored, active, svc))
    case Some(k) => (BadRequest(StepOf(active[k], svc).error.message), Touch(stored, active[..k], svc))
  }

  /**
   * The handler: the preflight answer, the store query, then the serial
   * loop over the active alerts.
   */
  method CheckAlerts(requestMethod: string, rows: seq<Alert>, storeFault: Option<Exception>, svc: Services,
                     stored: map<string, string>)
    returns (response: Response, lastAlerted: map<string, string>)
    ensures requestMethod == "OPTIONS" ==> response == Preflight && lastAlerted == stored
    ensures requestMethod != "OPTIONS" && storeFault.Some? ==>
              response == BadRequest(storeFault.value.message) && lastAlerted == stored
    ensures requestMethod != "OPTIONS" && storeFault.None? ==> (response, lastAlerted) == RunSpec(rows, svc, stored)
  {
    if requestMethod == "OPTIONS" {
      return Preflight, stored;
    }
    if storeFault.Some? {
      return BadRequest(storeFault.value.message), stored;
    }
    var abort, results;
    abort, results, lastAlerted := SweepAlerts(ActiveAlerts(rows), svc, stored);
    response := if abort.Some? then BadRequest(abort.value.message) else Ok(results);
  }
}

/** What is proved about the alert sweep. */
module CheckAlertsFacts {
  import opened Wrappers
  import opened Text
  import opened Seqs
  import opened Types
  import opened CheckAlerts

  /** Exactly the active rows are handled, and in store order. */
  lemma ActiveRows(rows: seq<Alert>, more: seq<Alert>, a: Alert)
    ensures a in ActiveAlerts(rows) <==> a in rows && a.isActive
    ensures ActiveAlerts(rows + more) == ActiveAlerts(rows) + ActiveAlerts(more)
  {
    FilterMembership(rows, IsActive, a);
    FilterConcat(rows, more, IsActive);
  }

  /**
   * The JSON candidate exists exactly when some `[` precedes some `]`; it
   * then runs from the first `[` to the last `]` of the text.
   */
  lemma JsonCandidateExactly(text: string)
    ensures JsonCandidate(text).Some? <==>
              exists p, q :: 0 <= p < q < |text| && text[p] == '[' && text[q] == ']'
    ensures JsonCandidate(text).Some? ==>
              exists i, j :: 0 <= i < j < |text| && JsonCandidate(text).value == text[i..j + 1]
                && text[i] == '[' && text[j] == ']' && '[' !in text[..i] && ']' !in text[j + 1..]
  {
    var first := FirstIndexOf(text, '[');
    var last := LastIndexOf(text, ']');
    if JsonCandidate(text).Some? {
      var i, j := first.value, last.value;
      assert '[' !in text[..i] by {
        forall k | 0 <= k < i ensures text[..i][k] != '[' { }
      }
      assert ']' !in text[j + 1..] by {
        var tail := text[j + 1..];
        forall k | 0 <= k < |tail| ensures tail[k] != ']' {
          assert tail[k] == text[j + 1 + k];
        }
      }
    }
    if exists p, q :: 0 <= p < q < |text| && text[p] == '[' && text[q] == ']' {
      var p, q :| 0 <= p < q < |text| && text[p] == '[' && text[q] == ']';
      assert text[p] in text && text[q] in text;
      assert first.value <= p && q <= last.value;
    }
  }

  /** A search whose reply has no bracketed text still yields one job: the search link. */
  lemma NoBracketFallback(alert: Alert, svc: Services, text: string)
    requires KeyPresent(svc.geminiKey) && svc.search(alert) == Success(text)
    requires forall p, q :: 0 <= p < q < |text| && text[p] == '[' ==> text[q] != ']'
    ensures JobsFor(alert, svc) == Some([FallbackJob(alert, svc.enc)])
    ensures !StepOf(alert, svc).Skip?
  {
    JsonCandidateExactly(text);
  }

  /**
   * Every failure of the search step skips the alert without a trace: a
   * missing key, a failed fetch, an unparsable JSON candidate, and an empty
   * job list.
   */
  lemma SearchFailuresSkip(alert: Alert, svc: Services)
    ensures !KeyPresent(svc.geminiKey) ==> StepOf(alert, svc) == Skip
    ensures svc.search(alert).Failure? ==> StepOf(alert, svc) == Skip
    ensures KeyPresent(svc.geminiKey) && svc.search(alert).Success?
              && JsonCandidate(svc.search(alert).value).Some?
              && svc.parseJson(JsonCandidate(svc.search(alert).value).value).Failure? ==>
              StepOf(alert, svc) == Skip
    ensures JobsFor(alert, svc) == Some([]) ==> StepOf(alert, svc) == Skip
  {
  }

  /** The timestamp is written exactly for a 'sent' entry, which reports a non-zero count. */
  lemma StampOnlyWhenSent(alert: Alert, svc: Services)
    ensures StepOf(alert, svc).Append? ==> (StepOf(alert, svc).touch <==> StepOf(alert, svc).entry.Sent?)
    ensures StepOf(alert, svc).Append? && StepOf(alert, svc).entry.Sent? ==>
              && JobsFor(alert, svc).Some?
              && StepOf(alert, svc).entry.jobsFound == |JobsFor(alert, svc).value| > 0
              && KeyPresent(svc.resendKey)
              && svc.send(EmailFor(alert, JobsFor(alert, svc).value)).Replied?
              && svc.send(EmailFor(alert, JobsFor(alert, svc).value)).ok
  {
  }

  /** Whatever is sent, failed or skipped for lack of a key, the mail step ran on a non-empty list. */
  lemma EntriesNeedJobs(alert: Alert, svc: Services)
    ensures StepOf(alert, svc).Append? ==> JobsFor(alert, svc).Some? && |JobsFor(alert, svc).value| > 0
    ensures StepOf(alert, svc).Append? && StepOf(alert, svc).entry.SkippedNoKey? <==>
              JobsFor(alert, svc).Some? && |JobsFor(alert, svc).value| > 0 && !KeyPresent(svc.resendKey)
  {
  }

  /** A timestamp changes only for an alert whose mail was accepted. */
  lemma {:induction false} TouchOnlySent(stored: map<string, string>, alerts: seq<Alert>, svc: Services, id: string)
    requires id in Touch(stored, alerts, svc) && (id !in stored || Touch(stored, alerts, svc)[id] != stored[id])
    ensures exists k :: 0 <= k < |alerts| && alerts[k].id == id && StepOf(alerts[k], svc).Append?
                          && StepOf(alerts[k], svc).entry.Sent?
  {
    if alerts != [] {
      var i := |alerts| - 1;
      var before := Touch(stored, alerts[..i], svc);
      var step := StepOf(alerts[i], svc);
      StampOnlyWhenSent(alerts[i], svc);
      if !(step.Append? && step.touch && alerts[i].id == id) {
        assert id in before && Touch(stored, alerts, svc)[id] == before[id];
        TouchOnlySent(stored, alerts[..i], svc, id);
        var k :| 0 <= k < i && alerts[..i][k].id == id && StepOf(alerts[..i][k], svc).Append?
                 && StepOf(alerts[..i][k], svc).entry.Sent?;
        assert alerts[..i][k] == alerts[k];
      }
    }
  }

  /** Every alert whose mail was accepted has a timestamp afterwards. */
  lemma {:induction false} SentAreStamped(stored: map<string, string>, alerts: seq<Alert>, svc: Services, k: nat)
    requires k < |alerts| && StepOf(alerts[k], svc).Append? && StepOf(alerts[k], svc).entry.Sent?
    ensures alerts[k].id in Touch(stored, alerts, svc)
  {
    var i := |alerts| - 1;
    StampOnlyWhenSent(alerts[k], svc);
    if k < i {
      assert alerts[..i][k] == alerts[k];
      SentAreStamped(stored, alerts[..i], svc, k);
    }
  }

  /** At most one entry per alert; every 'sent' entry reports at least one job. */
  lemma {:induction false} EntriesBounds(alerts: seq<Alert>, svc: Services)
    ensures |Entries(alerts, svc)| <= |alerts|
    ensures forall e :: e in Entries(alerts, svc) && e.Sent? ==> e.jobsFound > 0
  {
    if alerts != [] {
      var i := |alerts| - 1;
      EntriesBounds(alerts[..i], svc);
      StampOnlyWhenSent(alerts[i], svc);
    }
  }

  /** The mail lists the jobs in order, one item each. */
  lemma {:induction false} ListHtmlConcat(a: seq<AlertJob>, b: seq<AlertJob>)
    ensures ListHtml(a + b) == ListHtml(a) + ListHtml(b)
  {
    if a != [] {
      assert (a + b)[1..] == a[1..] + b;
      ListHtmlConcat(a[1..], b);
    } else {
      assert a + b == b;
    }
  }

  /** The subject and the body report the number of jobs. */
  lemma SubjectCount(alert: Alert, jobs: seq<AlertJob>)
    ensures EmailFor(alert, jobs).jobCount == |jobs|
    ensures Contains(EmailFor(alert, jobs).subject, NatToString(|jobs|))
    ensures EmailFor(alert, jobs).listHtml == ListHtml(jobs)
  {
    ContainsWithin("JobNado Alert: ", NatToString(|jobs|), " New " + alert.role + " Jobs");
  }

  /** A run aborted by a throwing mail call answers 400, keeping the timestamps written before it. */
  lemma AbortAnswers400(rows: seq<Alert>, svc: Services, stored: map<string, string>)
    requires FirstAbort(ActiveAlerts(rows), svc).Some?
    ensures StatusCode(RunSpec(rows, svc, stored).0) == 400
    ensures RunSpec(rows, svc, stored).1 ==
              Touch(stored, ActiveAlerts(rows)[..FirstAbort(ActiveAlerts(rows), svc).value], svc)
  {
  }
}
