/** The replay verdict: the decision table, what a judge can and cannot change in
    it, and what re-judging changes. JSON documents are their decoded contents,
    None where decoding fails; a judge is any function. */
module Verdicts {
  import opened RoomTypes

  const METRIC_TOLERANCE := 0.000000001
  const COLUMN_NONE := 0
  const MAX_INT16 := 32767

  datatype RunStatus = Pending | Accepted | Flagged | Rejected

  datatype ReplayError = UnknownDict | UnknownQuote(detail: string) | TimedOut(detail: string) | Failed(detail: string)

  datatype ClientMetrics = ClientMetrics(wpm: Option<real>, raw: Option<real>, acc: Option<real>)

  datatype ServerMetrics = ServerMetrics(wpm: real, raw: real, accuracy: real)

  /** The core's metrics document: compared through `numbers`, judged through `durationSec`. */
  datatype MetricsDoc = MetricsDoc(text: string, numbers: Option<ServerMetrics>, durationSec: real)

  datatype ScoreDoc = ScoreDoc(text: string, total: Option<real>)

  /** One claimed run. `clientScore` is None when undecodable, Some(None) when it carries no total. */
  datatype PendingRun = PendingRun(
    dictHash: string, scoreVersion: int, clientScore: Option<Option<real>>,
    clientMetrics: Option<ClientMetrics>, attempts: int)

  datatype Result = Result(
    verdict: string, reason: string, flags: seq<string>, metrics: MetricsDoc, score: ScoreDoc,
    observations: seq<string>)

  datatype RunMeta = RunMeta(durationSec: real, scoreVersion: int)

  datatype Verdict = Verdict(
    suspicion: real, threshold: real, reasons: seq<string>, unknownFlags: seq<string>, needsReview: bool)

  type Judge = (seq<string>, RunMeta) -> Verdict

  datatype Decider = Decider(judge: Judge, version: int, rejudging: bool) {
    predicate Storable() { COLUMN_NONE <= version <= MAX_INT16 }
  }

  datatype PolicyDoc = PolicyDoc(
    version: int, suspicion: real, threshold: real, rules: seq<string>, unknownFlags: seq<string>)

  datatype Divergence = Divergence(field: string, client: Option<real>, server: real)

  datatype ValidationDoc = ValidationDoc(
    verdict: string, reason: string, flags: seq<string>, policy: Option<PolicyDoc>, divergence: Option<Divergence>)

  datatype Decision = Decision(
    status: RunStatus, serverMetrics: Option<MetricsDoc>, serverScore: Option<ScoreDoc>, validation: ValidationDoc,
    bundleSha: string, policyVersion: int, attempts: int, lastError: string, observations: Option<seq<string>>)

  datatype Comparison = Undecodable(detail: string) | Same | Differs(d: Divergence)

  function ForRejudgement(p: Decider): (q: Decider) {
    p.(rejudging := true)
  }

  /** The 16-bit counter wraps. */
  function Bumped(attempts: int): (n: int) {
    if attempts == MAX_INT16 then -MAX_INT16 - 1 else attempts + 1
  }

  // ---------------------------------------------------------------- comparisons

  /** Identical means equal. */
  function CompareScore(client: Option<Option<real>>, server: ScoreDoc): (c: Comparison) {
    if server.total.None? then Undecodable("server score")
    else if client.None? then Undecodable("client score")
    else if client.value == Some(server.total.value) then Same
    else Differs(Divergence("total", client.value, server.total.value))
  }

  function Abs(x: real): (a: real) {
    if x < 0.0 then -x else x
  }

  predicate Close(client: Option<real>, server: real) {
    client.Some? && Abs(client.value - server) <= METRIC_TOLERANCE
  }

  function CompareMetrics(client: Option<ClientMetrics>, server: MetricsDoc): (c: Comparison) {
    if server.numbers.None? then Undecodable("server metrics")
    else if client.None? then Undecodable("client metrics")
    else
      var s, m := server.numbers.value, client.value;
      if !Close(m.wpm, s.wpm) then Differs(Divergence("wpm", m.wpm, s.wpm))
      else if !Close(m.raw, s.raw) then Differs(Divergence("raw", m.raw, s.raw))
      else if !Close(m.acc, s.accuracy) then Differs(Divergence("acc", m.acc, s.accuracy))
      else Same
  }

  /** Six decimals, halves away from zero. */
  function RoundSuspicion(v: real): (r: real) {
    if v >= 0.0 then (v * 1000000.0 + 0.5).Floor as real / 1000000.0
    else -((-v * 1000000.0 + 0.5).Floor as real / 1000000.0)
  }

  // ---------------------------------------------------------------- the decision

  function Refusal(verdict: string, reason: string, flags: seq<string>, policy: Option<PolicyDoc>): (d: ValidationDoc) {
    ValidationDoc(verdict, reason, flags, policy, None)
  }

  function Unplayed(p: Decider, bundleSha: string, attempts: int, reason: string, detail: string): (d: Decision) {
    Decision(Flagged, None, None, Refusal("error", reason, [], None), bundleSha, p.version, attempts, detail, None)
  }

  function PolicyBlock(p: Decider, v: Verdict): (doc: Option<PolicyDoc>) {
    if p.version == COLUMN_NONE then None
    else Some(PolicyDoc(p.version, RoundSuspicion(v.suspicion), v.threshold, v.reasons, v.unknownFlags))
  }

  function Decide(p: Decider, bundleSha: string, run: PendingRun, res: Result, replayErr: Option<ReplayError>): (d: Decision) {
    match replayErr
    case Some(UnknownDict) => Unplayed(p, bundleSha, run.attempts, "unknown_dict", "dict_hash " + run.dictHash + " is not in the registry")
    case Some(UnknownQuote(detail)) => Unplayed(p, bundleSha, run.attempts, "unknown_quote", detail)
    case Some(TimedOut(detail)) => Unplayed(p, bundleSha, Bumped(run.attempts), "replay_timeout", detail)
    case Some(Failed(detail)) => Unplayed(p, bundleSha, Bumped(run.attempts), "replay_error", detail)
    case None =>
      if res.verdict == "invalid" then
        Decision(Rejected, None, None, Refusal("invalid", res.reason, res.flags, None), bundleSha, p.version, run.attempts, "", None)
      else
        var verdict := p.judge(res.flags, RunMeta(res.metrics.durationSec, run.scoreVersion));
        var policy := PolicyBlock(p, verdict);
        var base := Decision(RunStatus.Accepted, Some(res.metrics), Some(res.score), Refusal("valid", "", res.flags, policy), bundleSha,
                             p.version, run.attempts, "", Some(res.observations));
        match CompareScore(run.clientScore, res.score)
        case Undecodable(detail) => Broken(base, detail)
        case Differs(x) => Diverged(base, "score_mismatch", x)
        case Same =>
          match if p.rejudging then Same else CompareMetrics(run.clientMetrics, res.metrics)
          case Undecodable(detail) => Broken(base, detail)
          case Differs(x) => Diverged(base, "metric_mismatch", x)
          case Same =>
            if verdict.needsReview then
              base.(status := Flagged, validation := base.validation.(reason :=
                if |verdict.reasons| > 0 then "bot_pattern" else "suspicion_threshold"))
            else base
  }

  function Broken(base: Decision, detail: string): (d: Decision) {
    base.(status := Flagged, attempts := Bumped(base.attempts), lastError := detail,
          validation := base.validation.(verdict := "error", reason := "replay_error"))
  }

  function Diverged(base: Decision, reason: string, x: Divergence): (d: Decision) {
    base.(status := Flagged, validation := base.validation.(reason := reason, divergence := Some(x)))
  }

  // ---------------------------------------------------------------- the table

  datatype Row =
    | RowUnknownDict | RowUnknownQuote | RowTimeout | RowThrew | RowInvalid
    | RowScoreUndecodable | RowScoreDiffers | RowMetricsUndecodable | RowMetricsDiffer | RowJudged

  /** Which row of the table applies: no judge among its inputs. */
  ghost predicate Applies(row: Row, rejudging: bool, run: PendingRun, res: Result, err: Option<ReplayError>) {
    match row
    case RowUnknownDict => err == Some(UnknownDict)
    case RowUnknownQuote => err.Some? && err.value.UnknownQuote?
    case RowTimeout => err.Some? && err.value.TimedOut?
    case RowThrew => err.Some? && err.value.Failed?
    case RowInvalid => err.None? && res.verdict == "invalid"
    case RowScoreUndecodable => Replayed(res, err) && (res.score.total.None? || run.clientScore.None?)
    case RowScoreDiffers => Replayed(res, err) && ScoresDecode(run, res) && run.clientScore.value != res.score.total
    case RowMetricsUndecodable => Compared(rejudging, run, res, err) && !MetricsDecode(run, res)
    case RowMetricsDiffer => Compared(rejudging, run, res, err) && MetricsDecode(run, res) && !MetricsAgree(run, res)
    case RowJudged =>
      && Replayed(res, err) && ScoresAgree(run, res)
      && (rejudging || (MetricsDecode(run, res) && MetricsAgree(run, res)))
  }

  ghost predicate Replayed(res: Result, err: Option<ReplayError>) {
    err.None? && res.verdict != "invalid"
  }

  ghost predicate ScoresDecode(run: PendingRun, res: Result) {
    res.score.total.Some? && run.clientScore.Some?
  }

  ghost predicate ScoresAgree(run: PendingRun, res: Result) {
    ScoresDecode(run, res) && run.clientScore.value == res.score.total
  }

  ghost predicate Compared(rejudging: bool, run: PendingRun, res: Result, err: Option<ReplayError>) {
    !rejudging && Replayed(res, err) && ScoresAgree(run, res)
  }

  ghost predicate MetricsDecode(run: PendingRun, res: Result) {
    run.clientMetrics.Some? && res.metrics.numbers.Some?
  }

  ghost predicate MetricsAgree(run: PendingRun, res: Result)
    requires MetricsDecode(run, res)
  {
    var c, s := run.clientMetrics.value, res.metrics.numbers.value;
    forall pair <- [(c.wpm, s.wpm), (c.raw, s.raw), (c.acc, s.accuracy)] :: Close(pair.0, pair.1)
  }

  /** What a row promises about the decision. */
  ghost predicate Promised(row: Row, run: PendingRun, res: Result, d: Decision) {
    match row
    case RowUnknownDict => d.status == Flagged && d.validation.reason == "unknown_dict" && d.attempts == run.attempts && d.serverScore == None
    case RowUnknownQuote => d.status == Flagged && d.validation.reason == "unknown_quote" && d.attempts == run.attempts && d.serverScore == None
    case RowTimeout => d.status == Flagged && d.validation.reason == "replay_timeout" && d.attempts == Bumped(run.attempts) && d.serverScore == None
    case RowThrew => d.status == Flagged && d.validation.reason == "replay_error" && d.attempts == Bumped(run.attempts) && d.serverScore == None
    case RowInvalid => d.status == Rejected && d.validation.reason == res.reason && d.attempts == run.attempts && d.serverScore == None
    case RowScoreUndecodable => d.status == Flagged && d.validation.reason == "replay_error" && d.attempts == Bumped(run.attempts) && Stored(res, d)
    case RowMetricsUndecodable => d.status == Flagged && d.validation.reason == "replay_error" && d.attempts == Bumped(run.attempts) && Stored(res, d)
    case RowScoreDiffers =>
      && d.status == Flagged && d.validation.reason == "score_mismatch" && d.attempts == run.attempts && Stored(res, d)
      && d.validation.divergence.Some? && Some(d.validation.divergence.value.client) == run.clientScore
      && Some(d.validation.divergence.value.server) == res.score.total
    case RowMetricsDiffer =>
      && d.status == Flagged && d.validation.reason == "metric_mismatch" && d.attempts == run.attempts && Stored(res, d)
      && d.validation.divergence.Some? && !Close(d.validation.divergence.value.client, d.validation.divergence.value.server)
    case RowJudged =>
      && d.attempts == run.attempts && d.lastError == "" && Stored(res, d) && d.validation.divergence == None
      && ((d.status == RunStatus.Accepted && d.validation.reason == "")
          || (d.status == Flagged && d.validation.reason in ["bot_pattern", "suspicion_threshold"]))
  }

  /** The server's numbers, observations and flags travel with every replayed run. */
  ghost predicate Stored(res: Result, d: Decision) {
    && d.serverMetrics == Some(res.metrics) && d.serverScore == Some(res.score)
    && d.observations == Some(res.observations) && d.validation.flags == res.flags
  }

  /** The table is total and its rows exclude each other. */
  lemma RowsPartition(rejudging: bool, run: PendingRun, res: Result, err: Option<ReplayError>) returns (row: Row)
    ensures Applies(row, rejudging, run, res, err)
    ensures forall other :: Applies(other, rejudging, run, res, err) ==> other == row
  {
    if err.Some? {
      row := match err.value
        case UnknownDict => RowUnknownDict
        case UnknownQuote(_) => RowUnknownQuote
        case TimedOut(_) => RowTimeout
        case Failed(_) => RowThrew;
    } else if res.verdict == "invalid" {
      row := RowInvalid;
    } else if !ScoresDecode(run, res) {
      row := RowScoreUndecodable;
    } else if !ScoresAgree(run, res) {
      row := RowScoreDiffers;
    } else if rejudging {
      row := RowJudged;
    } else if !MetricsDecode(run, res) {
      row := RowMetricsUndecodable;
    } else if !MetricsAgree(run, res) {
      row := RowMetricsDiffer;
    } else {
      row := RowJudged;
    }
  }

  lemma MetricsCompareSame(run: PendingRun, res: Result)
    requires MetricsDecode(run, res)
    ensures CompareMetrics(run.clientMetrics, res.metrics).Same? <==> MetricsAgree(run, res)
    ensures var c := CompareMetrics(run.clientMetrics, res.metrics);
            !c.Undecodable? && (c.Differs? ==> !Close(c.d.client, c.d.server))
  {
    var c, s := run.clientMetrics.value, res.metrics.numbers.value;
    var pairs := [(c.wpm, s.wpm), (c.raw, s.raw), (c.acc, s.accuracy)];
    assert pairs[0] in pairs && pairs[1] in pairs && pairs[2] in pairs;
  }

  /** Every decision is what its row promises. */
  lemma DecideFollowsTheTable(p: Decider, sha: string, run: PendingRun, res: Result, err: Option<ReplayError>, row: Row)
    requires Applies(row, p.rejudging, run, res, err)
    ensures Promised(row, run, res, Decide(p, sha, run, res, err))
  {
    if MetricsDecode(run, res) {
      MetricsCompareSame(run, res);
    }
  }

  // ---------------------------------------------------------------- what a judge can change

  /** A decision without what only names the policy. */
  function Blind(d: Decision): (b: Decision) {
    d.(policyVersion := 0, validation := d.validation.(policy := None))
  }

  /** Whatever two judges say, a refusal down to metric_mismatch is the same
      refusal; they can differ on the judged row alone. */
  lemma JudgesCannotChangeRefusals(p: Decider, q: Decider, sha: string, run: PendingRun, res: Result, err: Option<ReplayError>)
    requires p.rejudging == q.rejudging
    ensures var d, e := Decide(p, sha, run, res, err), Decide(q, sha, run, res, err);
            Blind(d) == Blind(e) || Applies(RowJudged, p.rejudging, run, res, err)
  {
    var row := RowsPartition(p.rejudging, run, res, err);
    if MetricsDecode(run, res) {
      MetricsCompareSame(run, res);
    }
  }

  /** On the judged row the judge decides everything: some judge accepts and
      some judge flags. */
  lemma JudgedRowIsTheJudges(version: int, rejudging: bool, sha: string, run: PendingRun, res: Result, err: Option<ReplayError>)
    requires Applies(RowJudged, rejudging, run, res, err)
    ensures forall judge: Judge ::
      var d := Decide(Decider(judge, version, rejudging), sha, run, res, err);
      (d.status == Flagged <==> judge(res.flags, RunMeta(res.metrics.durationSec, run.scoreVersion)).needsReview)
      && (d.status == RunStatus.Accepted <==> !judge(res.flags, RunMeta(res.metrics.durationSec, run.scoreVersion)).needsReview)
  {
    if MetricsDecode(run, res) {
      MetricsCompareSame(run, res);
    }
  }

  /** A run flagged by the judge is flagged for its bot patterns if the judge names any,
      for its suspicion if not. */
  lemma FlagReasonIs(p: Decider, sha: string, run: PendingRun, res: Result, err: Option<ReplayError>)
    requires Applies(RowJudged, p.rejudging, run, res, err)
    ensures var v := p.judge(res.flags, RunMeta(res.metrics.durationSec, run.scoreVersion));
      var reason := Decide(p, sha, run, res, err).validation.reason;
      && (reason == "bot_pattern" <==> v.needsReview && v.reasons != [])
      && (reason == "suspicion_threshold" <==> v.needsReview && v.reasons == [])
      && (reason == "" <==> !v.needsReview)
  {
    if MetricsDecode(run, res) {
      MetricsCompareSame(run, res);
    }
    assert "bot_pattern" != "suspicion_threshold" by {
      assert |"bot_pattern"| != |"suspicion_threshold"|;
    }
  }

  /** The metric named is the first of the three that is not close, with its two numbers. */
  lemma DivergenceIsTheFirst(p: Decider, sha: string, run: PendingRun, res: Result, err: Option<ReplayError>)
    requires Applies(RowMetricsDiffer, p.rejudging, run, res, err)
    ensures var c, s := run.clientMetrics.value, res.metrics.numbers.value;
      Decide(p, sha, run, res, err).validation.divergence == Some(
        if !Close(c.wpm, s.wpm) then Divergence("wpm", c.wpm, s.wpm)
        else if Close(c.raw, s.raw) then Divergence("acc", c.acc, s.accuracy)
        else Divergence("raw", c.raw, s.raw))
  {
    MetricsCompareSame(run, res);
  }

  lemma RoundingIsClose(v: real)
    ensures Abs(RoundSuspicion(v) - v) <= 0.0000005
  {
    var x := if v >= 0.0 then v else -v;
    var n := (x * 1000000.0 + 0.5).Floor as real;
    assert n <= x * 1000000.0 + 0.5 < n + 1.0;
    assert n / 1000000.0 - x <= 0.0000005 && x - n / 1000000.0 <= 0.0000005;
  }

  /** A judged run carries what the judge said of it: its version, threshold, rules and
      unknown flags, and its suspicion to half a millionth. */
  lemma PolicyIsWhatTheJudgeSaid(p: Decider, sha: string, run: PendingRun, res: Result, err: Option<ReplayError>)
    requires Replayed(res, err) && p.version != COLUMN_NONE
    ensures var v := p.judge(res.flags, RunMeta(res.metrics.durationSec, run.scoreVersion));
      var policy := Decide(p, sha, run, res, err).validation.policy;
      && policy.Some? && policy.value.version == p.version && policy.value.threshold == v.threshold
      && policy.value.rules == v.reasons && policy.value.unknownFlags == v.unknownFlags
      && Abs(policy.value.suspicion - v.suspicion) <= 0.0000005
  {
    RoundingIsClose(p.judge(res.flags, RunMeta(res.metrics.durationSec, run.scoreVersion)).suspicion);
  }

  /** The verdict word: an error where nothing could be played or compared, the core's
      refusal, or a valid replay; the core's output is stored exactly for what it replayed. */
  lemma VerdictWord(p: Decider, sha: string, run: PendingRun, res: Result, err: Option<ReplayError>, row: Row)
    requires Applies(row, p.rejudging, run, res, err)
    ensures var d := Decide(p, sha, run, res, err);
      && d.validation.verdict == (
           if row.RowInvalid? then "invalid"
           else if row.RowScoreDiffers? || row.RowMetricsDiffer? || row.RowJudged? then "valid" else "error")
      && (d.serverMetrics.Some? <==> Replayed(res, err)) && (d.serverScore.Some? <==> Replayed(res, err))
      && (d.observations.Some? <==> Replayed(res, err))
      && (err.Some? && err.value.TimedOut? ==> d.lastError == err.value.detail)
      && (row.RowInvalid? || row.RowScoreDiffers? || row.RowMetricsDiffer? ==> d.lastError == "")
  {
    if MetricsDecode(run, res) {
      MetricsCompareSame(run, res);
    }
  }

  /** A second judging of the same outcome differs from the first exactly where
      the metric comparison had decided it. */
  lemma RejudgingDiffersOnMetricsOnly(p: Decider, sha: string, run: PendingRun, res: Result, err: Option<ReplayError>)
    requires !p.rejudging
    ensures Decide(ForRejudgement(p), sha, run, res, err) != Decide(p, sha, run, res, err)
       <==> (Applies(RowMetricsDiffer, false, run, res, err) || Applies(RowMetricsUndecodable, false, run, res, err))
  {
    var row := RowsPartition(false, run, res, err);
    DecideFollowsTheTable(p, sha, run, res, err, row);
    var again := RowsPartition(true, run, res, err);
    DecideFollowsTheTable(ForRejudgement(p), sha, run, res, err, again);
    if MetricsDecode(run, res) {
      MetricsCompareSame(run, res);
    }
  }

  /** Every branch stamps the bundle and the policy version it decided under, and
      writes a policy block iff it judged under one. */
  lemma EveryDecisionIsStamped(p: Decider, sha: string, run: PendingRun, res: Result, err: Option<ReplayError>)
    ensures var d := Decide(p, sha, run, res, err);
            && d.bundleSha == sha && d.policyVersion == p.version && d.status != Pending
            && (d.validation.policy.Some? <==> p.version != COLUMN_NONE && Replayed(res, err))
  {}

  // ---------------------------------------------------------------- text sources

  /** How the quote registry answers: the text and its hash, no such quote, or no answer. */
  datatype QuoteAnswer = Quote(text: string, hash: string) | NoQuote | QuoteFailure(detail: string)

  datatype TextRef = Seeded | QuoteRef(id: string, hash: string) | BadQuoteId(detail: string) | Unreadable(detail: string)

  datatype Text = DictBody(body: string) | QuoteText(text: string)

  datatype StoredRun = StoredRun(run: PendingRun, ref: TextRef, log: Option<string>, createdAt: int)

  /** The world one judging runs in: no value for `quotes` means none is wired in. */
  datatype World = World(
    bodies: map<string, string>, quotes: Option<string -> QuoteAnswer>, canaryEpoch: Option<int>,
    replay: (PendingRun, Text, string, bool) -> (Result, Option<ReplayError>))

  const EMPTY_RESULT := Result("", "", [], MetricsDoc("", None, 0.0), ScoreDoc("", None), [])

  predicate CanariesArmedAt(createdAt: int, epoch: Option<int>) {
    epoch.Some? && epoch.value <= createdAt
  }

  function ResolveText(w: World, s: StoredRun): (t: (Option<Text>, Option<ReplayError>))
    ensures t.0.Some? <==> t.1.None?
  {
    match s.ref
    case Unreadable(detail) => (None, Some(Failed(detail)))
    case BadQuoteId(detail) => (None, Some(UnknownQuote(detail)))
    case Seeded =>
      if s.run.dictHash in w.bodies then (Some(DictBody(w.bodies[s.run.dictHash])), None) else (None, Some(UnknownDict))
    case QuoteRef(id, hash) =>
      if w.quotes.None? then (None, Some(UnknownQuote("no quote registry"))) else
        match w.quotes.value(id)
        case QuoteFailure(detail) => (None, Some(Failed(detail)))
        case NoQuote => (None, Some(UnknownQuote(id)))
        case Quote(text, found) => if found != hash then (None, Some(UnknownQuote(id))) else (Some(QuoteText(text)), None)
  }

  function JudgeRun(w: World, p: Decider, sha: string, s: StoredRun): (d: Decision) {
    var text := ResolveText(w, s);
    if text.0.None? then Decide(p, sha, s.run, EMPTY_RESULT, text.1)
    else if s.log.None? then Decide(p, sha, s.run, EMPTY_RESULT, Some(Failed("replay: decompress log")))
    else
      var out := w.replay(s.run, text.0.value, s.log.value, CanariesArmedAt(s.createdAt, w.canaryEpoch));
      Decide(p, sha, s.run, out.0, out.1)
  }

  /** A missing text flags the run without spending an attempt; a registry that
      failed to answer spends one. */
  lemma MissingTextIsNotAnAttempt(w: World, p: Decider, sha: string, s: StoredRun)
    requires ResolveText(w, s).0.None?
    ensures var d := JudgeRun(w, p, sha, s);
            && d.status == Flagged && d.serverScore == None
            && (d.attempts == s.run.attempts <==>
                (s.ref.Seeded? || s.ref.BadQuoteId? ||
                 (s.ref.QuoteRef? && (w.quotes.None? || !w.quotes.value(s.ref.id).QuoteFailure?))))
  {}

  /** A quote run never looks at the dictionaries, a seeded run never at the quotes. */
  lemma OneTextSource(w: World, v: World, p: Decider, sha: string, s: StoredRun)
    requires w.replay == v.replay && w.canaryEpoch == v.canaryEpoch
    requires if s.ref.Seeded? then w.bodies == v.bodies else w.quotes == v.quotes
    ensures JudgeRun(w, p, sha, s) == JudgeRun(v, p, sha, s)
  {}
}
