/** internal/guardrail: one rule against one query result, consecutive-failure counters, and their aggregation. */
module Guardrails {
  import opened Wrappers

  type Time = int

  datatype Status = Healthy | Unhealthy | Unknown

  datatype Operator =
    | LessThan | LessThanOrEqual | GreaterThan | GreaterThanOrEqual | Equal | NotEqual
    | Unsupported(text: string)

  datatype Rule = Rule(name: string, query: string, operator: Operator, threshold: real, consecutiveFailures: int)

  datatype Evaluation = Evaluation(
    name: string, query: string, status: Status, value: real, threshold: real, operator: Operator,
    consecutiveFailures: int, requiredConsecutiveFailures: int, reason: string, observedAt: Time)

  datatype RuleError = NameRequired | UnsupportedOperator | NegativeFailures

  /** What the metrics backend can answer. */
  datatype QueryResult = QueryFailed(reason: string) | NotFinite | Sample(value: real)

  /** Results of a rule list's queries, in rule order; a missing one means no queryer is configured. */
  function ResultAt(results: seq<QueryResult>, i: nat): QueryResult {
    if i < |results| then results[i] else QueryFailed("prometheus queryer is not configured")
  }

  function ValidateRule(rule: Rule): Result<(), RuleError> {
    if rule.name == "" then Err(NameRequired)
    else if rule.operator.Unsupported? then Err(UnsupportedOperator)
    else if rule.consecutiveFailures < 0 then Err(NegativeFailures)
    else Ok(())
  }

  function RequiredFailures(rule: Rule): int {
    if rule.consecutiveFailures == 0 then 1 else rule.consecutiveFailures
  }

  predicate Compare(value: real, operator: Operator, threshold: real) {
    match operator
    case LessThan => value < threshold
    case LessThanOrEqual => value <= threshold
    case GreaterThan => value > threshold
    case GreaterThanOrEqual => value >= threshold
    case Equal => value == threshold
    case NotEqual => value != threshold
    case Unsupported(_) => false
  }

  function Evaluate(rule: Rule, value: real, previousFailures: int, observedAt: Time): Result<Evaluation, RuleError> {
    match ValidateRule(rule)
    case Err(e) => Err(e)
    case Ok(_) =>
      if previousFailures < 0 then Err(NegativeFailures) else
      var result := Evaluation(rule.name, rule.query, Healthy, value, rule.threshold, rule.operator,
                               0, RequiredFailures(rule), "", observedAt);
      if Compare(value, rule.operator, rule.threshold) then Ok(result) else
      var failed := result.(consecutiveFailures := previousFailures + 1);
      if failed.consecutiveFailures >= RequiredFailures(rule) then
        Ok(failed.(status := Unhealthy, reason := "guardrail threshold violated"))
      else
        Ok(failed.(reason := "guardrail threshold violated below consecutive failure threshold"))
  }

  function UnknownEvaluation(rule: Rule, previousFailures: int, reason: string, observedAt: Time)
    : Result<Evaluation, RuleError>
  {
    match ValidateRule(rule)
    case Err(e) => Err(e)
    case Ok(_) =>
      if previousFailures < 0 then Err(NegativeFailures) else
      Ok(Evaluation(rule.name, rule.query, Unknown, 0.0, rule.threshold, rule.operator, previousFailures,
                    RequiredFailures(rule), if reason == "" then "guardrail status is unknown" else reason, observedAt))
  }

  function EvaluateQueryResult(rule: Rule, result: QueryResult, previousFailures: int, observedAt: Time)
    : Result<Evaluation, RuleError>
  {
    match result
    case QueryFailed(reason) => UnknownEvaluation(rule, previousFailures, reason, observedAt)
    case NotFinite => UnknownEvaluation(rule, previousFailures, "guardrail sample is not finite", observedAt)
    case Sample(value) => Evaluate(rule, value, previousFailures, observedAt)
  }

  /** Any unhealthy rule wins, then any unknown one. */
  function Aggregate(statuses: set<Status>): Status {
    if Unhealthy in statuses then Unhealthy
    else if Unknown in statuses then Unknown
    else Healthy
  }

  method AggregateStatus(evaluations: seq<Evaluation>) returns (status: Status)
    ensures status == Aggregate(set e | e in evaluations :: e.status)
    ensures status == Healthy <==> forall e :: e in evaluations ==> e.status == Healthy
    ensures status == Unhealthy <==> exists e :: e in evaluations && e.status == Unhealthy
  {
    status := Healthy;
    for i := 0 to |evaluations|
      invariant status == Unknown || status == Healthy
      invariant forall j :: 0 <= j < i ==> evaluations[j].status != Unhealthy
      invariant status == Healthy <==> forall j :: 0 <= j < i ==> evaluations[j].status == Healthy
    {
      if evaluations[i].status == Unhealthy {
        assert evaluations[i] in evaluations;
        return Unhealthy;
      }
      if evaluations[i].status == Unknown {
        status := Unknown;
      }
    }
    ghost var statuses := set e | e in evaluations :: e.status;
    if status == Unknown {
      var j :| 0 <= j < |evaluations| && evaluations[j].status != Healthy;
      assert evaluations[j] in evaluations;
    }
  }

  // ----- Counters -----

  type Counters = map<string, int>

  function CounterOf(counters: Counters, name: string): int {
    if name in counters then counters[name] else 0
  }

  /** The value a rule's counter takes after one more result; meaningful for a valid rule. */
  function NextCount(rule: Rule, result: QueryResult, previous: int): int {
    match result
    case Sample(value) => if Compare(value, rule.operator, rule.threshold) then 0 else previous + 1
    case _ => previous
  }

  function NextStatus(rule: Rule, result: QueryResult, previous: int): Status {
    match result
    case Sample(value) =>
      if Compare(value, rule.operator, rule.threshold) || previous + 1 < RequiredFailures(rule) then Healthy
      else Unhealthy
    case _ => Unknown
  }

  predicate ValidRules(rules: seq<Rule>) {
    forall i :: 0 <= i < |rules| ==> ValidateRule(rules[i]).Ok? && rules[i].query != ""
  }

  predicate DistinctNames(rules: seq<Rule>) {
    forall i, j :: 0 <= i < j < |rules| ==> rules[i].name != rules[j].name
  }

  predicate NonNegative(counters: Counters) {
    forall name :: name in counters ==> counters[name] >= 0
  }

  /** A valid rule never fails to evaluate, and its counter and status are the next ones. */
  lemma {:induction false} EvaluationSucceeds(rule: Rule, result: QueryResult, previous: int, observedAt: Time)
    requires ValidateRule(rule).Ok? && previous >= 0
    ensures EvaluateQueryResult(rule, result, previous, observedAt).Ok?
    ensures EvaluateQueryResult(rule, result, previous, observedAt).value.consecutiveFailures
         == NextCount(rule, result, previous)
    ensures EvaluateQueryResult(rule, result, previous, observedAt).value.status
         == NextStatus(rule, result, previous)
  {
  }

  /**
   * What the six operators mean: a sample resets the counter exactly when it stands in the named relation to the
   * threshold, adds one otherwise, and is unhealthy exactly when it then makes up the failures in a row that are asked.
   */
  lemma {:induction false} SampleVerdict(rule: Rule, value: real, previous: int)
    requires ValidateRule(rule).Ok? && previous >= 0
    ensures var count, status := NextCount(rule, Sample(value), previous), NextStatus(rule, Sample(value), previous);
      var enough := previous + 1 >= rule.consecutiveFailures;
      && (count == 0 || count == previous + 1) && (status == Healthy || status == Unhealthy)
      && (rule.operator == LessThan ==>
            (count == 0 <==> value < rule.threshold) && (status == Unhealthy <==> value >= rule.threshold && enough))
      && (rule.operator == LessThanOrEqual ==>
            (count == 0 <==> value <= rule.threshold) && (status == Unhealthy <==> value > rule.threshold && enough))
      && (rule.operator == GreaterThan ==>
            (count == 0 <==> value > rule.threshold) && (status == Unhealthy <==> value <= rule.threshold && enough))
      && (rule.operator == GreaterThanOrEqual ==>
            (count == 0 <==> value >= rule.threshold) && (status == Unhealthy <==> value < rule.threshold && enough))
      && (rule.operator == Equal ==>
            (count == 0 <==> value == rule.threshold) && (status == Unhealthy <==> value != rule.threshold && enough))
      && (rule.operator == NotEqual ==>
            (count == 0 <==> value != rule.threshold) && (status == Unhealthy <==> value == rule.threshold && enough))
  {
  }

  /** Without a finite sample the counter stays and the status is unknown. */
  lemma {:induction false} NoSampleVerdict(rule: Rule, result: QueryResult, previous: int)
    requires !result.Sample?
    ensures NextCount(rule, result, previous) == previous && NextStatus(rule, result, previous) == Unknown
  {
  }

  /** Counters after the first `n` rules of one guardrail round. */
  function RoundCounters(rules: seq<Rule>, results: seq<QueryResult>, counters: Counters, n: nat): (after: Counters)
    requires n <= |rules|
    ensures NonNegative(counters) ==> NonNegative(after)
  {
    if n == 0 then counters else
    var before := RoundCounters(rules, results, counters, n - 1);
    var rule := rules[n - 1];
    before[rule.name := NextCount(rule, ResultAt(results, n - 1), CounterOf(before, rule.name))]
  }

  /** Statuses seen in the first `n` rules of one guardrail round. */
  function RoundStatuses(rules: seq<Rule>, results: seq<QueryResult>, counters: Counters, n: nat): set<Status>
    requires n <= |rules|
  {
    if n == 0 then {} else
    var rule := rules[n - 1];
    var previous := CounterOf(RoundCounters(rules, results, counters, n - 1), rule.name);
    RoundStatuses(rules, results, counters, n - 1) + {NextStatus(rule, ResultAt(results, n - 1), previous)}
  }

  function Round(rules: seq<Rule>, results: seq<QueryResult>, counters: Counters): Counters {
    RoundCounters(rules, results, counters, |rules|)
  }

  function RoundStatus(rules: seq<Rule>, results: seq<QueryResult>, counters: Counters): Status {
    Aggregate(RoundStatuses(rules, results, counters, |rules|))
  }

  /** With distinct names each rule's counter moves by its own result alone. */
  lemma {:induction false} CountersMoveAlone(
      rules: seq<Rule>, results: seq<QueryResult>, counters: Counters, n: nat, i: nat)
    requires DistinctNames(rules) && n <= |rules| && i < |rules|
    ensures CounterOf(RoundCounters(rules, results, counters, n), rules[i].name)
         == if i < n then NextCount(rules[i], ResultAt(results, i), CounterOf(counters, rules[i].name))
            else CounterOf(counters, rules[i].name)
    decreases n
  {
    if n > 0 {
      CountersMoveAlone(rules, results, counters, n - 1, i);
      if i != n - 1 {
        assert rules[i].name != rules[n - 1].name;
      }
    }
  }

  /** The value is on the wrong side of the rule's threshold. */
  predicate Breaks(rule: Rule, value: real) {
    match rule.operator
    case LessThan => value >= rule.threshold
    case LessThanOrEqual => value > rule.threshold
    case GreaterThan => value <= rule.threshold
    case GreaterThanOrEqual => value < rule.threshold
    case Equal => value != rule.threshold
    case NotEqual => value == rule.threshold
    case Unsupported(_) => true
  }

  /** Rule `i` got a sample that breaks it, and with the failures counted before it that makes enough in a row. */
  predicate Trips(rules: seq<Rule>, results: seq<QueryResult>, counters: Counters, i: nat)
    requires i < |rules|
  {
    && i < |results| && results[i].Sample? && Breaks(rules[i], results[i].value)
    && CounterOf(counters, rules[i].name) + 1 >= rules[i].consecutiveFailures
  }

  lemma {:induction false} StatusOfOne(rules: seq<Rule>, results: seq<QueryResult>, counters: Counters, i: nat)
    requires ValidRules(rules) && i < |rules| && CounterOf(counters, rules[i].name) >= 0
    ensures var status := NextStatus(rules[i], ResultAt(results, i), CounterOf(counters, rules[i].name));
      && (status == Unhealthy <==> Trips(rules, results, counters, i))
      && (status == Unknown <==> i >= |results| || !results[i].Sample?)
  {
  }

  /** Rule `i` trips in this round, by the counter it finds when its turn comes. */
  predicate TripsInRound(rules: seq<Rule>, results: seq<QueryResult>, counters: Counters, i: nat)
    requires i < |rules|
  {
    Trips(rules, results, RoundCounters(rules, results, counters, i), i)
  }

  predicate Sampled(results: seq<QueryResult>, i: nat) {
    i < |results| && results[i].Sample?
  }

  lemma {:induction false} StatusesSeen(
      rules: seq<Rule>, results: seq<QueryResult>, counters: Counters, n: nat)
    requires ValidRules(rules) && NonNegative(counters) && n <= |rules|
    ensures Unhealthy in RoundStatuses(rules, results, counters, n) <==>
      exists i: nat :: i < n && TripsInRound(rules, results, counters, i)
    ensures Unknown in RoundStatuses(rules, results, counters, n) <==> exists i: nat :: i < n && !Sampled(results, i)
  {
    hide Trips, NextStatus, NextCount, ValidRules;
    if n > 0 {
      var seen := RoundStatuses(rules, results, counters, n - 1);
      StatusesSeen(rules, results, counters, n - 1);
      StatusOfOne(rules, results, RoundCounters(rules, results, counters, n - 1), n - 1);
      if Unhealthy in seen {
        var i: nat :| i < n - 1 && TripsInRound(rules, results, counters, i);
        assert i < n;
      }
      if Unknown in seen {
        var i: nat :| i < n - 1 && !Sampled(results, i);
        assert i < n;
      }
      assert TripsInRound(rules, results, counters, n - 1)
        == Trips(rules, results, RoundCounters(rules, results, counters, n - 1), n - 1);
      assert Sampled(results, n - 1) == (n - 1 < |results| && results[n - 1].Sample?);
    }
  }

  /**
   * The verdict of one round: unhealthy exactly when some rule trips, and otherwise healthy exactly when every rule got
   * a sample. A counter shared with an earlier rule of the round has already moved.
   */
  lemma {:induction false} RoundVerdict(rules: seq<Rule>, results: seq<QueryResult>, counters: Counters)
    requires ValidRules(rules) && NonNegative(counters)
    ensures RoundStatus(rules, results, counters) == Unhealthy <==>
      exists i: nat :: i < |rules| && TripsInRound(rules, results, counters, i)
    ensures RoundStatus(rules, results, counters) == Healthy <==>
      forall i: nat :: i < |rules| ==> Sampled(results, i) && !TripsInRound(rules, results, counters, i)
  {
    hide TripsInRound, Sampled, RoundStatuses;
    StatusesSeen(rules, results, counters, |rules|);
  }

  /** With distinct names each rule trips or not by the counter it brought into the round. */
  lemma {:induction false} OwnCountersTrip(
      rules: seq<Rule>, results: seq<QueryResult>, counters: Counters, i: nat)
    requires DistinctNames(rules) && i < |rules|
    ensures TripsInRound(rules, results, counters, i) == Trips(rules, results, counters, i)
  {
    CountersMoveAlone(rules, results, counters, i, i);
  }

  predicate BelowThreshold(rules: seq<Rule>, counters: Counters) {
    forall i :: 0 <= i < |rules| ==> CounterOf(counters, rules[i].name) < RequiredFailures(rules[i])
  }

  /** Rules that share a name, and so a counter, need the same number of failures. */
  predicate NamesAgree(rules: seq<Rule>) {
    forall i, j :: 0 <= i < |rules| && 0 <= j < |rules| && rules[i].name == rules[j].name ==>
      RequiredFailures(rules[i]) == RequiredFailures(rules[j])
  }

  lemma {:induction false} PartOfARoundStaysBelow(
      rules: seq<Rule>, results: seq<QueryResult>, counters: Counters, n: nat)
    requires NamesAgree(rules) && ValidRules(rules) && BelowThreshold(rules, counters) && n <= |rules|
    requires Unhealthy !in RoundStatuses(rules, results, counters, n)
    ensures BelowThreshold(rules, RoundCounters(rules, results, counters, n))
  {
    if n > 0 {
      PartOfARoundStaysBelow(rules, results, counters, n - 1);
      var before := RoundCounters(rules, results, counters, n - 1);
      var previous := CounterOf(before, rules[n - 1].name);
      assert NextStatus(rules[n - 1], ResultAt(results, n - 1), previous) != Unhealthy;
      assert previous < RequiredFailures(rules[n - 1]);
    }
  }

  /** A round that is not unhealthy leaves every counter below its threshold. */
  lemma {:induction false} HealthyRoundStaysBelow(rules: seq<Rule>, results: seq<QueryResult>, counters: Counters)
    requires NamesAgree(rules) && ValidRules(rules) && BelowThreshold(rules, counters)
    requires RoundStatus(rules, results, counters) != Unhealthy
    ensures BelowThreshold(rules, Round(rules, results, counters))
  {
    PartOfARoundStaysBelow(rules, results, counters, |rules|);
  }

  /** What HealthyRoundStaysBelow says, as a property of a rule list. */
  ghost predicate HealthyRoundsStayBelow(rules: seq<Rule>) {
    forall results: seq<QueryResult>, counters: Counters ::
      NonNegative(counters) && BelowThreshold(rules, counters) && RoundStatus(rules, results, counters) != Unhealthy ==>
        BelowThreshold(rules, Round(rules, results, counters))
  }

  function FailingSample(rule: Rule): (result: QueryResult)
    ensures Fails(rule, result)
  {
    Sample(match rule.operator
           case LessThan => rule.threshold
           case LessThanOrEqual => rule.threshold + 1.0
           case GreaterThan => rule.threshold
           case GreaterThanOrEqual => rule.threshold - 1.0
           case Equal => rule.threshold + 1.0
           case _ => rule.threshold)
  }

  /** Only rule `j` gets an answer, and it is a failing one. */
  function OneFailure(rules: seq<Rule>, j: nat): (results: seq<QueryResult>)
    requires j < |rules|
    ensures |results| == |rules|
  {
    seq(|rules|, k requires 0 <= k < |rules| => if k == j then FailingSample(rules[k]) else NotFinite)
  }

  lemma {:induction false} OneFailureMovesOneCounter(rules: seq<Rule>, j: nat, counters: Counters, n: nat)
    requires j < |rules| && n <= |rules| && CounterOf(counters, rules[j].name) + 1 < RequiredFailures(rules[j])
    ensures CounterOf(RoundCounters(rules, OneFailure(rules, j), counters, n), rules[j].name)
      == CounterOf(counters, rules[j].name) + if j < n then 1 else 0
    ensures Unhealthy !in RoundStatuses(rules, OneFailure(rules, j), counters, n)
  {
    if n > 0 {
      OneFailureMovesOneCounter(rules, j, counters, n - 1);
    }
  }

  /** A rule of that name that needs the fewest failures. */
  lemma {:induction false} StrictestRule(rules: seq<Rule>, i: nat) returns (k: nat)
    requires i < |rules|
    ensures k < |rules| && rules[k].name == rules[i].name
    ensures forall j :: 0 <= j < |rules| && rules[j].name == rules[i].name ==>
      RequiredFailures(rules[k]) <= RequiredFailures(rules[j])
  {
    k := i;
    for n := 0 to |rules|
      invariant k < |rules| && rules[k].name == rules[i].name
      invariant forall j :: 0 <= j < n && rules[j].name == rules[i].name ==>
        RequiredFailures(rules[k]) <= RequiredFailures(rules[j])
    {
      if rules[n].name == rules[i].name && RequiredFailures(rules[n]) < RequiredFailures(rules[k]) {
        k := n;
      }
    }
  }

  /**
   * Exactly then: rules of one name that differ in what they need let a counter pass the smaller threshold unnoticed.
   */
  lemma {:induction false} RoundsStayBelowIffNamesAgree(rules: seq<Rule>)
    requires ValidRules(rules)
    ensures HealthyRoundsStayBelow(rules) <==> NamesAgree(rules)
  {
    if NamesAgree(rules) {
      forall results: seq<QueryResult>, counters: Counters
        | NonNegative(counters) && BelowThreshold(rules, counters) && RoundStatus(rules, results, counters) != Unhealthy
        ensures BelowThreshold(rules, Round(rules, results, counters))
      {
        HealthyRoundStaysBelow(rules, results, counters);
      }
    } else {
      var a, b :| 0 <= a < |rules| && 0 <= b < |rules| && rules[a].name == rules[b].name
        && RequiredFailures(rules[a]) != RequiredFailures(rules[b]);
      var i := StrictestRule(rules, a);
      var j := if RequiredFailures(rules[a]) > RequiredFailures(rules[i]) then a else b;
      var counters: Counters := map[rules[i].name := RequiredFailures(rules[i]) - 1];
      OneFailureMovesOneCounter(rules, j, counters, |rules|);
      assert BelowThreshold(rules, counters);
      assert RoundStatus(rules, OneFailure(rules, j), counters) != Unhealthy;
      assert !BelowThreshold(rules, Round(rules, OneFailure(rules, j), counters));
    }
  }

  // ----- Counters against the whole history -----

  predicate Passes(rule: Rule, result: QueryResult) {
    result.Sample? && Compare(result.value, rule.operator, rule.threshold)
  }

  predicate Fails(rule: Rule, result: QueryResult) {
    result.Sample? && !Compare(result.value, rule.operator, rule.threshold)
  }

  /** Just past the last passing result, or 0. */
  function AfterLastPass(rule: Rule, history: seq<QueryResult>): (k: nat)
    ensures k <= |history|
    ensures forall i :: k <= i < |history| ==> !Passes(rule, history[i])
    ensures k > 0 ==> Passes(rule, history[k - 1])
  {
    if history == [] then 0
    else if Passes(rule, history[|history| - 1]) then |history|
    else AfterLastPass(rule, history[..|history| - 1])
  }

  function FailuresIn(rule: Rule, history: seq<QueryResult>): nat {
    if history == [] then 0
    else FailuresIn(rule, history[..|history| - 1]) + if Fails(rule, history[|history| - 1]) then 1 else 0
  }

  function CurrentStreak(rule: Rule, history: seq<QueryResult>): nat {
    FailuresIn(rule, history[AfterLastPass(rule, history)..])
  }

  /** The results rule `i` received over a list of rounds. */
  function ResultsOf(rounds: seq<seq<QueryResult>>, i: nat): (history: seq<QueryResult>)
    ensures |history| == |rounds|
  {
    seq(|rounds|, k requires 0 <= k < |rounds| => ResultAt(rounds[k], i))
  }

  function AfterRounds(rules: seq<Rule>, rounds: seq<seq<QueryResult>>): Counters {
    if rounds == [] then map[]
    else Round(rules, rounds[|rounds| - 1], AfterRounds(rules, rounds[..|rounds| - 1]))
  }

  lemma {:induction false} StreakGrows(rule: Rule, earlier: seq<QueryResult>, result: QueryResult)
    ensures CurrentStreak(rule, earlier + [result]) == NextCount(rule, result, CurrentStreak(rule, earlier))
  {
    var history := earlier + [result];
    assert history[..|earlier|] == earlier;
    var k := AfterLastPass(rule, history);
    if k <= |earlier| {
      assert history[k..] == earlier[k..] + [result];
      assert history[k..][..|earlier| - k] == earlier[k..];
    }
  }

  /** Each counter is the number of failing samples since the last passing one, unknowns skipped. */
  lemma {:induction false} CounterRefinesHistory(rules: seq<Rule>, rounds: seq<seq<QueryResult>>, i: nat)
    requires DistinctNames(rules) && i < |rules|
    ensures CounterOf(AfterRounds(rules, rounds), rules[i].name) == CurrentStreak(rules[i], ResultsOf(rounds, i))
  {
    hide CurrentStreak, NextCount, RoundCounters;
    if rounds != [] {
      var last := |rounds| - 1;
      CounterRefinesHistory(rules, rounds[..last], i);
      CountersMoveAlone(rules, rounds[last], AfterRounds(rules, rounds[..last]), |rules|, i);
      StreakGrows(rules[i], ResultsOf(rounds[..last], i), ResultAt(rounds[last], i));
      assert ResultsOf(rounds, i) == ResultsOf(rounds[..last], i) + [ResultAt(rounds[last], i)];
    } else {
      NoStreak(rules[i]);
      assert ResultsOf(rounds, i) == [];
    }
  }

  lemma {:induction false} NoStreak(rule: Rule)
    ensures CurrentStreak(rule, []) == 0
  {
  }

  // ----- Rules that share a name -----

  /** What CounterRefinesHistory says, as a property of a rule list. */
  ghost predicate CountersAreStreaks(rules: seq<Rule>) {
    forall rounds: seq<seq<QueryResult>>, i: nat :: i < |rules| ==>
      CounterOf(AfterRounds(rules, rounds), rules[i].name) == CurrentStreak(rules[i], ResultsOf(rounds, i))
  }

  function NameCount(rules: seq<Rule>, name: string, n: nat): nat
    requires n <= |rules|
  {
    if n == 0 then 0 else NameCount(rules, name, n - 1) + if rules[n - 1].name == name then 1 else 0
  }

  /** A round in which every rule fails. */
  function AllFail(rules: seq<Rule>): (results: seq<QueryResult>)
    ensures |results| == |rules| && forall k :: 0 <= k < |rules| ==> results[k] == FailingSample(rules[k])
  {
    seq(|rules|, k requires 0 <= k < |rules| => FailingSample(rules[k]))
  }

  lemma {:induction false} SharedCountersAddUp(rules: seq<Rule>, name: string, n: nat)
    requires n <= |rules|
    ensures CounterOf(RoundCounters(rules, AllFail(rules), map[], n), name) == NameCount(rules, name, n)
  {
    if n > 0 {
      SharedCountersAddUp(rules, name, n - 1);
    }
  }

  lemma {:induction false} SharedNameCountsTwice(rules: seq<Rule>, i: nat, j: nat, n: nat)
    requires i < j < |rules| && rules[i].name == rules[j].name && n <= |rules|
    ensures NameCount(rules, rules[i].name, n) >= (if i < n then 1 else 0) + (if j < n then 1 else 0)
  {
    if n > 0 {
      SharedNameCountsTwice(rules, i, j, n - 1);
    }
  }

  lemma {:induction false} OneFailureIsAStreakOfOne(rule: Rule, result: QueryResult)
    requires Fails(rule, result)
    ensures CurrentStreak(rule, [result]) == 1
  {
    StreakGrows(rule, [], result);
    NoStreak(rule);
    assert [] + [result] == [result];
  }

  /** A counter is its own rule's failure streak exactly when no two rules share a name. */
  lemma {:induction false} CountersAreStreaksIffNamesDiffer(rules: seq<Rule>)
    ensures CountersAreStreaks(rules) <==> DistinctNames(rules)
  {
    if DistinctNames(rules) {
      forall rounds: seq<seq<QueryResult>>, i: nat | i < |rules|
        ensures CounterOf(AfterRounds(rules, rounds), rules[i].name) == CurrentStreak(rules[i], ResultsOf(rounds, i))
      {
        CounterRefinesHistory(rules, rounds, i);
      }
    } else {
      var i, j :| 0 <= i < j < |rules| && rules[i].name == rules[j].name;
      var rounds := [AllFail(rules)];
      assert rounds[..0] == [];
      assert AfterRounds(rules, []) == map[];
      SharedCountersAddUp(rules, rules[i].name, |rules|);
      SharedNameCountsTwice(rules, i, j, |rules|);
      assert ResultsOf(rounds, i) == [FailingSample(rules[i])];
      OneFailureIsAStreakOfOne(rules[i], FailingSample(rules[i]));
      assert CounterOf(AfterRounds(rules, rounds), rules[i].name) != CurrentStreak(rules[i], ResultsOf(rounds, i));
    }
  }

  lemma {:induction false} SharedRound(a: Rule, b: Rule, round: seq<QueryResult>, counters: Counters)
    requires a.name == b.name && |round| == 2 && Fails(a, round[0]) && Passes(b, round[1])
    ensures CounterOf(Round([a, b], round, counters), a.name) == 0
    ensures CounterOf(counters, a.name) == 0 && RequiredFailures(a) > 1 ==>
      RoundStatus([a, b], round, counters) == Healthy
  {
    assert RoundCounters([a, b], round, counters, 0) == counters;
    var first := RoundCounters([a, b], round, counters, 1);
    assert first == counters[a.name := CounterOf(counters, a.name) + 1];
    assert RoundCounters([a, b], round, counters, 2) == first[b.name := 0];
    assert RoundStatuses([a, b], round, counters, 0) == {};
    assert RoundStatuses([a, b], round, counters, 1) == {NextStatus(a, round[0], CounterOf(counters, a.name))};
  }

  /**
   * Counters are kept by rule name. When two rules share one, a rule that needs more than one failure in a row can fail
   * in every round without ever being found unhealthy, as long as the later rule passes.
   */
  lemma {:induction false} SharedNamesHideFailures(a: Rule, b: Rule, rounds: seq<seq<QueryResult>>)
    requires a.name == b.name && RequiredFailures(a) > 1
    requires forall k :: 0 <= k < |rounds| ==> |rounds[k]| == 2 && Fails(a, rounds[k][0]) && Passes(b, rounds[k][1])
    ensures CurrentStreak(a, ResultsOf(rounds, 0)) == |rounds|
    ensures CounterOf(AfterRounds([a, b], rounds), a.name) == 0
    ensures rounds != [] ==>
      RoundStatus([a, b], rounds[|rounds| - 1], AfterRounds([a, b], rounds[..|rounds| - 1])) == Healthy
  {
    if rounds != [] {
      var last := |rounds| - 1;
      SharedNamesHideFailures(a, b, rounds[..last]);
      SharedRound(a, b, rounds[last], AfterRounds([a, b], rounds[..last]));
      StreakGrows(a, ResultsOf(rounds[..last], 0), ResultAt(rounds[last], 0));
      assert ResultsOf(rounds, 0) == ResultsOf(rounds[..last], 0) + [ResultAt(rounds[last], 0)];
    }
  }
}
