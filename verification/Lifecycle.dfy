/** internal/rollout/state.go: rollout states and the transition table. */
module Lifecycle {

  datatype State =
    | Pending | Validating | Ready | Deploying | Evaluating | Promoting
    | Paused | Completed | RollingBack | RolledBack | Failed

  function AllowedNext(from: State): set<State> {
    match from
    case Pending => {Validating}
    case Validating => {Ready}
    case Ready => {Deploying}
    case Deploying => {Evaluating, Paused, RollingBack}
    case Evaluating => {Promoting, Paused, RollingBack, Completed}
    case Promoting => {Deploying, RollingBack}
    case Paused => {Evaluating, RollingBack}
    case RollingBack => {RolledBack}
    case Completed => {}
    case RolledBack => {}
    case Failed => {}
  }

  predicate CanTransition(from: State, to: State) {
    to in AllowedNext(from)
  }

  predicate Terminal(s: State) {
    s == Completed || s == RolledBack || s == Failed
  }

  /** A chain of allowed transitions, through states that need not be stored. */
  predicate IsPath(from: State, via: seq<State>, to: State)
    decreases |via|
  {
    if via == [] then from == to
    else CanTransition(from, via[0]) && IsPath(via[0], via[1..], to)
  }

  ghost predicate Reaches(from: State, to: State) {
    exists via :: IsPath(from, via, to)
  }

  /** The five states the service writes. */
  predicate Stored(s: State) {
    s == Deploying || s == Paused || s == RollingBack || s == Completed || s == RolledBack
  }

  /** The pairs of states one stored write may lead between. */
  predicate StoredChange(from: State, to: State) {
    from == to
    || (from == Deploying && (to == Paused || to == RollingBack || to == Completed || to == RolledBack))
    || (from == Paused && (to == Deploying || to == RollingBack || to == Completed || to == RolledBack))
    || (from == RollingBack && to == RolledBack)
  }

  /** A shortest route through the table for each stored change. */
  function Route(from: State, to: State): seq<State>
    requires StoredChange(from, to)
  {
    if from == to then []
    else if to == Completed then [Evaluating, Completed]
    else if to == Deploying then [Evaluating, Promoting, Deploying]
    else if to == RolledBack && from != RollingBack then [RollingBack, RolledBack]
    else [to]
  }

  lemma {:induction false} RouteIsAPath(from: State, to: State)
    requires StoredChange(from, to)
    ensures IsPath(from, Route(from, to), to)
  {
    var via := Route(from, to);
    if |via| > 0 {
      if |via| > 1 {
        if |via| > 2 {
          assert IsPath(via[2], via[3..], to);
          assert via[2..][1..] == via[3..];
          assert IsPath(via[1], via[2..], to);
        }
        assert via[1..][1..] == via[2..];
        assert IsPath(via[0], via[1..], to);
      }
    }
  }

  lemma {:induction false} PathsRespectPhases(from: State, via: seq<State>, to: State)
    requires IsPath(from, via, to)
    ensures from == Completed || from == RolledBack || from == Failed ==> to == from
    ensures from == RollingBack ==> to == RollingBack || to == RolledBack
    decreases |via|
  {
    if via != [] {
      PathsRespectPhases(via[0], via[1..], to);
    }
  }

  /** The stored changes are exactly the pairs of stored states the transition table connects. */
  lemma {:induction false} StoredChangesAreTheTablesClosure(from: State, to: State)
    requires Stored(from) && Stored(to)
    ensures StoredChange(from, to) <==> Reaches(from, to)
  {
    if StoredChange(from, to) {
      RouteIsAPath(from, to);
    }
    if Reaches(from, to) {
      var via :| IsPath(from, via, to);
      PathsRespectPhases(from, via, to);
    }
  }
}
