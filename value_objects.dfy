/** The closed enumerations of the domain and the declared status transition
    table (app/domain/value_objects/case_status.py). The modules defining
    `CaseType` and `CasePriority` are not part of this model; their string
    values are the ones the request schema admits. */
module ValueObjects {
  import opened Primitives

  datatype CaseStatus = Open | InProgress | Resolved | Closed {

    /** The enum member's `.value`. */
    function Value(): string {
      match this
      case Open => "open"
      case InProgress => "in_progress"
      case Resolved => "resolved"
      case Closed => "closed"
    }

    /** The entry of the `transitions` table for this status. */
    function Successors(): seq<CaseStatus> {
      match this
      case Open => [InProgress, Closed]
      case InProgress => [Resolved, Closed]
      case Resolved => [Closed]
      case Closed => []
    }

    /** `can_transition_to`: membership in this status's table entry. */
    predicate CanTransitionTo(next: CaseStatus) {
      next in Successors()
    }

    /** The position in open < in_progress < resolved < closed. */
    function Rank(): nat {
      match this
      case Open => 0
      case InProgress => 1
      case Resolved => 2
      case Closed => 3
    }
  }

  datatype CaseType = Support | Requirement | Investigation {
    function Value(): string {
      match this
      case Support => "support"
      case Requirement => "requirement"
      case Investigation => "investigation"
    }
  }

  datatype CasePriority = Low | Medium | High | Critical {
    function Value(): string {
      match this
      case Low => "low"
      case Medium => "medium"
      case High => "high"
      case Critical => "critical"
    }
  }

  /** `CaseStatus(s)`: the member whose value is `s`, or nothing (the source
      raises ValueError). */
  function ParseStatus(s: string): (r: Option<CaseStatus>)
    ensures forall st: CaseStatus :: r == Some(st) <==> st.Value() == s
    ensures r.None? <==> s !in {"open", "in_progress", "resolved", "closed"}
  {
    if s == "open" then Some(Open)
    else if s == "in_progress" then Some(InProgress)
    else if s == "resolved" then Some(Resolved)
    else if s == "closed" then Some(Closed)
    else None
  }

  /** `CaseType(s)`. */
  function ParseCaseType(s: string): (r: Option<CaseType>)
    ensures forall t: CaseType :: r == Some(t) <==> t.Value() == s
    ensures r.None? <==> s !in {"support", "requirement", "investigation"}
  {
    if s == "support" then Some(Support)
    else if s == "requirement" then Some(Requirement)
    else if s == "investigation" then Some(Investigation)
    else None
  }

  /** `CasePriority(s)`. */
  function ParsePriority(s: string): (r: Option<CasePriority>)
    ensures forall p: CasePriority :: r == Some(p) <==> p.Value() == s
    ensures r.None? <==> s !in {"low", "medium", "high", "critical"}
  {
    if s == "low" then Some(Low)
    else if s == "medium" then Some(Medium)
    else if s == "high" then Some(High)
    else if s == "critical" then Some(Critical)
    else None
  }

  /** The string values are pairwise distinct and each parses back to its
      member: storing `.value` and reading it with the Enum lookup is the
      identity. */
  lemma ValuesRoundTrip(st: CaseStatus, t: CaseType, p: CasePriority)
    ensures ParseStatus(st.Value()) == Some(st)
    ensures ParseCaseType(t.Value()) == Some(t)
    ensures ParsePriority(p.Value()) == Some(p)
    ensures forall st': CaseStatus :: st'.Value() == st.Value() ==> st' == st
  {
  }

  /** CLOSED has no permitted successor. */
  lemma ClosedIsTerminal(next: CaseStatus)
    ensures !Closed.CanTransitionTo(next)
  {
  }

  /** No status may transition to itself. */
  lemma NoSelfTransition(st: CaseStatus)
    ensures !st.CanTransitionTo(st)
  {
  }

  /** The table row by row: open -> {in_progress, closed},
      in_progress -> {resolved, closed}, resolved -> {closed}. */
  lemma TransitionTable(next: CaseStatus)
    ensures Open.CanTransitionTo(next) <==> next == InProgress || next == Closed
    ensures InProgress.CanTransitionTo(next) <==> next == Resolved || next == Closed
    ensures Resolved.CanTransitionTo(next) <==> next == Closed
  {
  }

  /** Every permitted transition moves strictly forward. */
  lemma TransitionsMoveForward(from: CaseStatus, to: CaseStatus)
    ensures from.CanTransitionTo(to) ==> from.Rank() < to.Rank()
  {
  }

  /** A sequence of statuses each of which the table lets follow the last. */
  predicate IsPath(path: seq<CaseStatus>) {
    forall k :: 0 <= k < |path| - 1 ==> path[k].CanTransitionTo(path[k + 1])
  }

  /** Along a path the rank strictly increases. */
  lemma {:induction false} PathRankIncreases(path: seq<CaseStatus>)
    requires |path| >= 2 && IsPath(path)
    ensures path[0].Rank() < path[|path| - 1].Rank()
    decreases |path|
  {
    TransitionsMoveForward(path[0], path[1]);
    if |path| > 2 {
      var tail := path[1..];
      assert IsPath(tail) by {
        forall k | 0 <= k < |tail| - 1 ensures tail[k].CanTransitionTo(tail[k + 1]) {
          assert tail[k] == path[k + 1] && tail[k + 1] == path[k + 2];
        }
      }
      PathRankIncreases(tail);
    }
  }

  /** The transition relation is acyclic: no non-empty path returns to its
      start. */
  lemma TransitionsAcyclic(path: seq<CaseStatus>)
    requires |path| >= 2 && IsPath(path)
    ensures path[0] != path[|path| - 1]
  {
    PathRankIncreases(path);
  }
}
