// The checkpoint lifecycle state machine (src/lifecycle.rs).
module Lifecycle {

  datatype State =
    | Created | Capturing | Captured | Validating | Sealed | Persisting
    | Available | RestorePending | Restoring | Restored | Retired | Failed
  {
    predicate IsRestorable() {
      this == Available || this == Restored
    }

    predicate IsTerminal() {
      this == Retired || this == Failed
    }

    predicate CanTransition(target: State) {
      match this
      case Created => target == Capturing
      case Capturing => target == Captured || target == Failed
      case Captured => target == Validating || target == Failed
      case Validating => target == Sealed || target == Failed
      case Sealed => target == Persisting || target == Failed
      case Persisting => target == Available || target == Failed
      case Available => target == RestorePending || target == Retired || target == Failed
      case RestorePending => target == Restoring || target == Failed || target == Available
      case Restoring => target == Restored || target == Available || target == Failed
      case Restored => target == Available || target == Failed
      case Retired => target == RestorePending || target == Failed
      case Failed => false
    }

    // The states a committed, unretired checkpoint moves between.  The range
    // queries of capture_commit see only the restorable half of them.
    predicate IsLinked() {
      this == Available || this == RestorePending || this == Restoring || this == Restored
    }

    // A checkpoint that has been committed at some time.
    predicate IsAnchored() {
      IsLinked() || this == Retired
    }
  }

  // The states the supersession range queries select.
  const VISIBLE: set<State> := {Available, Restored}
  const LINKED: set<State> := {Available, RestorePending, Restoring, Restored}

  ghost predicate IsPath(path: seq<State>) {
    forall i :: 0 < i < |path| ==> path[i-1].CanTransition(path[i])
  }

  // A committed checkpoint can never fall back into the capture half of the
  // machine, and only the retirement edge RETIRED -> RESTORE_PENDING leads from
  // a terminal state back to a live one.
  lemma {:induction false} AnchoredPathsStayAnchored(path: seq<State>)
    requires IsPath(path) && |path| > 0 && path[0].IsAnchored()
    ensures forall i :: 0 <= i < |path| ==> path[i].IsAnchored() || path[i] == Failed
  {
    if |path| > 1 {
      var prefix := path[..|path| - 1];
      assert IsPath(prefix);
      AnchoredPathsStayAnchored(prefix);
      var last := path[|path| - 2];
      assert last == prefix[|prefix| - 1];
      assert last.CanTransition(path[|path| - 1]);
      forall i | 0 <= i < |path| ensures path[i].IsAnchored() || path[i] == Failed {
        if i < |prefix| { assert path[i] == prefix[i]; }
      }
    }
  }

  // request_restore accepts exactly the restorable states, but its first
  // transition, from a row read in that state, is refused exactly for RESTORED.  What
  // that means for runs is in RestoreStates.
  lemma RestorableYetStuck(s: State)
    ensures s.IsRestorable() && !s.CanTransition(RestorePending) <==> s == Restored
  {}

  // How far a capture has come in a state.
  function Stage(s: State): nat {
    match s
    case Created => 0
    case Capturing => 1
    case Captured => 2
    case Validating => 3
    case Sealed => 4
    case Persisting => 5
    case _ => 6
  }

  // The capture half goes one stage at a time and never back, failing anywhere but at
  // its start; and FAILED is left by no transition.
  lemma CapturesTakeNoShortcut(s: State, t: State)
    requires s.CanTransition(t)
    ensures s != Failed && s != t
    ensures Stage(s) < 6 ==>
              (t == Failed && s != Created) || (Stage(t) == Stage(s) + 1 && (Stage(t) == 6 ==> t == Available))
    ensures Stage(s) < 5 ==> s.CanTransition(Failed) || s == Created
  {}

  // A path from CREATED to AVAILABLE passes all five states between, in order.
  lemma {:induction false} AvailableAfterAllStages(path: seq<State>)
    requires IsPath(path) && |path| > 0 && path[0] == Created
    requires path[|path| - 1] != Failed && forall i :: 0 <= i < |path| - 1 ==> Stage(path[i]) < 6
    ensures |path| == Stage(path[|path| - 1]) + 1 && forall i :: 0 <= i < |path| ==> Stage(path[i]) == i
  {
    if |path| > 1 {
      var prefix, last := path[..|path| - 1], path[|path| - 2];
      assert last.CanTransition(path[|path| - 1]) && last == prefix[|prefix| - 1];
      assert Stage(path[|path| - 2]) < 6;
      CapturesTakeNoShortcut(last, path[|path| - 1]);
      AvailableAfterAllStages(prefix);
      forall i | 0 <= i < |path| ensures Stage(path[i]) == i { if i < |prefix| { assert path[i] == prefix[i]; } }
    }
  }

  // Among committed checkpoints: a restore goes through RESTORE_PENDING and RESTORING to
  // RESTORED, from either of the two back to AVAILABLE, and only AVAILABLE ones retire.
  lemma RestoresInTwoSteps(s: State)
    requires s.IsAnchored()
    ensures s.CanTransition(Restored) <==> s == Restoring
    ensures s.CanTransition(Restoring) <==> s == RestorePending
    ensures s.CanTransition(RestorePending) <==> s == Available || s == Retired
    ensures s.CanTransition(Retired) <==> s == Available
    ensures s.CanTransition(Available) <==> s == RestorePending || s == Restoring || s == Restored
    ensures s.CanTransition(Failed)
  {}
}
