// What others may do between two calls of a controller's pass: any sequence of the lifecycle's steps except those of
// the pass itself.

module Interference {
  import opened Providers
  import opened Lifecycle
  import opened FinalizerInvariants

  /** The outcome of a call. Lost: it took effect, but the caller sees an error. */
  datatype CallReply = Done | Refused | Lost

  datatype Actor = MainController | FeedbackController

  predicate Owns(actor: Actor, s: Step) {
    match actor
    case MainController => s.MainPass? || s.MainCommit?
    case FeedbackController =>
      || s.FeedbackRead? || s.FeedbackAddFinalizer? || s.FeedbackSave? || s.FeedbackRemoveFinalizer?
      || s.FeedbackDropUnlabelled? || s.FeedbackAbort?
  }

  /** All but the actor try these moves one after the other; a move that cannot happen where it is tried does not. */
  function Interfere(cfg: Config, actor: Actor, w: World, moves: seq<Step>): World {
    if moves == [] then w
    else
      var front, s := Interfere(cfg, actor, w, moves[..|moves| - 1]), moves[|moves| - 1];
      if !Owns(actor, s) && Legal(cfg, front, s) then Next(cfg, front, s) else front
  }

  /** Later: the stored versions of the earlier world are still there. */
  predicate Later(w: World, w': World) {
    |w.past| <= |w'.past| && w'.past[..|w.past|] == w.past
  }

  /** What the actor's pass holds stays as it is. */
  predicate Spared(actor: Actor, w: World, w': World) {
    match actor
    case MainController =>
      && w'.pending == w.pending
      && (w'.cr.Some? ==> w.cr.Some? && w'.cr.value.status == w.cr.value.status)
    case FeedbackController =>
      w'.feedback == w.feedback && w'.record == w.record
  }

  lemma StepIsLater(cfg: Config, w: World, s: Step)
    requires Legal(cfg, w, s)
    ensures Later(w, Next(cfg, w, s))
  {
    if w.cr.Some? {
      StepWrites(cfg, w, s);
    } else {
      StepWithoutCr(cfg, w, s);
    }
  }

  lemma StepSpares(cfg: Config, actor: Actor, w: World, s: Step)
    requires Legal(cfg, w, s) && !Owns(actor, s)
    ensures Spared(actor, w, Next(cfg, w, s))
  {
  }

  lemma {:induction false} InterferenceIsHarmless(cfg: Config, actor: Actor, w: World, moves: seq<Step>)
    requires Reachable(cfg, w)
    ensures var w' := Interfere(cfg, actor, w, moves);
            Reachable(cfg, w') && Later(w, w') && Spared(actor, w, w')
  {
    if moves == [] {
    } else {
      var front, s := Interfere(cfg, actor, w, moves[..|moves| - 1]), moves[|moves| - 1];
      InterferenceIsHarmless(cfg, actor, w, moves[..|moves| - 1]);
      if !Owns(actor, s) && Legal(cfg, front, s) {
        NextReachable(cfg, front, s);
        StepIsLater(cfg, front, s);
        StepSpares(cfg, actor, front, s);
      }
    }
  }
}
