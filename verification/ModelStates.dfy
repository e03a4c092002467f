/** The states of a served model and the transitions between them. */
module ModelStates {
  datatype ModelState = Unloaded | Loading | Ready | Failed | Unavailable | Unloading

  predicate IsValidTransition(current: ModelState, next: ModelState) {
    match current
    case Unloaded => next.Loading?
    case Loading => next.Ready? || next.Failed? || next.Unavailable?
    case Ready => next.Unloading? || next.Unavailable?
    case Unloading => next.Unloaded?
    case Failed => next.Unloaded?
    case Unavailable => next.Ready? || next.Unloaded?
  }

  /** The state after a transition was asked for: an invalid one is refused and changes nothing. */
  function Advance(current: ModelState, next: ModelState): ModelState {
    if IsValidTransition(current, next) then next else current
  }

  /** The moves a model makes: it is loaded, drained, unloaded, fails, or drops out and returns. */
  const MOVES: set<(ModelState, ModelState)> := {
    (Unloaded, Loading), (Loading, Ready), (Loading, Failed), (Loading, Unavailable), (Ready, Unloading), (Ready, Unavailable),
    (Unloading, Unloaded), (Failed, Unloaded), (Unavailable, Ready), (Unavailable, Unloaded)}

  lemma MovesExactly(current: ModelState, next: ModelState)
    ensures IsValidTransition(current, next) <==> (current, next) in MOVES
    ensures Advance(current, next) == if (current, next) in MOVES then next else current
  {
  }
}
