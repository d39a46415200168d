// The per-gesture cap on tracked moves: touchesBegan resets the counter, every
// touchesMoved increments it first, the move that brings it to the cap asks
// for a backup and cancels, and every move after that is ignored.

module MoveCap {

  const MAXIMUM_POINTS_ALLOWED_FOR_A_SINGLE_STROKE: nat := 1000

  /** What one touchesMoved does, decided by the counter after its increment. */
  datatype MoveOutcome = Track | Cutover | Ignore

  function Outcome(count: nat): MoveOutcome {
    if count == MAXIMUM_POINTS_ALLOWED_FOR_A_SINGLE_STROKE then Cutover
    else if count > MAXIMUM_POINTS_ALLOWED_FOR_A_SINGLE_STROKE then Ignore
    else Track
  }

  /** Over the first n moves of a gesture: how many were tracked, and how
      many backup requests were sent. */
  datatype Tally = Tally(tracked: nat, backups: nat)

  function GestureTally(n: nat): Tally {
    if n == 0 then Tally(0, 0)
    else
      var t := GestureTally(n - 1);
      match Outcome(n)
      case Track => t.(tracked := t.tracked + 1)
      case Cutover => t.(backups := t.backups + 1)
      case Ignore => t
  }

  /** A gesture of n moves tracks at most 999 of them, and asks for a backup
      exactly once when it reaches the 1000th move, never otherwise. */
  lemma {:induction false} GestureIsCapped(n: nat)
    ensures GestureTally(n).tracked ==
      (if n < MAXIMUM_POINTS_ALLOWED_FOR_A_SINGLE_STROKE then n else MAXIMUM_POINTS_ALLOWED_FOR_A_SINGLE_STROKE - 1)
    ensures GestureTally(n).backups == (if n < MAXIMUM_POINTS_ALLOWED_FOR_A_SINGLE_STROKE then 0 else 1)
  {
    if n > 0 {
      GestureIsCapped(n - 1);
    }
  }

  /** Only the 1000th move is a cutover, and tracked moves form a prefix. */
  lemma OutcomeOrder(count: nat, later: nat)
    requires count <= later
    ensures Outcome(count) == Cutover <==> count == MAXIMUM_POINTS_ALLOWED_FOR_A_SINGLE_STROKE
    ensures Outcome(later) == Track ==> Outcome(count) == Track
    ensures Outcome(count) != Track && count < later ==> Outcome(later) == Ignore
  {
  }
}
