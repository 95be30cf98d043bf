/**
 * The two-click move gesture on the board (the table's selection callback
 * in pkg/client.go): the first click anchors a square, a click on the same
 * square cancels, a click on another square proposes a move that is sent
 * only when the engine lists it as legal.
 */
module Selection {
  import opened Messages
  import opened Board

  /** The client's fields selecting, lastSelection and highlights. */
  datatype SelectionState = SelectionState(selecting: bool, lastSelection: Square, highlights: map<Square, bool>)

  const Idle := SelectionState(false, 0, map[])

  /**
   * The shape every reachable state has: while anchored, exactly the anchor
   * is highlighted; otherwise nothing is, and lastSelection is reset to 0.
   */
  predicate Consistent(s: SelectionState) {
    && (forall k :: k in s.highlights ==> s.highlights[k])
    && (if s.selecting
        then IsSquare(s.lastSelection) && s.highlights.Keys == {s.lastSelection}
        else s.lastSelection == 0 && s.highlights.Keys == {})
  }

  /** The auto-promotion test on a four-character move: from rank 7 to rank 8, or from rank 2 to rank 1. */
  predicate PromotionRanks(move: string)
    requires |move| >= 4
  {
    (move[1] == '7' && move[3] == '8') || (move[1] == '2' && move[3] == '1')
  }

  /** The move string a click proposes: both square names, and "q" when a pawn reaches the last rank. */
  function Candidate(from: Square, to: Square, fromIsPawn: bool): (move: string)
    requires IsSquare(from) && IsSquare(to)
    ensures |move| == 4 || |move| == 5
    ensures move[..2] == SquareName(from) && move[2..4] == SquareName(to)
  {
    var move := SquareName(from) + SquareName(to);
    if fromIsPawn && PromotionRanks(move) then move + "q" else move
  }

  /**
   * The candidate carries a queen suffix exactly when a pawn goes from the
   * seventh rank to the eighth or from the second to the first; the colour
   * of the pawn is not consulted.
   */
  lemma CandidatePromotes(from: Square, to: Square, fromIsPawn: bool)
    requires IsSquare(from) && IsSquare(to)
    ensures Candidate(from, to, fromIsPawn) == SquareName(from) + SquareName(to) +
      (if fromIsPawn && ((Rank(from) == 6 && Rank(to) == 7) || (Rank(from) == 1 && Rank(to) == 0)) then "q" else "")
  {
  }

  /** A candidate names its two squares: different gestures never propose the same move. */
  lemma CandidateInjective(from1: Square, to1: Square, pawn1: bool, from2: Square, to2: Square, pawn2: bool)
    requires IsSquare(from1) && IsSquare(to1) && IsSquare(from2) && IsSquare(to2)
    requires Candidate(from1, to1, pawn1) == Candidate(from2, to2, pawn2)
    ensures from1 == from2 && to1 == to2
  {
    var c := Candidate(from1, to1, pawn1);
    assert SquareName(from1) == c[..2] == SquareName(from2);
    assert SquareName(to1) == c[2..4] == SquareName(to2);
    SquareNameInjective(from1, from2);
    SquareNameInjective(to1, to2);
  }

  /** What one click does: the next state and what it puts on the outbound queue. */
  datatype ClickOutcome = ClickOutcome(state: SelectionState, sent: seq<Message>)

  /**
   * One click on square sq. pawnSquares are the squares holding a pawn and
   * validMoves the engine's legal moves in its own notation.
   */
  function Click(s: SelectionState, sq: Square, pawnSquares: set<Square>, validMoves: seq<string>): (r: ClickOutcome)
    requires Consistent(s) && IsSquare(sq)
    ensures Consistent(r.state)
    ensures r.state.selecting <==> !s.selecting
    ensures r.state.selecting ==> r.state.lastSelection == sq
    ensures |r.sent| <= 1
    ensures r.sent != [] ==>
      && s.selecting && sq != s.lastSelection
      && r.sent == [MessageMove(Candidate(s.lastSelection, sq, s.lastSelection in pawnSquares), "Hi")]
      && r.sent[0].move in validMoves
  {
    if !s.selecting then
      ClickOutcome(SelectionState(true, sq, s.highlights[sq := true]), [])
    else if sq == s.lastSelection then
      ClickOutcome(SelectionState(false, 0, s.highlights - {sq}), [])
    else
      var move := Candidate(s.lastSelection, sq, s.lastSelection in pawnSquares);
      if move in validMoves then
        ClickOutcome(SelectionState(false, 0, s.highlights - {s.lastSelection}), [MessageMove(move, "Hi")])
      else
        ClickOutcome(SelectionState(false, 0, s.highlights - {sq} - {s.lastSelection}), [])
  }

  /** A second click on another square sends the proposed move exactly when it is legal, and always ends the gesture. */
  lemma DestinationClick(s: SelectionState, sq: Square, pawnSquares: set<Square>, validMoves: seq<string>)
    requires Consistent(s) && IsSquare(sq)
    requires s.selecting && sq != s.lastSelection
    ensures var move := Candidate(s.lastSelection, sq, s.lastSelection in pawnSquares);
      && Click(s, sq, pawnSquares, validMoves).state == Idle
      && (Click(s, sq, pawnSquares, validMoves).sent == [MessageMove(move, "Hi")] <==> move in validMoves)
      && (Click(s, sq, pawnSquares, validMoves).sent == [] <==> move !in validMoves)
  {
  }

  /** The loop that looks a candidate up in the legal moves; it scans the whole list. */
  method ContainsMove(move: string, validMoves: seq<string>) returns (isValid: bool)
    ensures isValid <==> move in validMoves
  {
    isValid := false;
    for i := 0 to |validMoves|
      invariant isValid <==> move in validMoves[..i]
    {
      if validMoves[i] == move {
        isValid := true;
      }
    }
    assert validMoves[..|validMoves|] == validMoves;
  }

  /** All clicks of a sequence, in order, and everything they send. */
  function Clicks(s: SelectionState, squares: seq<Square>, pawnSquares: set<Square>, validMoves: seq<string>): (r: ClickOutcome)
    requires Consistent(s)
    requires forall i :: 0 <= i < |squares| ==> IsSquare(squares[i])
    ensures Consistent(r.state)
    decreases |squares|
  {
    if squares == [] then ClickOutcome(s, [])
    else
      var first := Click(s, squares[0], pawnSquares, validMoves);
      var rest := Clicks(first.state, squares[1..], pawnSquares, validMoves);
      ClickOutcome(rest.state, first.sent + rest.sent)
  }

  /** Clicking a square twice from the idle state cancels the gesture and sends nothing. */
  lemma ClickTwiceCancels(sq: Square, pawnSquares: set<Square>, validMoves: seq<string>)
    requires IsSquare(sq)
    ensures Clicks(Idle, [sq, sq], pawnSquares, validMoves) == ClickOutcome(Idle, [])
  {
    var first := Click(Idle, sq, pawnSquares, validMoves);
    assert first.state.highlights.Keys == {sq};
    var second := Click(first.state, sq, pawnSquares, validMoves);
    assert second.state.highlights == map[];
    assert [sq, sq][1..] == [sq];
    assert Clicks(first.state, [sq], pawnSquares, validMoves) == ClickOutcome(second.state, second.sent + []);
  }

  /** Every message a run of clicks sends is a move the engine listed as legal. */
  lemma {:induction false} ClicksSendOnlyLegalMoves(s: SelectionState, squares: seq<Square>, pawnSquares: set<Square>, validMoves: seq<string>)
    requires Consistent(s)
    requires forall i :: 0 <= i < |squares| ==> IsSquare(squares[i])
    ensures forall m :: m in Clicks(s, squares, pawnSquares, validMoves).sent ==> m.MessageMove? && m.move in validMoves
    decreases |squares|
  {
    if squares != [] {
      var first := Click(s, squares[0], pawnSquares, validMoves);
      ClicksSendOnlyLegalMoves(first.state, squares[1..], pawnSquares, validMoves);
    }
  }

  /**
   * A move takes two clicks: the number of moves sent is at most half the
   * number of clicks, counting a gesture already anchored as one click.
   */
  lemma {:induction false} TwoClicksPerMove(s: SelectionState, squares: seq<Square>, pawnSquares: set<Square>, validMoves: seq<string>)
    requires Consistent(s)
    requires forall i :: 0 <= i < |squares| ==> IsSquare(squares[i])
    ensures var r := Clicks(s, squares, pawnSquares, validMoves);
      2 * |r.sent| + (if r.state.selecting then 1 else 0) <= |squares| + (if s.selecting then 1 else 0)
    decreases |squares|
  {
    if squares != [] {
      var first := Click(s, squares[0], pawnSquares, validMoves);
      TwoClicksPerMove(first.state, squares[1..], pawnSquares, validMoves);
    }
  }
}
