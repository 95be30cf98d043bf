/**
 * The chess client of pkg/client.go as an object: its selection fields,
 * the labels of its two option buttons, its outbound queue and the frames
 * it has written to the connection. The queue is the whole sequence of
 * payloads ever enqueued; the writer has taken the first `taken` of them.
 */
module ClientState {
  import opened Options
  import opened Messages
  import opened Board
  import opened Selection
  import opened Negotiation
  import opened Framing

  class Client {
    // The two-click gesture.
    var selecting: bool
    var lastSelection: Square
    var highlights: map<Square, bool>
    // The side the local player plays.
    var role: PlayerRole
    // The labels of optionBtn1 and optionBtn2.
    var optionBtn1: Action
    var optionBtn2: Action
    // The Out queue: every payload enqueued, in order; the writer has taken out[..taken].
    var out: seq<Message>
    var taken: nat
    // The frames written to the connection, one per write.
    var written: seq<seq<byte>>
    // Whether Connect obtained a connection.
    var connected: bool
    // Whether Disconnect has run.
    var disconnected: bool

    ghost predicate Valid()
      reads this
    {
      SelectionValid() && LabelsValid() && QueueValid()
    }

    ghost predicate SelectionValid()
      reads this`selecting, this`lastSelection, this`highlights
    {
      Consistent(SelState())
    }

    ghost predicate LabelsValid()
      reads this`optionBtn1, this`optionBtn2
    {
      WellFormed(Labels(optionBtn1, optionBtn2))
    }

    ghost predicate QueueValid()
      reads this`taken, this`out
    {
      taken <= |out|
    }

    function SelState(): SelectionState
      reads this`selecting, this`lastSelection, this`highlights
    {
      SelectionState(selecting, lastSelection, highlights)
    }

    function SessionView(): Session
      reads this`optionBtn1, this`optionBtn2, this`out, this`disconnected
    {
      Session(Labels(optionBtn1, optionBtn2), out, disconnected)
    }

    /** NewClient with InitGUI: nothing selected, default labels, empty queue, no connection yet. */
    constructor (role: PlayerRole)
      ensures Valid()
      ensures SelState() == Idle && SessionView() == Session(DefaultLabels, [], false)
      ensures this.role == role && taken == 0 && written == [] && !connected
    {
      selecting := false;
      lastSelection := 0;
      highlights := map[];
      this.role := role;
      optionBtn1 := ActionDrawPrompt;
      optionBtn2 := ActionResignPrompt;
      out := [];
      taken := 0;
      written := [];
      connected := false;
      disconnected := false;
    }

    /** Connect: the connection is kept only when dialling succeeded. */
    method Connect(dialSucceeded: bool)
      modifies this`connected
      ensures connected == (old(connected) || dialSucceeded)
    {
      if dialSucceeded {
        connected := true;
      }
    }

    /** HandleAction: relabels the buttons, enqueues at most one GameAction, or disconnects. */
    method HandleAction(action: Action)
      requires Valid()
      modifies this`optionBtn1, this`optionBtn2, this`out, this`disconnected
      ensures Valid()
      ensures SessionView() == Apply(old(SessionView()), Some(action))
    {
      match action {
        case ActionResignPrompt =>
          optionBtn1 := ActionResignYes;
          optionBtn2 := ActionResignNo;
        case ActionResignYes =>
          out := out + [MessageGameAction(action, "")];
        case ActionResignNo =>
          optionBtn1 := ActionDrawPrompt;
          optionBtn2 := ActionResignPrompt;
        case ActionDrawOffer =>
          optionBtn1 := ActionDrawAccept;
          optionBtn2 := ActionDrawReject;
        case ActionDrawPrompt =>
          out := out + [MessageGameAction(ActionDrawOffer, "")];
        case ActionDrawAccept =>
          out := out + [MessageGameAction(action, "")];
          optionBtn1 := ActionDrawPrompt;
          optionBtn2 := ActionResignPrompt;
        case ActionDrawReject =>
          out := out + [MessageGameAction(action, "")];
          optionBtn1 := ActionDrawPrompt;
          optionBtn2 := ActionResignPrompt;
        case ActionNewGameOffer =>
          optionBtn1 := ActionNewGameAccept;
          optionBtn2 := ActionNewGameReject;
        case ActionNewGamePrompt =>
          out := out + [MessageGameAction(ActionNewGameOffer, "")];
        case ActionNewGameAccept =>
          out := out + [MessageGameAction(action, "")];
          optionBtn1 := ActionDrawPrompt;
          optionBtn2 := ActionResignPrompt;
        case ActionNewGameReject =>
          out := out + [MessageGameAction(action, "")];
          optionBtn1 := ActionNewGamePrompt;
          optionBtn2 := ActionExit;
        case ActionWin =>
          optionBtn1 := ActionNewGamePrompt;
          optionBtn2 := ActionExit;
        case ActionLose =>
          optionBtn1 := ActionNewGamePrompt;
          optionBtn2 := ActionExit;
        case ActionDraw =>
          optionBtn1 := ActionNewGamePrompt;
          optionBtn2 := ActionExit;
        case ActionExit =>
          disconnected := true;
        case OtherAction(_) =>
      }
    }

    /** A click on optionBtn1: the action named by its label, if the label is one it handles. */
    method PressOptionBtn1()
      requires Valid()
      modifies this`optionBtn1, this`optionBtn2, this`out, this`disconnected
      ensures Valid()
      ensures SessionView() == Step(old(SessionView()), Press1)
    {
      match optionBtn1 {
        case ActionDrawPrompt => HandleAction(ActionDrawPrompt);
        case ActionResignYes => HandleAction(ActionResignYes);
        case ActionDrawAccept => HandleAction(ActionDrawAccept);
        case ActionNewGamePrompt => HandleAction(ActionNewGamePrompt);
        case ActionNewGameAccept => HandleAction(ActionNewGameAccept);
        case _ =>
      }
    }

    /** A click on optionBtn2: the action named by its label, if the label is one it handles. */
    method PressOptionBtn2()
      requires Valid()
      modifies this`optionBtn1, this`optionBtn2, this`out, this`disconnected
      ensures Valid()
      ensures SessionView() == Step(old(SessionView()), Press2)
    {
      match optionBtn2 {
        case ActionResignPrompt => HandleAction(ActionResignPrompt);
        case ActionResignNo => HandleAction(ActionResignNo);
        case ActionDrawReject => HandleAction(ActionDrawReject);
        case ActionExit => HandleAction(ActionExit);
        case ActionNewGameReject => HandleAction(ActionNewGameReject);
        case _ =>
      }
    }

    /** A GameAction message from the server: results and offers go to HandleAction; an accepted new game counts as a draw. */
    method HandleGameActionMessage(action: Action, message: string)
      requires Valid()
      modifies this`optionBtn1, this`optionBtn2, this`out, this`disconnected
      ensures Valid()
      ensures SessionView() == Step(old(SessionView()), Received(action))
    {
      match action {
        case ActionWin => HandleAction(action);
        case ActionLose => HandleAction(action);
        case ActionDraw => HandleAction(action);
        case ActionDrawOffer => HandleAction(action);
        case ActionNewGameOffer => HandleAction(action);
        case ActionNewGameAccept => HandleAction(ActionDraw);
        case _ =>
      }
    }

    /** A Game message from the server: the buttons return to their default labels. */
    method HandleGameMessage(fen: string, isTurn: bool)
      requires Valid()
      modifies this`optionBtn1, this`optionBtn2
      ensures Valid()
      ensures SessionView() == Step(old(SessionView()), GameUpdated)
    {
      optionBtn1 := ActionDrawPrompt;
      optionBtn2 := ActionResignPrompt;
    }

    /** A Connect message from the server: it fixes the local role, which the message carries. */
    method HandleConnectMessage(role: PlayerRole, fen: string, isTurn: bool)
      requires Valid()
      modifies this`role
      ensures Valid()
      ensures this.role == role
    {
      this.role := role;
    }

    /**
     * A click on the board cell (row, col). pawnSquares are the squares of
     * the current position that hold a pawn and validMoves its legal moves
     * in the engine's notation.
     */
    method SelectCell(row: int, col: int, pawnSquares: set<Square>, validMoves: seq<string>)
      requires Valid()
      requires OnBoardCell(row, col)
      modifies this`selecting, this`lastSelection, this`highlights, this`out
      ensures Valid()
      ensures var r := Click(old(SelState()), PosToSquare(row, col, role), pawnSquares, validMoves);
        SelState() == r.state && out == old(out) + r.sent
    {
      var sq := PosToSquare(row, col, role);
      SelectSquare(sq, pawnSquares, validMoves);
    }

    /** The selection callback once the clicked cell has been turned into the square sq. */
    method SelectSquare(sq: Square, pawnSquares: set<Square>, validMoves: seq<string>)
      requires Valid()
      requires IsSquare(sq)
      modifies this`selecting, this`lastSelection, this`highlights, this`out
      ensures Valid()
      ensures var r := Click(old(SelState()), sq, pawnSquares, validMoves);
        SelState() == r.state && out == old(out) + r.sent
    {
      if selecting {
        if sq == lastSelection {
          selecting := false;
          lastSelection := 0;
          highlights := highlights - {sq};
        } else {
          var move := SquareName(lastSelection) + SquareName(sq);
          if lastSelection in pawnSquares && PromotionRanks(move) {
            move := move + "q";
          }
          assert move == Candidate(lastSelection, sq, lastSelection in pawnSquares);
          var isValid := ContainsMove(move, validMoves);
          if !isValid {
            highlights := highlights - {sq};
            highlights := highlights - {lastSelection};
            selecting := false;
            lastSelection := 0;
          } else {
            out := out + [MessageMove(move, "Hi")];
            highlights := highlights - {lastSelection};
            lastSelection := 0;
            selecting := false;
          }
        }
      } else {
        highlights := highlights[sq := true];
        selecting := true;
        lastSelection := sq;
      }
    }

    /**
     * HandleWrite: takes the queued payloads in order and writes one frame
     * for each. Without a connection the first payload taken is dropped
     * and the writer stops.
     */
    method HandleWrite(encode: Message -> seq<byte>)
      requires QueueValid()
      requires NonEmptyEncoder(encode)
      modifies this`taken, this`written
      ensures QueueValid()
      ensures connected ==> taken == |out| && written == old(written) + Frames(out[old(taken)..], encode)
      ensures !connected ==> written == old(written) && taken == (if old(taken) < |out| then old(taken) + 1 else old(taken))
    {
      var next, frames := DrainQueue(out, taken, connected, encode);
      taken, written := next, written + frames;
    }
  }

  /** Resigning from the default labels takes a click on "resign" and then one on "yes", and sends one resignation. */
  method ResignScenario(c: Client)
    requires c.Valid() && c.SessionView().labels == DefaultLabels
    modifies c
    ensures c.out == old(c.out) + [MessageGameAction(ActionResignYes, "")]
  {
    c.PressOptionBtn2();
    assert c.out == old(c.out);
    c.PressOptionBtn1();
  }
}
