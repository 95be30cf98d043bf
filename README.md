# chessterm client: interaction state and framing

This project models the local interaction logic of the chessterm terminal
client (package `pkg`): how a click on the board table becomes a chess square
for the side the player plays, the two-click gesture that proposes and sends a
move, the negotiation of resignation, draw and new game through the two option
buttons, and the framing of every queued payload into a newline-terminated
`MessageTransport` envelope. It also models the message tags and `Type()` methods
of `pkg/messages.go`.

Modules, one per concern:

- `Messages`: `MessageType` (a Go `int`) and its five declared tags, `MessageType.String`, the
  payload structs as one `Message` datatype, and their `Type()` methods. It also holds the `Action`
  and `PlayerRole` types that the client uses.
- `Board`: `posToSquare` with Go's truncation to the engine's 8-bit `Square`, its inverse on the
  64 board cells, and the engine's algebraic square names.
- `Selection`: the selection callback as a function on `(selecting, lastSelection, highlights)`.
  It also has the loop that looks the candidate up in the legal moves, and runs of many clicks.
- `Negotiation`: `HandleAction` as functions on the button labels and the outbound queue, the
  label-to-action dispatch of both buttons, the inbound GameAction dispatch, and runs of events.
- `Framing`: the frames `HandleWrite` writes and its writer loop, `DrainQueue`, which works on the queue's
  contents so that `Client.HandleWrite` only reads and updates the fields. It also has a line reader, which shows that the
  envelopes come back in queue order.
- `ClientState`: the `Client` class with the source's fields. Its methods are proved against the
  functions above.

The outbound channel `Out` is the sequence of every payload ever enqueued. The writer keeps the
number of payloads it has taken; `written` holds the frames it wrote.

Where the documentation of the system and the code differ, the model follows the code:

- The resignation message carries `ActionResignYes`.
- An inbound `ActionNewGameAccept` is handled as `ActionDraw`.
- Inbound draw accept or reject messages are not dispatched to `HandleAction` at all.
- A legal move deletes only the anchor's highlight, not both squares' highlights. In every reachable
  state the destination is not highlighted anyway (`Selection.Consistent`), so both readings agree.
- `MessageConnect` carries `Color` in `pkg/messages.go`, while `pkg/client.go` reads a role from it.
  The model passes the role to `HandleConnectMessage` as an argument.

## Model

| member | source | states |
|---|---|---|
| Messages.DeclaredTypesConsecutive | pkg/messages.go:14-20 | the five tags are 0, 1, 2, 3, 4 in declaration order |
| Messages.TypeString | pkg/messages.go:22-37 | the text is "Unknown MessageType" exactly for values outside the five declared tags; each declared tag gets its own name |
| Messages.TypeStringInjective | pkg/messages.go:22-37 | two values have the same name iff they are the same tag or both undeclared |
| Messages.Type | pkg/messages.go:63-119 | Game, Move, Transport, Connect and GameChat carry the tags 0, 1, 2, 3 and 4 respectively; GameAction carries a tag outside the declared five |
| Messages.TypeIdentifiesVariant | pkg/messages.go:63-119 | two payloads have the same tag iff they are the same struct, whatever their fields |
| Board.Int8 | pkg/client.go:546 | the conversion to the engine's Square lands in -128..127 and agrees with its argument modulo 256 |
| Board.PosToSquare | pkg/client.go:540-547 | on a board cell the result is a square whose file is col - 1 and whose rank is 7 - row unless the role is Black, row for Black |
| Board.SquareToPos | pkg/client.go:540-547 | every square is shown on a board cell |
| Board.PosToSquareRoundTrip | pkg/client.go:540-547 | mapping a board cell to its square and back gives the same cell |
| Board.SquareToPosRoundTrip | pkg/client.go:540-547 | mapping a square to its cell and back gives the same square |
| Board.PosToSquareInjective | pkg/client.go:540-547 | for a fixed role, distinct board cells show distinct squares |
| Board.OrientationFlip | pkg/client.go:540-547 | the White view is the Black view flipped upside down |
| Board.TopLeftCell | pkg/client.go:540-547 | cell (0, 1) is a8 for White and a1 for Black |
| Board.SquareName | pkg/client.go:330 | a square's name is a file letter a-h followed by a rank digit 1-8 |
| Board.SquareNameRank | pkg/client.go:334 | the digit of a square's name reads back its rank |
| Board.SquareNameFile | pkg/client.go:330 | the letter of a square's name reads back its file |
| Board.SquareNameInjective | pkg/client.go:330 | distinct squares have distinct names |
| Selection.Candidate | pkg/client.go:330-336 | the candidate starts with the names of the anchor and of the destination and has at most one extra character |
| Selection.CandidatePromotes | pkg/client.go:333-336 | exactly one "q" is appended iff the anchored piece is a pawn going from rank 7 to 8 or from rank 2 to 1 |
| Selection.CandidateInjective | pkg/client.go:330-336 | a candidate determines its anchor and destination squares |
| Selection.ContainsMove | pkg/client.go:337-341 | the scan finds the candidate iff it is one of the legal move strings |
| Selection.Click | pkg/client.go:320-363 | each click toggles selecting; the highlights stay exactly the anchor; at most one message is sent, and only a legal MessageMove for the candidate of a second click on another square |
| Selection.DestinationClick | pkg/client.go:337-354 | a click on another square ends the gesture and sends the candidate iff it is legal, and nothing otherwise |
| Selection.Clicks | pkg/client.go:320-363 | any run of clicks keeps the highlights equal to the anchor or empty |
| Selection.ClickTwiceCancels | pkg/client.go:323-328 | clicking a square twice from idle returns to idle and sends nothing |
| Selection.ClicksSendOnlyLegalMoves | pkg/client.go:337-354 | every message a run of clicks sends is a MessageMove listed as legal |
| Selection.TwoClicksPerMove | pkg/client.go:320-363 | a run of n clicks sends at most n/2 moves |
| Negotiation.ActionLabels | pkg/client.go:79-146 | the labels stay among the five pairs; a draw offer shows draw accept/reject and a new-game offer shows new-game accept/reject; resign no, both draw answers and new-game accept restore the defaults; new-game reject and the results show new game/exit; resign yes, both prompts and exit keep the labels; the confirmation label appears only through the resign prompt |
| Negotiation.ActionSends | pkg/client.go:79-146 | at most one GameAction with an empty message, never a result; the draw prompt sends a draw offer and the new-game prompt an invitation; resign yes and the four answers send themselves; the resign prompt, resign no, offers, results and exit send nothing |
| Negotiation.Button1Action | pkg/client.go:153-166 | the first button triggers the action its label names, or nothing |
| Negotiation.Button2Action | pkg/client.go:168-181 | the second button triggers the action its label names, or nothing |
| Negotiation.NoDeadButtons | pkg/client.go:151-181 | every label pair the buttons can show makes both buttons trigger their label's action |
| Negotiation.InboundAction | pkg/client.go:503-519 | results, draw offers and new-game offers from the server are passed on as they are, a new-game accept is passed on as a drawn result, and nothing else reaches HandleAction; what reaches it sends nothing back |
| Negotiation.Apply | pkg/client.go:79-146 | running HandleAction grows the queue by at most one payload, keeps the labels among the five pairs, disconnects exactly on ActionExit, and changes nothing when no action was triggered |
| Negotiation.Step | pkg/client.go:153-181 | one event (a click, dispatched at 153-181; a game update, 466-467; a GameAction from the server, 503-519) grows the queue by at most one payload and keeps the labels among the five pairs; a GameAction or a game update from the server sends nothing; a game update only restores the default labels |
| Negotiation.RunKeepsLabelsWellFormed | pkg/client.go:79-181 | after any events the buttons show one of the five label pairs |
| Negotiation.RunOnlyAppends | pkg/client.go:79-146 | the outbound queue only grows by appending |
| Negotiation.ClientNeverSendsResult | pkg/client.go:79-146 | everything the negotiation sends is a GameAction other than Win, Lose or Draw |
| Negotiation.ResultOverrides | pkg/client.go:505-512 | a result from the server replaces any pending offer or prompt by new game/exit and sends nothing |
| Negotiation.DrawOfferShowsAnswers | pkg/client.go:95-97 | a draw offer from the server shows draw accept/reject and sends nothing |
| Negotiation.DrawPromptSendsOffer | pkg/client.go:99-101 | clicking "draw" sends one draw offer and keeps the labels |
| Negotiation.DrawAnswerRestoresDefaults | pkg/client.go:103-112 | accepting or rejecting a draw sends that answer and restores the default labels |
| Negotiation.NewGameOfferShowsAnswers | pkg/client.go:114-116 | a new-game offer from the server shows new-game accept/reject and sends nothing |
| Negotiation.NewGamePromptSendsOffer | pkg/client.go:118-120 | clicking "new game" sends one invitation and keeps the labels |
| Negotiation.NewGameAnswer | pkg/client.go:122-131 | accepting an invitation sends the acceptance and restores the default labels; rejecting it sends the rejection and shows new game/exit |
| Negotiation.NewGameAcceptedShowsResult | pkg/client.go:517-518 | the server's acceptance of an invitation shows new game/exit and sends nothing |
| Negotiation.ResignPromptSendsNothing | pkg/client.go:83-85 | clicking resign only shows the yes/no pair |
| Negotiation.ConfirmNeedsPrompt | pkg/client.go:83-92 | the confirmation label appears only after a click on the resign label |
| Negotiation.StepSendsResign | pkg/client.go:83-92 | one event sends a resignation only as a click on the first button while it shows the confirmation label |
| Negotiation.ResignNeedsConfirmation | pkg/client.go:83-92 | a resignation is sent only if a click on resign came before it |
| Framing.Envelope | pkg/client.go:433-434 | the envelope is tagged as a MessageTransport, carries the payload's encoding, and its tag equals the tag of exactly the payloads of the same struct |
| Framing.Terminate | pkg/client.go:436-438 | the frame ends with a newline; bytes already ending with a newline are left unchanged, otherwise one newline is appended |
| Framing.TerminateIdempotent | pkg/client.go:436-438 | the newline is added only when missing |
| Framing.Frame | pkg/client.go:433-438 | the frame of one payload ends with a newline |
| Framing.BuildFrame | pkg/client.go:433-438 | encoding the payload, wrapping it in a MessageTransport, encoding that and adding a missing newline gives the payload's frame |
| Framing.Frames | pkg/client.go:431-447 | one frame per queued payload |
| Framing.FramesInOrder | pkg/client.go:431-447 | frame i is the frame of payload i and ends with a newline |
| Framing.FramesAppend | pkg/client.go:431-447 | framing one more payload adds its frame at the end |
| Framing.FramesCons | pkg/client.go:431-447 | framing a payload ahead of others puts its frame first |
| Framing.FramesPointwise | pkg/client.go:431-447 | a sequence holding the frame of each payload at its position is the frames of the payloads |
| Framing.DrainQueue | pkg/client.go:431-447 | with a connection the loop takes every payload from the start position and returns their frames in order; without one it takes the next payload, if there is one, and returns no frame |
| Framing.ReaderRecoversEnvelopes | pkg/client.go:431-447 | splitting the written stream at newlines gives back the encoded envelopes in queue order |
| Framing.FramesFromIsFrames | pkg/client.go:431-447 | framing the queue front to back gives the same frames as framing it back to front |
| Framing.WireRoundTrip | pkg/client.go:431-447 | the stream written for a queue reads back as that queue's envelopes, in order |
| ClientState.Client.constructor | pkg/client.go:55-71 | a new client has nothing selected, the default labels, an empty queue and no connection; NewClient leaves the role at its zero value, which the model takes as an argument because the role type is not part of this model |
| ClientState.Client.Connect | pkg/client.go:420-429 | the connection is set only when dialling succeeds |
| ClientState.Client.HandleAction | pkg/client.go:79-146 | labels and queue change as Apply says; Exit disconnects; nothing else changes |
| ClientState.Client.PressOptionBtn1 | pkg/client.go:153-166 | a click on the first button is one Press1 step |
| ClientState.Client.PressOptionBtn2 | pkg/client.go:168-181 | a click on the second button is one Press2 step |
| ClientState.Client.HandleGameActionMessage | pkg/client.go:500-520 | a GameAction from the server is one Received step |
| ClientState.Client.HandleGameMessage | pkg/client.go:457-468 | a game update restores the default labels and leaves everything else |
| ClientState.Client.HandleConnectMessage | pkg/client.go:470-481 | a connect message sets the role and leaves everything else |
| ClientState.Client.SelectCell | pkg/client.go:320-363 | a board click changes the selection fields and the queue as Click says for the square posToSquare gives |
| ClientState.Client.SelectSquare | pkg/client.go:321-363 | the selection fields and the queue change as Click says for the clicked square |
| ClientState.Client.HandleWrite | pkg/client.go:431-447 | with a connection every queued payload is taken and its frame written, in order; without one the first payload taken is dropped and nothing is written |
| ClientState.ResignScenario | pkg/client.go:83-92 | from the default labels, resign then yes sends exactly one resignation |

## Left out

- Rendering: the tview/tcell layout (`InitGUI` grids), `renderBoard`, cell colours, `App.Draw` and `App.SetRoot`. The model keeps the label and highlight state they display.
- Status and chat texts (`StatusTextView`, `ChatTextView`, `MenuTextView`) and the chat input with `time.Now`: they only display text.
- The lobby menu (`ls`, `join`, `create`, `callme`, `help`, `about`, `exit`) and `MessageGameCommand`: pass-through text, not interaction state.
- `HandleRead`: the scanner loop and JSON decoding are network I/O and a foreign library. The model keeps the handlers of the Game, Connect and GameAction messages as methods.
- Encoding: JSON is a parameter `encode` of the framing. It is assumed never to return an empty encoding, which `json.Marshal` never does. The line-reader lemmas also assume it never emits a raw newline.
- The chess engine is left out. The squares holding a pawn and the legal move strings are inputs. `Square.String` is modelled as `Board.SquareName` on the 64 squares.
- Goroutines and the capacity-10 channel: `go cl.HandleAction(...)` is modelled as a synchronous call. `Out` is an unbounded append-only sequence, so backpressure is not modelled.
- `ClientState.Client.HandleWrite`: a failed write ends the process through `log.Fatal`; the model has no failing write. When the queue is empty, the Go loop blocks on the channel; the model returns instead.
- `Framing.DrainQueue`: receives from a sequence rather than a channel, so it ends when the queue is used up instead of waiting for the next payload.
- `ClientState.Client.SelectCell`: requires an on-board cell. `renderBoard` makes the rank column 0 and the file row 8 non-selectable, so the table never reports them.
- `Disconnect` (`App.Stop`, `Conn.Close`) is modelled as the flag `disconnected`.
- `PlayerRole` is modelled as White or Black. If the Go type has further values, `posToSquare` treats them as White, which the model does not distinguish.
- `TypeMessageGameAction`, `TypeMessageGameStatus` and `TypeMessageGameCommand` are not declared in the message file modelled here. `TypeMessageGameAction` is given the value 5, outside the declared tags. The other two are not modelled.
- `Messages.Action`: a Go `Action` is a string, and `OtherAction(name)` stands for every string that is not one of the named constants. `OtherAction` applied to a constant's own string is a second Dafny value for that Go value. The model never builds such a value, and every function treats `OtherAction` like Go's default case.
- Logging (`log.Printf`, `log.Println`) is not modelled.
