/**
 * Message tags and message payloads exchanged between the chess client and
 * the server (pkg/messages.go), together with the game-action kinds and the
 * player role that pkg/client.go uses but that are declared elsewhere.
 */
module Messages {

  /** A raw byte of an encoded message. */
  type byte = b: int | 0 <= b < 256

  /**
   * A message tag. The source declares MessageType as a Go `int`, so every
   * integer is a value of the type, not only the declared tags.
   */
  type MessageType = int

  // The five tags declared with `iota`, in declaration order.
  const TypeMessageGame: MessageType := 0
  const TypeMessageMove: MessageType := 1
  const TypeMessageTransport: MessageType := 2
  const TypeMessageConnect: MessageType := 3
  const TypeMessageGameChat: MessageType := 4

  /**
   * The tag of MessageGameAction. It is declared in a revision of the
   * message file that this model does not have; the model only relies on
   * it lying outside the five tags above.
   */
  const TypeMessageGameAction: MessageType := 5

  /** The declared tags, in declaration order. */
  const DeclaredTypes: seq<MessageType> :=
    [TypeMessageGame, TypeMessageMove, TypeMessageTransport, TypeMessageConnect, TypeMessageGameChat]

  const UnknownTypeName := "Unknown MessageType"

  /** The names MessageType.String gives to the declared tags, in declaration order. */
  const DeclaredTypeNames: seq<string> :=
    ["TypeMessageGame", "TypeMessageMove", "TypeMessageTransport", "TypeMessageConnect", "TypeMessageGameChat"]

  /** The tags are the consecutive integers 0 to 4 in declaration order. */
  lemma DeclaredTypesConsecutive()
    ensures |DeclaredTypes| == 5
    ensures forall i :: 0 <= i < |DeclaredTypes| ==> DeclaredTypes[i] == i
  {
  }

  /** MessageType.String: the name of a declared tag, or a fixed text for any other value. */
  function TypeString(m: MessageType): (s: string)
    ensures s == UnknownTypeName <==> m !in DeclaredTypes
    ensures 0 <= m < |DeclaredTypes| ==> s == DeclaredTypeNames[m]
  {
    if m == TypeMessageGame then "TypeMessageGame"
    else if m == TypeMessageMove then "TypeMessageMove"
    else if m == TypeMessageTransport then "TypeMessageTransport"
    else if m == TypeMessageConnect then "TypeMessageConnect"
    else if m == TypeMessageGameChat then "TypeMessageGameChat"
    else UnknownTypeName
  }

  /**
   * The name identifies the tag: two tags with the same name are the same
   * tag, unless both are undeclared.
   */
  lemma TypeStringInjective(m: MessageType, n: MessageType)
    ensures TypeString(m) == TypeString(n) <==> m == n || (m !in DeclaredTypes && n !in DeclaredTypes)
  {
  }

  /** The side a player plays; it fixes the orientation of the board. */
  datatype PlayerRole = White | Black

  /**
   * The game actions that pkg/client.go names. The Go type is a string type
   * whose constants label the two option buttons; OtherAction stands for
   * every other value of that type.
   */
  datatype Action =
    | ActionResignPrompt | ActionResignYes | ActionResignNo
    | ActionDrawOffer | ActionDrawPrompt | ActionDrawAccept | ActionDrawReject
    | ActionNewGameOffer | ActionNewGamePrompt | ActionNewGameAccept | ActionNewGameReject
    | ActionWin | ActionLose | ActionDraw
    | ActionExit
    | OtherAction(name: string)

  /** The final results, which only the server announces. */
  predicate IsResult(a: Action) {
    a == ActionWin || a == ActionLose || a == ActionDraw
  }

  /** The payloads that implement MessageInterface. A time is an abstract instant. */
  datatype Message =
    | MessageGame(fen: string, isTurn: bool)
    | MessageMove(move: string, msg: string)
    | MessageTransport(msgType: MessageType, data: seq<byte>, playerId: int)
    | MessageConnect(color: PlayerRole, fen: string, isTurn: bool)
    | MessageGameChat(message: string, name: string, time: int)
    | MessageGameAction(action: Action, message: string)

  /** The Type() method of each payload: a constant per variant, whatever its fields. */
  function Type(m: Message): (t: MessageType)
    ensures t in DeclaredTypes <==> !m.MessageGameAction?
    ensures m.MessageGame? ==> t == TypeMessageGame
    ensures m.MessageMove? ==> t == TypeMessageMove
    ensures m.MessageTransport? ==> t == TypeMessageTransport
    ensures m.MessageConnect? ==> t == TypeMessageConnect
    ensures m.MessageGameChat? ==> t == TypeMessageGameChat
    ensures m.MessageGameAction? ==> t == TypeMessageGameAction
  {
    match m
    case MessageGame(_, _) => TypeMessageGame
    case MessageMove(_, _) => TypeMessageMove
    case MessageTransport(_, _, _) => TypeMessageTransport
    case MessageConnect(_, _, _) => TypeMessageConnect
    case MessageGameChat(_, _, _) => TypeMessageGameChat
    case MessageGameAction(_, _) => TypeMessageGameAction
  }

  /** Two payloads are of the same Go struct. */
  predicate SameVariant(m: Message, n: Message) {
    || (m.MessageGame? && n.MessageGame?)
    || (m.MessageMove? && n.MessageMove?)
    || (m.MessageTransport? && n.MessageTransport?)
    || (m.MessageConnect? && n.MessageConnect?)
    || (m.MessageGameChat? && n.MessageGameChat?)
    || (m.MessageGameAction? && n.MessageGameAction?)
  }

  /**
   * The tag a payload carries tells which struct it is, so a reader can
   * choose the right shape to decode the payload into.
   */
  lemma TypeIdentifiesVariant(m: Message, n: Message)
    ensures Type(m) == Type(n) <==> SameVariant(m, n)
  {
  }
}
