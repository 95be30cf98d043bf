/**
 * The negotiation of resignation, draw and new game over the two option
 * buttons of pkg/client.go: what HandleAction does to the button labels and
 * the outbound queue, which action each label triggers when clicked, and
 * which actions received from the server are passed on to HandleAction.
 */
module Negotiation {
  import opened Options
  import opened Messages

  /** The labels of optionBtn1 (Draw, Accept, Yes) and optionBtn2 (Resign, Reject, No). */
  datatype Labels = Labels(btn1: Action, btn2: Action)

  /** The labels the buttons are created with and that a game update restores. */
  const DefaultLabels := Labels(ActionDrawPrompt, ActionResignPrompt)
  /** The labels after a result: offer a new game, or leave. */
  const ResultLabels := Labels(ActionNewGamePrompt, ActionExit)

  /** The label pairs HandleAction ever writes. */
  predicate WellFormed(l: Labels) {
    l in {DefaultLabels,
          Labels(ActionResignYes, ActionResignNo),
          Labels(ActionDrawAccept, ActionDrawReject),
          Labels(ActionNewGameAccept, ActionNewGameReject),
          ResultLabels}
  }

  /** HandleAction's effect on the labels. */
  function ActionLabels(l: Labels, a: Action): (r: Labels)
    ensures WellFormed(l) ==> WellFormed(r)
    ensures IsResult(a) ==> r == ResultLabels
    ensures r.btn1 == ActionResignYes ==> a == ActionResignPrompt || (r == l && l.btn1 == ActionResignYes)
    ensures a == ActionDrawOffer ==> r == Labels(ActionDrawAccept, ActionDrawReject)
    ensures a == ActionNewGameOffer ==> r == Labels(ActionNewGameAccept, ActionNewGameReject)
    ensures a in {ActionResignNo, ActionDrawAccept, ActionDrawReject, ActionNewGameAccept} ==> r == DefaultLabels
    ensures a == ActionNewGameReject ==> r == ResultLabels
    ensures a in {ActionResignYes, ActionDrawPrompt, ActionNewGamePrompt, ActionExit} || a.OtherAction? ==> r == l
  {
    match a
    case ActionResignPrompt => Labels(ActionResignYes, ActionResignNo)
    case ActionResignYes => l
    case ActionResignNo => DefaultLabels
    case ActionDrawOffer => Labels(ActionDrawAccept, ActionDrawReject)
    case ActionDrawPrompt => l
    case ActionDrawAccept => DefaultLabels
    case ActionDrawReject => DefaultLabels
    case ActionNewGameOffer => Labels(ActionNewGameAccept, ActionNewGameReject)
    case ActionNewGamePrompt => l
    case ActionNewGameAccept => DefaultLabels
    case ActionNewGameReject => ResultLabels
    case ActionWin => ResultLabels
    case ActionLose => ResultLabels
    case ActionDraw => ResultLabels
    case ActionExit => l
    case OtherAction(_) => l
  }

  /** What HandleAction puts on the outbound queue. */
  function ActionSends(a: Action): (ms: seq<Message>)
    ensures |ms| <= 1
    ensures forall m :: m in ms ==> m.MessageGameAction? && m.message == "" && !IsResult(m.action)
    ensures a == ActionResignPrompt || a == ActionResignNo ==> ms == []
    ensures MessageGameAction(ActionResignYes, "") in ms <==> a == ActionResignYes
    ensures a == ActionDrawPrompt ==> ms == [MessageGameAction(ActionDrawOffer, "")]
    ensures a == ActionNewGamePrompt ==> ms == [MessageGameAction(ActionNewGameOffer, "")]
    ensures a in {ActionDrawAccept, ActionDrawReject, ActionNewGameAccept, ActionNewGameReject} ==> ms == [MessageGameAction(a, "")]
    ensures a in {ActionDrawOffer, ActionNewGameOffer, ActionWin, ActionLose, ActionDraw, ActionExit} || a.OtherAction? ==> ms == []
  {
    match a
    case ActionResignYes => [MessageGameAction(a, "")]
    case ActionDrawPrompt => [MessageGameAction(ActionDrawOffer, "")]
    case ActionDrawAccept => [MessageGameAction(a, "")]
    case ActionDrawReject => [MessageGameAction(a, "")]
    case ActionNewGamePrompt => [MessageGameAction(ActionNewGameOffer, "")]
    case ActionNewGameAccept => [MessageGameAction(a, "")]
    case ActionNewGameReject => [MessageGameAction(a, "")]
    case _ => []
  }

  /** The action optionBtn1 triggers for its current label. */
  function Button1Action(shown: Action): (r: Option<Action>)
    ensures r.Some? ==> r.value == shown
  {
    match shown
    case ActionDrawPrompt => Some(ActionDrawPrompt)
    case ActionResignYes => Some(ActionResignYes)
    case ActionDrawAccept => Some(ActionDrawAccept)
    case ActionNewGamePrompt => Some(ActionNewGamePrompt)
    case ActionNewGameAccept => Some(ActionNewGameAccept)
    case _ => None
  }

  /** The action optionBtn2 triggers for its current label. */
  function Button2Action(shown: Action): (r: Option<Action>)
    ensures r.Some? ==> r.value == shown
  {
    match shown
    case ActionResignPrompt => Some(ActionResignPrompt)
    case ActionResignNo => Some(ActionResignNo)
    case ActionDrawReject => Some(ActionDrawReject)
    case ActionExit => Some(ActionExit)
    case ActionNewGameReject => Some(ActionNewGameReject)
    case _ => None
  }

  /** Every label the buttons can show triggers an action: no button is ever dead. */
  lemma NoDeadButtons(l: Labels)
    requires WellFormed(l)
    ensures Button1Action(l.btn1) == Some(l.btn1)
    ensures Button2Action(l.btn2) == Some(l.btn2)
  {
  }

  /** The action a GameAction message from the server passes to HandleAction, if any. */
  function InboundAction(a: Action): (r: Option<Action>)
    ensures r.Some? ==> IsResult(r.value) || r.value == ActionDrawOffer || r.value == ActionNewGameOffer
    ensures r.Some? ==> ActionSends(r.value) == []
    ensures IsResult(a) || a == ActionDrawOffer || a == ActionNewGameOffer ==> r == Some(a)
    ensures a == ActionNewGameAccept ==> r == Some(ActionDraw)
    ensures r.Some? ==> IsResult(a) || a == ActionDrawOffer || a == ActionNewGameOffer || a == ActionNewGameAccept
  {
    match a
    case ActionWin => Some(a)
    case ActionLose => Some(a)
    case ActionDraw => Some(a)
    case ActionDrawOffer => Some(a)
    case ActionNewGameOffer => Some(a)
    case ActionNewGameAccept => Some(ActionDraw)
    case _ => None
  }

  /** The part of the client the negotiation touches. */
  datatype Session = Session(labels: Labels, out: seq<Message>, disconnected: bool)

  /**
   * Running HandleAction, if an action was triggered: the queue grows by at
   * most one payload, the labels stay among the pairs HandleAction writes,
   * and only ActionExit disconnects.
   */
  function Apply(s: Session, a: Option<Action>): (r: Session)
    ensures s.out <= r.out && |r.out| <= |s.out| + 1
    ensures WellFormed(s.labels) ==> WellFormed(r.labels)
    ensures r.disconnected == (s.disconnected || a == Some(ActionExit))
    ensures a.None? ==> r == s
  {
    if a.None? then s
    else Session(ActionLabels(s.labels, a.value), s.out + ActionSends(a.value), s.disconnected || a.value == ActionExit)
  }

  /** What can happen to the negotiation: a click on either button, a GameAction or a game update from the server. */
  datatype Event = Press1 | Press2 | Received(action: Action) | GameUpdated

  /**
   * One event: a click runs HandleAction on the button's label, a GameAction
   * from the server runs it on the inbound action, and a game update
   * restores the default labels.
   */
  function Step(s: Session, e: Event): (r: Session)
    ensures s.out <= r.out && |r.out| <= |s.out| + 1
    ensures WellFormed(s.labels) ==> WellFormed(r.labels)
    ensures e.Received? || e == GameUpdated ==> r.out == s.out
    ensures e == GameUpdated ==> r == s.(labels := DefaultLabels)
  {
    match e
    case Press1 => Apply(s, Button1Action(s.labels.btn1))
    case Press2 => Apply(s, Button2Action(s.labels.btn2))
    case Received(a) => Apply(s, InboundAction(a))
    case GameUpdated => s.(labels := DefaultLabels)
  }

  /** The session after a sequence of events, in order. */
  function Run(s: Session, events: seq<Event>): (r: Session)
    decreases |events|
  {
    if events == [] then s else Step(Run(s, events[..|events| - 1]), events[|events| - 1])
  }

  /** The buttons only ever show the label pairs HandleAction writes. */
  lemma {:induction false} RunKeepsLabelsWellFormed(s: Session, events: seq<Event>)
    requires WellFormed(s.labels)
    ensures WellFormed(Run(s, events).labels)
    decreases |events|
  {
    if events != [] {
      RunKeepsLabelsWellFormed(s, events[..|events| - 1]);
    }
  }

  /** The outbound queue only grows, by appending. */
  lemma {:induction false} RunOnlyAppends(s: Session, events: seq<Event>)
    ensures s.out <= Run(s, events).out
    decreases |events|
  {
    if events != [] {
      RunOnlyAppends(s, events[..|events| - 1]);
    }
  }

  /** The client never announces a result itself: everything it sends is a GameAction other than Win, Lose or Draw. */
  lemma {:induction false} ClientNeverSendsResult(s: Session, events: seq<Event>)
    ensures forall m :: m in Run(s, events).out && m !in s.out ==> m.MessageGameAction? && !IsResult(m.action)
    decreases |events|
  {
    if events != [] {
      ClientNeverSendsResult(s, events[..|events| - 1]);
    }
  }

  /** A draw offer from the server turns the buttons into accept/reject and sends nothing. */
  lemma DrawOfferShowsAnswers(s: Session)
    ensures Step(s, Received(ActionDrawOffer)) == s.(labels := Labels(ActionDrawAccept, ActionDrawReject))
  {
  }

  /** Clicking "draw" sends one draw offer and leaves the buttons as they are. */
  lemma DrawPromptSendsOffer(s: Session)
    requires s.labels.btn1 == ActionDrawPrompt
    ensures Step(s, Press1) == s.(out := s.out + [MessageGameAction(ActionDrawOffer, "")])
  {
  }

  /** Answering a draw offer sends the answer and restores the default buttons. */
  lemma DrawAnswerRestoresDefaults(s: Session)
    requires s.labels == Labels(ActionDrawAccept, ActionDrawReject)
    ensures Step(s, Press1) == s.(labels := DefaultLabels, out := s.out + [MessageGameAction(ActionDrawAccept, "")])
    ensures Step(s, Press2) == s.(labels := DefaultLabels, out := s.out + [MessageGameAction(ActionDrawReject, "")])
  {
  }

  /** A new-game offer from the server turns the buttons into accept/reject and sends nothing. */
  lemma NewGameOfferShowsAnswers(s: Session)
    ensures Step(s, Received(ActionNewGameOffer)) == s.(labels := Labels(ActionNewGameAccept, ActionNewGameReject))
  {
  }

  /** Clicking "new game" sends one invitation and leaves the buttons as they are. */
  lemma NewGamePromptSendsOffer(s: Session)
    requires s.labels.btn1 == ActionNewGamePrompt
    ensures Step(s, Press1) == s.(out := s.out + [MessageGameAction(ActionNewGameOffer, "")])
  {
  }

  /**
   * Accepting an invitation sends the acceptance and restores the default
   * buttons; rejecting it sends the rejection and goes back to new game/exit.
   */
  lemma NewGameAnswer(s: Session)
    requires s.labels == Labels(ActionNewGameAccept, ActionNewGameReject)
    ensures Step(s, Press1) == s.(labels := DefaultLabels, out := s.out + [MessageGameAction(ActionNewGameAccept, "")])
    ensures Step(s, Press2) == s.(labels := ResultLabels, out := s.out + [MessageGameAction(ActionNewGameReject, "")])
  {
  }

  /** The server's acceptance of an invitation is handled as a drawn result. */
  lemma NewGameAcceptedShowsResult(s: Session)
    ensures Step(s, Received(ActionNewGameAccept)) == s.(labels := ResultLabels)
  {
  }

  /** A result from the server overrides any pending offer or prompt and sends nothing. */
  lemma ResultOverrides(s: Session, a: Action)
    requires IsResult(a)
    ensures Step(s, Received(a)).labels == ResultLabels
    ensures Step(s, Received(a)).out == s.out
  {
  }

  /** Clicking "resign" only turns the buttons into the confirmation pair. */
  lemma ResignPromptSendsNothing(s: Session)
    requires s.labels.btn2 == ActionResignPrompt
    ensures Step(s, Press2) == s.(labels := Labels(ActionResignYes, ActionResignNo))
  {
  }

  /** A click on "resign" found in a prefix of the events is one of the events. */
  lemma PromptClickInPrefix(s: Session, events: seq<Event>, n: int)
    requires 0 <= n <= |events|
    ensures (exists i :: 0 <= i < n && events[..n][i] == Press2 && Run(s, events[..n][..i]).labels.btn2 == ActionResignPrompt) ==>
      exists i :: 0 <= i < |events| && events[i] == Press2 && Run(s, events[..i]).labels.btn2 == ActionResignPrompt
  {
    if i :| 0 <= i < n && events[..n][i] == Press2 && Run(s, events[..n][..i]).labels.btn2 == ActionResignPrompt {
      assert events[..n][..i] == events[..i];
    }
  }

  /** The confirmation label appears only when "resign" is clicked. */
  lemma {:induction false} ConfirmNeedsPrompt(s: Session, events: seq<Event>)
    requires s.labels.btn1 != ActionResignYes
    requires Run(s, events).labels.btn1 == ActionResignYes
    ensures exists i :: 0 <= i < |events| && events[i] == Press2 && Run(s, events[..i]).labels.btn2 == ActionResignPrompt
    decreases |events|
  {
    var n := |events| - 1;
    var t := Run(s, events[..n]);
    if t.labels.btn1 == ActionResignYes {
      ConfirmNeedsPrompt(s, events[..n]);
      PromptClickInPrefix(s, events, n);
    } else {
      assert events[n] == Press2 && Run(s, events[..n]).labels.btn2 == ActionResignPrompt;
    }
  }

  /** A single step sends a resignation only as a click on the confirmation label. */
  lemma StepSendsResign(t: Session, e: Event)
    requires MessageGameAction(ActionResignYes, "") !in t.out
    requires MessageGameAction(ActionResignYes, "") in Step(t, e).out
    ensures e == Press1 && t.labels.btn1 == ActionResignYes
  {
    match e
    case Press1 =>
    case Press2 =>
    case Received(a) =>
    case GameUpdated =>
  }

  /**
   * A resignation is sent only after its confirmation: if the buttons did
   * not already ask for confirmation, a run that sends a resignation
   * contains a click on "resign" before it.
   */
  lemma {:induction false} ResignNeedsConfirmation(s: Session, events: seq<Event>)
    requires s.labels.btn1 != ActionResignYes
    requires MessageGameAction(ActionResignYes, "") !in s.out
    requires MessageGameAction(ActionResignYes, "") in Run(s, events).out
    ensures exists i :: 0 <= i < |events| && events[i] == Press2 && Run(s, events[..i]).labels.btn2 == ActionResignPrompt
    decreases |events|
  {
    var n := |events| - 1;
    var t := Run(s, events[..n]);
    if MessageGameAction(ActionResignYes, "") in t.out {
      ResignNeedsConfirmation(s, events[..n]);
    } else {
      StepSendsResign(t, events[n]);
      ConfirmNeedsPrompt(s, events[..n]);
    }
    PromptClickInPrefix(s, events, n);
  }
}
