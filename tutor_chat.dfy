/**
 * The offline tutor chat (`src/components/TutorChat.tsx`): a message list that the
 * send handler appends to, a delayed continuation that appends the tutor's reply, and
 * the canned reply generator. `Math.random()` draws and `Date.now()` are parameters;
 * each `setTimeout` continuation is an explicit call that names which pending send it
 * answers, because their random delays let them finish in any order.
 */
module TutorChat {
  import opened Common
  import opened Text

  datatype Sender = User | Tutor

  datatype Message = Message(
    id: string,
    sender: Sender,
    content: string,
    timestamp: int,
    confidence: Option<real>,
    steps: Option<seq<string>>)

  /** The mode keys of the five mode buttons. */
  function ModeKeys(): seq<string>
  {
    ["explain", "hint", "solve", "check", "practice"]
  }

  /**
   * The fixed wording of the greeting and the canned replies. The components only ever
   * use `SourceWording()`; the reply logic takes it as a value so that its proofs need
   * not unfold the long texts.
   */
  datatype Wording = Wording(
    greetingTail: string,
    explainHead: string,
    mathSentence: string,
    generalSentence: string,
    explainTail: string,
    hint: string,
    solveIntro: string,
    solveSteps: seq<string>,
    checkOpening: string,
    checkCorrect: string,
    checkAdjust: string,
    checkMiddle: string,
    checkPraise: string,
    checkReview: string,
    checkClosing: string,
    practice: string,
    echoOpening: string,
    echoClosing: string)

  function SourceWording(): Wording
  {
    Wording(
      greetingTail :=
        "! I'm your AI tutor. I can " + "help you with explanations, " + "hints, step-by-step " +
        "solutions, and practice " + "questions. What would you " + "like to learn about today?",
      explainHead :=
        "Great question! Let me " + "explain this concept step " + "by step. ",
      mathSentence :=
        "In mathematics, we often " + "break down problems into " + "smaller, manageable parts.",
      generalSentence :=
        "This is an important topic " + "that builds on fundamental " + "concepts.",
      explainTail :=
        " \n\nThe key principle here " + "is understanding the " +
        "underlying logic. Would you " + "like me to provide a " + "specific example or go " +
        "deeper into any particular " + "aspect?",
      hint :=
        "Here's a helpful hint: " + "Think about what you " + "already know about this " +
        "topic. Often the answer " + "lies in applying basic " + "principles you've already " +
        "learned. \n\nTry asking " + "yourself: What information " +
        "do I have? What am I trying " + "to find? What steps might " +
        "connect these two points?\n\n" + "Would you like another " +
        "hint, or are you ready to " + "try solving it yourself?",
      solveIntro :=
        "Let me solve this " + "step-by-step for you:",
      solveSteps := [
        "First, identify what we " + "know and what we need to " + "find",
        "Apply the relevant formula " + "or principle",
        "Substitute the known values",
        "Perform the calculations " + "carefully",
        "Check our answer to make " + "sure it makes sense"],
      checkOpening :=
        "Let me check your answer! " + "Based on what you've shown " +
        "me, your approach looks ",
      checkCorrect :=
        "correct",
      checkAdjust :=
        "mostly correct with a small " + "adjustment needed",
      checkMiddle :=
        ". \n\n",
      checkPraise :=
        "Great job following the " + "proper steps!",
      checkReview :=
        "Consider double-checking " + "your calculation in step 3.",
      checkClosing :=
        " \n\nWould you like me to " + "explain any part in more " + "detail?",
      practice :=
        "Here's a practice question " + "for you:\n\nIf you're working " +
        "on math: \"A rectangle has a " + "length of 12 units and a " +
        "width of 8 units. What is " + "its area and perimeter?\"\n\n" +
        "If you're studying science: " + "\"Explain why ice floats on " +
        "water using what you know " + "about density.\"\n\nTake your " +
        "time and try to work " + "through it. I'm here if you " + "need hints!",
      echoOpening :=
        "I understand you'd like " + "help with \"",
      echoClosing :=
        "\". I'm working entirely " + "offline using my local " + "knowledge base. While I " +
        "strive to be accurate, " + "please let me know if " + "something doesn't seem " +
        "right!\n\nHow can I best " + "assist you with this topic?")
  }


  /** The two explain-mode sentences open differently, and the solve steps are five. */
  predicate WellFormedWording(w: Wording)
  {
    |w.mathSentence| > 0 && |w.generalSentence| > 0 && w.mathSentence[0] != w.generalSentence[0] &&
    |w.solveSteps| == 5
  }

  lemma SourceWordingWellFormed()
    ensures WellFormedWording(SourceWording())
  {
    var w := SourceWording();
    assert w.mathSentence[0] == 'I' && w.generalSentence[0] == 'T';
  }

  /** The opening tutor message, naming the user when one is signed in. */
  function Greeting(w: Wording, userName: Option<string>): string
  {
    "Hello" + (if userName.Some? then " " + userName.value else "") + w.greetingTail
  }

  /** `0.85 + Math.random() * 0.14`. */
  function Confidence(draw: real): (c: real)
    requires 0.0 <= draw < 1.0
    ensures 0.85 <= c < 0.99
  {
    0.85 + draw * 0.14
  }

  /** The three `Math.random()` draws a reply may use: confidence, and the two coin flips of `'check'`. */
  datatype Draws = Draws(confidence: real, approach: real, steps: real)

  predicate ValidDraws(d: Draws)
  {
    0.0 <= d.confidence < 1.0 && 0.0 <= d.approach < 1.0 && 0.0 <= d.steps < 1.0
  }

  /** `userMessage.toLowerCase().includes('math')`. */
  predicate MentionsMath(userMessage: string)
  {
    Contains(ToLower(userMessage), "math")
  }

  /** The text of the reply for a mode; an unknown mode echoes the message back. */
  function ReplyContent(w: Wording, userMessage: string, selectedMode: string, d: Draws): string
  {
    if selectedMode == "explain" then
      w.explainHead + (if MentionsMath(userMessage) then w.mathSentence else w.generalSentence) + w.explainTail
    else if selectedMode == "hint" then w.hint
    else if selectedMode == "solve" then w.solveIntro
    else if selectedMode == "check" then
      w.checkOpening + (if d.approach > 0.3 then w.checkCorrect else w.checkAdjust) + w.checkMiddle +
      (if d.steps > 0.5 then w.checkPraise else w.checkReview) + w.checkClosing
    else if selectedMode == "practice" then w.practice
    else w.echoOpening + userMessage + w.echoClosing
  }

  /** `generateTutorResponse`: a tutor message chosen by mode; only `'solve'` carries steps. */
  function GenerateTutorResponse(w: Wording, userMessage: string, selectedMode: string, now: nat, d: Draws): (r: Message)
    requires WellFormedWording(w) && ValidDraws(d)
    ensures r.sender == Tutor && r.id == NatToString(now) && r.timestamp == now
    ensures r.confidence.Some? && 0.85 <= r.confidence.value < 0.99
    ensures r.steps.Some? <==> selectedMode == "solve"
    ensures r.steps.Some? ==> |r.steps.value| == 5
  {
    var steps := if selectedMode == "solve" then w.solveSteps else [];
    Message(NatToString(now), Tutor, ReplyContent(w, userMessage, selectedMode, d), now,
            Some(Confidence(d.confidence)), if |steps| > 0 then Some(steps) else None)
  }

  /** A mode outside the five buttons falls to the default branch, which quotes the message. */
  lemma UnknownModeEchoes(w: Wording, userMessage: string, selectedMode: string, now: nat, d: Draws)
    requires WellFormedWording(w) && ValidDraws(d) && selectedMode !in ModeKeys()
    ensures Contains(GenerateTutorResponse(w, userMessage, selectedMode, now, d).content, userMessage)
  {
    var content := ReplyContent(w, userMessage, selectedMode, d);
    var pre := w.echoOpening;
    assert content == pre + userMessage + w.echoClosing;
    assert content[|pre|..|pre| + |userMessage|] == userMessage;
    ContainsAt(content, userMessage, |pre|);
  }

  /**
   * In `'explain'` mode the reply continues with the mathematics sentence exactly when
   * the lower-cased message mentions "math".
   */
  lemma ExplainMentionsMathIff(w: Wording, userMessage: string, now: nat, d: Draws)
    requires WellFormedWording(w) && ValidDraws(d)
    ensures StartsWith(GenerateTutorResponse(w, userMessage, "explain", now, d).content, w.explainHead + w.mathSentence)
        <==> MentionsMath(userMessage)
  {
    var content := ReplyContent(w, userMessage, "explain", d);
    var h := w.explainHead;
    var t := h + w.mathSentence;
    if MentionsMath(userMessage) {
      assert content == t + w.explainTail;
      assert content[..|t|] == t;
    } else {
      assert content == h + w.generalSentence + w.explainTail;
      assert content[|h|] == w.generalSentence[0];
      assert t[|h|] == w.mathSentence[0];
      assert !StartsWith(content, t) by {
        if |t| <= |content| {
          assert content[..|t|][|h|] != t[|h|];
        }
      }
    }
  }

  /** A send still waiting for its delayed reply, with the input and mode its closure captured. */
  datatype PendingReply = PendingReply(text: string, mode: string)

  class Chat {
    const userName: Option<string>
    const wording: Wording
    var messages: seq<Message>
    var inputValue: string
    var isLoading: bool
    var mode: string
    var pending: seq<PendingReply>

    /** The greeting's tutor message stays first, and no blank text is ever sent or queued. */
    predicate Valid()
      reads this
    {
      WellFormedWording(wording) && |messages| >= 1 && messages[0].sender == Tutor &&
      mode in ModeKeys() &&
      (forall i :: 0 <= i < |messages| && messages[i].sender == User ==> !IsBlank(messages[i].content)) &&
      (forall i :: 0 <= i < |pending| ==> !IsBlank(pending[i].text))
    }

    /** The send button is disabled while the trimmed input is empty. */
    function SendDisabled(): bool
      reads this
    {
      IsBlank(inputValue)
    }

    constructor (userName: Option<string>, now: nat)
      ensures Valid() && this.userName == userName && wording == SourceWording()
      ensures messages == [Message("1", Tutor, Greeting(wording, userName), now, None, None)]
      ensures inputValue == "" && !isLoading && mode == "explain" && pending == []
    {
      this.userName := userName;
      wording := SourceWording();
      SourceWordingWellFormed();
      messages := [Message("1", Tutor, Greeting(SourceWording(), userName), now, None, None)];
      inputValue := "";
      isLoading := false;
      mode := "explain";
      pending := [];
    }

    method SetInput(text: string)
      requires Valid()
      modifies this`inputValue
      ensures Valid() && inputValue == text
    {
      inputValue := text;
    }

    /** A mode button: only the five keys are offered. */
    method SetMode(key: string)
      requires Valid() && key in ModeKeys()
      modifies this`mode
      ensures Valid() && mode == key
    {
      mode := key;
    }

    /**
     * `handleSendMessage`, up to scheduling its continuation. The send button is disabled on a
     * blank input, but Enter still reaches this handler, so a blank input is a no-op here.
     */
    method HandleSendMessage(now: nat)
      requires Valid()
      modifies this`messages, this`inputValue, this`isLoading, this`pending
      ensures Valid()
      ensures old(SendDisabled()) ==>
        messages == old(messages) && inputValue == old(inputValue) &&
        isLoading == old(isLoading) && pending == old(pending)
      ensures !old(SendDisabled()) ==>
        messages == old(messages) + [Message(NatToString(now), User, old(inputValue), now, None, None)] &&
        inputValue == "" && isLoading && pending == old(pending) + [PendingReply(old(inputValue), mode)]
    {
      if IsBlank(inputValue) {
        return;
      }
      var userMessage := Message(NatToString(now), User, inputValue, now, None, None);
      messages := messages + [userMessage];
      pending := pending + [PendingReply(inputValue, mode)];
      inputValue := "";
      isLoading := true;
    }

    /** The `setTimeout` continuation of the `k`-th pending send. */
    method DeliverReply(k: nat, now: nat, d: Draws)
      requires Valid() && k < |pending| && ValidDraws(d)
      modifies this`messages, this`isLoading, this`pending
      ensures Valid() && !isLoading
      ensures messages == old(messages) + [GenerateTutorResponse(wording, old(pending)[k].text, old(pending)[k].mode, now, d)]
      ensures pending == old(pending)[..k] + old(pending)[k + 1..]
    {
      var reply := GenerateTutorResponse(wording, pending[k].text, pending[k].mode, now, d);
      messages := messages + [reply];
      isLoading := false;
      pending := pending[..k] + pending[k + 1..];
    }

    /** `handleKeyPress`: Enter without Shift sends; any other key does nothing. */
    method HandleKeyPress(key: string, shiftKey: bool, now: nat)
      requires Valid()
      modifies this`messages, this`inputValue, this`isLoading, this`pending
      ensures Valid()
      ensures !(key == "Enter" && !shiftKey) || old(SendDisabled()) ==>
        messages == old(messages) && inputValue == old(inputValue) &&
        isLoading == old(isLoading) && pending == old(pending)
      ensures key == "Enter" && !shiftKey && !old(SendDisabled()) ==>
        messages == old(messages) + [Message(NatToString(now), User, old(inputValue), now, None, None)] &&
        inputValue == "" && isLoading && pending == old(pending) + [PendingReply(old(inputValue), mode)]
    {
      if key == "Enter" && !shiftKey {
        HandleSendMessage(now);
      }
    }
  }
}
