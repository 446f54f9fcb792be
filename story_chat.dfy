/**
 * The follow-up chat (frontend/components/chat/Chat.js): a message log, the
 * patient story whose paragraphs carry follow-up questions, a question index
 * and a completion flag. Only the handlers are modelled; the request to the
 * chatbot endpoint is a parameter giving what `fetch` returned.
 */
module StoryChat {
  import opened Wrappers
  import opened Json
  import opened Text

  datatype Sender = User | Bot

  /** A log entry; `message` is what the entry displays (`JNull` stands for `undefined`). */
  datatype ChatMessage = ChatMessage(id: int, sender: Sender, message: Json)

  /** A story paragraph; `followUps` is `None` when the paragraph has no `follow_up_questions`. */
  datatype Paragraph = Paragraph(paragraph: string, followUps: Option<seq<string>>)

  /** The treatment plan atom's value set on completion. */
  datatype TreatmentPlan = TreatmentPlan(bigMuscle: Option<Json>, symptomClusters: Option<Json>)

  /** The body posted to the chatbot: the input, the earlier log, and the current paragraph's follow-ups. */
  datatype ChatRequest = ChatRequest(userInput: string, history: seq<(Sender, Json)>, followUps: seq<string>)

  /** What the chatbot `fetch` gave: a thrown error, a non-OK status, an unparseable body, or the parsed body. */
  datatype ChatOutcome = FetchFailed | NotOk | Unparseable | Answered(data: Json)

  /** `[...prev, { id: prev.length + 1, sender, message }]`. */
  function AppendMessage(log: seq<ChatMessage>, sender: Sender, message: Json): seq<ChatMessage> {
    log + [ChatMessage(|log| + 1, sender, message)]
  }

  // ---------------------------------------------------------------------------
  // Follow-up questions
  // ---------------------------------------------------------------------------

  /**
   * `sendFollowUpQuestion` for the index it sees: the question it asks and
   * the story with that question removed, or `None` when it does nothing.
   */
  function NextFollowUp(story: Option<seq<Paragraph>>, index: int): Option<(string, seq<Paragraph>)> {
    if story.None? || index < 0 || index >= |story.value| then None
    else
      var p := story.value[index];
      if p.followUps.None? || p.followUps.value == [] then None
      else Some((p.followUps.value[0], story.value[index := Paragraph(p.paragraph, Some(p.followUps.value[1..]))]))
  }

  /** The number of follow-up questions left in a story. */
  function TotalFollowUps(story: seq<Paragraph>): nat {
    if story == [] then 0
    else TotalFollowUps(story[..|story| - 1]) + FollowUpCount(story[|story| - 1])
  }

  function FollowUpCount(p: Paragraph): nat {
    if p.followUps.Some? then |p.followUps.value| else 0
  }

  /** Replacing one paragraph changes the total by the difference of the two counts. */
  lemma {:induction false} TotalAfterUpdate(story: seq<Paragraph>, i: nat, p: Paragraph)
    requires i < |story|
    ensures TotalFollowUps(story[i := p]) + FollowUpCount(story[i]) == TotalFollowUps(story) + FollowUpCount(p)
    decreases |story|
  {
    var last := |story| - 1;
    var updated := story[i := p];
    if i == last {
      assert updated[..last] == story[..last];
    } else {
      assert updated[..last] == story[..last][i := p];
      TotalAfterUpdate(story[..last], i, p);
    }
  }

  /**
   * Nothing happens without a story, out of range, or when the paragraph has
   * no follow-ups left; otherwise the paragraph's first question is asked,
   * exactly that question is removed, no other paragraph changes, and the
   * story holds one question fewer.
   */
  lemma NextFollowUpFacts(story: Option<seq<Paragraph>>, index: int)
    ensures NextFollowUp(story, index).None? <==>
      story.None? || !(0 <= index < |story.value|) || FollowUpCount(story.value[index]) == 0
    ensures NextFollowUp(story, index).Some? ==>
      var (q, s) := NextFollowUp(story, index).value;
      && var before := story.value[index].followUps.value;
      && q == before[0]
      && [q] + s[index].followUps.value == before
      && |s| == |story.value|
      && (forall j | 0 <= j < |s| && j != index :: s[j] == story.value[j])
      && TotalFollowUps(s) + 1 == TotalFollowUps(story.value)
  {
    if NextFollowUp(story, index).Some? {
      var p := story.value[index];
      TotalAfterUpdate(story.value, index, Paragraph(p.paragraph, Some(p.followUps.value[1..])));
    }
  }

  /**
   * The backend's story paragraphs carry no `follow_up_questions`, so such a
   * story never produces a follow-up, whatever the index.
   */
  lemma StoryWithoutFollowUpsAsksNothing(story: seq<Paragraph>, index: int)
    requires forall j | 0 <= j < |story| :: story[j].followUps.None?
    ensures NextFollowUp(Some(story), index).None?
  {
  }

  /** `patientStory[currentQuestionIndex]?.follow_up_questions || []` for a loaded story. */
  function ContextFollowUps(story: seq<Paragraph>, index: nat): seq<string> {
    if index < |story| && story[index].followUps.Some? then story[index].followUps.value else []
  }

  /** `messages.map(msg => ({ sender, message }))`. */
  function History(log: seq<ChatMessage>): seq<(Sender, Json)> {
    seq(|log|, i requires 0 <= i < |log| => (log[i].sender, log[i].message))
  }

  /** The bot message `data.message`, `undefined` shown as `JNull`. */
  function ReplyText(data: Json): Json {
    var m := Property(data, "message");
    if m.Some? then m.value else JNull
  }

  // ---------------------------------------------------------------------------
  // The component's state
  // ---------------------------------------------------------------------------

  class StoryChatState {
    var messages: seq<ChatMessage>
    var userInput: string
    var loading: bool
    var currentQuestionIndex: nat
    var patientStory: Option<seq<Paragraph>>
    var isComplete: bool
    var treatmentPlan: Option<TreatmentPlan>
    var requests: seq<ChatRequest>

    constructor (initialMessages: seq<ChatMessage>, story: Option<seq<Paragraph>>)
      ensures messages == initialMessages && userInput == "" && !loading && currentQuestionIndex == 0
      ensures patientStory == story && !isComplete && treatmentPlan == None && requests == []
    {
      messages := initialMessages;
      userInput := "";
      loading := false;
      currentQuestionIndex := 0;
      patientStory := story;
      isComplete := false;
      treatmentPlan := None;
      requests := [];
    }

    /** The input's `disabled` flag. */
    predicate InputDisabled()
      reads this
    {
      loading || isComplete
    }

    /** The input's `onChange`. */
    method SetInput(value: string)
      modifies this
      ensures userInput == value
      ensures messages == old(messages) && loading == old(loading) && currentQuestionIndex == old(currentQuestionIndex)
      ensures patientStory == old(patientStory) && isComplete == old(isComplete)
      ensures treatmentPlan == old(treatmentPlan) && requests == old(requests)
    {
      userInput := value;
    }

    /**
     * `sendFollowUpQuestion` as seen by a handler whose render had question
     * index `index`: ask and remove the paragraph's first follow-up, if any.
     */
    method SendFollowUpQuestion(index: nat)
      modifies this
      ensures NextFollowUp(old(patientStory), index).None? ==>
        messages == old(messages) && patientStory == old(patientStory)
      ensures NextFollowUp(old(patientStory), index).Some? ==>
        var (q, s) := NextFollowUp(old(patientStory), index).value;
        messages == AppendMessage(old(messages), Bot, JStr(q)) && patientStory == Some(s)
      ensures userInput == old(userInput) && loading == old(loading) && currentQuestionIndex == old(currentQuestionIndex)
      ensures isComplete == old(isComplete) && treatmentPlan == old(treatmentPlan) && requests == old(requests)
    {
      if patientStory.None? || index >= |patientStory.value| {
        return;
      }
      var followUps := patientStory.value[index].followUps;
      if followUps.Some? && |followUps.value| > 0 {
        var question := followUps.value[0];
        messages := AppendMessage(messages, Bot, JStr(question));
        var story := patientStory.value;
        patientStory := Some(story[index := Paragraph(story[index].paragraph, Some(followUps.value[1..]))]);
      }
    }

    /** The effect run when the story loads: with exactly one message shown, ask the first follow-up. */
    method OnPatientStoryLoaded()
      modifies this
      ensures (|old(messages)| == 1 && old(patientStory).Some? && NextFollowUp(old(patientStory), old(currentQuestionIndex)).Some?)
        ==> var (q, s) := NextFollowUp(old(patientStory), old(currentQuestionIndex)).value;
            messages == AppendMessage(old(messages), Bot, JStr(q)) && patientStory == Some(s)
      ensures !(|old(messages)| == 1 && old(patientStory).Some? && NextFollowUp(old(patientStory), old(currentQuestionIndex)).Some?)
        ==> messages == old(messages) && patientStory == old(patientStory)
      ensures userInput == old(userInput) && loading == old(loading) && currentQuestionIndex == old(currentQuestionIndex)
      ensures isComplete == old(isComplete) && treatmentPlan == old(treatmentPlan) && requests == old(requests)
    {
      if |messages| == 1 && patientStory.Some? {
        SendFollowUpQuestion(currentQuestionIndex);
      }
    }

    /**
     * `sendMessage`. Blank input changes nothing. Otherwise the user message
     * is appended and the input cleared; without a loaded story building the
     * request throws. A reply appends the bot's message; a complete reply
     * sets the flag and the plan and keeps the index; any other reply
     * advances the index by one and asks a follow-up for the index the
     * handler saw, the old one. `loading` ends false on every path.
     */
    method SendMessage(outcome: ChatOutcome)
      modifies this
      ensures JsBlank(old(userInput)) ==>
        && messages == old(messages) && userInput == old(userInput) && loading == old(loading)
        && currentQuestionIndex == old(currentQuestionIndex) && patientStory == old(patientStory)
        && isComplete == old(isComplete) && treatmentPlan == old(treatmentPlan) && requests == old(requests)
      ensures !JsBlank(old(userInput)) ==>
        var withUser := AppendMessage(old(messages), User, JStr(old(userInput)));
        var replied := old(patientStory).Some? && outcome.Answered? && outcome.data != JNull;
        && userInput == "" && !loading
        && requests == old(requests) + (if old(patientStory).Some? then
             [ChatRequest(old(userInput), History(old(messages)),
                          ContextFollowUps(old(patientStory).value, old(currentQuestionIndex)))] else [])
        && (!replied ==>
              && messages == withUser && currentQuestionIndex == old(currentQuestionIndex)
              && patientStory == old(patientStory) && isComplete == old(isComplete) && treatmentPlan == old(treatmentPlan))
        && (replied && JsTruthyOpt(Property(outcome.data, "is_complete")) ==>
              && messages == AppendMessage(withUser, Bot, ReplyText(outcome.data))
              && isComplete
              && treatmentPlan == Some(TreatmentPlan(Property(outcome.data, "big_muscle_focus"),
                                                     Property(outcome.data, "cluster_of_symptoms")))
              && currentQuestionIndex == old(currentQuestionIndex) && patientStory == old(patientStory))
        && (replied && !JsTruthyOpt(Property(outcome.data, "is_complete")) ==>
              var withReply := AppendMessage(withUser, Bot, ReplyText(outcome.data));
              var next := NextFollowUp(old(patientStory), old(currentQuestionIndex));
              && currentQuestionIndex == old(currentQuestionIndex) + 1
              && isComplete == old(isComplete) && treatmentPlan == old(treatmentPlan)
              && (next.None? ==> messages == withReply && patientStory == old(patientStory))
              && (next.Some? ==> messages == AppendMessage(withReply, Bot, JStr(next.value.0))
                                 && patientStory == Some(next.value.1)))
    {
      if JsBlank(userInput) {
        return;
      }
      var text := userInput;
      var seenIndex := currentQuestionIndex;
      var seenMessages := messages;
      messages := AppendMessage(messages, User, JStr(text));
      userInput := "";
      loading := true;
      if patientStory.None? {
        // reading `patientStory[currentQuestionIndex]` throws; the catch only logs
        loading := false;
        return;
      }
      requests := requests + [ChatRequest(text, History(seenMessages), ContextFollowUps(patientStory.value, seenIndex))];
      if !outcome.Answered? || outcome.data == JNull {
        loading := false;
        return;
      }
      var data := outcome.data;
      messages := AppendMessage(messages, Bot, ReplyText(data));
      if JsTruthyOpt(Property(data, "is_complete")) {
        isComplete := true;
        treatmentPlan := Some(TreatmentPlan(Property(data, "big_muscle_focus"), Property(data, "cluster_of_symptoms")));
      } else {
        currentQuestionIndex := currentQuestionIndex + 1;
        SendFollowUpQuestion(seenIndex);
      }
      loading := false;
    }
  }

  /** Once the conversation is complete the input stays disabled, whatever is sent afterwards. */
  method CompletionDisablesInput(chat: StoryChatState, outcome: ChatOutcome)
    requires chat.isComplete
    modifies chat
    ensures chat.isComplete && chat.InputDisabled()
  {
    chat.SendMessage(outcome);
  }
}
