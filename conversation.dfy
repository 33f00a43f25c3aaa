/**
 * The conversation log kept in the session state across runs of the script,
 * and one run of the script's orchestration: seed the log on the first run,
 * reset it on "Clear Chat", pick the prompt from the tabs, and append the
 * exchange with the model.
 */
module Conversation {
  import opened Wrappers
  import opened Gateway
  import opened PromptSelection

  datatype Role = User | Assistant

  /** One chat message, `{"role": ..., "content": ...}`. */
  datatype Message = Message(role: Role, content: string)

  /** The assistant's greeting that opens every conversation. */
  const Greeting: string := "Hello \U{1F44B} Upload an image, audio, or file and ask a question!"

  /** The log of a new or cleared conversation: the greeting alone. */
  function SeedLog(): seq<Message>
  {
    [Message(Assistant, Greeting)]
  }

  /** Python truthiness of the optional prompt: present and non-empty. */
  predicate Submits(prompt: Option<string>)
  {
    prompt.Some? && prompt.value != ""
  }

  /**
   * The messages one submitted prompt adds: the user's turn, then the
   * assistant's reply if the model server answered (none if the request raised).
   */
  function ExchangeTurns(prompt: string, reply: Option<string>): seq<Message>
  {
    [Message(User, prompt)] + if reply.Some? then [Message(Assistant, reply.value)] else []
  }

  /**
   * Every log the script can build: the greeting first, every user turn holds
   * a non-empty prompt, and every later assistant turn answers the user turn
   * just before it.
   */
  predicate WellFormedLog(log: seq<Message>)
  {
    |log| >= 1 && log[0] == Message(Assistant, Greeting)
    && (forall i :: 1 <= i < |log| && log[i].role == User ==> log[i].content != "")
    && (forall i :: 1 <= i < |log| && log[i].role == Assistant ==> log[i - 1].role == User)
  }

  /**
   * Appending an exchange keeps the log well formed, keeps the old log as a
   * prefix, and grows it by two messages when the model answered, one when the
   * request raised.
   */
  lemma ExchangePreservesLog(log: seq<Message>, prompt: string, reply: Option<string>)
    requires WellFormedLog(log) && prompt != ""
    ensures var log' := log + ExchangeTurns(prompt, reply);
            WellFormedLog(log') && log <= log'
            && |log'| == |log| + (if reply.Some? then 2 else 1)
            && log'[|log|] == Message(User, prompt)
            && (reply.Some? ==> log'[|log| + 1] == Message(Assistant, reply.value))
  {
    var log' := log + ExchangeTurns(prompt, reply);
    assert forall i :: 0 <= i < |log| ==> log'[i] == log[i];
  }

  /**
   * The uploaded image goes with the request whichever tab supplies the
   * prompt: with non-empty typed text and an uploaded image, the server reads
   * the typed text as the prompt and the image as the one image.
   */
  lemma ImageTravelsWithTypedPrompt(inputs: TabInputs, model: string)
    requires inputs.typed != "" && inputs.image.Some? && inputs.image.value.encoded != ""
    ensures var prompt := LastAssigned(Assignments(inputs));
            Submits(prompt)
            && ReadRequest(BuildPayload(Some(inputs.image.value.encoded), prompt.value, model))
               == Some(Request(model, inputs.typed, [inputs.image.value.encoded], false))
  {
    TypedTextWins(inputs);
    ReadBuiltPayload(Some(inputs.image.value.encoded), inputs.typed, model);
  }

  /** The session state of one browser session. */
  class Session {
    /** Whether the session state holds the key "messages". */
    var hasMessages: bool
    /** `st.session_state.messages`, meaningful once `hasMessages` holds. */
    var messages: seq<Message>

    ghost predicate Valid()
      reads this
    {
      hasMessages ==> WellFormedLog(messages)
    }

    /** A new browser session: no conversation yet. */
    constructor()
      ensures Valid() && !hasMessages
    {
      hasMessages := false;
      messages := [];
    }

    /** The first run of the script seeds the log; later runs leave it alone. */
    method Init()
      requires Valid()
      modifies this
      ensures Valid() && hasMessages
      ensures messages == if old(hasMessages) then old(messages) else SeedLog()
    {
      if !hasMessages {
        messages := SeedLog();
        hasMessages := true;
      }
    }

    /** "Clear Chat": the log becomes the greeting alone, whatever it held. */
    method Clear()
      modifies this
      ensures Valid() && hasMessages
      ensures messages == SeedLog()
    {
      messages := SeedLog();
      hasMessages := true;
    }

    /**
     * The response step: with no prompt or an empty one nothing changes;
     * otherwise the user's turn is appended, the request goes to the model
     * server with the image if there is one, and its reply is appended. When
     * the request raises, the run ends with the user's turn appended alone.
     */
    method Submit(prompt: Option<string>, image: Option<string>, model: string, backend: Backend)
      returns (reply: Option<string>)
      requires Valid() && hasMessages
      modifies this
      ensures Valid() && hasMessages
      ensures !Submits(prompt) ==> reply.None? && messages == old(messages)
      ensures Submits(prompt) ==>
                reply == backend(BuildPayload(image, prompt.value, model))
                && messages == old(messages) + ExchangeTurns(prompt.value, reply)
    {
      reply := None;
      if Submits(prompt) {
        ExchangePreservesLog(messages, prompt.value, backend(BuildPayload(image, prompt.value, model)));
        messages := messages + [Message(User, prompt.value)];
        reply := GetOllamaResponse(image, prompt.value, model, backend);
        if reply.Some? {
          messages := messages + [Message(Assistant, reply.value)];
        }
      }
    }

    /**
     * One run of the script. "Clear Chat" resets the log and the rerun it
     * requests ends this run at once; otherwise the prompt is picked from the
     * tabs and submitted with the uploaded image.
     */
    method Run(clearPressed: bool, inputs: TabInputs, model: string, backend: Backend)
      requires Valid()
      modifies this
      ensures Valid() && hasMessages
      ensures clearPressed ==> messages == SeedLog()
      ensures !clearPressed ==>
                var base := if old(hasMessages) then old(messages) else SeedLog();
                var prompt := LastAssigned(Assignments(inputs));
                var image := if inputs.image.Some? then Some(inputs.image.value.encoded) else None;
                messages == base + (if Submits(prompt)
                                    then ExchangeTurns(prompt.value, backend(BuildPayload(image, prompt.value, model)))
                                    else [])
    {
      Init();
      if clearPressed {
        Clear();
        return;
      }
      var prompt, image := SelectPrompt(inputs);
      var _ := Submit(prompt, image, model, backend);
    }
  }
}
