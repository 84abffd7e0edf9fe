/**
 * Language-model actors (src/sdl/actors.py): an identity, a persona and the
 * two prompts sent to the model on every turn. The model itself is an oracle:
 * a function from the request to the reply text.
 */
module Actors {
  import opened Text
  import opened Util

  datatype ChatMessage = ChatMessage(role: string, content: string)

  /** What `prompt(messages, stop_list=...)` receives. */
  datatype Request = Request(messages: seq<ChatMessage>, stopList: seq<string>)

  /** A generating agent: the reply the model gives to a request. */
  type Oracle = Request -> string

  /** The stop markers `speak` passes, so the model does not write the next participant's post. */
  const StopList: seq<string> := ["User"]

  /** `LLMUser` and `LLMAnnotator`; the abstract `LlmActor` has no instances of its own. Fields never change after construction. */
  datatype Actor =
    | LLMUser(model: Oracle, name: string, attributes: seq<string>, context: string, instructions: string)
    | LLMAnnotator(model: Oracle, name: string, attributes: seq<string>, context: string, instructions: string)

  /** `_system_prompt`: the persona sentence with the attributes joined by ", ". */
  function SystemPrompt(a: Actor): (m: ChatMessage)
    ensures m.role == "system"
    ensures "You are " + a.name + " " <= m.content
    ensures EndsWith(m.content, ". Your instructions: " + a.instructions + ".")
  {
    var head := "You are " + a.name + " ";
    var body := Join(", ", a.attributes) + ". Context: " + a.context;
    var tail := ". Your instructions: " + a.instructions + ".";
    Concat3Ends(head, body, tail);
    ChatMessage("system", head + body + tail)
  }

  /** `describe()`: the content of the system prompt. */
  function Describe(a: Actor): (d: string)
    ensures d == SystemPrompt(a).content
    ensures "You are " + a.name + " " <= d
  {
    SystemPrompt(a).content
  }

  /**
   * `_message_prompt`: a user continues the joined history under its own
   * "posted" cue; an annotator is asked for an output on the conversation so
   * far and its prompt does not mention its name.
   */
  function MessagePrompt(a: Actor, history: seq<string>): (m: ChatMessage)
    ensures m.role == "user"
    ensures a.LLMUser? ==> EndsWith(m.content, "\n" + PostedHeader(a.name))
    ensures a.LLMUser? ==> m.content[..|m.content| - |"\n" + PostedHeader(a.name)|] == Join("\n", history)
    ensures a.LLMAnnotator? ==> "Conversation so far:\n\n" <= m.content && EndsWith(m.content, "\nOutput:")
    ensures a.LLMAnnotator? ==>
      |"Conversation so far:\n\n"| + |"\nOutput:"| <= |m.content| &&
      m.content[|"Conversation so far:\n\n"|..|m.content| - |"\nOutput:"|] == Join("\n", history)
  {
    match a
    case LLMUser(_, name, _, _, _) =>
      var cue := "\n" + PostedHeader(name);
      ConcatEnds(Join("\n", history), cue);
      ChatMessage("user", Join("\n", history) + cue)
    case LLMAnnotator(_, _, _, _, _) =>
      var head := "Conversation so far:\n\n";
      var body := Join("\n", history);
      Concat3Ends(head, body, "\nOutput:");
      ChatMessage("user", head + body + "\nOutput:")
  }

  /** `speak`: the system prompt then the message prompt, with stop list ["User"]. */
  function SpeakRequest(a: Actor, history: seq<string>): (q: Request)
    ensures |q.messages| == 2 && q.stopList == ["User"]
    ensures q.messages[0].role == "system" && q.messages[0].content == Describe(a)
    ensures q.messages[1] == MessagePrompt(a, history) && q.messages[1].role == "user"
  {
    Request([SystemPrompt(a), MessagePrompt(a, history)], StopList)
  }

  /** `speak`: the model's reply to the request, returned unchanged. */
  function Speak(a: Actor, history: seq<string>): string {
    a.model(SpeakRequest(a, history))
  }

  /** With a non-empty history, a user's prompt is the history with the user's own cue as one more line. */
  lemma {:induction false} UserPromptAppendsCue(a: Actor, history: seq<string>)
    requires a.LLMUser? && history != []
    ensures MessagePrompt(a, history).content == Join("\n", history + [PostedHeader(a.name)])
  {
    JoinSnoc("\n", history, PostedHeader(a.name));
  }

  /** The annotator's prompt depends on the history only: name and persona play no part in it. */
  lemma AnnotatorPromptIgnoresIdentity(a: Actor, b: Actor, history: seq<string>)
    requires a.LLMAnnotator? && b.LLMAnnotator?
    ensures MessagePrompt(a, history) == MessagePrompt(b, history)
  {
  }
}
