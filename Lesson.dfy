/**
 * The lesson page's state and its three handlers: starting a lesson, one chat
 * turn, and the opening message of a fresh lesson. The model replies are inputs:
 * a reply is its text and, when it has the attribute at all, its tool calls.
 */
module Lesson {
  import opened Types
  import opened Mistakes
  import opened ToolCalls

  datatype Proficiency = Beginner | Intermediate | Advanced

  /** The scenarios the settings panel offers. */
  datatype Scenario = Restaurant | Hotel | Shopping | Directions | Social | Work

  function ScenarioName(s: Scenario): (r: string)
  {
    match s
    case Restaurant => "Restaurant"
    case Hotel => "Hotel"
    case Shopping => "Shopping"
    case Directions => "Directions"
    case Social => "Social"
    case Work => "Work"
  }

  /** The four settings a started lesson carries; the page holds none before the first start. */
  datatype LessonConfig = LessonConfig(
    nativeLanguage: string,
    learningLanguage: string,
    proficiency: Proficiency,
    scenario: Scenario)

  /** A model reply: its text, and its tool calls when the reply has that attribute. */
  datatype Reply = Reply(content: string, toolCalls: Option<seq<ToolCall>>)

  /** One call of the conversation chain: the input text, the lesson settings and the session id. */
  datatype Invocation = Invocation(input: string, config: Option<LessonConfig>, sessionId: string)

  const ContinuePrompt: string := "Continue the conversation naturally"

  /** The opening request: the chosen scenario's name between fixed words, recoverable from it. */
  function OpeningPrompt(s: Scenario): (r: string)
    ensures |r| == |ScenarioName(s)| + 15
    ensures r[..6] == "Begin " && r[|r| - 9..] == " scenario"
    ensures r[6..|r| - 9] == ScenarioName(s)
  {
    "Begin " + ScenarioName(s) + " scenario"
  }

  /** The calls a reply asks for; a reply without the attribute asks for none. */
  function CallsOf(reply: Reply): (r: seq<ToolCall>)
  {
    if reply.toolCalls.Some? then reply.toolCalls.value else []
  }

  class TutorSession {
    var messages: seq<Message>
    var config: Option<LessonConfig>
    var sessionId: string

    /** A first visit: no transcript, no settings, an id drawn by the caller. */
    constructor (initialId: string)
      ensures messages == [] && config == None && sessionId == initialId
    {
      messages := [];
      config := None;
      sessionId := initialId;
    }

    /**
     * The start button. Both language names must be given; otherwise an error is
     * shown and nothing changes. An accepted start installs the four settings,
     * empties the transcript and switches to the fresh session id `freshId`.
     */
    method StartLesson(nativeLang: string, targetLang: string, proficiency: Proficiency,
                       scenario: Scenario, freshId: string)
      returns (accepted: bool)
      modifies this
      ensures accepted <==> nativeLang != "" && targetLang != ""
      ensures accepted ==>
        && config == Some(LessonConfig(nativeLang, targetLang, proficiency, scenario))
        && messages == []
        && sessionId == freshId
      ensures !accepted ==>
        config == old(config) && messages == old(messages) && sessionId == old(sessionId)
    {
      accepted := nativeLang != "" && targetLang != "";
      if accepted {
        config := Some(LessonConfig(nativeLang, targetLang, proficiency, scenario));
        sessionId := freshId;
        messages := [];
      }
    }

    /**
     * One chat turn on the user's `prompt`. The chain answers `reply`; each
     * `log_mistake` call in it stores one record (the insert at position `i` meets
     * `fault(i)`); a follow-up call, answered `followUp`, is made exactly when the
     * reply's text is empty; then one assistant message closes the turn. A
     * `log_mistake` call missing an argument key ends the turn early with an error
     * (`completed` is false): the user message and the records stored before it stay.
     * Before any lesson has been started the settings are empty, the chain cannot fill
     * in its prompt and the first call fails: only the user message is added.
     * Records go through the corrected `StoreMistake`, so no storage fault ends the turn.
     */
    method Turn(prompt: string, reply: Reply, followUp: string,
                fault: nat -> StorageFault, table: MistakeTable)
      returns (sent: seq<Invocation>, completed: bool)
      modifies this, table
      ensures config == old(config) && sessionId == old(sessionId)
      ensures config.None? ==> !completed && table.rows == old(table.rows)
      ensures config.Some? ==> completed == !ProcessToolCalls(CallsOf(reply), fault).aborted
      ensures config.Some? ==> table.rows == old(table.rows) + ProcessToolCalls(CallsOf(reply), fault).stored
      ensures messages == old(messages) + [Message(User, prompt)]
                          + (if completed
                             then [Message(Assistant, if reply.content != "" then reply.content else followUp)]
                             else [])
      ensures sent == [Invocation(prompt, config, sessionId)]
                      + (if completed && reply.content == ""
                         then [Invocation(ContinuePrompt, config, sessionId)]
                         else [])
    {
      messages := messages + [Message(User, prompt)];
      sent := [Invocation(prompt, config, sessionId)];
      if config.None? {
        // the prompt template and the chain's settings lookup both miss their keys
        completed := false;
        return;
      }
      if reply.toolCalls.Some? {
        var calls := reply.toolCalls.value;
        var i := 0;
        while i < |calls|
          modifies table
          invariant 0 <= i <= |calls|
          invariant table.rows == old(table.rows) + ProcessToolCalls(calls[..i], fault).stored
          invariant !ProcessToolCalls(calls[..i], fault).aborted
        {
          var call := calls[i];
          assert calls[..i + 1][..i] == calls[..i];
          if call.name == LogMistake {
            var args := call.args;
            if !HasFields(args) {
              // looking up a missing key raises and ends the turn here
              AbortIsFinal(calls, i + 1, fault);
              completed := false;
              return;
            }
            table.StoreMistake(args["native_lang"], args["target_lang"], args["error_sentence"],
                               args["corrected_sentence"], args["error_type"], fault(i));
          }
          i := i + 1;
        }
        assert calls[..i] == calls;
      }
      var content := reply.content;
      if content == "" {
        sent := sent + [Invocation(ContinuePrompt, config, sessionId)];
        content := followUp;
      }
      messages := messages + [Message(Assistant, content)];
      completed := true;
    }

    /**
     * The opening message: with an empty transcript and a started lesson, the chain
     * is asked to begin the scenario and its reply `first` becomes the one message.
     */
    method Bootstrap(first: string) returns (sent: seq<Invocation>)
      modifies this
      ensures config == old(config) && sessionId == old(sessionId)
      ensures old(messages) == [] && config.Some? ==>
        && messages == [Message(Assistant, first)]
        && sent == [Invocation(OpeningPrompt(config.value.scenario), config, sessionId)]
      ensures !(old(messages) == [] && config.Some?) ==> messages == old(messages) && sent == []
    {
      sent := [];
      if messages == [] && config.Some? {
        sent := [Invocation(OpeningPrompt(config.value.scenario), config, sessionId)];
        messages := messages + [Message(Assistant, first)];
      }
    }
  }
}
