/** The conversation history the chat front-ends keep in the Streamlit session, and the
    bounded window of it that is replayed to the model on every turn. */
module Transcript {
  import opened Wrappers
  import opened JsonValue

  datatype Role = System | User | Assistant

  /** One message dict of the history. `stopReason` is present only on the assistant
      turns of the tool-calling front-ends. */
  datatype Turn = Turn(role: Role, content: Json, stopReason: Option<Json>)

  const MaxConversationTurns: nat := 10

  /** The number of history entries replayed: `MAX_CONVERSATION_TURNS * 2`. */
  const WindowSize: nat := MaxConversationTurns * 2

  /** `history[-(MAX_CONVERSATION_TURNS * 2):]`: the most recent entries, in order. */
  function Window(h: seq<Turn>): (w: seq<Turn>)
    ensures |w| == if |h| < WindowSize then |h| else WindowSize
    ensures w == h[|h| - |w|..]
  {
    if |h| <= WindowSize then h else h[|h| - WindowSize..]
  }

  /** The `messages` list of the inference request: the system prompt, then the window. */
  function Outbound(systemPrompt: string, h: seq<Turn>): (m: seq<Turn>)
    ensures |m| == 1 + |Window(h)|
    ensures m[0] == Turn(System, JStr(systemPrompt), None)
    ensures m[1..] == Window(h)
  {
    [Turn(System, JStr(systemPrompt), None)] + Window(h)
  }

  /** The newest turn is always replayed, and the window never exceeds twenty entries. */
  lemma WindowKeepsNewest(h: seq<Turn>, t: Turn)
    ensures Window(h + [t]) != [] && Window(h + [t])[|Window(h + [t])| - 1] == t
    ensures |Window(h + [t])| <= WindowSize
  {
  }

  /** Taking the window twice is the same as taking it once. */
  lemma WindowIdempotent(h: seq<Turn>)
    ensures Window(Window(h)) == Window(h)
  {
  }

  /** Within the window, entry `i` of the history appears at position `i - (|h| - |w|)`:
      replay keeps the original order and drops only the oldest entries. */
  lemma WindowOrder(h: seq<Turn>, i: int)
    requires |h| - |Window(h)| <= i < |h|
    ensures Window(h)[i - (|h| - |Window(h)|)] == h[i]
  {
  }

  function UserTurn(prompt: string): Turn {
    Turn(User, JStr(prompt), None)
  }

  function AssistantTurn(text: string, stop: Json): Turn {
    Turn(Assistant, JStr(text), Some(stop))
  }

  /** The turns that follow the user's turn end with one assistant turn, after zero or
      more follow-up user turns. */
  predicate AssistantLast(after: seq<Turn>) {
    |after| >= 1 && after[|after| - 1].role == Assistant
    && forall k :: 0 <= k < |after| - 1 ==> after[k].role == User
  }

  /** `st.session_state.conversation_history`. */
  class Conversation {
    var turns: seq<Turn>

    constructor()
      ensures turns == []
    {
      turns := [];
    }

    /** `conversation_history.append(t)`. */
    method Append(t: Turn)
      modifies this
      ensures turns == old(turns) + [t]
    {
      turns := turns + [t];
    }

    /** The follow-up turns appended in order (the loop over `file_tool_calls`), then the
        assistant turn. */
    method AppendReplies(followUps: seq<Turn>, assistant: Turn)
      modifies this
      ensures turns == old(turns) + (followUps + [assistant])
    {
      var i := 0;
      while i < |followUps|
        invariant 0 <= i <= |followUps|
        invariant turns == old(turns) + followUps[..i]
      {
        Append(followUps[i]);
        i := i + 1;
      }
      assert followUps[..i] == followUps;
      Append(assistant);
      assert old(turns) + followUps + [assistant] == old(turns) + (followUps + [assistant]);
    }

    /** "Clear Conversation History": the history is reset to an empty list. */
    method Clear()
      modifies this
      ensures turns == []
    {
      turns := [];
    }
  }
}
