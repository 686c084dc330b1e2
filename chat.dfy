/** The assistant chat page (frontend/src/pages/Chat.jsx): a transcript that
    opens with a greeting, a send that appends the user's line at once, and a
    canned reply chosen by keyword groups when the reply timer fires. The
    keyword-group matching is shared with the Jarvis page. */
module Chat {
  import opened Strings
  import opened Seqs

  /** Some keyword of `words` occurs in `text`. */
  predicate AnyIn(words: seq<string>, text: string) {
    exists k :: 0 <= k < |words| && Contains(text, words[k])
  }

  /** The index of the first group with a keyword in `text`, or `|groups|`
      when there is none. */
  function FirstGroup(groups: seq<seq<string>>, text: string, from: nat): (g: nat)
    requires from <= |groups|
    ensures from <= g <= |groups|
    ensures g < |groups| ==> AnyIn(groups[g], text)
    ensures forall j :: from <= j < g ==> !AnyIn(groups[j], text)
    decreases |groups| - from
  {
    if from == |groups| then from
    else if AnyIn(groups[from], text) then from
    else FirstGroup(groups, text, from + 1)
  }

  datatype Message = Message(id: int, sender: string, text: string)

  const GREETING := Message(1, "jarvis", "Hello. I am Jarvis, your AutoML assistant. Ask me about your experiment results, model performance, or how to improve your accuracy.")

  const DEFAULT_REPLY := "I'm analyzing your request. Could you provide context?"
  const ACCURACY_REPLY := "Your top model (XGBoost) achieved **96.4% AUC**, which is 1.2% higher than the baseline. This was primarily due to optimized depth parameters and feature interaction scaling."
  const WINNER_REPLY := "The **XGBoost** model won because it effectively captured non-linear relationships in the 'customer_age' and 'transaction_volume' features, unlike the linear models."
  const FAILURE_REPLY := "Experiment **Exp-2024-005** failed due to an Out of Memory (OOM) error. I recommend increasing the memory limit to 16GB or reducing the batch size for the Deep Learning component."
  const HELP_REPLY := "To create a new experiment, go to the **Projects** page, upload your dataset, and click 'Run Experiment'. I can guide you through the parameter selection if you wish."
  const HELLO_REPLY := "Greetings again. Ready to optimize some models?"

  /** The keyword groups in priority order, and the reply of each, with the
      default last. */
  const GROUPS: seq<seq<string>> :=
    [["accuracy", "performance"], ["won", "win", "best"], ["failed", "error"],
     ["help", "create"], ["hello", "hi"]]
  const REPLIES: seq<string> :=
    [ACCURACY_REPLY, WINNER_REPLY, FAILURE_REPLY, HELP_REPLY, HELLO_REPLY, DEFAULT_REPLY]

  /** The reply timer's if-chain on the lower-cased sent text. */
  function Reply(input: string): string {
    var lower := ToLower(input);
    if Contains(lower, "accuracy") || Contains(lower, "performance") then ACCURACY_REPLY
    else if Contains(lower, "won") || Contains(lower, "win") || Contains(lower, "best") then WINNER_REPLY
    else if Contains(lower, "failed") || Contains(lower, "error") then FAILURE_REPLY
    else if Contains(lower, "help") || Contains(lower, "create") then HELP_REPLY
    else if Contains(lower, "hello") || Contains(lower, "hi") then HELLO_REPLY
    else DEFAULT_REPLY
  }

  /** The reply is that of the first keyword group found in the lower-cased
      text, and the default when none is. */
  lemma ReplyByPriority(input: string)
    ensures Reply(input) == REPLIES[FirstGroup(GROUPS, ToLower(input), 0)]
  {
    var lower := ToLower(input);
    assert AnyIn(GROUPS[0], lower) <==> Contains(lower, "accuracy") || Contains(lower, "performance") by {
      assert GROUPS[0][0] == "accuracy" && GROUPS[0][1] == "performance";
    }
    assert AnyIn(GROUPS[1], lower) <==> Contains(lower, "won") || Contains(lower, "win") || Contains(lower, "best") by {
      assert GROUPS[1][0] == "won" && GROUPS[1][1] == "win" && GROUPS[1][2] == "best";
    }
    assert AnyIn(GROUPS[2], lower) <==> Contains(lower, "failed") || Contains(lower, "error") by {
      assert GROUPS[2][0] == "failed" && GROUPS[2][1] == "error";
    }
    assert AnyIn(GROUPS[3], lower) <==> Contains(lower, "help") || Contains(lower, "create") by {
      assert GROUPS[3][0] == "help" && GROUPS[3][1] == "create";
    }
    assert AnyIn(GROUPS[4], lower) <==> Contains(lower, "hello") || Contains(lower, "hi") by {
      assert GROUPS[4][0] == "hello" && GROUPS[4][1] == "hi";
    }
  }

  /** Matching ignores ASCII case. */
  lemma ReplyIgnoresCase(input: string)
    ensures Reply(ToLower(input)) == Reply(input)
  {
    ToLowerIdempotent(input);
  }

  predicate FromUser(m: Message) {
    m.sender == "user"
  }

  predicate FromJarvis(m: Message) {
    m.sender == "jarvis"
  }

  function UserCount(messages: seq<Message>): nat {
    Count(messages, FromUser)
  }

  function JarvisCount(messages: seq<Message>): nat {
    Count(messages, FromJarvis)
  }

  class ChatView {
    var messages: seq<Message>
    var input: string
    var isTyping: bool
    /** The texts whose reply timers have not fired yet, oldest first. */
    var pending: seq<string>

    /** The transcript opens with the greeting, and every user line but the
        ones still waiting has had its reply. */
    predicate Valid()
      reads this
    {
      |messages| >= 1 && messages[0] == GREETING &&
      UserCount(messages) + 1 == JarvisCount(messages) + |pending|
    }

    constructor ()
      ensures Valid()
      ensures messages == [GREETING] && input == "" && !isTyping && pending == []
    {
      messages := [GREETING];
      input := "";
      isTyping := false;
      pending := [];
      assert UserCount([GREETING]) == 0 by { assert [GREETING][..0] == []; }
      assert JarvisCount([GREETING]) == 1 by { assert [GREETING][..0] == []; }
    }

    method SetInput(text: string)
      requires Valid()
      modifies this
      ensures Valid()
      ensures input == text
      ensures messages == old(messages) && isTyping == old(isTyping) && pending == old(pending)
    {
      input := text;
    }

    /** `handleSend` at clock reading `now`: blank input is ignored;
        otherwise the user's line is appended, the input cleared and one
        reply scheduled. */
    method HandleSend(now: int)
      requires Valid()
      modifies this
      ensures Valid()
      ensures IsBlank(old(input)) ==>
        messages == old(messages) && input == old(input) &&
        isTyping == old(isTyping) && pending == old(pending)
      ensures !IsBlank(old(input)) ==>
        messages == old(messages) + [Message(now, "user", old(input))] &&
        input == "" && isTyping && pending == old(pending) + [old(input)]
    {
      TrimEmptyIffBlank(input);
      if Trim(input) == "" {
        return;
      }
      var userMsg := Message(now, "user", input);
      CountAppend(messages, [userMsg], FromUser);
      CountAppend(messages, [userMsg], FromJarvis);
      assert [userMsg][..0] == [];
      messages := messages + [userMsg];
      pending := pending + [input];
      input := "";
      isTyping := true;
    }

    /** The oldest reply timer fires at clock reading `now`. */
    method ReplyFires(now: int)
      requires Valid() && pending != []
      modifies this
      ensures Valid()
      ensures messages == old(messages) + [Message(now + 1, "jarvis", Reply(old(pending[0])))]
      ensures pending == old(pending[1..]) && !isTyping && input == old(input)
    {
      var msg := Message(now + 1, "jarvis", Reply(pending[0]));
      CountAppend(messages, [msg], FromUser);
      CountAppend(messages, [msg], FromJarvis);
      assert [msg][..0] == [];
      messages := messages + [msg];
      pending := pending[1..];
      isTyping := false;
    }
  }

  /** A send followed by its reply, with nothing else waiting, leaves the
      user's line and the matching reply as the transcript's last two lines. */
  method SendThenReply(view: ChatView, now: int, later: int)
    requires view.Valid() && view.pending == [] && !IsBlank(view.input)
    modifies view
    ensures view.Valid() && view.pending == []
    ensures |view.messages| == |old(view.messages)| + 2
    ensures view.messages[|view.messages| - 2] == Message(now, "user", old(view.input))
    ensures view.messages[|view.messages| - 1] == Message(later + 1, "jarvis", Reply(old(view.input)))
  {
    view.HandleSend(now);
    view.ReplyFires(later);
  }
}
