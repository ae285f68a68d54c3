/** The chat box: its message log and input state, the usage counters it
    shows, the send handler with its quota branch and daily-counter rule, and
    the routing between the typed text and the enhanced text. */
module ChatInterface {
  import opened Js
  import opened SavedPrompts
  import PE = PromptEnhancer

  datatype Speaker = User | Assistant

  /** One entry of the message log. */
  datatype Message = Message(role: Speaker, content: string)

  /** The answer shown instead of a request once the quota is used up. */
  const LimitReachedText: string :=
    "You've reached your prompt limit. Please upgrade your plan to continue using the chat."

  /** The answer shown when the model call fails or answers without a choice. */
  const ApiErrorText: string := "Sorry, there was an error processing your request with the AI model."

  /** The usage counters before the first load. */
  const InitialPromptsUsed: int := 0
  const InitialPromptsLimit: int := 5

  /** The chat-completions request: the model, the messages and the token cap. */
  const Model: string := "mistralai/Mixtral-8x7B-Instruct-v0.1"
  const MaxTokens: int := 1024

  /** A message of the request: the fixed instruction to the model, which
      this model does not spell out, or one of the chat's messages. */
  datatype Outgoing = Instruction | Said(message: Message)

  datatype ChatRequest = ChatRequest(model: string, messages: seq<Outgoing>, maxTokens: int)

  /** The `prompts_used, prompts_limit` row read when the box mounts. */
  datatype LimitsRow = LimitsRow(promptsUsed: Option<int>, promptsLimit: Option<int>)

  /** The `prompts_used, daily_prompts_used, last_prompt_date` row read on send. */
  datatype UsageRow = UsageRow(promptsUsed: Option<int>, dailyPromptsUsed: Option<int>, lastPromptDate: Option<string>)

  /** What a send writes back to the `users` row. */
  datatype UsageUpdate = UsageUpdate(promptsUsed: int, dailyPromptsUsed: int, lastPromptDate: string)

  /** A send does nothing when both texts trim to nothing. */
  predicate NothingToSend(input: string, enhancedPrompt: string) {
    Blank(input) && Blank(enhancedPrompt)
  }

  /** The text that is sent: the trimmed enhanced text when there is one,
      otherwise the trimmed input. It is empty only when there is nothing to
      send, and it is already trimmed. */
  function ChooseMessage(input: string, enhancedPrompt: string): (m: string)
    ensures !Blank(enhancedPrompt) ==> m == Trim(enhancedPrompt)
    ensures Blank(enhancedPrompt) ==> m == Trim(input)
    ensures m == "" <==> NothingToSend(input, enhancedPrompt)
    ensures Trim(m) == m
  {
    TrimIdempotent(enhancedPrompt);
    TrimIdempotent(input);
    if Trim(enhancedPrompt) != "" then Trim(enhancedPrompt) else Trim(input)
  }

  /** The request for `userMessage` after the log `prior`: the instruction,
      every earlier message in order, and the new user message last. */
  function RequestFor(prior: seq<Message>, userMessage: string): (r: ChatRequest)
    ensures r.model == Model && r.maxTokens == MaxTokens
    ensures |r.messages| == |prior| + 2
    ensures r.messages[0] == Instruction
    ensures forall i :: 0 <= i < |prior| ==> r.messages[i + 1] == Said(prior[i])
    ensures r.messages[|prior| + 1] == Said(Message(User, userMessage))
  {
    ChatRequest(Model, [Instruction] + seq(|prior|, i requires 0 <= i < |prior| => Said(prior[i]))
                       + [Said(Message(User, userMessage))], MaxTokens)
  }

  /** The stored day the daily counter belongs to: the date part of
      `last_prompt_date`, and today when that is missing or empty. */
  function StoredDay(row: UsageRow, today: string): string {
    StringOr(if row.lastPromptDate.Some? then Some(BeforeFirst(row.lastPromptDate.value, 'T')) else None, today)
  }

  /** The update a send writes: the stored total (missing counts as 0) plus
      one; the daily count plus one on the stored day and one on any other
      day; and today as the new date. */
  function UsageAfter(row: UsageRow, today: string): (u: UsageUpdate)
    ensures u.promptsUsed == NumberOr(row.promptsUsed, 0) + 1
    ensures u.lastPromptDate == today
    ensures StoredDay(row, today) != today ==> u.dailyPromptsUsed == 1
    ensures StoredDay(row, today) == today ==> u.dailyPromptsUsed == NumberOr(row.dailyPromptsUsed, 0) + 1
  {
    UsageUpdate(NumberOr(row.promptsUsed, 0) + 1,
                (if StoredDay(row, today) == today then NumberOr(row.dailyPromptsUsed, 0) else 0) + 1,
                today)
  }

  /** The row as it reads after `u` was written. */
  function Stored(u: UsageUpdate): UsageRow {
    UsageRow(Some(u.promptsUsed), Some(u.dailyPromptsUsed), Some(u.lastPromptDate))
  }

  /** A day string as `toISOString().split("T")[0]` yields it. */
  predicate IsDay(d: string) {
    d != "" && 'T' !in d
  }

  /** A second send on the same day counts on from the first one: both the
      total and the daily count go up by one more. */
  lemma {:induction false} SecondSendSameDay(row: UsageRow, today: string)
    requires IsDay(today)
    ensures var u1 := UsageAfter(row, today);
            var u2 := UsageAfter(Stored(u1), today);
            u2.promptsUsed == u1.promptsUsed + 1 && u2.dailyPromptsUsed == u1.dailyPromptsUsed + 1
            && u2.lastPromptDate == today
  {
    var u1 := UsageAfter(row, today);
    BeforeFirstAbsent(today, 'T');
    assert StoredDay(Stored(u1), today) == today;
  }

  /** The first send on a later day starts the daily count again at one,
      while the total keeps counting. */
  lemma {:induction false} FirstSendNextDay(row: UsageRow, day: string, nextDay: string)
    requires IsDay(day) && nextDay != day
    ensures var u1 := UsageAfter(row, day);
            var u2 := UsageAfter(Stored(u1), nextDay);
            u2.dailyPromptsUsed == 1 && u2.promptsUsed == u1.promptsUsed + 1 && u2.lastPromptDate == nextDay
  {
    var u1 := UsageAfter(row, day);
    BeforeFirstAbsent(day, 'T');
    assert StoredDay(Stored(u1), nextDay) == day;
  }

  /** The log is a run of exchanges: a user message, then the answer to
      it. Every user message is non-empty and trimmed. */
  predicate Exchanges(log: seq<Message>) {
    |log| % 2 == 0
    && (forall i :: 0 <= i < |log| ==> (log[i].role == User <==> i % 2 == 0))
    && (forall i :: 0 <= i < |log| && log[i].role == User ==> log[i].content != "" && Trim(log[i].content) == log[i].content)
  }

  /** Adding one exchange keeps the log a run of exchanges. */
  lemma {:induction false} ExchangeAppended(log: seq<Message>, userMessage: string, answer: string)
    requires Exchanges(log)
    requires userMessage != "" && Trim(userMessage) == userMessage
    ensures Exchanges(log + [Message(User, userMessage), Message(Assistant, answer)])
  {
    var next := log + [Message(User, userMessage), Message(Assistant, answer)];
    forall i | 0 <= i < |next|
      ensures next[i].role == User <==> i % 2 == 0
    {
      if i == |log| + 1 {
        assert (|log| + 1) % 2 == 1;
      }
    }
  }

  /** The engine's output always ends in the full stop of its last
      sentence, so it is never blank. */
  lemma EnhancedTextNotBlank(original: string, s: PE.Settings)
    requires s.role in PE.RoleOptions
    ensures !Blank(PE.Enhance(original, s))
  {
    var c := PE.ComplexitySentence(PE.BucketOf(s.complexity));
    var r := PE.Enhance(original, s);
    var front := PE.RolePrefix(s.role) + original + PE.ToneSeparator + PE.ToneSentence(PE.BucketOf(s.tone))
                 + PE.ClauseSeparator + PE.DetailSentence(PE.BucketOf(s.detailLevel)) + PE.ClauseSeparator;
    assert r == front + c;
    assert c[|c| - 1] == '.';
    assert r[|r| - 1] == c[|c| - 1];
  }

  /** Once the panel's text is applied, a send sends that text (trimmed),
      whatever is typed in the box. */
  lemma AppliedTextIsSent(input: string, original: string, s: PE.Settings)
    requires s.role in PE.RoleOptions
    ensures ChooseMessage(input, PE.Enhance(original, s)) == Trim(PE.Enhance(original, s)) != ""
  {
    EnhancedTextNotBlank(original, s);
  }

  class Chat {
    var messages: seq<Message>
    var input: string
    var loading: bool
    var promptsUsed: int
    var promptsLimit: int
    var showEnhancer: bool
    var enhancedPrompt: string

    /** Between handler runs nothing is loading and the log is a run of
        exchanges. */
    ghost predicate Valid()
      reads this
    {
      !loading && Exchanges(messages)
    }

    /** What the text box shows: the enhanced text once there is one,
        otherwise the typed input. */
    function DisplayedText(): (t: string)
      reads this
    {
      if enhancedPrompt != "" then enhancedPrompt else input
    }

    /** A freshly mounted box: empty log and input, default counters. */
    constructor ()
      ensures Valid()
      ensures messages == [] && input == "" && enhancedPrompt == "" && !showEnhancer
      ensures promptsUsed == InitialPromptsUsed && promptsLimit == InitialPromptsLimit
    {
      messages := [];
      input := "";
      loading := false;
      promptsUsed := InitialPromptsUsed;
      promptsLimit := InitialPromptsLimit;
      showEnhancer := false;
      enhancedPrompt := "";
    }

    /** The mount effect: with a signed-in user and a row, the counters are
        taken from it, a missing or zero value falling back to 0 and 5. */
    method LoadUsage(signedIn: bool, row: Option<LimitsRow>)
      requires Valid()
      modifies this
      ensures Valid()
      ensures signedIn && row.Some? ==>
                promptsUsed == NumberOr(row.value.promptsUsed, 0)
                && promptsLimit == NumberOr(row.value.promptsLimit, InitialPromptsLimit)
      ensures !(signedIn && row.Some?) ==> promptsUsed == old(promptsUsed) && promptsLimit == old(promptsLimit)
      ensures messages == old(messages) && input == old(input) && enhancedPrompt == old(enhancedPrompt)
      ensures showEnhancer == old(showEnhancer)
    {
      if signedIn && row.Some? {
        promptsUsed := NumberOr(row.value.promptsUsed, 0);
        promptsLimit := NumberOr(row.value.promptsLimit, InitialPromptsLimit);
      }
    }

    /** The daily-counter computation of a send, step by step. */
    static method NextUsage(row: UsageRow, today: string) returns (u: UsageUpdate)
      ensures u == UsageAfter(row, today)
    {
      var lastPromptDate := StringOr(if row.lastPromptDate.Some? then Some(BeforeFirst(row.lastPromptDate.value, 'T'))
                                     else None, today);
      var dailyPromptsUsed := NumberOr(row.dailyPromptsUsed, 0);
      if lastPromptDate != today {
        dailyPromptsUsed := 0;
      }
      u := UsageUpdate(NumberOr(row.promptsUsed, 0) + 1, dailyPromptsUsed + 1, today);
    }

    /** The send handler. `signedIn`, `row`, `today` and `reply` stand for
        what the auth lookup, the usage row query, the clock and the model
        call give back (`reply` is `None` when the call fails or brings no
        choice). It returns the request it sends to the model, the usage
        update and the history row it writes. */
    method SendMessage(signedIn: bool, row: Option<UsageRow>, today: string, reply: Option<string>)
      returns (request: Option<ChatRequest>, update: Option<UsageUpdate>, saved: Option<HistoryEntry>)
      requires Valid()
      modifies this
      ensures Valid()
      ensures promptsLimit == old(promptsLimit)
      ensures NothingToSend(old(input), old(enhancedPrompt)) ==>
                messages == old(messages) && input == old(input) && enhancedPrompt == old(enhancedPrompt)
                && showEnhancer == old(showEnhancer) && promptsUsed == old(promptsUsed)
                && request == None && update == None && saved == None
      ensures !NothingToSend(old(input), old(enhancedPrompt)) ==>
                input == "" && enhancedPrompt == "" && !showEnhancer
      ensures !NothingToSend(old(input), old(enhancedPrompt)) && old(promptsUsed) >= old(promptsLimit) ==>
                var m := ChooseMessage(old(input), old(enhancedPrompt));
                messages == old(messages) + [Message(User, m), Message(Assistant, LimitReachedText)]
                && promptsUsed == old(promptsUsed) && request == None && update == None && saved == None
      ensures !NothingToSend(old(input), old(enhancedPrompt)) && old(promptsUsed) < old(promptsLimit) ==>
                var m := ChooseMessage(old(input), old(enhancedPrompt));
                messages == old(messages) + [Message(User, m), Message(Assistant, if reply.Some? then reply.value else ApiErrorText)]
                && promptsUsed == (if signedIn then old(promptsUsed) + 1 else old(promptsUsed))
                && request == Some(RequestFor(old(messages), m))
                && update == (if signedIn && row.Some? then Some(UsageAfter(row.value, today)) else None)
                && saved == (if signedIn && row.Some? then Some(HistoryEntry(m, None, Title(m))) else None)
    {
      if Trim(input) == "" && Trim(enhancedPrompt) == "" {
        return None, None, None;
      }
      var userMessage := ChooseMessage(input, enhancedPrompt);
      if promptsUsed >= promptsLimit {
        AppendExchange(userMessage, LimitReachedText);
        input := "";
        enhancedPrompt := "";
        showEnhancer := false;
        return None, None, None;
      }
      loading := true;
      var prior := messages;
      messages := messages + [Message(User, userMessage)];
      input := "";
      enhancedPrompt := "";
      showEnhancer := false;
      update, saved := None, None;
      if signedIn {
        var newPromptsUsed := promptsUsed + 1;
        promptsUsed := newPromptsUsed;
        if row.Some? {
          var u := NextUsage(row.value, today);
          update := Some(u);
          saved := Some(HistoryEntry(userMessage, None, Title(userMessage)));
        }
      }
      request := Some(RequestFor(prior, userMessage));
      var answer := if reply.Some? then reply.value else ApiErrorText;
      AppendAnswer(prior, userMessage, answer);
      loading := false;
    }

    /** The quota branch's single update of the log: the user message and
        the answer to it. */
    method AppendExchange(userMessage: string, answer: string)
      requires Valid()
      requires userMessage != "" && Trim(userMessage) == userMessage
      modifies this
      ensures Valid()
      ensures messages == old(messages) + [Message(User, userMessage), Message(Assistant, answer)]
      ensures input == old(input) && enhancedPrompt == old(enhancedPrompt) && showEnhancer == old(showEnhancer)
      ensures promptsUsed == old(promptsUsed) && promptsLimit == old(promptsLimit)
    {
      ExchangeAppended(messages, userMessage, answer);
      messages := messages + [Message(User, userMessage), Message(Assistant, answer)];
    }

    /** The answer that closes the exchange the user message opened. */
    method AppendAnswer(ghost prior: seq<Message>, ghost userMessage: string, answer: string)
      requires Exchanges(prior) && userMessage != "" && Trim(userMessage) == userMessage
      requires messages == prior + [Message(User, userMessage)]
      modifies this
      ensures Exchanges(messages)
      ensures messages == prior + [Message(User, userMessage), Message(Assistant, answer)]
      ensures input == old(input) && enhancedPrompt == old(enhancedPrompt) && showEnhancer == old(showEnhancer)
      ensures promptsUsed == old(promptsUsed) && promptsLimit == old(promptsLimit) && loading == old(loading)
    {
      ExchangeAppended(prior, userMessage, answer);
      messages := messages + [Message(Assistant, answer)];
      assert messages == prior + [Message(User, userMessage), Message(Assistant, answer)];
    }

    /** The enhance button's handler: the panel opens only for non-blank input. */
    method OpenEnhancer()
      requires Valid()
      modifies this
      ensures Valid()
      ensures showEnhancer == (old(showEnhancer) || !Blank(input))
      ensures messages == old(messages) && input == old(input) && enhancedPrompt == old(enhancedPrompt)
      ensures promptsUsed == old(promptsUsed) && promptsLimit == old(promptsLimit)
    {
      if Trim(input) == "" {
        return;
      }
      showEnhancer := true;
    }

    /** The panel's apply: its text becomes the enhanced text and the panel
        closes. */
    method ApplyEnhancedPrompt(prompt: string)
      requires Valid()
      modifies this
      ensures Valid()
      ensures enhancedPrompt == prompt && !showEnhancer
      ensures messages == old(messages) && input == old(input)
      ensures promptsUsed == old(promptsUsed) && promptsLimit == old(promptsLimit)
    {
      enhancedPrompt := prompt;
      showEnhancer := false;
    }

    /** The panel's cancel: it closes and nothing else changes. */
    method CancelEnhancer()
      requires Valid()
      modifies this
      ensures Valid()
      ensures !showEnhancer
      ensures messages == old(messages) && input == old(input) && enhancedPrompt == old(enhancedPrompt)
      ensures promptsUsed == old(promptsUsed) && promptsLimit == old(promptsLimit)
    {
      showEnhancer := false;
    }

    /** An edit of the text box: it goes to the enhanced text while there is
        one, otherwise to the input. The box then shows the edit, except
        that emptying the enhanced text brings the input back into view. */
    method EditText(value: string)
      requires Valid()
      modifies this
      ensures Valid()
      ensures old(enhancedPrompt) != "" ==> enhancedPrompt == value && input == old(input)
      ensures old(enhancedPrompt) == "" ==> input == value && enhancedPrompt == old(enhancedPrompt)
      ensures DisplayedText() == value || (value == "" && DisplayedText() == input)
      ensures messages == old(messages) && showEnhancer == old(showEnhancer)
      ensures promptsUsed == old(promptsUsed) && promptsLimit == old(promptsLimit)
    {
      if enhancedPrompt != "" {
        enhancedPrompt := value;
      } else {
        input := value;
      }
    }
  }
}
