/**
  The AI-assistant chat panel: a log of user and bot messages, the input
  buffer and a `loading` flag. Sending a question appends it with a
  "thinking" placeholder, creates a backend task and polls it until the task
  is done or fails; the outcome then takes the placeholder's place. Each
  asynchronous continuation (the awaited task creation, a timer-driven poll)
  is an event method on the class below, driven from outside.
 */
module Chat {
  import opened Wrappers
  import opened Json
  import JsString

  datatype Sender = User | Bot

  datatype ChatMessage = ChatMessage(sender: Sender, text: string)

  /** The text that marks the message awaiting a result. */
  const Thinking: string := "\U{1F914} Thinking..."
  const FailedToReachBackend: string := "\U{1F6A8} Failed to reach backend."
  const FailedToFetchResult: string := "\U{274C} Failed to fetch result."
  const ErrorPrefix: string := "\U{274C} Error: "

  /** The bookkeeping properties of a task result that are not shown. */
  const Bookkeeping: set<string> := {"task_id", "status"}

  /** The bot message shown while a task is outstanding. */
  const Placeholder: ChatMessage := ChatMessage(Bot, Thinking)

  /** The log ends with a message whose text is the placeholder's. Only the
      text is compared, not the sender. */
  predicate AwaitsResult(log: seq<ChatMessage>)
  {
    |log| > 0 && log[|log| - 1].text == Thinking
  }

  /** The state updater of `updateLastBotMessage`: the new message takes the
      place of a trailing placeholder, and is appended otherwise. */
  function PlaceholderUpdate(log: seq<ChatMessage>, msg: ChatMessage): (r: seq<ChatMessage>)
    ensures AwaitsResult(log) ==>
      |r| == |log| && r[..|log| - 1] == log[..|log| - 1] && r[|log| - 1] == msg
    ensures !AwaitsResult(log) ==>
      |r| == |log| + 1 && r[..|log|] == log && r[|log|] == msg
    ensures msg.text != Thinking ==> !AwaitsResult(r)
  {
    if AwaitsResult(log) then log[|log| - 1 := msg] else log + [msg]
  }

  /** How an awaited request settled: a response body, or a rejection
      (network failure or an error status code). */
  datatype Response = Received(data: Value) | RequestFailed

  /** Task creation fails when the request is rejected or when its body is
      `null`, since reading `task_id` of `null` throws inside the same `try`. */
  predicate AskFailed(response: Response)
  {
    response.RequestFailed? || response.data.JNull?
  }

  /** The `task_id` the creation response carries (possibly `undefined`). */
  function TaskId(response: Response): Prop
    requires !AskFailed(response)
  {
    Get(response.data, "task_id")
  }

  /** The poll's body could be read and its status is neither "done" nor
      "error" (it may be missing, or the body may not be an object). */
  predicate StillRunningStatus(response: Response)
  {
    && response.Received? && !response.data.JNull?
    && Get(response.data, "status") != Defined(JString("done"))
    && Get(response.data, "status") != Defined(JString("error"))
  }

  /** What one poll does with its settled request: the bot message that
      resolves the placeholder, or None when the task is still running and
      another poll is scheduled. A rejected request, or a `null` body whose
      `status` cannot be read, resolves with the fetch failure message; a task
      that is done shows its result without the bookkeeping properties; a task
      that failed shows its `error` property, or the whole body when that is
      falsy. */
  function PollResolution(response: Response, stringify: Stringify): (r: Option<ChatMessage>)
    ensures response.RequestFailed? ==> r == Some(ChatMessage(Bot, FailedToFetchResult))
    ensures response.Received? && response.data.JNull? ==> r == Some(ChatMessage(Bot, FailedToFetchResult))
    ensures r.None? <==> StillRunningStatus(response)
    ensures r.Some? ==> r.value.sender == Bot && r.value.text != Thinking
  {
    match response
    case RequestFailed => Some(ChatMessage(Bot, FailedToFetchResult))
    case Received(data) =>
      if data.JNull? then Some(ChatMessage(Bot, FailedToFetchResult))
      else
        var status := Get(data, "status");
        if status == Defined(JString("done")) then
          var cleaned := JObject(Omit(data.fields, Bookkeeping));
          var text := stringify(cleaned);
          assert OpensWithBrace(text);
          Some(ChatMessage(Bot, text))
        else if status == Defined(JString("error")) then
          var text := ErrorPrefix + stringify(Or(Get(data, "error"), data));
          assert text[0] != Thinking[0];
          Some(ChatMessage(Bot, text))
        else
          None
  }

  /** A result whose status is "done" is shown as the serialisation of an
      object that has no bookkeeping property and reads like the result on
      every other property. */
  lemma DoneShowsCleanedResult(data: Value, stringify: Stringify, key: string)
    requires data.JObject? && Lookup(data.fields, "status") == Defined(JString("done"))
    ensures PollResolution(Received(data), stringify)
         == Some(ChatMessage(Bot, stringify(JObject(Omit(data.fields, Bookkeeping)))))
    ensures Lookup(Omit(data.fields, Bookkeeping), key)
         == if key in Bookkeeping then Undefined else Lookup(data.fields, key)
  {
    LookupOmit(data.fields, Bookkeeping, key);
  }

  /** A result whose status is "error" is shown as the error prefix and the
      serialisation of its truthy `error` property, or of the whole body when
      that property is missing or falsy. */
  lemma ErrorShowsErrorOrBody(data: Value, stringify: Stringify)
    requires data.JObject? && Lookup(data.fields, "status") == Defined(JString("error"))
    ensures Truthy(Lookup(data.fields, "error")) ==>
      PollResolution(Received(data), stringify)
        == Some(ChatMessage(Bot, ErrorPrefix + stringify(Lookup(data.fields, "error").value)))
    ensures !Truthy(Lookup(data.fields, "error")) ==>
      PollResolution(Received(data), stringify) == Some(ChatMessage(Bot, ErrorPrefix + stringify(data)))
  {
  }

  /** The source of `Chatbot.tsx`'s task lifecycle: which continuation of
      `handleSend` is outstanding. `question` is the text sent. */
  datatype Task =
    | Idle
    | Asking(question: string)
    | Polling(question: string, taskId: Prop)

  /** The log ends with the user's question and the placeholder after it. */
  predicate EndsWithPending(log: seq<ChatMessage>, question: string)
  {
    |log| >= 2 && log[|log| - 1] == Placeholder && log[|log| - 2] == ChatMessage(User, question)
  }

  /** Every placeholder in the log, including one orphaned by a failed task
      creation, directly follows the user message that asked for it. */
  predicate PlaceholdersFollowQuestions(log: seq<ChatMessage>)
  {
    forall i :: 0 <= i < |log| && log[i] == Placeholder ==> i > 0 && log[i - 1].sender == User
  }

  /** The state of the `Chatbot` component that its handlers change. */
  class Chatbot {
    var messages: seq<ChatMessage>
    var input: string
    var loading: bool
    /** The pending continuation of the last `handleSend`. */
    ghost var task: Task

    /** `loading` is set exactly while a task is outstanding; while it is, the
        log is either cleared or ends with the question and its placeholder. */
    ghost predicate Valid()
      reads this
    {
      && (loading <==> !task.Idle?)
      && (!task.Idle? ==> messages == [] || EndsWithPending(messages, task.question))
      && PlaceholdersFollowQuestions(messages)
    }

    constructor ()
      ensures Valid()
      ensures messages == [] && input == "" && !loading && task == Idle
    {
      messages := [];
      input := "";
      loading := false;
      task := Idle;
    }

    /** The input's `onChange` handler. */
    method SetInput(text: string)
      requires Valid()
      modifies this`input
      ensures Valid() && input == text
    {
      input := text;
    }

    /** `updateLastBotMessage(msg)`. */
    method UpdateLastBotMessage(msg: ChatMessage)
      modifies this`messages
      ensures messages == PlaceholderUpdate(old(messages), msg)
    {
      messages := PlaceholderUpdate(messages, msg);
    }

    /** `handleSend` up to the task-creation request, whose question it
        returns. A blank input is ignored. Otherwise the raw, untrimmed input
        is appended as a user message followed by the placeholder, the input
        is cleared, `loading` is set and the same raw input is sent. */
    method HandleSend() returns (question: Option<string>)
      requires Valid() && !loading
      modifies this
      ensures Valid()
      ensures JsString.IsBlank(old(input)) ==>
        && question == None
        && messages == old(messages) && input == old(input) && loading == old(loading)
        && task == old(task)
      ensures !JsString.IsBlank(old(input)) ==>
        && question == Some(old(input))
        && messages == old(messages) + [ChatMessage(User, old(input)), Placeholder]
        && input == "" && loading
        && task == Asking(old(input))
    {
      if JsString.Trim(input) == "" {
        return None;
      }
      // The request body is built from the `input` the handler was called
      // with, so clearing the buffer first does not change the question.
      question := Some(input);
      var userMessage := ChatMessage(User, input);
      messages := messages + [userMessage, Placeholder];
      input := "";
      loading := true;
      task := Asking(question.value);
    }

    /** The awaited task creation settles. On failure a new bot message
        reports the unreachable backend after the placeholder, which stays in
        the log, and `loading` is cleared; on success the first poll is
        scheduled and nothing visible changes. */
    method AskSettled(response: Response)
      requires Valid() && task.Asking?
      modifies this
      ensures Valid() && input == old(input)
      ensures AskFailed(response) ==>
        && messages == old(messages) + [ChatMessage(Bot, FailedToReachBackend)]
        && !loading && task == Idle
      ensures AskFailed(response) && old(messages) != [] ==>
        messages[|old(messages)| - 1] == Placeholder
      ensures !AskFailed(response) ==>
        && messages == old(messages) && loading
        && task == Polling(old(task).question, TaskId(response))
    {
      if AskFailed(response) {
        messages := messages + [ChatMessage(Bot, FailedToReachBackend)];
        loading := false;
        task := Idle;
      } else {
        task := Polling(task.question, TaskId(response));
      }
    }

    /** A scheduled poll's request settles; `again` says another poll is
        scheduled. A task still running changes nothing. Any other outcome
        goes through `updateLastBotMessage` and clears `loading`: it replaces
        the placeholder, or, when the log was cleared meanwhile, becomes its
        only message. */
    method PollSettled(response: Response, stringify: Stringify) returns (again: bool)
      requires Valid() && task.Polling?
      modifies this
      ensures Valid() && input == old(input)
      ensures again <==> PollResolution(response, stringify).None?
      ensures again <==> StillRunningStatus(response)
      ensures again ==> messages == old(messages) && loading && task == old(task)
      ensures !again ==>
        && messages == PlaceholderUpdate(old(messages), PollResolution(response, stringify).value)
        && !loading && task == Idle
      ensures !again && old(messages) != [] ==>
        && |messages| == |old(messages)|
        && messages[..|messages| - 1] == old(messages)[..|old(messages)| - 1]
        && messages[|messages| - 1] == PollResolution(response, stringify).value
      ensures !again && old(messages) == [] ==>
        messages == [PollResolution(response, stringify).value]
    {
      var resolution := PollResolution(response, stringify);
      if resolution.None? {
        return true;
      }
      UpdateLastBotMessage(resolution.value);
      loading := false;
      task := Idle;
      again := false;
    }

    /** The "Clear Chat" button: empties the log and touches nothing else, so
        an outstanding task keeps polling and `loading` stays set. */
    method ClearChat()
      requires Valid()
      modifies this`messages
      ensures Valid() && messages == []
    {
      messages := [];
    }
  }

  /** Asking "What failed yesterday?" when the first poll finds the task still
      running and the second finds it done: the log ends as the question and
      the result without its bookkeeping properties, and `loading` is clear. */
  method AnsweredQuestion(stringify: Stringify) returns (log: seq<ChatMessage>, busy: bool)
    ensures log == [ChatMessage(User, "What failed yesterday?"),
                    ChatMessage(Bot, stringify(JObject([("failures", JNumber(3.0))])))]
    ensures !busy
  {
    var chat := new Chatbot();
    var q := "What failed yesterday?";
    chat.SetInput(q);
    assert !JsString.IsWhiteSpace(q[0]);
    var sent := chat.HandleSend();
    assert chat.messages == [ChatMessage(User, q), Placeholder];
    var created := Received(JObject([("task_id", JString("abc"))]));
    assert !AskFailed(created);
    chat.AskSettled(created);
    var pending := JObject([("status", JString("pending"))]);
    assert Lookup(pending.fields, "status") == Defined(JString("pending"));
    StillRunning(pending, stringify);
    var again := chat.PollSettled(Received(pending), stringify);
    assert chat.messages == [ChatMessage(User, q), Placeholder];
    var result := JObject([("task_id", JString("abc")), ("status", JString("done")), ("failures", JNumber(3.0))]);
    DoneExample(result, stringify);
    again := chat.PollSettled(Received(result), stringify);
    assert AwaitsResult([ChatMessage(User, q), Placeholder]);
    log, busy := chat.messages, chat.loading;
  }

  /** A body that is not `null` and whose status is neither "done" nor
      "error", whatever it is, missing, or unreadable because the body is not
      an object, schedules another poll. */
  lemma StillRunning(data: Value, stringify: Stringify)
    requires !data.JNull?
    requires data.JObject? ==>
      Lookup(data.fields, "status") != Defined(JString("done"))
      && Lookup(data.fields, "status") != Defined(JString("error"))
    ensures PollResolution(Received(data), stringify).None?
  {
  }

  /** The completed result of the scenario above resolves with its `failures`
      property alone. */
  lemma DoneExample(result: Value, stringify: Stringify)
    requires result == JObject([("task_id", JString("abc")), ("status", JString("done")), ("failures", JNumber(3.0))])
    ensures PollResolution(Received(result), stringify)
         == Some(ChatMessage(Bot, stringify(JObject([("failures", JNumber(3.0))]))))
  {
    var fields := result.fields;
    assert Lookup(fields[1..], "status") == Defined(JString("done"));
    assert Omit(fields[2..], Bookkeeping) == [("failures", JNumber(3.0))];
  }

  /** Task creation fails: the log holds the question, the orphaned
      placeholder and the failure message, and `loading` is clear. */
  method UnreachableBackend(question: string) returns (log: seq<ChatMessage>, busy: bool)
    requires !JsString.IsBlank(question)
    ensures log == [ChatMessage(User, question), Placeholder, ChatMessage(Bot, FailedToReachBackend)]
    ensures !busy
  {
    var chat := new Chatbot();
    chat.SetInput(question);
    var sent := chat.HandleSend();
    chat.AskSettled(RequestFailed);
    log, busy := chat.messages, chat.loading;
  }

  /** The chat is cleared while a task is polled: the failure that ends the
      task is appended to the empty log, and `loading` stays set until then. */
  method ClearedWhilePolling(question: string, stringify: Stringify) returns (log: seq<ChatMessage>, busyAfterClear: bool)
    requires !JsString.IsBlank(question)
    ensures log == [ChatMessage(Bot, FailedToFetchResult)]
    ensures busyAfterClear
  {
    var chat := new Chatbot();
    chat.SetInput(question);
    var sent := chat.HandleSend();
    chat.AskSettled(Received(JObject([("task_id", JString("t1"))])));
    chat.ClearChat();
    busyAfterClear := chat.loading;
    var again := chat.PollSettled(RequestFailed, stringify);
    log := chat.messages;
  }
}
