/** One run of the tutoring page, from plan creation to the shortcut buttons.
    A Streamlit page re-runs its script from the top on every interaction;
    each run is a *pass*. The session state survives between passes and is
    modelled by the class `Session`; `Pass` is the same pass written as a
    function of the state and the pass's inputs, and the lemmas below are
    about sequences of passes. */
module Tutoring {
  import opened Wrappers
  import opened Messages
  import opened Text
  import opened Streaming
  import opened Prompts
  import opened Persistence
  import Options

  const DefaultTopic: string := "李白的浪漫主义诗歌与其生平"

  /** The assistant's first message of a conversation. */
  const WelcomeText: string := "欢迎使用酷学！如果您已经创建好学习计划，请说 `开始` 来开始对话。请记住，虽然您可以通过快捷按钮来推进学习进度， 但您仍然可以随时提出各种问题，并且可能获得意外的收获。"

  /** The shortcut buttons under the conversation, left to right. */
  const Shortcuts: seq<string> := ["开始", "继续", "测试", "详情", "思考", "导图", "评估"]
  const AssessLabel: string := "评估"
  /** Prefix of the time stamp posted before an assessment request. */
  const AssessMarker: string := "本次评估截止时间: "

  /** What a call to the backend produced. */
  datatype Reply =
    | Streamed(chunks: seq<Chunk>)  // a stream, consumed to its end
    | DecodeFailure                 // the call raised a JSON decoding error
    | CallFailure                   // the call raised any other error

  /** Everything a pass reads from the user, the backend and the clock. */
  datatype PassInput = PassInput(
    createPlan: bool,           // the plan-creation button
    planReply: Reply,           // the backend's answer to the outline request
    planTime: string,           // the clock, formatted, when the outline arrives
    chatInput: Option<string>,  // the chat box: `None` when nothing was submitted
    chatReply: Reply,           // the backend's answer to the chat request
    pressed: seq<bool>,         // the shortcut buttons, in the order of `Shortcuts`
    assessTime: string)         // the clock, formatted, when a shortcut is handled

  /** The session state together with the plans directory. */
  datatype World = World(data: PlanData, files: map<string, JsonObject>)

  /** A world part-way through a pass, and whether the pass ends there (an
      error escaped, or the page asked for a rerun). */
  datatype Step = Step(world: World, ended: bool)

  /** The state of a session that has not been touched yet. */
  function Defaults(): PlanData
  {
    PlanData(DefaultTopic, Options.DefaultDepth, Options.DefaultStyle, Options.DefaultTone,
             Options.DefaultFramework, "", [])
  }

  /** The chat is open only once there is an outline. */
  predicate HasPlan(d: PlanData)
  {
    d.planOutline != ""
  }

  /** The conversation ends in a turn the assistant has not answered. */
  predicate AwaitsReply(d: PlanData)
  {
    d.messages != [] && d.messages[|d.messages| - 1].role != AssistantRole
  }

  /** `reset_plan`: no topic, no outline, no conversation; preferences kept. */
  function Reset(d: PlanData): (r: PlanData)
    ensures r.topic == "" && !HasPlan(r) && r.messages == []
    ensures r.depth == d.depth && r.style == d.style && r.tone == d.tone && r.framework == d.framework
  {
    d.(topic := "", planOutline := "", messages := [])
  }

  /** The outline as stored: the generated text, a blank line, the time. */
  function StampedOutline(outline: string, time: string): string
  {
    outline + "\n\n" + time
  }

  /** A submitted, non-empty chat entry becomes a student turn. */
  function WithChatInput(d: PlanData, input: Option<string>): PlanData
  {
    if input.Some? && input.value != "" then d.(messages := d.messages + [UserMessage(input.value)]) else d
  }

  /** An empty conversation is opened by the welcome message. */
  function WithWelcome(d: PlanData): PlanData
  {
    if d.messages == [] then d.(messages := [AssistantMessage(WelcomeText)]) else d
  }

  /** What the backend receives to answer the last turn: the tutoring
      instruction, the last turn's text as the prompt, then the whole
      conversation (which ends with that same turn). */
  function ReplyRequest(d: PlanData): seq<Message>
    requires d.messages != []
  {
    ChatMessages(CoolLearnPrompt(d.depth, d.style, d.tone, d.framework, d.planOutline),
                 d.messages[|d.messages| - 1].content, Some(d.messages))
  }

  function WithReply(d: PlanData, text: string): PlanData
  {
    d.(messages := d.messages + [AssistantMessage(text)])
  }

  /** The assistant's message built from a pass's chat reply. */
  function AccumulatedReply(input: PassInput): Message
    requires input.chatReply.Streamed?
  {
    AssistantMessage(Accumulated(input.chatReply.chunks))
  }

  /** The turns a shortcut posts: its label, preceded by a time stamp for
      the assessment. */
  function ShortcutMessages(name: string, time: string): seq<Message>
  {
    (if name == AssessLabel then [UserMessage(AssessMarker + time)] else []) + [UserMessage(name)]
  }

  /** The first pressed button, or `|pressed|` when none is. */
  function FirstPressed(pressed: seq<bool>): (k: nat)
    ensures k <= |pressed|
    ensures k < |pressed| ==> pressed[k]
    ensures forall j :: 0 <= j < k ==> !pressed[j]
  {
    if pressed == [] then 0
    else if pressed[0] then 0
    else 1 + FirstPressed(pressed[1..])
  }

  /** The turns the shortcut row posts in a pass: only the first pressed
      button is handled, since handling it reruns the page. */
  function ShortcutAppend(pressed: seq<bool>, time: string): seq<Message>
    requires |pressed| == |Shortcuts|
  {
    var k := FirstPressed(pressed);
    if k < |pressed| then ShortcutMessages(Shortcuts[k], time) else []
  }

  /** Plan creation: the conversation is dropped, an outline is requested and
      streamed; a non-empty outline is stamped and saved. A decoding error is
      reported and the pass goes on; any other error ends it. */
  function CreatePlanStep(w: World, reply: Reply, time: string): (r: Step)
    ensures r.world.data == w.data.(planOutline := r.world.data.planOutline, messages := [])
    ensures r.ended <==> reply.CallFailure?
    ensures r.world.data.planOutline == w.data.planOutline || r.world.files == Sync(w.files, r.world.data)
  {
    var cleared := w.data.(messages := []);
    match reply
    case CallFailure => Step(World(cleared, w.files), true)
    case DecodeFailure => Step(World(cleared, w.files), false)
    case Streamed(chunks) =>
      var outline := Accumulated(chunks);
      if outline == "" then Step(World(cleared, w.files), false)
      else
        var d := cleared.(planOutline := StampedOutline(outline, time));
        Step(World(d, Sync(w.files, d)), false)
  }

  /** The conversation once the chat entry and the welcome are in. */
  function Opened(d: PlanData, input: Option<string>): PlanData
  {
    WithWelcome(WithChatInput(d, input))
  }

  /** The conversation after the assistant's turn, when that turn did not fail. */
  function Answered(d: PlanData, reply: Reply): PlanData
    requires !AwaitsReply(d) || reply.Streamed?
  {
    if AwaitsReply(d) then WithReply(d, Accumulated(reply.chunks)) else d
  }

  /** The chat part of a pass, once the outline gate is passed: the chat
      entry, the welcome, the assistant's reply to an unanswered turn, the
      save, then the shortcut row. An error from the chat call ends the pass
      before the save. */
  function ChatStep(w: World, input: PassInput): (r: World)
    requires |input.pressed| == |Shortcuts|
    ensures r.data == w.data.(messages := r.data.messages)
    ensures w.data.messages <= r.data.messages
  {
    var d := Opened(w.data, input.chatInput);
    if AwaitsReply(d) && !input.chatReply.Streamed? then World(d, w.files)
    else
      var answered := Answered(d, input.chatReply);
      var files := if answered.messages != [] then Sync(w.files, answered) else w.files;
      World(answered.(messages := answered.messages + ShortcutAppend(input.pressed, input.assessTime)), files)
  }

  /** One pass of the page. */
  function Pass(w: World, input: PassInput): (r: World)
    requires |input.pressed| == |Shortcuts|
    ensures r.data == w.data.(planOutline := r.data.planOutline, messages := r.data.messages)
    ensures !input.createPlan ==> r.data.planOutline == w.data.planOutline && w.data.messages <= r.data.messages
  {
    var plan := if input.createPlan then CreatePlanStep(w, input.planReply, input.planTime) else Step(w, false);
    if plan.ended || !HasPlan(plan.world.data) then plan.world
    else ChatStep(plan.world, input)
  }

  /** A pass in which the user does nothing: no button is pressed and no
      chat entry is submitted. */
  predicate Idle(input: PassInput)
  {
    && !input.createPlan
    && input.chatInput == None
    && |input.pressed| == |Shortcuts|
    && forall i :: 0 <= i < |input.pressed| ==> !input.pressed[i]
  }

  /** Every shortcut button names a command of the tutoring instruction, so
      the turn it posts is one the instruction explains. */
  lemma ShortcutsAreCommands(depth: string, style: string, tone: string, framework: string, outline: string, k: nat)
    requires k < |Shortcuts|
    ensures Occurs(Shortcuts[k], CoolLearnPrompt(depth, style, tone, framework, outline))
  {
    var i := [1, 2, 0, 3, 4, 5, 6][k];
    assert Commands[i].0 == Shortcuts[k];
    PromptNamesCommands(depth, style, tone, framework, outline, i);
  }

  /** The shortcut row posts the first pressed button's label as a student
      turn; the assessment button posts the time stamp first. */
  lemma FirstShortcutPosts(pressed: seq<bool>, time: string, k: nat)
    requires |pressed| == |Shortcuts| && k < |pressed| && pressed[k]
    requires forall j :: 0 <= j < k ==> !pressed[j]
    ensures Shortcuts[k] == AssessLabel ==>
      ShortcutAppend(pressed, time) == [UserMessage(AssessMarker + time), UserMessage(AssessLabel)]
    ensures Shortcuts[k] != AssessLabel ==> ShortcutAppend(pressed, time) == [UserMessage(Shortcuts[k])]
    ensures Shortcuts[k] == AssessLabel <==> k == |Shortcuts| - 1
  {
    assert FirstPressed(pressed) == k;
  }

  /** Nothing is posted when no shortcut is pressed, and something is when one is. */
  lemma NoShortcutPostsNothing(pressed: seq<bool>, time: string)
    requires |pressed| == |Shortcuts|
    ensures ShortcutAppend(pressed, time) == [] <==> forall i :: 0 <= i < |pressed| ==> !pressed[i]
  {
  }

  /** The backend is asked with the tutoring instruction, the last turn as
      the prompt, then the whole conversation: the last turn is sent twice. */
  lemma ReplyRequestRepeatsLastTurn(d: PlanData, r: seq<Message>)
    requires d.messages != [] && r == ReplyRequest(d)
    ensures |r| == |d.messages| + 2
    ensures r[0] == SystemMessage(CoolLearnPrompt(d.depth, d.style, d.tone, d.framework, d.planOutline))
    ensures r[1].role == UserRole && r[2..] == d.messages
    ensures r[1].content == r[|r| - 1].content
  {
  }

  /** Without an outline the chat is closed: a pass that does not create a
      plan changes nothing, posts nothing and saves nothing. */
  lemma GateHoldsWithoutPlan(w: World, input: PassInput)
    requires |input.pressed| == |Shortcuts|
    requires !HasPlan(w.data) && !input.createPlan
    ensures Pass(w, input) == w
  {
  }

  /** After `reset_plan`, passes that do not create a plan keep the
      conversation empty and save nothing, whatever is typed or pressed. */
  lemma ResetBlocksChat(w: World, next: PassInput)
    requires |next.pressed| == |Shortcuts| && !next.createPlan
    ensures Pass(World(Reset(w.data), w.files), next) == World(Reset(w.data), w.files)
  {
    GateHoldsWithoutPlan(World(Reset(w.data), w.files), next);
  }

  /** Plan creation always drops the conversation; only a non-empty outline
      replaces the old one, and it is then saved where loading its topic
      finds it. Otherwise the old outline and the saved records stay. */
  lemma PlanCreationOutcome(w: World, reply: Reply, time: string, cur: PlanData)
    ensures CreatePlanStep(w, reply, time).world.data.messages == []
    ensures CreatePlanStep(w, reply, time).ended <==> reply.CallFailure?
    ensures reply.Streamed? && Accumulated(reply.chunks) != "" ==>
      var s := CreatePlanStep(w, reply, time);
      && s.world.data.planOutline == StampedOutline(Accumulated(reply.chunks), time)
      && (w.data.topic != "" ==> LoadByTopic(cur, s.world.files, w.data.topic) == Loaded(s.world.data, None))
    ensures !(reply.Streamed? && Accumulated(reply.chunks) != "") ==>
      CreatePlanStep(w, reply, time).world == World(w.data.(messages := []), w.files)
  {
    if reply.Streamed? && Accumulated(reply.chunks) != "" {
      var s := CreatePlanStep(w, reply, time);
      if w.data.topic != "" {
        SaveLoadRoundTrip(cur, w.files, s.world.data);
      }
    }
  }

  /** A pass that does not create a plan, over a session with an outline,
      goes through to the chat. */
  lemma PlannedPassChats(w: World, input: PassInput)
    requires |input.pressed| == |Shortcuts|
    requires HasPlan(w.data) && !input.createPlan
    ensures Pass(w, input) == ChatStep(w, input)
  {
  }

  /** With no shortcut pressed and no failing chat call, the chat part
      leaves the last turn answered and saves the conversation as it ends. */
  lemma QuietChat(w: World, input: PassInput)
    requires |input.pressed| == |Shortcuts| && forall i :: 0 <= i < |input.pressed| ==> !input.pressed[i]
    requires !AwaitsReply(Opened(w.data, input.chatInput)) || input.chatReply.Streamed?
    ensures Answered(Opened(w.data, input.chatInput), input.chatReply).messages != []
    ensures !AwaitsReply(Answered(Opened(w.data, input.chatInput), input.chatReply))
    ensures ChatStep(w, input) == World(Answered(Opened(w.data, input.chatInput), input.chatReply),
                                        Sync(w.files, Answered(Opened(w.data, input.chatInput), input.chatReply)))
  {
    NoShortcutPostsNothing(input.pressed, input.assessTime);
    var a := Answered(Opened(w.data, input.chatInput), input.chatReply);
    assert a.messages + [] == a.messages;
  }

  /** A freshly created plan opens its conversation with the welcome
      message, and the session is saved with it. */
  lemma FreshPlanWelcomes(w: World, input: PassInput, cur: PlanData)
    requires |input.pressed| == |Shortcuts| && w.data.topic != ""
    requires input.createPlan && input.planReply.Streamed? && Accumulated(input.planReply.chunks) != ""
    requires input.chatInput == None && forall i :: 0 <= i < |input.pressed| ==> !input.pressed[i]
    ensures Pass(w, input).data.messages == [AssistantMessage(WelcomeText)]
    ensures Pass(w, input).data.planOutline == StampedOutline(Accumulated(input.planReply.chunks), input.planTime)
    ensures LoadByTopic(cur, Pass(w, input).files, w.data.topic) == Loaded(Pass(w, input).data, None)
  {
    var plan := CreatePlanStep(w, input.planReply, input.planTime);
    assert !plan.ended && HasPlan(plan.world.data) && plan.world.data.messages == [];
    QuietChat(plan.world, input);
    SaveLoadRoundTrip(cur, plan.world.files, Pass(w, input).data);
  }

  /** A plan creation whose reply cannot be decoded keeps the old outline
      but has already dropped the conversation; the same pass then opens a
      new one with the welcome message and saves it over the stored one. */
  lemma FailedPlanDropsConversation(w: World, input: PassInput, cur: PlanData)
    requires |input.pressed| == |Shortcuts| && HasPlan(w.data) && w.data.topic != ""
    requires input.createPlan && input.planReply == DecodeFailure
    requires input.chatInput == None && forall i :: 0 <= i < |input.pressed| ==> !input.pressed[i]
    ensures Pass(w, input).data.planOutline == w.data.planOutline
    ensures Pass(w, input).data.messages == [AssistantMessage(WelcomeText)]
    ensures LoadByTopic(cur, Pass(w, input).files, w.data.topic) == Loaded(Pass(w, input).data, None)
  {
    var plan := CreatePlanStep(w, input.planReply, input.planTime);
    assert !plan.ended && HasPlan(plan.world.data) && plan.world.data.messages == [];
    QuietChat(plan.world, input);
    SaveLoadRoundTrip(cur, plan.world.files, Pass(w, input).data);
  }

  /** A pass that reaches the chat and is not ended by an error leaves the
      last turn answered, and an idle pass after it changes nothing: the
      assistant answers each turn once. */
  lemma NoSecondReply(w: World, input: PassInput, idle: PassInput)
    requires |input.pressed| == |Shortcuts| && HasPlan(w.data) && !input.createPlan
    requires input.chatReply.Streamed? && forall i :: 0 <= i < |input.pressed| ==> !input.pressed[i]
    requires Idle(idle)
    ensures Pass(w, input).data.messages != [] && !AwaitsReply(Pass(w, input).data)
    ensures Pass(Pass(w, input), idle) == Pass(w, input)
  {
    PlannedPassChats(w, input);
    QuietChat(w, input);
    var w1 := Pass(w, input);
    PlannedPassChats(w1, idle);
    assert Opened(w1.data, idle.chatInput) == w1.data;
    QuietChat(w1, idle);
    SyncLastWriteWins(w.files, w1.data, w1.data);
  }

  /** A pass that reaches the chat, answers and presses nothing saves the
      session where loading its topic restores it. */
  lemma PassSavesSession(w: World, input: PassInput, cur: PlanData)
    requires |input.pressed| == |Shortcuts| && HasPlan(w.data) && w.data.topic != "" && !input.createPlan
    requires input.chatReply.Streamed? && forall i :: 0 <= i < |input.pressed| ==> !input.pressed[i]
    ensures LoadByTopic(cur, Pass(w, input).files, w.data.topic) == Loaded(Pass(w, input).data, None)
  {
    PlannedPassChats(w, input);
    QuietChat(w, input);
    SaveLoadRoundTrip(cur, w.files, Pass(w, input).data);
  }

  /** When the chat call fails, the student's turn stays unanswered and the
      next entry is appended after it: student turns may follow each other,
      and the next reply answers the later one with both in the history. */
  lemma UserTurnsMayRepeat(w: World, first: PassInput, second: PassInput, p: string, q: string)
    requires |first.pressed| == |Shortcuts| && |second.pressed| == |Shortcuts|
    requires HasPlan(w.data) && p != "" && q != ""
    requires !first.createPlan && first.chatInput == Some(p) && !first.chatReply.Streamed?
    requires !second.createPlan && second.chatInput == Some(q) && second.chatReply.Streamed?
    requires forall i :: 0 <= i < |second.pressed| ==> !second.pressed[i]
    ensures Pass(w, first).files == w.files
    ensures Pass(w, first).data.messages == w.data.messages + [UserMessage(p)]
    ensures Pass(Pass(w, first), second).data.messages ==
      w.data.messages + [UserMessage(p), UserMessage(q), AccumulatedReply(second)]
  {
    PlannedPassChats(w, first);
    var w1 := Pass(w, first);
    PlannedPassChats(w1, second);
    QuietChat(w1, second);
    assert w.data.messages + [UserMessage(p)] + [UserMessage(q)] + [AccumulatedReply(second)]
        == w.data.messages + [UserMessage(p), UserMessage(q), AccumulatedReply(second)];
  }

  /** A pressed shortcut posts its turns, and the next pass in which the
      user does nothing answers them. */
  lemma ShortcutThenReply(w: World, press: PassInput, next: PassInput, k: nat)
    requires |press.pressed| == |Shortcuts| && k < |Shortcuts|
    requires press.pressed[k] && forall j :: 0 <= j < k ==> !press.pressed[j]
    requires HasPlan(w.data) && w.data.messages != [] && !AwaitsReply(w.data)
    requires !press.createPlan && press.chatInput == None
    requires Idle(next) && next.chatReply.Streamed?
    ensures Pass(w, press).data.messages == w.data.messages + ShortcutMessages(Shortcuts[k], press.assessTime)
    ensures Pass(Pass(w, press), next).data.messages ==
      w.data.messages + ShortcutMessages(Shortcuts[k], press.assessTime) + [AccumulatedReply(next)]
  {
    FirstShortcutPosts(press.pressed, press.assessTime, k);
    PlannedPassChats(w, press);
    var w1 := Pass(w, press);
    PlannedPassChats(w1, next);
    assert Opened(w1.data, next.chatInput) == w1.data;
    QuietChat(w1, next);
  }

  /** A sample first exchange: with a plan and an empty conversation,
      sending "开始" and receiving the stream "Wel", "come", "" saves a
      conversation of the student's turn and the assistant's "Welcome". */
  lemma StartScenario(w: World, input: PassInput)
    requires |input.pressed| == |Shortcuts|
    requires HasPlan(w.data) && w.data.messages == []
    requires !input.createPlan && input.chatInput == Some("开始")
    requires input.chatReply == Streamed([Some("Wel"), Some("come"), Some("")])
    requires forall i :: 0 <= i < |input.pressed| ==> !input.pressed[i]
    ensures Pass(w, input).data.messages == [UserMessage("开始"), AssistantMessage("Welcome")]
    ensures Pass(w, input).files[FileName(w.data.topic)][MessagesKey]
         == JMessages([UserMessage("开始"), AssistantMessage("Welcome")])
  {
    WelcomeStream();
    PlannedPassChats(w, input);
    QuietChat(w, input);
  }

  /** The session state of one browser session. */
  class Session {
    var topic: string
    var depth: string
    var style: string
    var tone: string
    var framework: string
    var planOutline: string
    var messages: seq<Message>

    function Data(): PlanData
      reads this
    {
      PlanData(topic, depth, style, tone, framework, planOutline, messages)
    }

    /** The defaults the page installs in a new session. */
    constructor ()
      ensures Data() == Defaults()
    {
      topic := DefaultTopic;
      depth := Options.DefaultDepth;
      style := Options.DefaultStyle;
      tone := Options.DefaultTone;
      framework := Options.DefaultFramework;
      planOutline := "";
      messages := [];
    }

    method ResetPlan()
      modifies this
      ensures Data() == Reset(old(Data()))
    {
      topic := "";
      planOutline := "";
      messages := [];
    }

    /** `sync_plan_data`: writes the session under its topic when it has an outline. */
    method SyncPlanData(dir: PlanDirectory)
      modifies dir
      ensures dir.files == Sync(old(dir.files), Data())
    {
      if planOutline == "" {
        return;
      }
      var record := Encode(Data());
      dir.files := dir.files[FileName(topic) := record];
    }

    /** `load_plan_data`: assigns the record's fields one by one, stopping at
        the first one that is missing. */
    method LoadPlanData(obj: JsonObject) returns (error: Option<LoadError>)
      modifies this
      ensures Loaded(Data(), error) == Load(old(Data()), obj)
    {
      error := None;
      if obj == map[] {
        return;
      }
      var field := StringField(obj, TopicKey);
      if field.Failure? {
        error := Some(field.error);
        return;
      }
      topic := field.value;
      field := StringField(obj, DepthKey);
      if field.Failure? {
        error := Some(field.error);
        return;
      }
      depth := field.value;
      field := StringField(obj, StyleKey);
      if field.Failure? {
        error := Some(field.error);
        return;
      }
      style := field.value;
      field := StringField(obj, ToneKey);
      if field.Failure? {
        error := Some(field.error);
        return;
      }
      tone := field.value;
      field := StringField(obj, FrameworkKey);
      if field.Failure? {
        error := Some(field.error);
        return;
      }
      framework := field.value;
      field := OutlineField(obj);
      if field.Failure? {
        error := Some(field.error);
        return;
      }
      planOutline := field.value;
      var history := MessagesField(obj);
      if history.Failure? {
        error := Some(history.error);
        return;
      }
      messages := history.value;
    }

    /** `load_plan_data_by_topic`. */
    method LoadPlanDataByTopic(dir: PlanDirectory, name: string) returns (error: Option<LoadError>)
      modifies this
      ensures Loaded(Data(), error) == LoadByTopic(old(Data()), dir.files, name)
    {
      error := None;
      if name == "" {
        return;
      }
      var path := FileName(name);
      if path !in dir.files {
        error := Some(FileNotFound(path));
        return;
      }
      error := LoadPlanData(dir.files[path]);
    }

    /** Plan creation. `request` is what the backend is asked. */
    method CreatePlan(reply: Reply, time: string, dir: PlanDirectory) returns (request: seq<Message>, ended: bool)
      modifies this, dir
      ensures request == OutlineRequest(old(topic), old(depth), old(style), old(tone), old(framework))
      ensures Step(World(Data(), dir.files), ended) == CreatePlanStep(World(old(Data()), old(dir.files)), reply, time)
    {
      messages := [];
      request := OutlineRequest(topic, depth, style, tone, framework);
      ended := false;
      match reply {
        case CallFailure =>
          ended := true;
        case DecodeFailure =>
        case Streamed(chunks) =>
          var outline;
          ghost var shown;
          outline, shown := WriteStream(chunks);
          if outline != "" {
            planOutline := StampedOutline(outline, time);
            SyncPlanData(dir);
          }
      }
    }

    method ChatInput(input: Option<string>)
      modifies this
      ensures Data() == WithChatInput(old(Data()), input)
    {
      if input.Some? && input.value != "" {
        messages := messages + [UserMessage(input.value)];
      }
    }

    method Welcome()
      modifies this
      ensures Data() == WithWelcome(old(Data()))
    {
      if messages == [] {
        messages := messages + [AssistantMessage(WelcomeText)];
      }
    }

    /** The request that answers the last turn, assembled from the session. */
    method ComposeRequest() returns (request: seq<Message>)
      requires messages != []
      ensures request == ReplyRequest(Data())
      ensures |request| == |messages| + 2 && request[2..] == messages
      ensures request[1] == UserMessage(messages[|messages| - 1].content)
    {
      var sysmsg := CoolLearnPrompt(depth, style, tone, framework, planOutline);
      var chatPrompt := messages[|messages| - 1].content;
      request := StreamChatMessages(sysmsg, chatPrompt, Some(messages));
    }

    /** The assistant's turn: when the last turn is unanswered, the backend is
        asked (`request`) and its streamed answer appended; an error ends the
        pass with nothing appended. */
    method AssistantTurn(reply: Reply) returns (request: Option<seq<Message>>, ended: bool)
      modifies this
      ensures AwaitsReply(old(Data())) ==> request == Some(ReplyRequest(old(Data())))
      ensures !AwaitsReply(old(Data())) ==> request == None
      ensures ended <==> AwaitsReply(old(Data())) && !reply.Streamed?
      ensures Data() == if AwaitsReply(old(Data())) && reply.Streamed?
                        then WithReply(old(Data()), Accumulated(reply.chunks))
                        else old(Data())
    {
      request := None;
      ended := false;
      if messages != [] && messages[|messages| - 1].role != AssistantRole {
        var sent := ComposeRequest();
        request := Some(sent);
        ended := TakeReply(reply);
      }
    }

    /** Appends the streamed answer; a failed call appends nothing. */
    method TakeReply(reply: Reply) returns (ended: bool)
      modifies this
      ensures ended <==> !reply.Streamed?
      ensures Data() == if reply.Streamed? then WithReply(old(Data()), Accumulated(reply.chunks)) else old(Data())
    {
      ended := true;
      if reply.Streamed? {
        var full;
        ghost var shown;
        full, shown := WriteStream(reply.chunks);
        messages := messages + [AssistantMessage(full)];
        ended := false;
      }
    }

    /** The shortcut row: the buttons are looked at left to right and the
        first pressed one posts its turns, then the page reruns. */
    method PressShortcuts(pressed: seq<bool>, time: string)
      requires |pressed| == |Shortcuts|
      modifies this
      ensures Data() == old(Data()).(messages := old(messages) + ShortcutAppend(pressed, time))
    {
      var index := 0;
      while index < |Shortcuts|
        invariant 0 <= index <= |Shortcuts|
        invariant forall j :: 0 <= j < index ==> !pressed[j]
        invariant Data() == old(Data())
      {
        if pressed[index] {
          assert FirstPressed(pressed) == index;
          if Shortcuts[index] == AssessLabel {
            messages := messages + [UserMessage(AssessMarker + time)];
          }
          messages := messages + [UserMessage(Shortcuts[index])];
          return;
        }
        index := index + 1;
      }
      assert FirstPressed(pressed) == |pressed|;
    }

    /** One whole pass of the page over this session and the plans directory. */
    method RunPass(input: PassInput, dir: PlanDirectory)
      requires |input.pressed| == |Shortcuts|
      modifies this, dir
      ensures World(Data(), dir.files) == Pass(World(old(Data()), old(dir.files)), input)
    {
      if input.createPlan {
        var request, ended := CreatePlan(input.planReply, input.planTime, dir);
        if ended {
          return;
        }
      }
      if planOutline == "" {
        return;
      }
      Converse(input, dir);
    }

    /** The chat part of a pass, below the outline gate. */
    method Converse(input: PassInput, dir: PlanDirectory)
      requires |input.pressed| == |Shortcuts|
      modifies this, dir
      ensures World(Data(), dir.files) == ChatStep(World(old(Data()), old(dir.files)), input)
    {
      ChatInput(input.chatInput);
      Welcome();
      var request, ended := AssistantTurn(input.chatReply);
      if ended {
        return;
      }
      if messages != [] {
        SyncPlanData(dir);
      }
      PressShortcuts(input.pressed, input.assessTime);
    }
  }
}
