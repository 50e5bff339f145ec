# CoolLearn tutoring core, modelled in Dafny

CoolLearn (酷学) is a Streamlit page that tutors a student on a topic. The
student picks a topic and four preferences (depth, style, tone, reasoning
framework). The page asks a GLM chat backend for a lesson-plan outline, then
runs a guided conversation. Every assistant reply is streamed, accumulated and
appended to the history. Seven shortcut buttons post the tutoring commands.
The session is saved as one JSON record per topic, and a saved plan can be
loaded back.

This project models that core:

- `streaming.dfy` (`Streaming`): `write_stream`. It folds the chunks of a
  streamed reply into one text and records what the placeholder is shown.
- `options.dfy` (`Options`): the preference lists, the session's default
  preferences and `get_option_index`.
- `prompts.dfy` (`Prompts`): the instruction templates of
  `get_coollearn_prompt` and `generate_plan_outline`, character for character.
  Also the message lists that `genenate_text` and `stream_chat` send to the
  backend.
- `transcript.dfy` (`Transcript`): `message_to_markdown`.
- `persistence.dfy` (`Persistence`): the saved record (`sync_plan_data`),
  loading it (`load_plan_data`, `load_plan_data_by_topic`), and listing the
  saved topics (`get_plan_list`) from a directory of files (`PlanDirectory`).
- `tutoring.dfy` (`Tutoring`): one run ("pass") of the page script `main`,
  from plan creation down to the shortcut row, plus `reset_plan` and the
  session's defaults.
  - The class `Session` holds the Streamlit session state and updates it in
    place, step by step as the script does.
  - `Pass` is the same run as a function of the state and the run's inputs.
    `Session.RunPass` is proved equal to it.
  - The lemmas relate several passes: the outline gate, the reply once per
    turn, repeated student turns, shortcuts, failed calls, and save/load.
- `messages.dfy`, `text.dfy` and `wrappers.dfy` hold the chat message record,
  substring occurrence, and `Option`/`Result`.

Things the model takes as inputs of a pass: the backend's reply (a stream of
chunks, a JSON decoding error, or any other error), the clock (as the
formatted time text), the chat entry, and the buttons pressed. The topic and
the four preferences are session fields that the sidebar sets between passes.

Behaviour of the page worth noting, as the model states it:

- The transcript labels the student's turns `**学生**: ` and every other turn
  `**酷学助手**: `.
- The chat request is the instruction, then the last turn as the prompt, then
  the whole history, so the last turn is sent twice.
- The assistant answers whenever the last message's role is not "assistant".
- A new session starts with the topic 李白的浪漫主义诗歌与其生平.

## Model

| member | source | states |
|---|---|---|
| Streaming.WriteStream | coollearn/common.py:80-90 | The returned text is the chunks' texts joined in order; chunks without text add nothing. The placeholder is shown the running text twice per chunk with text and once per chunk without; the last value shown is the returned text. |
| Streaming.AccumulatedAppend | coollearn/common.py:82-87 | Accumulating two streams one after the other yields the two texts joined, so no text is lost, repeated or reordered. |
| Streaming.AccumulatedCons | coollearn/common.py:82-87 | The first chunk's text comes first in the reply. |
| Streaming.EmptyChunkAddsNothing | coollearn/common.py:85-87 | A chunk whose delta has no text, or empty text, changes the reply nowhere in the stream. |
| Streaming.RendersCount | coollearn/common.py:86-89 | One placeholder update per chunk, plus one more per chunk that carries text. |
| Streaming.RendersGrow | coollearn/common.py:86-89 | Each value shown is a prefix of every later one and of the final reply. |
| Streaming.WelcomeStream | coollearn/common.py:80-90 | The stream "Wel", "come", "" accumulates to "Welcome". |
| Options.FirstIndex | coollearn/common.py:75-76 | Python's `list.index`: the position of the first occurrence of a value that is in the list. |
| Options.GetOptionIndex | coollearn/common.py:64-77 | The first position of the value when it is offered, otherwise 0; always a valid index of a non-empty option list. |
| Options.DefaultsAreOffered | coollearn/coollearn.py:25-28 | The default preferences (coollearn.py lines 56-66) are offered: depth at index 1, style at 0, tone at 3, framework at 0. |
| Prompts.StreamChatMessages | coollearn/common.py:271-277 | The chat request is the system instruction, the user prompt, then the history in its stored order, with nothing else. |
| Prompts.InstructionMessages | coollearn/common.py:188-191 | A request of exactly two turns: a system turn carrying the instruction, then a user turn carrying the prompt. |
| Prompts.ChatMessages | coollearn/common.py:271-277 | The chat request opens with the system and user turns, followed by the history unchanged; without a history it is those two turns alone. |
| Prompts.CommandNamed | coollearn/common.py:115-123 | Each command of the list appears in the command lines. |
| Prompts.PromptNamesCommands | coollearn/common.py:113-170 | Every command name (测试, 开始, 继续, 详情, 思考, 导图, 评估, 帮助) appears in the tutoring instruction for any preferences and outline. |
| Prompts.PreferencesVerbatim | coollearn/common.py:152-156 | Each of the four preferences sits verbatim at a fixed offset of the preferences block. |
| Prompts.PromptLayout | coollearn/common.py:113-170 | The tutoring instruction is the fixed head, the preferences block and the fixed lesson rules, then the outline verbatim, then a blank line. |
| Prompts.PromptDeterminesOutline | coollearn/common.py:167-170 | Two instructions built from the same preferences are equal only if their outlines are equal. |
| Prompts.OutlineInstruction | coollearn/common.py:220-244 | The outline instruction carries the preferences block. |
| Prompts.OutlineRequest | coollearn/common.py:200-245 | The outline request is two turns: the outline instruction as the system turn, then a user turn that is the label `当前学习主题:` followed by the topic. |
| Prompts.OutlineRequestCarriesTopic | coollearn/common.py:220-245 | The outline request is two messages: a system message carrying the preferences block, then a user message that opens with the topic label `当前学习主题:` and continues with the topic. |
| Prompts.InstructionsSharePreferences | coollearn/common.py:152-156 | The tutoring instruction and the outline instruction carry the same preferences block. |
| Transcript.MessageToMarkdown | coollearn/common.py:371-388 | The transcript is the title heading followed by one paragraph per message, in order. |
| Transcript.BlocksAppend | coollearn/common.py:383-387 | The paragraphs of two runs of messages are the two runs' paragraphs joined. |
| Transcript.BlockAt | coollearn/common.py:383-387 | Message i's paragraph sits right after the heading and the paragraphs of the messages before it. |
| Transcript.BlockLabel | coollearn/common.py:384-387 | A paragraph opens with the student label exactly when the role is "user", and with the assistant label otherwise. |
| Persistence.Encode | coollearn/common.py:297-305 | The saved record holds exactly the seven keys, none of them null. |
| Persistence.FileName | coollearn/common.py:308 | The file name is the topic followed by `_plan_data.json`: the topic is its prefix and the suffix occurs right after it. |
| Persistence.Sync | coollearn/common.py:294-311 | Without an outline nothing is written. With one, the topic's file holds the encoded session, and every other file is unchanged. |
| Persistence.LoadByTopic | coollearn/common.py:314-327 | An empty topic changes nothing. A topic without a file is a file-not-found error that leaves the session unchanged. Otherwise the topic's record is loaded. |
| Persistence.Load | coollearn/common.py:330-345 | An empty record changes nothing; a load that raises no error has found all seven keys. |
| Persistence.BeforeFirst | coollearn/common.py:357 | `split(sep)[0]`: a prefix of the name that contains no occurrence of the separator, and is followed by one when shorter than the name. |
| Persistence.PlanList | coollearn/common.py:357 | One entry per name, in order: the text before the first suffix, a prefix of the name that never contains the suffix. |
| Persistence.ListingRecoversTopic | coollearn/common.py:357 | A topic that does not contain `_plan_data.json` is listed under its own name. |
| Persistence.ListingTruncatesSuffixTopic | coollearn/common.py:307-308 | Any topic that contains the suffix is listed under a strictly shorter name, whose own file name is not the topic's. |
| Persistence.LoadEncodeRoundTrip | coollearn/common.py:286-345 | Loading a saved record restores the session field for field, whatever it is loaded over. |
| Persistence.LoadNullMessages | coollearn/common.py:345 | A stored null conversation loads as the empty one. |
| Persistence.LoadMissingKeyRaises | coollearn/common.py:339-345 | A non-empty record that lacks any of the seven keys raises. |
| Persistence.LoadStopsMidway | coollearn/common.py:339-340 | A record with a topic and no depth has already replaced the topic when it raises. |
| Persistence.SyncLastWriteWins | coollearn/common.py:306-311 | Saving twice under one topic keeps only the last save. |
| Persistence.SyncTouchesOneRecord | coollearn/common.py:306-311 | Saving leaves every other topic's record unchanged. |
| Persistence.SaveLoadRoundTrip | coollearn/common.py:286-327 | A session saved with an outline and a topic is restored exactly by loading that topic. |
| Persistence.SavedTopicIsListed | coollearn/common.py:348-357 | After a save, the topic is among the listed topics, unless it contains the suffix. |
| Persistence.ListedTopics | coollearn/common.py:348-357 | Every file's name before the suffix is listed, so every saved topic without the suffix is listed; every listed name comes from a file in the directory. |
| Persistence.PlanDirectory.constructor | coollearn/common.py:354-355 | The directory holds the given files. |
| Persistence.PlanDirectory.ListDir | coollearn/common.py:356 | Every file name, each exactly once. |
| Persistence.GetPlanList | coollearn/common.py:348-357 | The list is the text before the suffix of each file name, one entry per file, over an enumeration `names` that holds every file exactly once (its order left open). So every file's name is listed, every entry comes from a file, every saved topic without the suffix is listed under itself, and an empty directory lists nothing. |
| Tutoring.Reset | coollearn/common.py:360-368 | Reset clears the topic, the outline and the conversation, and keeps the preferences. |
| Tutoring.FirstPressed | coollearn/coollearn.py:237-250 | The first pressed button: none of the earlier buttons is pressed. |
| Tutoring.ShortcutsAreCommands | coollearn/coollearn.py:235 | Each of the seven shortcut labels is a command named in the tutoring instruction. |
| Tutoring.FirstShortcutPosts | coollearn/coollearn.py:237-250 | The first pressed shortcut posts its label as a user turn. 评估, the last button, first posts "本次评估截止时间: " and the time. |
| Tutoring.NoShortcutPostsNothing | coollearn/coollearn.py:237-250 | The shortcut row posts nothing exactly when no button is pressed. |
| Tutoring.ReplyRequestRepeatsLastTurn | coollearn/coollearn.py:200-222 | The reply request has two more messages than the history: the tutoring instruction, a user turn with the last message's text, then the history. So the last turn is sent twice. |
| Tutoring.GateHoldsWithoutPlan | coollearn/coollearn.py:181-183 | With no outline, a pass that does not create a plan changes neither the session nor the saved records, whatever is typed or pressed. |
| Tutoring.ResetBlocksChat | coollearn/common.py:360-368 | After `reset_plan`, a pass that does not create a plan leaves the reset session and the saved records unchanged. |
| Tutoring.CreatePlanStep | coollearn/coollearn.py:149-171 | Plan creation drops the conversation and keeps the topic and preferences. It ends the pass exactly on a call error. The outline either stays as it was or is saved with the session. |
| Tutoring.ChatStep | coollearn/coollearn.py:185-250 | The chat part of a pass keeps the topic, preferences and outline, and only appends to the conversation. |
| Tutoring.Pass | coollearn/coollearn.py:149-250 | A pass never changes the topic or the preferences. A pass that does not create a plan keeps the outline and only appends to the conversation. |
| Tutoring.PlanCreationOutcome | coollearn/coollearn.py:149-171 | Plan creation always drops the conversation. Only a call error ends the pass. A non-empty outline is stored with a blank line and the time and saved; for a non-empty topic, loading that topic restores the session. Otherwise the old outline and the saved records stay. |
| Tutoring.PlannedPassChats | coollearn/coollearn.py:181-186 | Over a session with an outline, a pass that does not create a plan reaches the chat. |
| Tutoring.QuietChat | coollearn/coollearn.py:185-228 | With no shortcut pressed and no failing call, the chat part leaves the last turn answered and saves the conversation as it ends. |
| Tutoring.FreshPlanWelcomes | coollearn/coollearn.py:149-194 | For a non-empty topic, a newly created plan's conversation is exactly the welcome message. The outline is the stamped text, and loading the topic restores the session. |
| Tutoring.FailedPlanDropsConversation | coollearn/coollearn.py:153-194 | A plan creation whose reply cannot be decoded keeps the old outline but drops the conversation. The same pass then saves a welcome-only conversation over the stored one. |
| Tutoring.NoSecondReply | coollearn/coollearn.py:199-228 | After a pass that answered, the last turn is answered. A following pass in which the user does nothing changes neither the session nor the files, so each turn is answered once. |
| Tutoring.PassSavesSession | coollearn/coollearn.py:227-228 | For a non-empty topic, a pass that reaches the chat, gets a streamed reply and has no shortcut pressed saves the session; loading its topic restores the session as the pass ends. (A pressed shortcut appends its turns after the save, at coollearn.py lines 237-248.) |
| Tutoring.UserTurnsMayRepeat | coollearn/coollearn.py:185-225 | A failed chat call leaves the student's turn unanswered and unsaved. The next entry follows it, and the next reply answers both in one assistant message. |
| Tutoring.ShortcutThenReply | coollearn/coollearn.py:200-250 | A shortcut posts its turns, and the next idle pass appends exactly one assistant reply after them. |
| Tutoring.StartScenario | coollearn/coollearn.py:185-228 | With a plan and no conversation, sending 开始 and receiving "Wel", "come", "" gives and saves the conversation [student 开始, assistant "Welcome"]. |
| Tutoring.Session.constructor | coollearn/coollearn.py:53-72 | A new session has the default topic and preferences, no outline and no conversation. |
| Tutoring.Session.ResetPlan | coollearn/common.py:360-368 | The session after `reset_plan` is `Reset` of the one before. |
| Tutoring.Session.SyncPlanData | coollearn/common.py:286-311 | The directory after `sync_plan_data` is `Sync` of the one before: unchanged without an outline, otherwise the topic's record overwritten. |
| Tutoring.Session.LoadPlanData | coollearn/common.py:330-345 | The session and error after the in-place, field-by-field assignment are those of `Load`. |
| Tutoring.Session.LoadPlanDataByTopic | coollearn/common.py:314-327 | Nothing happens for an empty topic; a missing file is an error; otherwise the stored record is loaded. |
| Tutoring.Session.CreatePlan | coollearn/coollearn.py:149-171 | Sends the outline request built from the session, then leaves the state that `CreatePlanStep` describes. |
| Tutoring.Session.ChatInput | coollearn/coollearn.py:185-186 | A submitted non-empty entry is appended as a user turn. |
| Tutoring.Session.Welcome | coollearn/coollearn.py:188-194 | An empty conversation gets the welcome message. |
| Tutoring.Session.ComposeRequest | coollearn/coollearn.py:205-222 | The request has two more messages than the history: the history follows, and the user turn repeats the last message's text. |
| Tutoring.Session.AssistantTurn | coollearn/coollearn.py:200-225 | Only an unanswered last turn asks the backend, with `ReplyRequest`. A streamed reply is appended, and a failed call ends the pass with nothing appended. |
| Tutoring.Session.TakeReply | coollearn/coollearn.py:222-225 | The accumulated reply is appended as an assistant message. |
| Tutoring.Session.PressShortcuts | coollearn/coollearn.py:237-250 | Only the first pressed button's turns are appended. |
| Tutoring.Session.Converse | coollearn/coollearn.py:185-250 | The chat part of a pass, in place, is `ChatStep`. |
| Tutoring.Session.RunPass | coollearn/coollearn.py:149-250 | A whole pass over the session and the plans directory is `Pass`. |

## Left out

- The Streamlit page layout is not modelled. That covers the CSS, the tabs, the image and caption, the placeholder rendering, the download buttons and the error/warning banners. `st.stop()` and `st.rerun()` are modelled only as the end of a pass.
- The sidebar (coollearn.py lines 74-147) is not part of a pass. It covers the topic box, the preference selectors, the history list with its load button, and the reset button. Its assignments are the topic and preference fields a pass starts with. The operations its buttons call are modelled on their own: `Session.LoadPlanDataByTopic` and `Session.ResetPlan`.
- The defaults are set once, by `Session`'s constructor. The source tests each key for absence on every pass; a session that already exists keeps its values.
- The ZhipuAI client is an input: the API key, the model choice, the temperature and the network call. A reply is a finished stream of chunks, a JSON decoding error, or any other error. An error raised part-way through a stream is modelled as an error of the whole call.
- `genenate_text` with `stream=False` is not modelled: the page only calls it with `stream=True`.
- `get_data_dir` and `init_streamlit_config` are not modelled: environment variables, directory creation and path joining. The plans directory is a map from file name to record, and file names are not checked for path characters.
- JSON encoding and decoding are not modelled: a record is the decoded object itself. The file's text form (`ensure_ascii=False`, `indent=4`) is not modelled.
- `datetime.now().strftime(...)` is an input of the pass: the formatted time text.
- The guard that reports an empty topic when the topic key is missing from the session state (coollearn.py lines 150-152) cannot trigger after the defaults are set, and is not modelled.
- The model and API-key session entries and the model selector are left out, because they only feed the backend call.
- Persistence.StringField, Persistence.OutlineField, Persistence.MessagesField: a stored value of an unexpected JSON type is a `WrongType` load error. The source stores whatever the record holds into the session instead. Records written by the page always hold the expected types.
- Prompts.CoolLearnPrompt: carries no contract of its own. Any contract on it makes every caller's proof expand the full instruction text beyond the verifier's budget. Its layout, the commands it names and the outline it carries are stated by `Prompts.PromptLayout`, `Prompts.PromptNamesCommands`, `Prompts.PromptDeterminesOutline` and `Prompts.InstructionsSharePreferences`.
- A `plan_outline` of `None` is modelled as the empty outline. The source only ever tests its truth value.
- `os.listdir`'s order is left open: `PlanDirectory.ListDir` promises only that every file is listed once.
