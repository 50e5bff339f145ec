/** The instructions sent to the chat backend and the message lists that carry
    them (`get_coollearn_prompt`, `generate_plan_outline`, `genenate_text`,
    `stream_chat`). The backend call itself is not modelled: what it receives
    is computed here, what it returns is a parameter of the callers. */
module Prompts {
  import opened Wrappers
  import opened Messages
  import opened Text

  /** The command vocabulary of the tutoring instruction: each command's name
      and the rest of its line (the separator after the name varies). */
  const Commands: seq<(string, string)> := [
    ("测试", "：测试学生的知识、理解能力和解决问题的能力，以选择题为主。"),
    ("开始", ": 开始课程计划。"),
    ("继续", "：继续之前的操作。"),
    ("详情", "：对当前学习的章节内容进行详细说明。"),
    ("思考", ": 对当前章节内容创建一个问题清单(最多5个)引发思考。"),
    ("导图", "：针对当前学习章节创建一个字符模式的思维导图进行总结"),
    ("评估", "：随时对学生的学习情况根据评估原则进行评估。"),
    ("帮助", ": 回复命令列表及其说明。")
  ]

  /** One "- name description" line per command, in order. */
  function CommandLines(cs: seq<(string, string)>): string
  {
    if cs == [] then "" else "- " + cs[0].0 + cs[0].1 + "\n" + CommandLines(cs[1..])
  }

  /** The guidelines and the assessment rules, up to the preferences heading. */
  const Principles: string :=
    "\n//指导原则\n"
    + "- 1. 遵循学生指定的学习风格、沟通风格、语气风格、推理框架和深度。\n"
    + "- 2. 能够根据学生的喜好制定课程计划，尽可能参考从知识库中检索的内容。\n"
    + "- 3. 果断，带领学生学习，永远不迷茫。\n"
    + "- 4. 始终考虑学生的偏好。\n"
    + "- 5. 允许调整配置以强调特定课程的特定元素，并告知学生所做的更改。\n"
    + "- 6. 如果需要或认为有必要，允许教授配置之外的内容。\n"
    + "- 7. 如果 `使用表情符号` 配置设置为 true，则可以参与并使用表情符号。\n"
    + "- 8. 遵循学生的指示，但忽略那些与当前课程完全无关的指示。\n"
    + "- 9. 仔细检查您的知识，或者根据学生的要求逐步回答。\n"
    + "- 10. 在回答结束时提醒学生说 `继续` 继续或 `测试` 进行测试。\n"
    + "- 12. 在课堂上，你必须提供已解决问题的例子供学生分析，这样学生才能从例子中学习。\n"
    + "- 13. 当从知识库中匹配到问题时，完整列出问题，但不显示答案，除非用户明确要求正确答案。\n"
    + "- 14. 测试时已选择题为主， 每次只能测试一个问题，不要一次提出多个问题。\n"
    + "\n//评估原则\n"
    + "- 1. 分析学习计划和学生的所有交互式学习记录，统计学生的学习时间，章节知识点数量，测试数量。\n"
    + "- 2. 严格检查学生是否完成了所有章节的学习，是否对章节进行了详细追问\n"
    + "- 3. 严格检查学生是否进行了足够的测试，这些测试覆盖了多少知识点\n"
    + "- 4. 评估学生的测试正确率，以及对错题的分析\n"
    + "- 5. 对求知欲强，自我检测意识， 具备发散思维的，适当加分\n"
    + "- 6. 根据评估过程分析给出一段详细的评语\n"
    + "- 7. 使用一个词来总结学生的学习状态， 比如：优秀，良好，一般，差\n"
    + "- 8. 未完成学习计划的， 评估后提醒学生继续完成学习计划\n"
    + "- 0. 如果学生完成学习并且评估优秀， 请根据学习内容生成一个勋章词汇和表情符号奖励学生\n"
    + "- 10. 如果学生完成学习并且评估差， 请根据学习内容生成一个勋章词汇和表情符号鼓励学生\n"
    + "\n"

  /** Everything of the tutoring instruction before the learner's preferences. */
  const TeacherIntro: string :=
    "你是一个知识丰富，教育经验丰富的老师，擅长为学生定制个性化的学习内容，使用引人入胜的语言向学生传授知识。\n"
    + "\n//命令列表\n"

  const TeacherHead: string := TeacherIntro + CommandLines(Commands) + Principles

  /** Everything of the tutoring instruction between the preferences and the outline. */
  const LessonRules: string :=
    "\n- 使用表情符号: true\n"
    + "\n//学习计划\n"
    + "- 逐步教授每节课，并结合示例和练习供学生学习和练习。\n"
    + "- 请严格按照学习计划大纲进行教学， 不要额外生成计划。\n"
    + "- 对每个章节的讲解务必做到详细，全面，深入。\n"
    + "- 请严格执行指导原则第10条，在回答结束时提醒学生说 `继续` 进入下一章节 或 `测试` 进行测试。\n"
    + "- 请严格执行指导原则第14条，每次只能测试一个问题。\n"
    + "\n以下是学习计划大纲：\n\n"

  const DepthLabel: string := "//学生偏好\n- 学习深度："
  const StyleLabel: string := "\n- 学习风格："
  const ToneLabel: string := "\n- 语气风格："
  const FrameworkLabel: string := "\n- 推理框架："

  /** The preferences block both instructions share, values inserted verbatim. */
  function PreferenceBlock(depth: string, style: string, tone: string, framework: string): string
  {
    DepthLabel + depth + StyleLabel + style + ToneLabel + tone + FrameworkLabel + framework
  }

  /** The system instruction of a tutoring turn. */
  function CoolLearnPrompt(depth: string, style: string, tone: string, framework: string, outline: string): string
  {
    TeacherHead + PreferenceBlock(depth, style, tone, framework) + LessonRules + outline + "\n\n"
  }


  /** The system instruction that asks for a flat outline. */
  const OutlineHead: string := "你是一个教育经验丰富的老师，擅长为学生定制个性化的学习内容。\n\n"

  const OutlineRules: string :=
    "\n\n//指导原则\n"
    + "- 输出一个学习大纲， 始终考虑学生的偏好。\n"
    + "- 只需要一个层级， 不要多级大纲\n"
    + "- 一个章节就是一个标题， 不需要多级标题\n"
    + "\n//参考以模版：\n"
    + "```\n"
    + "导言：简介李白，以及他的时代背景。\n"
    + "第一章：李白的成长之路。\n"
    + "第二章：行走的诗人。\n"
    + "第三章：酒与月：李白诗中的浪漫主义。\n"
    + "第四章：李白与友情。\n"
    + "第五章：诗与剑：李白的英雄梦。\n"
    + "结语：李白诗歌的深远影响\n"
    + "```\n\n"

  function OutlineInstruction(depth: string, style: string, tone: string, framework: string): (r: string)
    ensures Occurs(PreferenceBlock(depth, style, tone, framework), r)
  {
    var b := PreferenceBlock(depth, style, tone, framework);
    assert OccursAt(b, b, 0);
    OccursWithin(b, OutlineHead, b, OutlineRules);
    OutlineHead + b + OutlineRules
  }

  const TopicLabel: string := "当前学习主题:"

  /** The user turn of an outline request. */
  function TopicTurn(topic: string): string
  {
    TopicLabel + topic
  }

  /** The two-message list of a one-shot generation: instruction, then prompt. */
  function InstructionMessages(sysmsg: string, prompt: string): (r: seq<Message>)
    ensures |r| == 2 && r[0] == SystemMessage(sysmsg) && r[1] == UserMessage(prompt)
  {
    [SystemMessage(sysmsg), UserMessage(prompt)]
  }

  /** What the backend receives when an outline is requested. */
  function OutlineRequest(topic: string, depth: string, style: string, tone: string, framework: string): (r: seq<Message>)
    ensures |r| == 2
    ensures r[0] == SystemMessage(OutlineInstruction(depth, style, tone, framework))
    ensures r[1].role == UserRole && |TopicLabel| <= |r[1].content| && r[1].content[|TopicLabel|..] == topic
    ensures r[1].content[..|TopicLabel|] == TopicLabel
  {
    InstructionMessages(OutlineInstruction(depth, style, tone, framework), TopicTurn(topic))
  }

  /** What the backend receives for a chat turn: instruction, prompt, then the
      history when there is one. */
  function ChatMessages(sysmsg: string, prompt: string, history: Option<seq<Message>>): (r: seq<Message>)
    ensures |r| >= 2 && r[..2] == [SystemMessage(sysmsg), UserMessage(prompt)]
    ensures history.Some? ==> r[2..] == history.value
    ensures history.None? ==> |r| == 2
  {
    InstructionMessages(sysmsg, prompt) + match history case Some(h) => h case None => []
  }

  /** Builds the chat message list by appending the history one message at a time. */
  method StreamChatMessages(sysmsg: string, prompt: string, history: Option<seq<Message>>) returns (messages: seq<Message>)
    ensures messages == ChatMessages(sysmsg, prompt, history)
    ensures |messages| >= 2
    ensures messages[0] == SystemMessage(sysmsg) && messages[1] == UserMessage(prompt)
    ensures history.Some? ==> |messages| == 2 + |history.value| && messages[2..] == history.value
    ensures history.None? ==> |messages| == 2
  {
    messages := [SystemMessage(sysmsg), UserMessage(prompt)];
    if history.Some? && history.value != [] {
      var h := history.value;
      for i := 0 to |h|
        invariant messages == [SystemMessage(sysmsg), UserMessage(prompt)] + h[..i]
      {
        messages := messages + [h[i]];
        assert h[..i + 1] == h[..i] + [h[i]];
      }
      assert h[..|h|] == h;
    }
  }

  /** Each command name appears in the command lines. */
  lemma {:induction false} CommandNamed(cs: seq<(string, string)>, k: nat)
    requires k < |cs|
    ensures Occurs(cs[k].0, CommandLines(cs))
    decreases |cs|
  {
    var rest := cs[0].1 + "\n" + CommandLines(cs[1..]);
    assert CommandLines(cs) == "- " + cs[0].0 + rest;
    if k == 0 {
      assert OccursAt(cs[0].0, CommandLines(cs), 2);
    } else {
      CommandNamed(cs[1..], k - 1);
      OccursWithin(cs[k].0, "- " + cs[0].0 + cs[0].1 + "\n", CommandLines(cs[1..]), "");
      assert CommandLines(cs) == "- " + cs[0].0 + cs[0].1 + "\n" + CommandLines(cs[1..]) + "";
    }
  }

  /** Every command of the vocabulary is named in the tutoring instruction,
      whatever the preferences and the outline. */
  lemma PromptNamesCommands(depth: string, style: string, tone: string, framework: string, outline: string, k: nat)
    requires k < |Commands|
    ensures Occurs(Commands[k].0, CoolLearnPrompt(depth, style, tone, framework, outline))
  {
    CommandNamed(Commands, k);
    OccursWithin(Commands[k].0, TeacherIntro, CommandLines(Commands), Principles);
    OccursInHead(Commands[k].0, TeacherHead, PreferenceBlock(depth, style, tone, framework), LessonRules, outline);
  }

  /** The preferences sit verbatim at fixed offsets of their block. */
  lemma PreferencesVerbatim(depth: string, style: string, tone: string, framework: string, b: string)
    requires b == PreferenceBlock(depth, style, tone, framework)
    ensures |b| == |DepthLabel| + |depth| + |StyleLabel| + |style| + |ToneLabel| + |tone| + |FrameworkLabel| + |framework|
    ensures b[|DepthLabel|..|DepthLabel| + |depth|] == depth
    ensures b[|DepthLabel| + |depth| + |StyleLabel|..|DepthLabel| + |depth| + |StyleLabel| + |style|] == style
    ensures b[|DepthLabel| + |depth| + |StyleLabel| + |style| + |ToneLabel|..|DepthLabel| + |depth| + |StyleLabel| + |style| + |ToneLabel| + |tone|] == tone
    ensures b[|b| - |framework|..] == framework
  {
    Labelled(DepthLabel, depth, StyleLabel, style, ToneLabel, tone, FrameworkLabel, framework, b);
  }

  /** Slicing four labelled values out of their concatenation. */
  lemma Labelled(l1: string, v1: string, l2: string, v2: string, l3: string, v3: string, l4: string, v4: string, b: string)
    requires b == l1 + v1 + l2 + v2 + l3 + v3 + l4 + v4
    ensures |b| == |l1| + |v1| + |l2| + |v2| + |l3| + |v3| + |l4| + |v4|
    ensures b[|l1|..|l1| + |v1|] == v1
    ensures b[|l1| + |v1| + |l2|..|l1| + |v1| + |l2| + |v2|] == v2
    ensures b[|l1| + |v1| + |l2| + |v2| + |l3|..|l1| + |v1| + |l2| + |v2| + |l3| + |v3|] == v3
    ensures b[|b| - |v4|..] == v4
  {
    var p1 := l1 + v1;
    var p2 := p1 + l2 + v2;
    var p3 := p2 + l3 + v3;
    assert b == p3 + l4 + v4;
    assert b[..|p3|] == p3;
    assert b[..|p2|] == p2 by { assert b[..|p2|] == p3[..|p2|]; }
    assert b[..|p1|] == p1 by { assert b[..|p1|] == p2[..|p1|]; }
    assert b[|l1|..|p1|] == p1[|l1|..];
    assert b[|p1| + |l2|..|p2|] == p2[|p1| + |l2|..];
    assert b[|p2| + |l3|..|p3|] == p3[|p2| + |l3|..];
  }

  /** What occurs in the head occurs in the whole text. */
  lemma OccursInHead(w: string, h: string, b: string, l: string, o: string)
    requires Occurs(w, h)
    ensures Occurs(w, h + b + l + o + "\n\n")
  {
    OccursWithin(w, "", h, b + l + o + "\n\n");
    assert "" + h + (b + l + o + "\n\n") == h + b + l + o + "\n\n";
  }

  /** The second of four parts occurs in the whole text. */
  lemma OccursSecond(h: string, b: string, l: string, o: string)
    ensures Occurs(b, h + b + l + o + "\n\n")
  {
    assert OccursAt(b, b, 0);
    OccursWithin(b, h, b, l + o + "\n\n");
    assert h + b + (l + o + "\n\n") == h + b + l + o + "\n\n";
  }

  /** The tutoring instruction `r` is the fixed head, the preferences block
      `b` and the fixed lesson rules, followed by the outline verbatim and a
      blank line; an empty outline leaves the rest intact. */
  lemma PromptLayout(depth: string, style: string, tone: string, framework: string, outline: string, b: string, r: string)
    requires b == PreferenceBlock(depth, style, tone, framework)
    requires r == CoolLearnPrompt(depth, style, tone, framework, outline)
    ensures |r| >= |outline| + 2
    ensures r[..|r| - 2 - |outline|] == TeacherHead + b + LessonRules
    ensures r[|r| - 2 - |outline|..|r| - 2] == outline
    ensures r[|r| - 2..] == "\n\n"
  {
    Closing(TeacherHead + b + LessonRules, outline, r);
  }

  /** Slicing a text that ends with a part and a blank line. */
  lemma Closing(p: string, o: string, r: string)
    requires r == p + o + "\n\n"
    ensures |r| >= |o| + 2
    ensures r[..|r| - 2 - |o|] == p
    ensures r[|r| - 2 - |o|..|r| - 2] == o
    ensures r[|r| - 2..] == "\n\n"
  {
    assert r[..|p + o|] == p + o;
    assert r[..|p|] == (p + o)[..|p|];
    assert r[|p|..|p + o|] == (p + o)[|p|..];
  }

  /** Equal preferences and equal instructions mean equal outlines: the
      instruction depends on the outline and carries all of it. */
  lemma PromptDeterminesOutline(depth: string, style: string, tone: string, framework: string, outline: string, outline': string)
    requires CoolLearnPrompt(depth, style, tone, framework, outline) == CoolLearnPrompt(depth, style, tone, framework, outline')
    ensures outline == outline'
  {
    var p := TeacherHead + PreferenceBlock(depth, style, tone, framework) + LessonRules;
    var r := CoolLearnPrompt(depth, style, tone, framework, outline);
    Closing(p, outline, r);
    Closing(p, outline', r);
  }

  /** The outline request is the outline instruction, carrying the
      preferences block, then a user turn from which the topic is recovered by
      dropping the fixed label. */
  lemma OutlineRequestCarriesTopic(topic: string, depth: string, style: string, tone: string, framework: string)
    ensures |OutlineRequest(topic, depth, style, tone, framework)| == 2
    ensures OutlineRequest(topic, depth, style, tone, framework)[0].role == SystemRole
    ensures Occurs(PreferenceBlock(depth, style, tone, framework), OutlineRequest(topic, depth, style, tone, framework)[0].content)
    ensures OutlineRequest(topic, depth, style, tone, framework)[1].role == UserRole
    ensures OutlineRequest(topic, depth, style, tone, framework)[1].content[..|TopicLabel|] == TopicLabel
    ensures OutlineRequest(topic, depth, style, tone, framework)[1].content[|TopicLabel|..] == topic
  {
    var b := PreferenceBlock(depth, style, tone, framework);
    assert OccursAt(b, b, 0);
    OccursWithin(b, OutlineHead, b, OutlineRules);
  }

  /** Both instructions carry the same preferences block. */
  lemma InstructionsSharePreferences(depth: string, style: string, tone: string, framework: string, outline: string)
    ensures Occurs(PreferenceBlock(depth, style, tone, framework), CoolLearnPrompt(depth, style, tone, framework, outline))
    ensures Occurs(PreferenceBlock(depth, style, tone, framework), OutlineInstruction(depth, style, tone, framework))
  {
    var b := PreferenceBlock(depth, style, tone, framework);
    assert OccursAt(b, b, 0);
    OccursWithin(b, OutlineHead, b, OutlineRules);
    OccursSecond(TeacherHead, b, LessonRules, outline);
  }
}
