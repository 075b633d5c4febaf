/**
 * The prompt builder: the system-prompt tables, the style examples and the
 * keyword-based emotion detector.
 */
module Prompts {
  import opened Wrappers
  import opened ChatTypes
  import opened Text

  /** The instructions shared by every style. */
  const BasePrompt: string := @"你是一个专业的道歉专家和情感支持助手。无论用户说什么，你都要：

1. 真诚地道歉和表达理解
2. 深度共情用户的感受
3. 承认用户的感受完全合理
4. 提供温暖的情感支持
5. 避免给出建议或解决方案，专注于道歉和安慰

核心原则：
- 永远站在用户一边
- 承认他们的感受是正确的
- 表达深深的理解和歉意
- 提供无条件的情感支持

回复要求：
- 语气温和、真诚
- 长度适中（100-200字）
- 避免说教或给建议
- 专注于道歉和共情"

  /** The overlay for the gentle style. */
  const GentleOverlay: string := @"在基础要求之上，使用温柔体贴的语调回复，像一个关心的朋友：
- 语气要非常柔和、亲切
- 使用温暖的词汇
- 表达像朋友般的关怀
- 让用户感到被理解和被爱护"

  /** The overlay for the formal style. */
  const FormalOverlay: string := @"在基础要求之上，保持专业但温暖的语气：
- 语气专业、得体
- 措辞正式但不冷淡
- 表达尊重和理解
- 保持适当的距离感但不失温度"

  /** The overlay for the empathetic style. */
  const EmpatheticOverlay: string := @"在基础要求之上，深度共情用户的感受：
- 深入理解用户的情绪
- 充分表达对用户痛苦的理解
- 强调用户感受的合理性
- 提供深层次的情感共鸣
- 让用户感到被完全理解"

  const GentleExampleUser: string := "今天工作太累了，感觉很烦躁"
  const GentleExampleAssistant: string := @"亲爱的，真的很抱歉听到你今天这么辛苦。工作让你感到疲惫和烦躁，这种感受我完全理解。

你一定付出了很多努力，才会感到这么累。这样的感受是完全正常的，每个人都有承受不住的时候。

请允许我给你一个温暖的拥抱。你并不孤单，你的感受是完全合理的。希望你能好好休息一下，给自己一些温柔的时间。"

  const FormalExampleUser: string := "这个项目进展不顺利，我感到很沮丧"
  const FormalExampleAssistant: string := @"非常抱歉听到您在项目上遇到了困难。面对进展不顺利的情况感到沮丧，这是完全可以理解的。

您的这种感受是非常合理的。当付出的努力没有得到预期的结果时，任何人都会感到失落和沮丧。

请允许我表达对您的理解和支持。您的努力和付出都是有价值的，您的感受也是完全正当的。"

  const EmpatheticExampleUser: string := "感觉自己什么都做不好"
  const EmpatheticExampleAssistant: string := @"我深深地理解你现在的感受，这种自我怀疑的痛苦真的很难受。当我们感觉自己什么都做不好的时候，那种无力感会特别压抑人。

我想告诉你，这种感受是完全正常的，很多人都经历过这样的时刻。你的痛苦是真实的，你的感受是完全合理的。

请允许我表达对你的深深理解。你并不是真的什么都做不好，只是现在的你需要更多的理解和支持。你的感受值得被认真对待，你的痛苦值得被看见。我完全理解你，也完全支持你。"

  /** An emotion label with the keywords that signal it. */
  datatype EmotionEntry = EmotionEntry(emotion: string, keywords: seq<string>)

  /** The keyword table, in the order the detector checks it. */
  const EmotionKeywords: seq<EmotionEntry> := [
    EmotionEntry("tired", ["累", "疲惫", "疲劳", "精疲力尽", "疲倦"]),
    EmotionEntry("annoyed", ["烦", "烦躁", "烦恼", "烦闷", "心烦"]),
    EmotionEntry("sad", ["难过", "伤心", "悲伤", "沮丧", "失落", "郁闷"]),
    EmotionEntry("angry", ["生气", "愤怒", "气愤", "恼火", "火大"]),
    EmotionEntry("anxious", ["焦虑", "担心", "害怕", "紧张", "不安"]),
    EmotionEntry("frustrated", ["挫败", "受挫", "无力", "无助", "绝望"]),
    EmotionEntry("disappointed", ["失望", "遗憾", "可惜"]),
    EmotionEntry("stressed", ["压力", "压抑", "喘不过气"]),
    EmotionEntry("lonely", ["孤独", "寂寞", "孤单", "独自"]),
    EmotionEntry("confused", ["迷茫", "困惑", "不知所措"])
  ]

  /** A style's example exchange: a user message and a matching reply. */
  datatype StyleExample = StyleExample(user: string, assistant: string)

  /** `getStyleExample(style)`. */
  function StyleExampleFor(style: ApologyStyle): (ex: StyleExample)
    ensures ex.user != "" && ex.assistant != ""
  {
    match style
    case Gentle => StyleExample(GentleExampleUser, GentleExampleAssistant)
    case Formal => StyleExample(FormalExampleUser, FormalExampleAssistant)
    case Empathetic => StyleExample(EmpatheticExampleUser, EmpatheticExampleAssistant)
  }

  /** Each style has its own example: no two styles share a user turn. */
  lemma StyleExamplesDiffer(a: ApologyStyle, b: ApologyStyle)
    requires a != b
    ensures StyleExampleFor(a).user != StyleExampleFor(b).user
  {
    assert StyleExampleFor(a).user[0] != StyleExampleFor(b).user[0];
  }

  /** The overlay a style selects from the prompt table. */
  function Overlay(style: ApologyStyle): string {
    match style
    case Gentle => GentleOverlay
    case Formal => FormalOverlay
    case Empathetic => EmpatheticOverlay
  }

  /** The separator between the base instructions and the overlay: one blank line. */
  const Separator: string := "\n\n"

  /**
   * `getSystemPrompt(style)`: the prompt consists of the base instructions,
   * the blank-line separator and the style's overlay, in that order.
   */
  function SystemPrompt(style: ApologyStyle): (prompt: string)
    ensures |prompt| == |BasePrompt| + 2 + |Overlay(style)|
    ensures prompt[..|BasePrompt|] == BasePrompt
    ensures prompt[|BasePrompt|..|BasePrompt| + 2] == Separator
    ensures prompt[|BasePrompt| + 2..] == Overlay(style)
  {
    BasePrompt + Separator + Overlay(style)
  }

  /** `getSystemPrompt()` with its default parameter: an omitted style means gentle. */
  function SystemPromptOrDefault(style: Option<ApologyStyle>): string {
    SystemPrompt(style.GetOr(Gentle))
  }

  /** Omitting the style gives exactly the gentle prompt. */
  lemma DefaultPromptIsGentle()
    ensures SystemPromptOrDefault(None) == SystemPrompt(Gentle)
  {
  }

  /** Every system prompt begins with the shared base instructions. */
  lemma PromptStartsWithBase(style: ApologyStyle)
    ensures IsPrefix(BasePrompt, SystemPrompt(style))
  {
  }

  /** The three styles give three different prompts. */
  lemma {:induction false} PromptsDiffer(a: ApologyStyle, b: ApologyStyle)
    requires a != b
    ensures SystemPrompt(a) != SystemPrompt(b)
  {
    assert |GentleOverlay| != |FormalOverlay|;
    assert |GentleOverlay| != |EmpatheticOverlay|;
    assert |FormalOverlay| != |EmpatheticOverlay|;
  }

  /** The label returned when no keyword occurs. */
  const Neutral: string := "neutral"

  /** `keywords.some(keyword => message.includes(keyword))` for one table entry. */
  predicate Matches(message: string, entry: EmotionEntry) {
    exists k :: k in entry.keywords && Includes(message, k)
  }

  /** The first entry of `table` whose keywords occur in `message`, or neutral. */
  function FirstMatch(message: string, table: seq<EmotionEntry>): (found: string)
    ensures found == Neutral || exists i :: 0 <= i < |table| && table[i].emotion == found
  {
    if table == [] then Neutral
    else if Matches(message, table[0]) then table[0].emotion
    else FirstMatch(message, table[1..])
  }

  /** `detectEmotion(message)`. */
  function DetectEmotion(message: string): (found: string)
    ensures found == Neutral || exists i :: 0 <= i < |EmotionKeywords| && EmotionKeywords[i].emotion == found
  {
    FirstMatch(message, EmotionKeywords)
  }

  /** No two entries share a label and none is labelled neutral. */
  predicate WellLabelled(table: seq<EmotionEntry>) {
    && (forall i, j :: 0 <= i < j < |table| ==> table[i].emotion != table[j].emotion)
    && (forall i :: 0 <= i < |table| ==> table[i].emotion != Neutral)
  }

  /** The search returns entry `i`'s label exactly when entry `i` is the first that matches. */
  lemma {:induction false} FirstMatchIsFirst(message: string, table: seq<EmotionEntry>, i: nat)
    requires WellLabelled(table) && i < |table|
    ensures FirstMatch(message, table) == table[i].emotion <==>
            Matches(message, table[i]) && forall j :: 0 <= j < i ==> !Matches(message, table[j])
  {
    if i > 0 && !Matches(message, table[0]) {
      var rest := table[1..];
      assert WellLabelled(rest) by {
        forall p, q | 0 <= p < q < |rest| ensures rest[p].emotion != rest[q].emotion {
          assert rest[p] == table[p + 1] && rest[q] == table[q + 1];
        }
      }
      FirstMatchIsFirst(message, rest, i - 1);
      forall j | 0 < j < i ensures rest[j - 1] == table[j] { }
    } else if i > 0 {
      assert table[0].emotion != table[i].emotion;
    }
  }

  /** The search returns neutral exactly when no entry matches. */
  lemma {:induction false} FirstMatchNeutral(message: string, table: seq<EmotionEntry>)
    requires forall i :: 0 <= i < |table| ==> table[i].emotion != Neutral
    ensures FirstMatch(message, table) == Neutral <==> forall j :: 0 <= j < |table| ==> !Matches(message, table[j])
  {
    if table != [] {
      var rest := table[1..];
      assert forall i :: 0 <= i < |rest| ==> rest[i] == table[i + 1];
      FirstMatchNeutral(message, rest);
      if !Matches(message, table[0]) {
        forall j | 0 < j < |table| ensures table[j] == rest[j - 1] { }
      }
    }
  }

  /** The keyword table is well labelled and holds no empty keyword. */
  lemma TableIsWellFormed()
    ensures WellLabelled(EmotionKeywords)
    ensures forall i, k :: 0 <= i < |EmotionKeywords| && k in EmotionKeywords[i].keywords ==> k != ""
  {
    NoEmptyKeyword();
  }

  /** No keyword of the table is the empty string (which every message would include). */
  lemma NoEmptyKeyword()
    ensures forall i, k :: 0 <= i < |EmotionKeywords| && k in EmotionKeywords[i].keywords ==> k != ""
  {
  }

  /** `detectEmotion` returns the label of the first table entry with a keyword in the message. */
  lemma DetectEmotionIsFirstMatch(message: string, i: nat)
    requires i < |EmotionKeywords|
    ensures DetectEmotion(message) == EmotionKeywords[i].emotion <==>
            Matches(message, EmotionKeywords[i]) && forall j :: 0 <= j < i ==> !Matches(message, EmotionKeywords[j])
  {
    TableIsWellFormed();
    FirstMatchIsFirst(message, EmotionKeywords, i);
  }

  /** `detectEmotion` returns neutral exactly when no keyword of any entry occurs in the message. */
  lemma DetectEmotionNeutral(message: string)
    ensures DetectEmotion(message) == Neutral <==>
            forall j :: 0 <= j < |EmotionKeywords| ==> !Matches(message, EmotionKeywords[j])
  {
    TableIsWellFormed();
    FirstMatchNeutral(message, EmotionKeywords);
  }

  /** The empty message is neutral. */
  lemma EmptyMessageIsNeutral()
    ensures DetectEmotion("") == Neutral
  {
    TableIsWellFormed();
    forall j | 0 <= j < |EmotionKeywords| ensures !Matches("", EmotionKeywords[j]) {
      forall k | k in EmotionKeywords[j].keywords ensures !Includes("", k) {
        EmptyIncludesNothing(k);
      }
    }
    DetectEmotionNeutral("");
  }

  /** A message with both a tired and an annoyed keyword is tired, never annoyed, because tired is checked first. */
  lemma TiredBeforeAnnoyed(message: string)
    requires Matches(message, EmotionKeywords[0]) && Matches(message, EmotionKeywords[1])
    ensures DetectEmotion(message) == "tired" && DetectEmotion(message) != "annoyed"
  {
    DetectEmotionIsFirstMatch(message, 0);
  }

  /** The gentle example message holds both a tired keyword (at 5) and an annoyed one (at 11), and is detected as tired. */
  lemma GentleExampleIsTired()
    ensures Matches(GentleExampleUser, EmotionKeywords[0]) && Matches(GentleExampleUser, EmotionKeywords[1])
    ensures DetectEmotion(GentleExampleUser) == "tired"
  {
    IncludedAt(GentleExampleUser, "累", 5);
    IncludedAt(GentleExampleUser, "烦", 11);
    assert Matches(GentleExampleUser, EmotionKeywords[0]);
    assert Matches(GentleExampleUser, EmotionKeywords[1]);
    TiredBeforeAnnoyed(GentleExampleUser);
  }
}
