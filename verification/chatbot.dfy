/** The process-analysis chat assistant: it routes a free-text question to one of five
    answers by keyword tests on the lower-cased question, builds that answer from the
    latest system data, and appends the question and the answer to the conversation. */
module Chatbot {
  import opened Text
  import opened Processes
  import TopProcesses

  /** Memory figures in bytes. */
  datatype Memory = Memory(total: real, used: real, free: real)

  /** The data the assistant answers from. */
  datatype SystemData = SystemData(processes: seq<Process>, cpu: real, memory: Memory)

  /** The five kinds of answer, in the order the router tries them. */
  datatype Topic = CpuTopic | MemoryTopic | TopProcessesTopic | HelpTopic | UnknownTopic

  /** The lower-cased query contains `keyword` (all keywords are lower case). */
  predicate Mentions(query: string, keyword: string) {
    Includes(ToLower(query), keyword)
  }

  /** Keyword routing. The tests are tried in a fixed order and the first that holds
      decides: "cpu"; then "memory" or "ram"; then "process" together with "most"; then
      "help" or "what"; otherwise the fallback. So each topic is chosen exactly when its
      own test holds and no earlier test does. Keywords match anywhere, also inside words. */
  function Route(query: string): (t: Topic)
    ensures t == CpuTopic <==> Mentions(query, "cpu")
    ensures t == MemoryTopic <==>
      !Mentions(query, "cpu") && (Mentions(query, "memory") || Mentions(query, "ram"))
    ensures t == TopProcessesTopic <==>
      && !Mentions(query, "cpu") && !Mentions(query, "memory") && !Mentions(query, "ram")
      && Mentions(query, "process") && Mentions(query, "most")
    ensures t == HelpTopic <==>
      && !Mentions(query, "cpu") && !Mentions(query, "memory") && !Mentions(query, "ram")
      && !(Mentions(query, "process") && Mentions(query, "most"))
      && (Mentions(query, "help") || Mentions(query, "what"))
    ensures t == UnknownTopic <==>
      && !Mentions(query, "cpu") && !Mentions(query, "memory") && !Mentions(query, "ram")
      && !(Mentions(query, "process") && Mentions(query, "most"))
      && !Mentions(query, "help") && !Mentions(query, "what")
  {
    var q := ToLower(query);
    if Includes(q, "cpu") then CpuTopic
    else if Includes(q, "memory") || Includes(q, "ram") then MemoryTopic
    else if Includes(q, "process") && Includes(q, "most") then TopProcessesTopic
    else if Includes(q, "help") || Includes(q, "what") then HelpTopic
    else UnknownTopic
  }

  /** Routing sees only the lower-cased query: a query and its lower-cased form,
      and any two queries with the same lower-cased form, get the same topic. */
  lemma RouteSeesOnlyLowerCase(q1: string, q2: string)
    requires ToLower(q1) == ToLower(q2)
    ensures Route(q1) == Route(q2)
    ensures Route(q1) == Route(ToLower(q1))
  {
    ToLowerIdempotent(q1);
  }

  /** "program" contains "ram", so a question about a program that names none of the
      earlier keywords is routed to the memory answer. */
  lemma ProgramMeansMemory()
    ensures Route("Program") == MemoryTopic
  {
    var q := ToLower("Program");
    assert q == "program" by {
      assert forall i :: 0 <= i < |q| ==> q[i] == "program"[i];
    }
    IncludesAt(q, "ram", 4);
    NotIncludedWithoutFirstChar(q, "cpu");
  }

  /** "cpu" wins over every other keyword: a query that mentions CPU gets the CPU
      answer, whatever else it says. */
  lemma CpuWinsOverEverything(query: string)
    requires Mentions(query, "cpu")
    ensures Route(query) == CpuTopic
  {
  }

  /** An instance: "RAM use, CPU?" names both RAM and CPU and gets the CPU answer. */
  lemma RamAndCpuQueryGetsCpu()
    ensures Route("RAM use, CPU?") == CpuTopic
  {
    var q := ToLower("RAM use, CPU?");
    assert q == "ram use, cpu?" by {
      assert forall i :: 0 <= i < |q| ==> q[i] == "ram use, cpu?"[i];
    }
    IncludesAt(q, "cpu", 9);
  }

  /** How loaded the processor is, by the CPU percentage. */
  datatype Load = Smooth | Moderate | Heavy {
    /** Position on the scale from light to heavy. */
    function Rank(): nat {
      match this
      case Smooth => 0
      case Moderate => 1
      case Heavy => 2
    }
  }

  /** Heavy above 80, moderate above 50 up to and including 80, smooth at 50 and below. */
  function LoadBand(cpu: real): (b: Load)
    ensures b == Heavy <==> cpu > 80.0
    ensures b == Moderate <==> 50.0 < cpu <= 80.0
    ensures b == Smooth <==> cpu <= 50.0
  {
    if cpu > 80.0 then Heavy
    else if cpu > 50.0 then Moderate
    else Smooth
  }

  /** More CPU never gives a lighter band. */
  lemma LoadBandMonotone(c1: real, c2: real)
    requires c1 <= c2
    ensures LoadBand(c1).Rank() <= LoadBand(c2).Rank()
  {
  }

  /** A JavaScript number as far as the memory answer needs one: the result of a real
      division, or one of the IEEE 754 special values a division by zero produces. */
  datatype JsNumber = Finite(value: real) | PositiveInfinity | NegativeInfinity | NaN

  /** `used / total * 100`: finite whenever `total` is non-zero; `total == 0` gives
      NaN for `0 / 0` and a signed infinity otherwise. */
  function UsedPercentage(m: Memory): (p: JsNumber)
    ensures m.total != 0.0 <==> p.Finite?
    ensures p.Finite? ==> p.value * m.total == m.used * 100.0
    ensures p == NaN <==> m.total == 0.0 && m.used == 0.0
    ensures p == PositiveInfinity <==> m.total == 0.0 && m.used > 0.0
    ensures p == NegativeInfinity <==> m.total == 0.0 && m.used < 0.0
  {
    if m.total != 0.0 then Finite(m.used / m.total * 100.0)
    else if m.used > 0.0 then PositiveInfinity
    else if m.used < 0.0 then NegativeInfinity
    else NaN
  }

  /** 8388608000 of 16777216000 bytes in use is 50 percent. */
  lemma HalfMemoryIsFifty()
    ensures UsedPercentage(Memory(16777216000.0, 8388608000.0, 8388608000.0)) == Finite(50.0)
  {
  }

  /** The content of an answer; number formatting is not modelled, so each answer
      carries the values its text is made from. */
  datatype Answer =
    | CpuReport(cpu: real, load: Load)
    | MemoryReport(usedPercent: JsNumber, freeBytes: real)
    | TopReport(top: seq<Process>)
    | HelpReport
    | FallbackReport
  {
    function Kind(): Topic {
      match this
      case CpuReport(_, _) => CpuTopic
      case MemoryReport(_, _) => MemoryTopic
      case TopReport(_) => TopProcessesTopic
      case HelpReport => HelpTopic
      case FallbackReport => UnknownTopic
    }
  }

  /** `analyzeProcesses`: exactly one answer per query, of the routed kind, built from
      the given data. */
  function Analyze(query: string, data: SystemData): (a: Answer)
    ensures a.Kind() == Route(query)
    ensures a.CpuReport? ==> a.cpu == data.cpu && a.load == LoadBand(data.cpu)
    ensures a.MemoryReport? ==>
      a.usedPercent == UsedPercentage(data.memory) && a.freeBytes == data.memory.free
    ensures a.TopReport? ==> a.top == TopProcesses.Top(data.processes)
  {
    match Route(query)
    case CpuTopic => CpuReport(data.cpu, LoadBand(data.cpu))
    case MemoryTopic => MemoryReport(UsedPercentage(data.memory), data.memory.free)
    case TopProcessesTopic => TopReport(TopProcesses.Top(data.processes))
    case HelpTopic => HelpReport
    case UnknownTopic => FallbackReport
  }

  datatype Role = UserRole | BotRole

  /** What a user typed, or what the assistant answered. */
  datatype Content = PlainText(text: string) | Reply(answer: Answer)

  /** A chat message; its timestamp is not modelled. */
  datatype Message = Message(role: Role, content: Content)

  /** The message list and the text box. */
  datatype Conversation = Conversation(messages: seq<Message>, input: string)

  const GreetingText: string :=
    "Hello! I can help you analyze system processes and performance. What would you like to know?"

  /** A submitted question followed by the assistant's answer to it. */
  predicate Exchange(question: Message, answer: Message) {
    && question.role == UserRole && question.content.PlainText?
    && !IsBlank(question.content.text)
    && answer.role == BotRole && answer.content.Reply?
    && answer.content.answer.Kind() == Route(question.content.text)
  }

  /** `msgs` is a run of question/answer pairs, read from the newest pair back. */
  ghost predicate Exchanges(msgs: seq<Message>)
    decreases |msgs|
  {
    || |msgs| == 0
    || (&& |msgs| >= 2
        && Exchange(msgs[|msgs| - 2], msgs[|msgs| - 1])
        && Exchanges(msgs[..|msgs| - 2]))
  }

  /** Every reachable conversation: the greeting, then question/answer pairs. */
  ghost predicate WellFormed(c: Conversation) {
    && |c.messages| >= 1
    && c.messages[0] == Message(BotRole, PlainText(GreetingText))
    && Exchanges(c.messages[1..])
  }

  /** The conversation starts with the greeting alone and an empty text box. */
  function Initial(): (c: Conversation)
    ensures |c.messages| == 1 && c.messages[0].role == BotRole && c.input == ""
    ensures WellFormed(c)
  {
    Conversation([Message(BotRole, PlainText(GreetingText))], "")
  }

  /** Typing replaces the text box contents and nothing else. */
  function EditInput(c: Conversation, text: string): (r: Conversation)
    ensures r.messages == c.messages && r.input == text
  {
    c.(input := text)
  }

  /** `handleSubmit`: a blank text box changes nothing; otherwise the question (as
      typed, untrimmed) and its answer are appended and the text box is cleared. */
  function Submit(c: Conversation, data: SystemData): (r: Conversation)
    ensures IsBlank(c.input) ==> r == c
    ensures !IsBlank(c.input) ==>
      && |r.messages| == |c.messages| + 2
      && r.messages[..|c.messages|] == c.messages
      && r.messages[|c.messages|] == Message(UserRole, PlainText(c.input))
      && r.messages[|c.messages| + 1] == Message(BotRole, Reply(Analyze(c.input, data)))
      && r.input == ""
  {
    if IsBlank(c.input) then c
    else
      var question := Message(UserRole, PlainText(c.input));
      var answer := Message(BotRole, Reply(Analyze(c.input, data)));
      Conversation(c.messages + [question, answer], "")
  }

  /** Submitting keeps a conversation well formed. */
  lemma SubmitPreservesWellFormed(c: Conversation, data: SystemData)
    requires WellFormed(c)
    ensures WellFormed(Submit(c, data))
  {
    if !IsBlank(c.input) {
      var question := Message(UserRole, PlainText(c.input));
      var answer := Message(BotRole, Reply(Analyze(c.input, data)));
      var tail := Submit(c, data).messages[1..];
      assert tail == c.messages[1..] + [question, answer];
      assert tail[..|tail| - 2] == c.messages[1..];
    }
  }

  /** What can happen to the assistant: a keystroke in the box, or a submission
      answered from the data current at that moment. */
  datatype Event = Typed(text: string) | Submitted(data: SystemData)

  function Step(c: Conversation, e: Event): Conversation {
    match e
    case Typed(text) => EditInput(c, text)
    case Submitted(data) => Submit(c, data)
  }

  function Run(c: Conversation, events: seq<Event>): Conversation
    decreases |events|
  {
    if |events| == 0 then c else Run(Step(c, events[0]), events[1..])
  }

  /** One step keeps the conversation well formed and never loses a message. */
  lemma StepPreservesWellFormed(c: Conversation, e: Event)
    requires WellFormed(c)
    ensures WellFormed(Step(c, e))
    ensures |Step(c, e).messages| >= |c.messages|
    ensures Step(c, e).messages[..|c.messages|] == c.messages
  {
    if e.Submitted? {
      SubmitPreservesWellFormed(c, e.data);
    }
  }

  /** From a well-formed conversation (such as `Initial()`), any sequence of keystrokes and
      submissions keeps the greeting first and then only question/answer pairs, each
      answer of its question's topic, and keeps every earlier message in place. */
  lemma {:induction false} RunKeepsWellFormed(c: Conversation, events: seq<Event>)
    requires WellFormed(c)
    ensures WellFormed(Run(c, events))
    ensures |Run(c, events).messages| >= |c.messages|
    ensures Run(c, events).messages[..|c.messages|] == c.messages
    decreases |events|
  {
    if |events| > 0 {
      var next := Step(c, events[0]);
      StepPreservesWellFormed(c, events[0]);
      RunKeepsWellFormed(next, events[1..]);
      var final := Run(next, events[1..]).messages;
      assert final[..|c.messages|] == final[..|next.messages|][..|c.messages|];
    }
  }
}
