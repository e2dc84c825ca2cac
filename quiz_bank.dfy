/** The multiple-choice question bank of the quiz page: the record type, the
    validity conditions the quiz screen relies on, the points an answer earns,
    the marks shown once a question is answered, and the shipped bank itself. */
module QuizBank {

  datatype Option<T> = None | Some(value: T)

  /** A history entry: 1 for a correct answer, 0 for a wrong one. */
  type Bit = b: int | 0 <= b <= 1

  /** One quiz record: prompt, options, the position of the right option and
      the explanation revealed after answering. */
  datatype Question = Question(prompt: string, options: seq<string>, correct: int, explain: string)

  /** Option buttons are labelled by indexing this string with the option's position. */
  const OptionLabels: string := "ABCD"

  /** The right option is one of the options, and every option has a label. */
  predicate ValidQuestion(q: Question) {
    0 <= q.correct < |q.options| <= |OptionLabels|
  }

  predicate ValidBank(bank: seq<Question>) {
    forall k :: 0 <= k < |bank| ==> ValidQuestion(bank[k])
  }

  /** The label on the button of option `i`. Its precondition is the point:
      for every option of a valid question the lookup `'ABCD'[i]` is defined. */
  function Label(q: Question, i: nat): (c: char)
    requires ValidQuestion(q) && i < |q.options|
    ensures c in OptionLabels
  {
    OptionLabels[i]
  }

  /** The points that choosing option `i` earns: the history entry it appends
      and the amount it adds to the score. */
  function Points(q: Question, i: nat): Bit {
    if i == q.correct then 1 else 0
  }

  /** A valid question has exactly one option that earns a point. */
  lemma ExactlyOneScoringOption(q: Question)
    requires ValidQuestion(q)
    ensures exists i: nat :: i < |q.options| && Points(q, i) == 1
    ensures forall i: nat, j: nat :: i < |q.options| && j < |q.options| && Points(q, i) == 1 && Points(q, j) == 1 ==> i == j
  {
    var c: nat := q.correct;
    assert Points(q, c) == 1;
  }

  /** How an option is drawn once the question has been answered. */
  datatype Mark = RightAnswer | WrongChoice | Plain

  /** The marks of the reveal screen: the right option is marked as such, the
      selected option is marked as a wrong choice when it is not the right one,
      every other option is plain. One mark per option; for a valid question
      the right option, and only it, is marked right; an option is marked
      wrong exactly when it is the selected one and earned no point. */
  function RevealMarks(q: Question, selected: Option<nat>): (marks: seq<Mark>)
    ensures |marks| == |q.options|
    ensures ValidQuestion(q) ==> marks[q.correct] == RightAnswer
    ensures forall i, j :: 0 <= i < |marks| && 0 <= j < |marks| && marks[i] == RightAnswer && marks[j] == RightAnswer ==> i == j
    ensures forall i :: 0 <= i < |marks| && marks[i] == WrongChoice ==> selected == Some(i) && Points(q, i) == 0
    ensures forall i :: 0 <= i < |marks| && selected == Some(i) && Points(q, i) == 0 ==> marks[i] == WrongChoice
  {
    var marks := seq(|q.options|, i => if i == q.correct then RightAnswer else if selected == Some(i) then WrongChoice else Plain);
    assert ValidQuestion(q) ==> marks[q.correct] == RightAnswer;
    marks
  }

  /** After answering option `i`, the reveal screen shows a wrong choice exactly
      when the answer earned no point, and then on option `i`; for a valid
      question it marks the question's right option as the answer. */
  lemma RevealAgreesWithPoints(q: Question, i: nat)
    requires i < |q.options|
    ensures WrongChoice in RevealMarks(q, Some(i)) <==> Points(q, i) == 0
    ensures Points(q, i) == 0 ==> RevealMarks(q, Some(i))[i] == WrongChoice
    ensures ValidQuestion(q) ==> RevealMarks(q, Some(i))[q.correct] == RightAnswer
  {
    var marks := RevealMarks(q, Some(i));
    if ValidQuestion(q) {
      assert marks[q.correct] == RightAnswer;
    }
    if Points(q, i) == 0 {
      assert marks[i] == WrongChoice;
    }
  }

  /** Permuting a valid bank keeps it valid. */
  lemma PermutationKeepsValid(bank: seq<Question>, shuffled: seq<Question>)
    requires ValidBank(bank) && multiset(shuffled) == multiset(bank)
    ensures ValidBank(shuffled)
  {
    forall k | 0 <= k < |shuffled|
      ensures ValidQuestion(shuffled[k])
    {
      assert shuffled[k] in multiset(shuffled);
      assert shuffled[k] in multiset(bank);
    }
  }

  /** The bank the application ships. */
  function QuizQuestions(): seq<Question> {
    [
      Question(
        "ISO 9001:2015基于几大质量管理原则？",
        ["5大原则", "6大原则", "7大原则", "8大原则"],
        2,
        "ISO 9001:2015基于7大质量管理原则：顾客焦点、领导作用、全员参与、过程方法、改进、循证决策、关系管理（2015版从8大原则调整为7大）。"),
      Question(
        "六西格玛水平对应的DPMO（每百万机会缺陷数）约为多少？",
        ["3.4", "34", "340", "3400"],
        0,
        "六西格玛对应3.4 DPMO（含1.5σ的长期漂移）。这意味着每百万次机会中只有3.4次缺陷，即99.99966%的合格率。"),
      Question(
        "FMEA中RPN的计算公式是？",
        ["S + O + D", "S × O × D", "S × O / D", "(S + O + D) / 3"],
        1,
        "RPN（风险优先数）= 严重度(Severity) × 发生度(Occurrence) × 探测度(Detection)，每项1-10分，RPN最大为1000。"),
      Question(
        "Cpk ≥ 多少通常被认为是过程能力良好的最低要求？",
        ["1.00", "1.33", "1.50", "1.67"],
        1,
        "行业普遍要求Cpk ≥ 1.33（对应4σ水平）。汽车行业关键特性通常要求Cpk ≥ 1.67（5σ水平）。"),
      Question(
        "在DMAIC方法中，'Analyze（分析）'阶段的主要目标是？",
        ["收集过程数据", "识别根本原因", "实施解决方案", "定义项目范围"],
        1,
        "Analyze阶段的核心是通过数据分析（鱼骨图、假设检验、回归分析等）识别导致问题的根本原因（关键X因子）。"),
      Question(
        "Gage R&R结果中，%R&R小于多少认为测量系统优秀？",
        ["5%", "10%", "20%", "30%"],
        1,
        "%R&R < 10%：优秀可接受；10%-30%：视情况可接受；> 30%：不可接受，需改进测量系统。"),
      Question(
        "柏拉图（Pareto Chart）基于哪个原则？",
        ["50/50原则", "70/30原则", "80/20原则", "90/10原则"],
        2,
        "柏拉图基于80/20原则（帕累托法则）：80%的问题/缺陷来自20%的原因。帮助团队聚焦最重要的少数关键因素。"),
      Question(
        "PPAP（生产件批准程序）中，最完整的提交等级是第几级？",
        ["1级", "2级", "3级", "5级"],
        2,
        "PPAP有5个提交等级，3级是标准提交级别（提交样件和完整文件包），1级只提交合规保证书，5级在客户现场审查。"),
      Question(
        "控制图中，UCL和LCL通常设定在中心线±多少σ？",
        ["±1σ", "±2σ", "±3σ", "±6σ"],
        2,
        "控制限通常设在±3σ（99.73%的正常变异在此范围内），超出控制限的点表示可能存在特殊原因变异，需要调查。"),
      Question(
        "8D问题解决法中，'遏制行动'属于哪个步骤？",
        ["D1", "D2", "D3", "D4"],
        2,
        "D3是实施临时遏制措施（Containment Actions），目的是在找到根本原因之前，立即保护顾客不受问题影响。")
    ]
  }

  lemma QuizQuestionsValid()
    ensures |QuizQuestions()| == 10
    ensures ValidBank(QuizQuestions())
  {
  }
}
