/**
 * The tool table of the assistant: the names advertised to the model, the
 * name-to-handler dispatch table, and the two handlers whose logic is a
 * pure computation (the weather lookup and the calculator's input guard).
 */
module Tools {

  /** The handlers that the dispatch table can select. */
  datatype ToolKind =
    | WeatherTool
    | CalculatorTool
    | SearchTool
    | ClockTool
    | AddTodoTool
    | TodoListTool

  /** The name-to-handler table that dispatch consults. */
  const ToolFunctions: map<string, ToolKind> := map[
    "get_weather" := WeatherTool,
    "calculator" := CalculatorTool,
    "search_web" := SearchTool,
    "get_current_time" := ClockTool,
    "add_todo" := AddTodoTool,
    "get_todo_list" := TodoListTool
  ]

  /** The names of the tool schemas advertised to the model on the first call, in order. */
  const AdvertisedTools: seq<string> :=
    ["get_weather", "calculator", "search_web", "get_current_time", "add_todo", "get_todo_list"]

  /** Every advertised tool has a handler, and every handler is advertised. */
  lemma AdvertisedToolsAreDispatchable()
    ensures forall name :: name in AdvertisedTools <==> name in ToolFunctions
    ensures forall i, j :: 0 <= i < j < |AdvertisedTools| ==> AdvertisedTools[i] != AdvertisedTools[j]
  {
  }

  // ---------------------------------------------------------------------
  // get_weather: a fixed table with a default report

  const WeatherTable: map<string, string> := map[
    "北京" := "晴天,温度15°C,空气质量良好",
    "上海" := "多云,温度18°C,有轻微雾霾",
    "深圳" := "阴天,温度22°C,可能有小雨",
    "广州" := "晴天,温度24°C,适合户外活动"
  ]

  const DefaultWeatherSuffix: string := "天气晴朗,温度20°C"

  /** The weather report for a city: its table entry, or the default report naming the city. */
  function GetWeather(city: string): string
  {
    if city in WeatherTable then WeatherTable[city] else city + DefaultWeatherSuffix
  }

  /**
   * A report is one of the table's entries exactly when the city is in the
   * table: the default report never coincides with a table entry.
   */
  lemma {:induction false} WeatherReportTellsKnownCity(city: string)
    ensures GetWeather(city) in WeatherTable.Values <==> city in WeatherTable
  {
    if city !in WeatherTable {
      var r := GetWeather(city);
      assert r == city + DefaultWeatherSuffix;
      assert r[|r| - 3] == '0';
      forall v | v in WeatherTable.Values ensures v != r {
        assert v[|v| - 3] != '0';
      }
    }
  }

  // ---------------------------------------------------------------------
  // calculator: the character guard in front of the evaluator

  const AllowedChars: string := "0123456789+-*/(). "

  const IllegalCharacterReply: string := "错误:表达式包含非法字符"

  /** An expression the guard lets through to the evaluator. */
  predicate AllowedExpression(expression: string)
  {
    forall i :: 0 <= i < |expression| ==> expression[i] in AllowedChars
  }

  /** What evaluating an expression gives: a value's text or a raised error's message. */
  datatype Evaluation = Value(text: string) | Raised(message: string)

  /** The calculator's reply; `evaluate` stands for the expression evaluator. */
  function Calculate(expression: string, evaluate: string -> Evaluation): string
  {
    if !AllowedExpression(expression) then IllegalCharacterReply
    else match evaluate(expression)
      case Value(v) => "计算结果: " + v
      case Raised(m) => "计算错误: " + m
  }

  /**
   * An expression with a character outside the allowed set never reaches the
   * evaluator: the reply is the fixed rejection whatever the evaluator would do.
   */
  lemma GuardShieldsEvaluator(expression: string, i: int, e1: string -> Evaluation, e2: string -> Evaluation)
    requires 0 <= i < |expression| && expression[i] !in AllowedChars
    ensures Calculate(expression, e1) == Calculate(expression, e2) == IllegalCharacterReply
  {
  }

  /** An allowed expression's reply is decided by the evaluator, success and failure apart. */
  lemma AllowedReachesEvaluator(expression: string, evaluate: string -> Evaluation)
    requires AllowedExpression(expression)
    ensures evaluate(expression).Value? ==> Calculate(expression, evaluate) == "计算结果: " + evaluate(expression).text
    ensures evaluate(expression).Raised? ==> Calculate(expression, evaluate) == "计算错误: " + evaluate(expression).message
    ensures Calculate(expression, evaluate) != IllegalCharacterReply
  {
    var r := Calculate(expression, evaluate);
    assert r[0] == '计';
  }

  /** The guard judges characters one by one, so it splits over concatenation. */
  lemma {:induction false} AllowedConcat(a: string, b: string)
    ensures AllowedExpression(a + b) <==> AllowedExpression(a) && AllowedExpression(b)
  {
    if AllowedExpression(a + b) {
      forall i | 0 <= i < |a| ensures a[i] in AllowedChars { assert a[i] == (a + b)[i]; }
      forall i | 0 <= i < |b| ensures b[i] in AllowedChars { assert b[i] == (a + b)[|a| + i]; }
    }
  }

  /** Names, letters and underscores are refused, as in `__import__('os')`. */
  lemma ImportIsRejected()
    ensures !AllowedExpression("__import__('os')")
  {
    assert "__import__('os')"[0] == '_';
  }
}
