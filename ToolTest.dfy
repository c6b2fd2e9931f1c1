/**
 * The tool-calling test of qwen-3dot5-vllm/test_tools.py: the simulated tool
 * executor, the three scenarios that feed tool results back to the model,
 * and the selection and pass counting of `main`.
 *
 * The model server is an input: each scenario receives the replies the server
 * gives to its successive requests, an `Err` standing for a request that raised.
 */
module ToolTest {
  import opened Wrappers
  import opened Strings

  /** A tool call with its JSON arguments already decoded into a string map. */
  datatype ToolCall = ToolCall(id: string, name: string, args: map<string, string>)

  /** The message of a reply's first choice; `toolCalls == []` for None or an empty list. */
  datatype Reply = Reply(content: string, toolCalls: seq<ToolCall>)

  /** The object `execute_tool` serialises to JSON. */
  datatype ToolResult =
    | Weather(city: string, temperature: string, condition: string, humidity: string)
    | Calculation(expression: string)
    | ToolError(error: string)

  datatype Message =
    | UserMessage(content: string)
    | AssistantMessage(reply: Reply)
    | ToolMessage(toolCallId: string, result: ToolResult)

  // ---------------------------------------------------------------------------
  // execute_tool (test_tools.py:78-100)
  // ---------------------------------------------------------------------------

  /** `args.get(key, default)`. */
  function Get(args: map<string, string>, key: string, default: string): string {
    if key in args then args[key] else default
  }

  /** The simulated temperature table, 20 for any other city. */
  function CityTemperature(city: string): int {
    if city == "Tokyo" then 22
    else if city == "London" then 15
    else if city == "New York" then 18
    else 20
  }

  /** `temp * 9 // 5 + 32`: the Fahrenheit value rounded down (Python's `//` floors). */
  function ToFahrenheit(c: int): (f: int)
    ensures (f - 32) * 5 <= c * 9 < (f - 32 + 1) * 5
  {
    c * 9 / 5 + 32
  }

  function UnitSymbol(units: string): string {
    if units == "celsius" then "°C" else "°F"
  }

  function Degrees(city: string, units: string): int {
    if units == "fahrenheit" then ToFahrenheit(CityTemperature(city)) else CityTemperature(city)
  }

  /** `f"{temp}{unit_sym}"`. */
  function TemperatureText(city: string, units: string): string {
    IntToString(Degrees(city, units)) + UnitSymbol(units)
  }

  function ExecuteTool(name: string, args: map<string, string>): (r: ToolResult)
    ensures name == "get_weather" ==>
      r.Weather? && r.city == Get(args, "city", "Unknown")
      && r.condition == "partly cloudy" && r.humidity == "65%"
    ensures name == "calculate" ==> r == Calculation(Get(args, "expression", ""))
    ensures name != "get_weather" && name != "calculate" ==> r.ToolError? && r.error == "Unknown tool: " + name
  {
    if name == "get_weather" then
      var city := Get(args, "city", "Unknown");
      var units := Get(args, "units", "celsius");
      Weather(city, TemperatureText(city, units), "partly cloudy", "65%")
    else if name == "calculate" then
      Calculation(Get(args, "expression", ""))
    else
      ToolError("Unknown tool: " + name)
  }

  /**
   * The temperature text is the city's number, converted only for "fahrenheit",
   * followed by "°C" exactly when the units are "celsius". An unrecognised unit
   * keeps the Celsius number but is labelled "°F".
   */
  lemma WeatherTemperature(args: map<string, string>)
    ensures var city, units := Get(args, "city", "Unknown"), Get(args, "units", "celsius");
      var t := ExecuteTool("get_weather", args).temperature;
      && (units == "celsius" ==> t == IntToString(CityTemperature(city)) + "°C")
      && (units == "fahrenheit" ==> t == IntToString(ToFahrenheit(CityTemperature(city))) + "°F")
      && (units != "celsius" && units != "fahrenheit" ==> t == IntToString(CityTemperature(city)) + "°F")
  {
  }

  /** Every weather reading the tool can produce is positive: no minus sign ever appears. */
  lemma DegreesPositive(city: string, units: string)
    ensures Degrees(city, units) > 0
    ensures IntToString(Degrees(city, units)) == Decimal(Degrees(city, units))
  {
  }

  /** 22 degrees in Tokyo, reported in Celsius by default. */
  lemma TokyoCelsius()
    ensures ExecuteTool("get_weather", map["city" := "Tokyo"]).temperature == "22°C"
  {
    assert Decimal(22) == "22";
  }

  /** 22 °C is 71.6 °F, floored to 71. */
  lemma TokyoFahrenheit()
    ensures ExecuteTool("get_weather", map["city" := "Tokyo", "units" := "fahrenheit"]).temperature == "71°F"
  {
    assert ToFahrenheit(22) == 71;
    assert Decimal(71) == "71";
  }

  /** 18 °C is 64.4 °F, floored to 64. */
  lemma NewYorkFahrenheit()
    ensures ExecuteTool("get_weather", map["city" := "New York", "units" := "fahrenheit"]).temperature == "64°F"
  {
    assert ToFahrenheit(18) == 64;
    assert Decimal(64) == "64";
  }

  /** An unrecognised unit keeps the Celsius number but is labelled Fahrenheit. */
  lemma LondonKelvin()
    ensures ExecuteTool("get_weather", map["city" := "London", "units" := "kelvin"]).temperature == "15°F"
  {
    assert Decimal(15) == "15";
  }

  /** No arguments at all: the city "Unknown" at 20 °C. */
  lemma NoArguments()
    ensures ExecuteTool("get_weather", map[]) == Weather("Unknown", "20°C", "partly cloudy", "65%")
  {
    assert Decimal(20) == "20";
  }

  // ---------------------------------------------------------------------------
  // One tool turn: the assistant message, then one tool message per call
  // ---------------------------------------------------------------------------

  function ToolMessageFor(tc: ToolCall): Message {
    ToolMessage(tc.id, ExecuteTool(tc.name, tc.args))
  }

  /** The tool messages for a list of calls, in call order. */
  function ToolMessages(calls: seq<ToolCall>): (ms: seq<Message>)
    ensures |ms| == |calls|
  {
    if calls == [] then [] else ToolMessages(calls[..|calls| - 1]) + [ToolMessageFor(calls[|calls| - 1])]
  }

  /** One tool message per call, in call order, each answering its call's id with its result. */
  lemma {:induction false} ToolMessagesShape(calls: seq<ToolCall>)
    ensures forall k :: 0 <= k < |calls| ==> ToolMessages(calls)[k] == ToolMessageFor(calls[k])
  {
    if calls != [] {
      var init := calls[..|calls| - 1];
      ToolMessagesShape(init);
      assert forall k :: 0 <= k < |init| ==> init[k] == calls[k];
    }
  }

  lemma ToolMessagesAppend(calls: seq<ToolCall>, k: nat)
    requires k < |calls|
    ensures ToolMessages(calls[..k + 1]) == ToolMessages(calls[..k]) + [ToolMessageFor(calls[k])]
  {
    assert calls[..k + 1][..k] == calls[..k];
  }

  /** What a turn with tool calls appends to the conversation. */
  function TurnMessages(reply: Reply): seq<Message> {
    [AssistantMessage(reply)] + ToolMessages(reply.toolCalls)
  }

  /**
   * The assistant message comes first, then exactly one tool message per call,
   * carrying that call's id and result, in call order.
   */
  lemma TurnShape(reply: Reply)
    ensures |TurnMessages(reply)| == |reply.toolCalls| + 1
    ensures TurnMessages(reply)[0] == AssistantMessage(reply)
    ensures forall k :: 1 <= k <= |reply.toolCalls| ==>
      && TurnMessages(reply)[k].ToolMessage?
      && TurnMessages(reply)[k].toolCallId == reply.toolCalls[k - 1].id
      && TurnMessages(reply)[k].result == ExecuteTool(reply.toolCalls[k - 1].name, reply.toolCalls[k - 1].args)
  {
    ToolMessagesShape(reply.toolCalls);
  }

  /** `messages.append(msg)` and the loop appending one tool message per call. */
  method AppendTurn(messages: seq<Message>, reply: Reply) returns (ms: seq<Message>)
    ensures ms == messages + TurnMessages(reply)
  {
    var calls := reply.toolCalls;
    var prefix := messages + [AssistantMessage(reply)];
    ms := prefix;
    assert calls[..0] == [];
    for k := 0 to |calls|
      invariant ms == prefix + ToolMessages(calls[..k])
    {
      var m := ToolMessageFor(calls[k]);
      ToolMessagesAppend(calls, k);
      assert (prefix + ToolMessages(calls[..k])) + [m] == prefix + (ToolMessages(calls[..k]) + [m]);
      ms := ms + [m];
    }
    assert calls[..|calls|] == calls;
  }

  // ---------------------------------------------------------------------------
  // The scenarios (test_tools.py:127-241)
  // ---------------------------------------------------------------------------

  /** How a scenario ends: `True`, `False`, or an exception that `main` catches. */
  datatype Outcome = Passed | Failed | Raised(error: string)

  const SinglePrompt := "What's the weather like in Tokyo right now?"
  const ParallelPrompt := "Compare the weather in London and New York. Get both at the same time."
  const ChainedPrompt := "What is the temperature in Tokyo in celsius? Then calculate what that is multiplied by 3.14."

  /**
   * The shape shared by the single and the parallel scenario: one request that
   * must come back with tool calls, their results fed back, one follow-up request.
   */
  method ToolRoundTrip(prompt: string, first: Result<Reply, string>, followUp: Result<Reply, string>)
    returns (outcome: Outcome, messages: seq<Message>)
    ensures first.Err? ==> outcome == Raised(first.error) && messages == [UserMessage(prompt)]
    ensures first.Ok? && first.value.toolCalls == [] ==> outcome == Failed && messages == [UserMessage(prompt)]
    ensures first.Ok? && first.value.toolCalls != [] ==>
      && messages == [UserMessage(prompt)] + TurnMessages(first.value)
      && outcome == (if followUp.Ok? then Passed else Raised(followUp.error))
  {
    messages := [UserMessage(prompt)];
    if first.Err? {
      return Raised(first.error), messages;
    }
    var msg := first.value;
    if msg.toolCalls == [] {
      return Failed, messages;
    }
    messages := AppendTurn(messages, msg);
    if followUp.Err? {
      return Raised(followUp.error), messages;
    }
    outcome := Passed;
  }

  /** `scenario_single`: passes exactly when the first reply calls a tool and the follow-up answers. */
  method ScenarioSingle(first: Result<Reply, string>, followUp: Result<Reply, string>) returns (outcome: Outcome)
    ensures outcome == Passed <==> first.Ok? && first.value.toolCalls != [] && followUp.Ok?
    ensures outcome == Failed <==> first.Ok? && first.value.toolCalls == []
  {
    var conversation;
    outcome, conversation := ToolRoundTrip(SinglePrompt, first, followUp);
  }

  /** `scenario_parallel`: fewer than two calls only warns, so it passes under the same condition. */
  method ScenarioParallel(first: Result<Reply, string>, followUp: Result<Reply, string>) returns (outcome: Outcome)
    ensures outcome == Passed <==> first.Ok? && first.value.toolCalls != [] && followUp.Ok?
    ensures outcome == Failed <==> first.Ok? && first.value.toolCalls == []
  {
    var conversation;
    outcome, conversation := ToolRoundTrip(ParallelPrompt, first, followUp);
  }

  const MaxTurns: nat := 4

  predicate AsksForTools(r: Result<Reply, string>) {
    r.Ok? && r.value.toolCalls != []
  }

  /** The messages the chained scenario holds after turns that all asked for tools. */
  function Transcript(replies: seq<Result<Reply, string>>): seq<Message>
    requires forall j :: 0 <= j < |replies| ==> AsksForTools(replies[j])
  {
    if replies == [] then [UserMessage(ChainedPrompt)]
    else
      assert AsksForTools(replies[|replies| - 1]);
      Transcript(replies[..|replies| - 1]) + TurnMessages(replies[|replies| - 1].value)
  }

  lemma TranscriptAppend(replies: seq<Result<Reply, string>>, k: nat)
    requires k < |replies|
    requires forall j :: 0 <= j <= k ==> AsksForTools(replies[j])
    ensures Transcript(replies[..k + 1]) == Transcript(replies[..k]) + TurnMessages(replies[k].value)
  {
    assert replies[..k + 1][..k] == replies[..k];
  }

  function ToolCallCount(replies: seq<Result<Reply, string>>): nat
    requires forall j :: 0 <= j < |replies| ==> AsksForTools(replies[j])
  {
    if replies == [] then 0
    else
      assert AsksForTools(replies[|replies| - 1]);
      ToolCallCount(replies[..|replies| - 1]) + |replies[|replies| - 1].value.toolCalls|
  }

  /** The prompt, then for each tool turn its assistant message and one message per tool call. */
  lemma {:induction false} TranscriptLength(replies: seq<Result<Reply, string>>)
    requires forall j :: 0 <= j < |replies| ==> AsksForTools(replies[j])
    ensures |Transcript(replies)| == 1 + ToolCallCount(replies) + |replies|
    ensures Transcript(replies)[0] == UserMessage(ChainedPrompt)
  {
    if replies != [] {
      TranscriptLength(replies[..|replies| - 1]);
      TurnShape(replies[|replies| - 1].value);
    }
  }

  /**
   * `scenario_multi_tool`: at most four requests. It stops at the first reply
   * that raised (the error propagates) or has no tool calls (a pass), and it
   * fails exactly when all four replies asked for tools. Every turn before the
   * last one made asked for tools and had its turn appended to the messages.
   */
  method ScenarioChained(replies: seq<Result<Reply, string>>) returns (outcome: Outcome, calls: nat, messages: seq<Message>)
    requires |replies| >= MaxTurns
    ensures 1 <= calls <= MaxTurns
    ensures forall j :: 0 <= j < calls - 1 ==> AsksForTools(replies[j])
    ensures outcome == Failed <==> AsksForTools(replies[calls - 1])
    ensures outcome == Failed ==> calls == MaxTurns
    ensures outcome == Passed <==> replies[calls - 1].Ok? && replies[calls - 1].value.toolCalls == []
    ensures replies[calls - 1].Err? ==> outcome == Raised(replies[calls - 1].error)
    ensures outcome == Failed <==> forall k :: 0 <= k < MaxTurns ==> AsksForTools(replies[k])
    ensures messages == Transcript(replies[..if outcome == Failed then MaxTurns else calls - 1])
  {
    messages := [UserMessage(ChainedPrompt)];
    calls := 0;
    assert replies[..0] == [];
    while calls < MaxTurns
      invariant calls <= MaxTurns
      invariant forall j :: 0 <= j < calls ==> AsksForTools(replies[j])
      invariant messages == Transcript(replies[..calls])
    {
      var resp := replies[calls];
      if !AsksForTools(resp) {
        calls := calls + 1;
        if resp.Err? {
          return Raised(resp.error), calls, messages;
        }
        return Passed, calls, messages;
      }
      var grown := AppendTurn(messages, resp.value);
      TranscriptAppend(replies, calls);
      messages := grown;
      calls := calls + 1;
    }
    outcome := Failed;
  }

  // ---------------------------------------------------------------------------
  // main (test_tools.py:248-288)
  // ---------------------------------------------------------------------------

  datatype Scenario = Single | Parallel | Chained

  /** `SCENARIO_MAP`, in its insertion order. */
  const ScenarioMap: seq<(string, Scenario)> := [("single", Single), ("parallel", Parallel), ("chained", Chained)]

  /** The scenarios `--scenario` selects; None when argparse rejects the choice. */
  function Select(choice: string): (r: Option<seq<Scenario>>)
    ensures choice == "all" ==> r.Some? && r.value == seq(|ScenarioMap|, k requires 0 <= k < |ScenarioMap| => ScenarioMap[k].1)
    ensures choice != "all" ==> (r.Some? <==> exists k :: 0 <= k < |ScenarioMap| && ScenarioMap[k].0 == choice)
    ensures choice != "all" && r.Some? ==> forall k :: 0 <= k < |ScenarioMap| && ScenarioMap[k].0 == choice ==> r.value == [ScenarioMap[k].1]
  {
    if choice == "all" then Some([Single, Parallel, Chained])
    else if choice == "single" then assert ScenarioMap[0].0 == choice; Some([Single])
    else if choice == "parallel" then assert ScenarioMap[1].0 == choice; Some([Parallel])
    else if choice == "chained" then assert ScenarioMap[2].0 == choice; Some([Chained])
    else None
  }

  /** The choices argparse accepts: "all" and the three scenario names, nothing else. */
  lemma SelectChoices(choice: string)
    ensures Select(choice).Some? <==> choice in {"all", "single", "parallel", "chained"}
    ensures Select("all") == Some([Single, Parallel, Chained])
  {
  }

  function CountPassed(outcomes: seq<Outcome>): nat {
    if outcomes == [] then 0
    else CountPassed(outcomes[..|outcomes| - 1]) + (if outcomes[|outcomes| - 1] == Passed then 1 else 0)
  }

  /** Never more passes than scenarios, and as many exactly when every scenario passed. */
  lemma {:induction false} CountPassedBound(outcomes: seq<Outcome>)
    ensures CountPassed(outcomes) <= |outcomes|
    ensures CountPassed(outcomes) == |outcomes| <==> forall k :: 0 <= k < |outcomes| ==> outcomes[k] == Passed
  {
    if outcomes != [] {
      var init := outcomes[..|outcomes| - 1];
      CountPassedBound(init);
      assert forall k :: 0 <= k < |init| ==> init[k] == outcomes[k];
    }
  }

  /** `passed += ok` over the scenario outcomes, then `sys.exit(0 if passed == total else 1)`. */
  method CountPasses(outcomes: seq<Outcome>) returns (passed: nat, exitCode: int)
    ensures passed == CountPassed(outcomes)
    ensures exitCode == (if forall k :: 0 <= k < |outcomes| ==> outcomes[k] == Passed then 0 else 1)
  {
    passed := 0;
    for i := 0 to |outcomes|
      invariant passed == CountPassed(outcomes[..i])
    {
      assert outcomes[..i + 1][..i] == outcomes[..i];
      if outcomes[i] == Passed {
        passed := passed + 1;
      }
    }
    assert outcomes[..|outcomes|] == outcomes;
    CountPassedBound(outcomes);
    exitCode := if passed == |outcomes| then 0 else 1;
  }

  /**
   * `main`, given the outcome each scenario's run ends with: exit status 2 when
   * argparse rejects the choice, otherwise 0 when every selected scenario passed
   * and 1 when one did not.
   */
  method RunTests(choice: string, outcomeOf: Scenario -> Outcome) returns (exitCode: int)
    ensures Select(choice).None? ==> exitCode == 2
    ensures Select(choice).Some? ==>
      exitCode == (if forall s :: s in Select(choice).value ==> outcomeOf(s) == Passed then 0 else 1)
  {
    var selected := Select(choice);
    if selected.None? {
      return 2;
    }
    var scenarios := selected.value;
    var outcomes := seq(|scenarios|, k requires 0 <= k < |scenarios| => outcomeOf(scenarios[k]));
    var passed;
    passed, exitCode := CountPasses(outcomes);
    forall s | s in scenarios
      ensures exists k :: 0 <= k < |outcomes| && outcomes[k] == outcomeOf(s)
    {
      var k :| 0 <= k < |scenarios| && scenarios[k] == s;
      assert outcomes[k] == outcomeOf(s);
    }
  }
}
