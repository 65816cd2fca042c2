/**
  CodeJade (`code_jade/core.py`): a coding assistant that runs a bounded
  ReAct loop.  Each model response is either a tool call, recognised by a
  brace-delimited JSON span, or a final text reply.  Tool calls pass through
  a dispatcher; `write_file` is gated by a reviewer.  The model, the JSON
  parser, the reviewer and the tools themselves are oracles.
*/
module CodeJade {
  import opened Wrappers
  import opened Text
  import opened Chat
  import opened Slim

  // ------------------------------------------------------------------ JSON

  /** A decoded JSON value, as far as the dispatcher looks at it: strings,
      objects (with their `str()` rendering) and everything else (rendered). */
  datatype Json =
    | JStr(s: string)
    | JObj(fields: map<string, Json>, shown: string)
    | JOther(shown: string)

  /** Python's `str()` of a value that may be `None`. */
  function Shown(v: Option<Json>): string {
    match v
    case None => "None"
    case Some(JStr(s)) => s
    case Some(JObj(_, shown)) => shown
    case Some(JOther(shown)) => shown
  }

  /** `dict.get(key)` */
  function Get(fields: map<string, Json>, key: string): (v: Option<Json>)
    ensures v.Some? <==> key in fields
    ensures v.Some? ==> v.value == fields[key]
  {
    if key in fields then Some(fields[key]) else None
  }

  /** `json.loads` on a candidate span: `None` stands for a `JSONDecodeError`.
      Every span handed to it starts with `{`, so a success is an object. */
  type Parser = string -> Option<map<string, Json>>

  // ------------------------------------------------------- tool-call text

  /** `i` is the first `{` and `j` the last `}` of `s`, and `i` comes first. */
  predicate BraceMatchAt(s: string, i: int, j: int) {
    && 0 <= i < j < |s|
    && s[i] == '{' && s[j] == '}'
    && '{' !in s[..i] && '}' !in s[j + 1..]
  }

  /** `re.search(r'\{.*\}', s, re.DOTALL)`: the leftmost `{` that has some `}`
      after it, extended greedily to the last `}` of the text. */
  function BraceSpan(s: string): (r: Option<string>)
    ensures r.Some? ==> |r.value| >= 2 && r.value[0] == '{' && r.value[|r.value| - 1] == '}'
  {
    if '{' in s && '}' in s && IndexOf(s, '{') < LastIndexOf(s, '}') then
      Some(s[IndexOf(s, '{')..LastIndexOf(s, '}') + 1])
    else
      None
  }

  /** There is no span exactly when no `{` comes before a `}`; otherwise the
      span runs from the first `{` to the last `}`. */
  lemma BraceSpanCharacterised(s: string)
    ensures BraceSpan(s).None? <==> forall i, j :: 0 <= i < j < |s| && s[i] == '{' ==> s[j] != '}'
    ensures BraceSpan(s).Some? ==> exists i, j :: BraceMatchAt(s, i, j) && BraceSpan(s).value == s[i..j + 1]
  {
    if BraceSpan(s).Some? {
      assert BraceMatchAt(s, IndexOf(s, '{'), LastIndexOf(s, '}'));
    } else {
      BraceSpanAbsent(s);
    }
  }

  /** When the first `{` does not precede the last `}`, no `{` precedes any `}`. */
  lemma BraceSpanAbsent(s: string)
    requires !('{' in s && '}' in s && IndexOf(s, '{') < LastIndexOf(s, '}'))
    ensures forall i, j :: 0 <= i < j < |s| && s[i] == '{' ==> s[j] != '}'
  {
    forall i, j | 0 <= i < j < |s| && s[i] == '{'
      ensures s[j] != '}'
    {
      if s[j] == '}' {
        assert false;
      }
    }
  }

  /** A JSON object written between text without braces before it and text
      without braces after it is exactly the span that is extracted. */
  lemma {:induction false} BraceSpanOfEmbedded(pre: string, obj: string, post: string)
    requires '{' !in pre && '}' !in post
    requires |obj| >= 2 && obj[0] == '{' && obj[|obj| - 1] == '}'
    ensures BraceSpan(pre + obj + post) == Some(obj)
  {
    var s := pre + obj + post;
    var i, j := |pre|, |pre| + |obj| - 1;
    assert s[i] == '{' && s[j] == '}';
    assert s[..i] == pre;
    assert s[j + 1..] == post;
    assert BraceMatchAt(s, i, j);
    BraceSpanCharacterised(s);
    assert s[i..j + 1] == obj;
  }

  /** Three backticks start at position `i` of `s`. */
  predicate FenceAt(s: string, i: int) {
    0 <= i && i + 2 < |s| && s[i] == '`' && s[i + 1] == '`' && s[i + 2] == '`'
  }

  /** `re.sub(r'```json|```', '', s)`: scanning left to right, every
      "```json" and every remaining "```" is removed.  No fence is left: a
      backtick that is kept is followed in the result by the character after
      it in `s`, so three kept backticks in a row would have been a match. */
  function StripFences(s: string): (r: string)
    ensures |r| <= |s|
    ensures '`' !in s ==> r == s
    ensures s != [] && s[0] != '`' ==> r != [] && r[0] == s[0]
    ensures forall i :: !FenceAt(r, i)
    decreases |s|
  {
    if StartsWith(s, "```json") then assert s[0] in s; StripFences(s[7..])
    else if StartsWith(s, "```") then assert s[0] in s; StripFences(s[3..])
    else if s == [] then []
    else
      var rest := StripFences(s[1..]);
      assert s[0] == '`' ==> !FenceAt([s[0]] + rest, 0) by {
        if s[0] == '`' && |s| > 1 && s[1] == '`' {
          assert !StartsWith(s[1..], "```");
          assert |s| > 2 ==> s[2] != '`';
        }
      }
      assert forall i :: 1 <= i ==> FenceAt([s[0]] + rest, i) == FenceAt(rest, i - 1);
      [s[0]] + rest
  }

  /** `process_tool_call`: the span is parsed; on the primary path the result
      must hold both "tool" and "args".  Only when parsing fails is the text
      cleaned of markdown fences and stripped, the span searched again and
      parsed, and then "tool" alone suffices.  A text without a span, or whose
      parse fails twice, is no tool call. */
  function ProcessToolCall(text: string, parse: Parser): (r: Option<map<string, Json>>)
    ensures r.Some? ==> "tool" in r.value
  {
    match BraceSpan(text)
    case None => None
    case Some(candidate) =>
      match parse(candidate)
      case Some(data) =>
        if "tool" in data && "args" in data then Some(data) else None
      case None =>
        match BraceSpan(Strip(StripFences(text)))
        case None => None
        case Some(candidate') =>
          match parse(candidate')
          case None => None
          case Some(data) => if "tool" in data then Some(data) else None
  }

  /** Which path decides: no span means no tool call; a span that parses must
      hold both keys; a span that does not parse falls back to the cleaned text,
      where "tool" alone suffices. */
  lemma ProcessToolCallPaths(text: string, parse: Parser)
    ensures BraceSpan(text).None? ==> ProcessToolCall(text, parse).None?
    ensures BraceSpan(text).Some? && parse(BraceSpan(text).value).Some? ==>
              var data := parse(BraceSpan(text).value).value;
              ProcessToolCall(text, parse) == (if "tool" in data && "args" in data then Some(data) else None)
    ensures BraceSpan(text).Some? && parse(BraceSpan(text).value).None? ==>
              var fallback := BraceSpan(Strip(StripFences(text)));
              (ProcessToolCall(text, parse).Some? <==>
                 fallback.Some? && parse(fallback.value).Some? && "tool" in parse(fallback.value).value)
              && (ProcessToolCall(text, parse).Some? ==> ProcessToolCall(text, parse) == parse(fallback.value))
  {
  }

  /** A well-formed tool call between brace-free text is recognised. */
  lemma ToolCallRecognised(pre: string, obj: string, post: string, parse: Parser)
    requires '{' !in pre && '}' !in post
    requires |obj| >= 2 && obj[0] == '{' && obj[|obj| - 1] == '}'
    requires parse(obj).Some? && "tool" in parse(obj).value && "args" in parse(obj).value
    ensures ProcessToolCall(pre + obj + post, parse) == parse(obj)
  {
    BraceSpanOfEmbedded(pre, obj, post);
  }

  /** Text without any `{` is never a tool call. */
  lemma PlainTextIsNoToolCall(text: string, parse: Parser)
    requires '{' !in text
    ensures ProcessToolCall(text, parse) == None
  {
    assert forall i :: 0 <= i < |text| ==> text[i] != '{' by {
      forall i | 0 <= i < |text| ensures text[i] != '{' {
        assert text[i] in text;
      }
    }
  }

  // ---------------------------------------------------------------- tools

  /** The five tools of `ToolManager`, with the arguments `run_tool` hands on. */
  datatype ToolCall =
    | ExecuteShell(command: Option<Json>)
    | ReadFile(filepath: Option<Json>)
    | WriteFile(filepath: Option<Json>, content: Option<Json>)
    | ListFiles(path: Json)
    | RunPython(code: Option<Json>)

  /** What `run_tool` decides: invoke a tool, or answer without invoking one. */
  datatype Step = Invoke(call: ToolCall) | Answer(text: string)

  /** `reviewer.review(content, context=...)` returns a dict. */
  type Reviewer = (Option<Json>, string) -> map<string, Json>

  const DefaultFeedback := "Sem detalhes."

  /** The names `run_tool` compares against. */
  datatype ToolName = WriteFileTool | ExecuteShellTool | ReadFileTool | ListFilesTool | RunPythonTool

  /** `name == "write_file"`, …: only a JSON string equal to one of the five
      names selects a tool. */
  function ToolNamed(j: Json): Option<ToolName> {
    if j == JStr("write_file") then Some(WriteFileTool)
    else if j == JStr("execute_shell") then Some(ExecuteShellTool)
    else if j == JStr("read_file") then Some(ReadFileTool)
    else if j == JStr("list_files") then Some(ListFilesTool)
    else if j == JStr("run_python") then Some(RunPythonTool)
    else None
  }

  predicate IsToolName(j: Json) {
    ToolNamed(j).Some?
  }

  function BlockedMessage(feedback: string): string {
    "❌ BLOQUEADO PELO REVIEWER. Motivo: " + feedback + ". Corrija o código e tente salvar novamente."
  }

  function UnknownToolMessage(name: string): string {
    "❌ Ferramenta desconhecida: " + name
  }

  function ReviewContext(filepath: Option<Json>): string {
    "User asked to create/edit " + Shown(filepath)
  }

  /** The review gate: blocked exactly when the reviewer's status is the string
      "REJECTED"; the feedback defaults to "Sem detalhes.". */
  function Gate(filepath: Option<Json>, content: Option<Json>, review: Reviewer): (r: Step)
    ensures r.Answer? <==> Get(review(content, ReviewContext(filepath)), "status") == Some(JStr("REJECTED"))
    ensures r.Invoke? ==> r.call == WriteFile(filepath, content)
  {
    var verdict := review(content, ReviewContext(filepath));
    if Get(verdict, "status") == Some(JStr("REJECTED")) then
      var feedback := if "feedback" in verdict then Shown(Some(verdict["feedback"])) else DefaultFeedback;
      Answer(BlockedMessage(feedback))
    else
      Invoke(WriteFile(filepath, content))
  }

  /** The decision part of `run_tool`.  A missing "tool" or "args" key is a
      `KeyError`; `args.get` on a non-object is an `AttributeError`, which an
      unknown tool name never reaches. */
  function Plan(data: map<string, Json>, review: Reviewer): (r: Result<Step>)
    ensures "tool" !in data || "args" !in data ==> r.Raised?
    ensures r.Ok? && r.value.Invoke? ==> IsToolName(data["tool"])
  {
    if "tool" !in data then Raised("KeyError: 'tool'")
    else if "args" !in data then Raised("KeyError: 'args'")
    else
      var name, args := data["tool"], data["args"];
      match ToolNamed(name)
      case None => Ok(Answer(UnknownToolMessage(Shown(Some(name)))))
      case Some(tool) =>
        if !args.JObj? then Raised("AttributeError: 'get'")
        else
          var fields := args.fields;
          match tool
          case WriteFileTool => Ok(Gate(Get(fields, "filepath"), Get(fields, "content"), review))
          case ExecuteShellTool => Ok(Invoke(ExecuteShell(Get(fields, "command"))))
          case ReadFileTool => Ok(Invoke(ReadFile(Get(fields, "filepath"))))
          case ListFilesTool => Ok(Invoke(ListFiles(if "path" in fields then fields["path"] else JStr("."))))
          case RunPythonTool => Ok(Invoke(RunPython(Get(fields, "code"))))
  }

  /** Dispatch: each tool name reaches its own tool with the argument it names,
      `list_files` defaulting its path to "."; an unknown name answers with an
      error message and invokes nothing. */
  lemma PlanDispatch(data: map<string, Json>, review: Reviewer)
    requires "tool" in data && "args" in data
    ensures !IsToolName(data["tool"]) ==>
              Plan(data, review) == Ok(Answer(UnknownToolMessage(Shown(Some(data["tool"])))))
    ensures IsToolName(data["tool"]) && !data["args"].JObj? ==> Plan(data, review).Raised?
    ensures data["args"].JObj? ==>
      var fields := data["args"].fields;
      && (data["tool"] == JStr("execute_shell") ==> Plan(data, review) == Ok(Invoke(ExecuteShell(Get(fields, "command")))))
      && (data["tool"] == JStr("read_file") ==> Plan(data, review) == Ok(Invoke(ReadFile(Get(fields, "filepath")))))
      && (data["tool"] == JStr("run_python") ==> Plan(data, review) == Ok(Invoke(RunPython(Get(fields, "code")))))
      && (data["tool"] == JStr("list_files") && "path" !in fields ==> Plan(data, review) == Ok(Invoke(ListFiles(JStr(".")))))
      && (data["tool"] == JStr("list_files") && "path" in fields ==> Plan(data, review) == Ok(Invoke(ListFiles(fields["path"]))))
  {
  }

  /** The reviewer gate as `run_tool` applies it: `write_file` is refused exactly
      when the status is "REJECTED" (any other status, "ERROR" included, goes on
      to write), and a refusal writes nothing and names the feedback. */
  lemma {:induction false} WriteFileGate(data: map<string, Json>, review: Reviewer)
    requires "tool" in data && "args" in data && data["tool"] == JStr("write_file") && data["args"].JObj?
    ensures
      var fields := data["args"].fields;
      var filepath, content := Get(fields, "filepath"), Get(fields, "content");
      var verdict := review(content, ReviewContext(filepath));
      && Plan(data, review).Ok?
      && (Plan(data, review).value.Invoke? <==> Get(verdict, "status") != Some(JStr("REJECTED")))
      && (Plan(data, review).value.Invoke? ==> Plan(data, review).value.call == WriteFile(filepath, content))
      && ("feedback" !in verdict && Get(verdict, "status") == Some(JStr("REJECTED")) ==>
            Plan(data, review) == Ok(Answer(BlockedMessage(DefaultFeedback))))
  {
    var fields := data["args"].fields;
    var filepath, content := Get(fields, "filepath"), Get(fields, "content");
    assert Plan(data, review) == Ok(Gate(filepath, content, review));
  }

  /** What a tool does with arguments it accepts, given the turn it runs in: its
      output, or an exception from the console confirmation (`input()` may raise)
      that its own `try` does not cover. */
  type Tools = (nat, ToolCall) -> Result<string>

  /** The `TypeError` a tool raises on its arguments before reaching its `try`:
      `os.path.join` on a file path that is not a string (`read_file`,
      `write_file`), `len(None)` on a missing `write_file` content, and
      `code[:200] + "..."` on `run_python` code that is not a string. */
  function ArgumentFault(call: ToolCall): Option<string> {
    match call
    case ReadFile(filepath) => if filepath.Some? && filepath.value.JStr? then None else Some(PathJoinError)
    case WriteFile(filepath, content) =>
      if !(filepath.Some? && filepath.value.JStr?) then Some(PathJoinError)
      else if content.None? then Some("TypeError: object of type 'NoneType' has no len()")
      else None
    case RunPython(code) => if code.Some? && code.value.JStr? then None else Some("TypeError: code[:200] + '...'")
    case ExecuteShell(_) => None
    case ListFiles(_) => None
  }

  const PathJoinError := "TypeError: os.path.join() argument must be str"

  function ListFilesErrorMessage(e: string): string {
    "❌ Erro ao listar arquivos: " + e
  }

  /** `self.tools.<name>(...)`: an argument fault raises; `list_files` catches
      every exception of the shell call it makes; the other tools raise what the
      confirmation raises and otherwise return their output. */
  function Perform(call: ToolCall, turn: nat, tools: Tools): (r: Result<string>)
    ensures ArgumentFault(call).Some? ==> r == Raised(ArgumentFault(call).value)
    ensures call.ListFiles? ==> r.Ok?
    ensures !call.ListFiles? && ArgumentFault(call).None? ==> r == tools(turn, call)
  {
    match ArgumentFault(call)
    case Some(e) => Raised(e)
    case None =>
      if call.ListFiles? then
        match tools(turn, call)
        case Raised(e) => Ok(ListFilesErrorMessage(e))
        case Ok(output) => Ok(output)
      else
        tools(turn, call)
  }

  /** The oracles a turn consults: the model (which never raises: `_chat` turns
      API errors into text), the JSON parser, the reviewer, and the tools. */
  datatype Env = Env(llm: seq<Message> -> string, parse: Parser, review: Reviewer, tools: Tools)

  /** `run_tool` */
  function RunTool(data: map<string, Json>, turn: nat, env: Env): (r: Result<string>)
    ensures r.Raised? <==>
      || Plan(data, env.review).Raised?
      || (Plan(data, env.review).value.Invoke? && Perform(Plan(data, env.review).value.call, turn, env.tools).Raised?)
    ensures Plan(data, env.review).Ok? && Plan(data, env.review).value.Answer? ==>
              r == Ok(Plan(data, env.review).value.text)
  {
    match Plan(data, env.review)
    case Raised(e) => Raised(e)
    case Ok(Answer(text)) => Ok(text)
    case Ok(Invoke(call)) => Perform(call, turn, env.tools)
  }

  /** A tool call whose file path or code is missing raises out of `run_tool`,
      whatever the tools and the console would do; so does a `write_file` the
      reviewer lets through without content.  A `list_files` call never raises. */
  lemma MissingArgumentRaises(data: map<string, Json>, turn: nat, env: Env)
    requires "tool" in data && "args" in data && data["args"].JObj?
    ensures var fields := data["args"].fields;
      && (data["tool"] == JStr("read_file") && "filepath" !in fields ==> RunTool(data, turn, env).Raised?)
      && (data["tool"] == JStr("run_python") && "code" !in fields ==> RunTool(data, turn, env).Raised?)
      && (var approved := Get(env.review(None, ReviewContext(Get(fields, "filepath"))), "status") != Some(JStr("REJECTED"));
          data["tool"] == JStr("write_file") && "content" !in fields && approved ==> RunTool(data, turn, env).Raised?)
      && (data["tool"] == JStr("list_files") ==> RunTool(data, turn, env).Ok?)
  {
    if data["tool"] == JStr("write_file") {
      WriteFileGate(data, env.review);
    }
  }

  // ------------------------------------------------------------ the loop

  const MaxTurns := 5
  const DefaultMaxContext := 20

  /** One model response inside `chat_loop`. */
  datatype Turn = ToolTurn(response: string, tool: Json, result: string) | TextTurn(response: string)

  /** A finished loop carries the final reply; a crashed one the exception that
      `run_tool` raised, which leaves `chat_loop`. */
  datatype Outcome = Finished(turns: seq<Turn>, reply: string) | Crashed(turns: seq<Turn>, error: string)

  function ToolResultMessage(tool: Json, result: string): string {
    "TOOL_RESULT (" + Shown(Some(tool)) + "): " + result
  }

  /** The messages a turn appends to the history. */
  function TurnMessages(t: Turn): (ms: seq<Message>)
    ensures t.ToolTurn? ==> |ms| == 2 && ms[0] == Message(Assistant, t.response) && ms[1].role == System
    ensures t.TextTurn? ==> ms == [Message(Assistant, t.response)]
  {
    match t
    case ToolTurn(response, tool, result) =>
      [Message(Assistant, response), Message(System, ToolResultMessage(tool, result))]
    case TextTurn(response) => [Message(Assistant, response)]
  }

  function Flatten(turns: seq<Turn>): seq<Message> {
    if turns == [] then [] else Flatten(turns[..|turns| - 1]) + TurnMessages(turns[|turns| - 1])
  }

  function Prepend(t: Turn, o: Outcome): Outcome {
    match o
    case Finished(turns, reply) => Finished([t] + turns, reply)
    case Crashed(turns, error) => Crashed([t] + turns, error)
  }

  /** What one turn of `chat_loop` does with history `h`: the model answers; a
      text answer ends the loop, a tool call runs (or raises). */
  datatype Move = Reply(response: string) | ToolDone(response: string, tool: Json, result: string) | Fail(error: string)

  function Next(h: seq<Message>, turn: nat, env: Env): Move
  {
    var response := env.llm(h);
    match ProcessToolCall(response, env.parse)
    case None => Reply(response)
    case Some(data) =>
      match RunTool(data, turn, env)
      case Raised(e) => Fail(e)
      case Ok(result) => ToolDone(response, data["tool"], result)
  }

  /** `step` takes the turns that `env` takes. */
  ghost predicate TakesTurnsOf(step: Stepper, env: Env) {
    forall h, turn {:trigger Next(h, turn, env)} :: step(h, turn) == Next(h, turn, env)
  }

  /** How a turn goes, given the history and the turn number. */
  type Stepper = (seq<Message>, nat) -> Move

  /** The turn `chat_loop` takes with the oracles of `env`. */
  function StepOf(env: Env): Stepper {
    (h: seq<Message>, turn: nat) => Next(h, turn, env)
  }

  /** The turns of `chat_loop` from turn number `turn` on, given the history so
      far; a tool turn appends its two messages and moves to the next turn. */
  function Run(h: seq<Message>, turn: nat, step: Stepper): (o: Outcome)
    requires turn <= MaxTurns
    ensures |o.turns| <= MaxTurns - turn
    decreases MaxTurns - turn
  {
    if turn == MaxTurns then Finished([], "")
    else
      match step(h, turn)
      case Reply(response) => Finished([TextTurn(response)], response)
      case Fail(e) => Crashed([], e)
      case ToolDone(response, tool, result) =>
        var t := ToolTurn(response, tool, result);
        Prepend(t, Run(h + TurnMessages(t), turn + 1, step))
  }

  /** Number of model calls a run makes: one per turn, plus the call whose tool
      raised. */
  function ModelCalls(o: Outcome): nat {
    match o
    case Finished(turns, _) => |turns|
    case Crashed(turns, _) => |turns| + 1
  }

  /** Every turn but the last is a tool turn; a crash happens before the turns
      run out; a loop that ends without a text turn has used every turn and
      replies with the empty string. */
  lemma RunShape(h: seq<Message>, turn: nat, step: Stepper)
    requires turn <= MaxTurns
    ensures var o := Run(h, turn, step);
      && (forall k :: 0 <= k < |o.turns| - 1 ==> o.turns[k].ToolTurn?)
      && (o.Crashed? ==> AllTools(o.turns) && |o.turns| < MaxTurns - turn)
      && (o.Finished? && AllTools(o.turns) ==> |o.turns| == MaxTurns - turn && o.reply == "")
  {
    RunToolsFirst(h, turn, step);
    RunCrashesEarly(h, turn, step);
    RunExhausted(h, turn, step);
  }

  lemma {:induction false} RunToolsFirst(h: seq<Message>, turn: nat, step: Stepper)
    requires turn <= MaxTurns
    ensures var o := Run(h, turn, step);
      forall k :: 0 <= k < |o.turns| - 1 ==> o.turns[k].ToolTurn?
    decreases MaxTurns - turn
  {
    if turn < MaxTurns && step(h, turn).ToolDone? {
      var m := step(h, turn);
      var t := ToolTurn(m.response, m.tool, m.result);
      var rest := Run(h + TurnMessages(t), turn + 1, step);
      RunToolsFirst(h + TurnMessages(t), turn + 1, step);
      RunRunsTool(h, turn, step);
      assert forall k :: 1 <= k < |rest.turns| + 1 ==> ([t] + rest.turns)[k] == rest.turns[k - 1];
    }
  }

  lemma {:induction false} RunCrashesEarly(h: seq<Message>, turn: nat, step: Stepper)
    requires turn <= MaxTurns
    ensures var o := Run(h, turn, step);
      o.Crashed? ==> AllTools(o.turns) && |o.turns| < MaxTurns - turn
    decreases MaxTurns - turn
  {
    if turn < MaxTurns && step(h, turn).ToolDone? {
      var m := step(h, turn);
      var t := ToolTurn(m.response, m.tool, m.result);
      var rest := Run(h + TurnMessages(t), turn + 1, step);
      RunCrashesEarly(h + TurnMessages(t), turn + 1, step);
      RunRunsTool(h, turn, step);
      AllToolsPrepend(t, rest.turns);
    }
  }

  lemma {:induction false} RunExhausted(h: seq<Message>, turn: nat, step: Stepper)
    requires turn <= MaxTurns
    ensures var o := Run(h, turn, step);
      o.Finished? && AllTools(o.turns) ==> |o.turns| == MaxTurns - turn && o.reply == ""
    decreases MaxTurns - turn
  {
    if turn < MaxTurns {
      match step(h, turn)
      case Reply(response) =>
        assert Run(h, turn, step).turns[0].TextTurn?;
      case Fail(e) =>
      case ToolDone(response, tool, result) =>
        var t := ToolTurn(response, tool, result);
        var rest := Run(h + TurnMessages(t), turn + 1, step);
        RunExhausted(h + TurnMessages(t), turn + 1, step);
        RunRunsTool(h, turn, step);
        AllToolsPrepend(t, rest.turns);
    }
  }

  /** Every turn of `turns` is a tool turn. */
  predicate AllTools(turns: seq<Turn>) {
    forall k :: 0 <= k < |turns| ==> turns[k].ToolTurn?
  }

  lemma AllToolsPrepend(t: Turn, turns: seq<Turn>)
    ensures AllTools([t] + turns) <==> t.ToolTurn? && AllTools(turns)
  {
    if AllTools([t] + turns) {
      assert t == ([t] + turns)[0];
      forall k | 0 <= k < |turns|
        ensures turns[k].ToolTurn?
      {
        assert turns[k] == ([t] + turns)[k + 1];
      }
    }
  }

  /** A loop that ends with a text turn replies with that turn's response. */
  lemma {:induction false} RunEndsWithReply(h: seq<Message>, turn: nat, step: Stepper)
    requires turn <= MaxTurns
    ensures var o := Run(h, turn, step);
      o.Finished? && o.turns != [] && o.turns[|o.turns| - 1].TextTurn? ==>
        o.reply == o.turns[|o.turns| - 1].response
    decreases MaxTurns - turn
  {
    var o := Run(h, turn, step);
    if turn < MaxTurns {
      match step(h, turn)
      case Reply(response) =>
      case Fail(e) =>
      case ToolDone(response, tool, result) =>
        var t := ToolTurn(response, tool, result);
        var rest := Run(h + TurnMessages(t), turn + 1, step);
        RunEndsWithReply(h + TurnMessages(t), turn + 1, step);
        assert o.turns == [t] + rest.turns;
        if rest.turns != [] {
          assert o.turns[|o.turns| - 1] == rest.turns[|rest.turns| - 1];
        }
    }
  }

  /** The model is called at most once per remaining turn, so `chat_loop`
      calls it at most five times. */
  lemma {:induction false} RunCalls(h: seq<Message>, turn: nat, step: Stepper)
    requires turn <= MaxTurns
    ensures ModelCalls(Run(h, turn, step)) <= MaxTurns - turn
    decreases MaxTurns - turn
  {
    if turn < MaxTurns {
      match step(h, turn)
      case Reply(_) =>
      case Fail(_) =>
      case ToolDone(response, tool, result) =>
        RunCalls(h + TurnMessages(ToolTurn(response, tool, result)), turn + 1, step);
    }
  }

  /** The history grows by two messages per tool turn and one per text turn. */
  lemma {:induction false} FlattenLength(turns: seq<Turn>)
    requires forall k :: 0 <= k < |turns| - 1 ==> turns[k].ToolTurn?
    ensures |Flatten(turns)| == 2 * |turns| - (if turns != [] && turns[|turns| - 1].TextTurn? then 1 else 0)
  {
    if turns != [] {
      var init := turns[..|turns| - 1];
      assert forall k :: 0 <= k < |init| ==> init[k].ToolTurn? by {
        forall k | 0 <= k < |init| ensures init[k].ToolTurn? {
          assert init[k] == turns[k];
        }
      }
      FlattenLength(init);
    }
  }

  lemma {:induction false} FlattenPrepend(t: Turn, turns: seq<Turn>)
    ensures Flatten([t] + turns) == TurnMessages(t) + Flatten(turns)
    decreases |turns|
  {
    if turns == [] {
      assert [t] + turns == [t];
      assert [t][..0] == [];
    } else {
      var all := [t] + turns;
      assert all[..|all| - 1] == [t] + turns[..|turns| - 1];
      FlattenPrepend(t, turns[..|turns| - 1]);
    }
  }

  // ------------------------------------------------------------ the agent

  const CodeSystemPrompt :=
    "Você é CodeJade, um assistente de programação avançado (estilo Cursor AI).\n"
    + "Seu objetivo é ajudar o usuário a escrever código, corrigir bugs e explorar o projeto.\n\n"
    + "FERRAMENTAS DISPONÍVEIS:\n"
    + "Você tem acesso a ferramentas. Para usá-las, você DEVE responder APENAS com um bloco JSON estrito no seguinte formato:\n"
    + "{\"tool\": \"nome_da_ferramenta\", \"args\": {\"arg1\": \"valor1\"}}\n\n"
    + "As ferramentas são:\n"
    + "1. execute_shell(command: str) -> Executa comandos bash (ls, pip, git, etc).\n"
    + "2. read_file(filepath: str) -> Lê o conteúdo de um arquivo.\n"
    + "3. write_file(filepath: str, content: str) -> Cria ou sobrescreve um arquivo.\n"
    + "4. list_files(path: str) -> Lista arquivos.\n"
    + "5. run_python(code: str) -> Executa script Python.\n\n"
    + "REGRAS:\n"
    + "- Se precisar de informações, use 'list_files' ou 'read_file'.\n"
    + "- Se precisar rodar algo, use 'execute_shell' ou 'run_python'.\n"
    + "- Se for apenas conversar ou explicar, responda em texto normal (sem JSON).\n"
    + "- Mantenha respostas diretas e técnicas.\n"
    + "- Sempre verifique se o código funciona rodando-o se possível.\n\n"
    + "EXEMPLO DE USO:\n"
    + "Usuário: \"Crie um hello world em python\"\n"
    + "CodeJade: {\"tool\": \"write_file\", \"args\": {\"filepath\": \"hello.py\", \"content\": \"print('Hello World')\"}}\n"
    + "(Sistema executa e retorna sucesso)\n"
    + "CodeJade: \"Arquivo criado. Quer que eu execute?\"\n"

  class CodeJadeAgent {
    var history: seq<Message>
    /** `cfg.get("max_context", 20)` */
    const maxContext: int

    ghost predicate Valid()
      reads this
    {
      history != []
    }

    /** `__init__`: the history holds the system prompt alone. */
    constructor (configuredMaxContext: Option<int>)
      ensures Valid()
      ensures history == [Message(System, CodeSystemPrompt)]
      ensures maxContext == configuredMaxContext.GetOr(DefaultMaxContext)
    {
      history := [Message(System, CodeSystemPrompt)];
      maxContext := configuredMaxContext.GetOr(DefaultMaxContext);
    }

    /** `_manage_memory`: the same trimming as `slim_history`, with the
        configured context size. */
    method ManageMemory()
      requires Valid()
      modifies this
      ensures Valid()
      ensures history == SlimHistory(old(history), maxContext)
    {
      if |history| > maxContext {
        history := [history[0]] + SliceFrom(history, -(maxContext - 1));
      }
    }

    /** `chat_loop`: the user's message is appended, then up to five model
        turns run.  A finished loop trims the history and returns the reply; an
        exception from `run_tool` leaves the loop and the method untrimmed. */
    method ChatLoop(userInput: string, env: Env) returns (r: Result<string>)
      requires Valid()
      modifies this
      ensures Valid()
      ensures (r, history) == ChatLoopEffect(old(history), userInput, StepOf(env), maxContext)
    {
      var final;
      r, final := Turns(history + [Message(User, userInput)], env, StepOf(env));
      history := final;
      if r.Ok? {
        ManageMemory();
      }
    }
  }

  /** The loop of `chat_loop` on the history `h` that already ends with the
      user's message: the reply (or the exception of a tool) and the history
      the loop leaves behind. */
  method Turns(h0: seq<Message>, env: Env, ghost step: Stepper) returns (r: Result<string>, h: seq<Message>)
    requires h0 != [] && TakesTurnsOf(step, env)
    ensures h != []
    ensures var (o, final) := Loop(h0, 0, [], step);
      h == final && r == (if o.Finished? then Ok(o.reply) else Raised(o.error))
  {
    h := h0;
    ghost var done: seq<Turn> := [];
    var turn := 0;
    var finalResponse := "";
    while turn < MaxTurns
      invariant 0 <= turn <= MaxTurns
      invariant Loop(h0, 0, [], step) == Loop(h, turn, done, step)
      invariant finalResponse == "" && h != []
      decreases MaxTurns - turn
    {
      var move := TakeTurn(h, turn, env, step);
      match move
      case Fail(error) =>
        LoopFails(h, turn, done, step);
        return Raised(error), h;
      case ToolDone(response, tool, result) =>
        LoopRunsTool(h, turn, done, step);
        h := h + [Message(Assistant, response), Message(System, ToolResultMessage(tool, result))];
        done := done + [ToolTurn(response, tool, result)];
        turn := turn + 1;
      case Reply(response) =>
        LoopReplies(h, turn, done, step);
        finalResponse := response;
        h := h + [Message(Assistant, finalResponse)];
        done := done + [TextTurn(response)];
        break;
    }
    if turn == MaxTurns {
      LoopAtEnd(h, done, step);
    }
    r := Ok(finalResponse);
  }

  /** One turn of `chat_loop`'s loop on history `h`: the model is called; a
      response that is no tool call is the reply, otherwise the tool runs, and
      its exception, if any, ends the loop. */
  method TakeTurn(h: seq<Message>, turn: nat, env: Env, ghost step: Stepper) returns (move: Move)
    requires TakesTurnsOf(step, env)
    ensures move == step(h, turn)
  {
    assert step(h, turn) == Next(h, turn, env);
    var response := env.llm(h);
    var toolData := ProcessToolCall(response, env.parse);
    if toolData.None? {
      return Reply(response);
    }
    var toolResult := RunTool(toolData.value, turn, env);
    if toolResult.Raised? {
      return Fail(toolResult.error);
    }
    return ToolDone(response, toolData.value["tool"], toolResult.value);
  }

  /** The loop as `chat_loop` runs it: the turns taken so far are carried in
      `done`, and the history grows as each turn appends its messages.  The
      result is the outcome and the history the loop leaves behind. */
  function Loop(h: seq<Message>, turn: nat, done: seq<Turn>, step: Stepper): (r: (Outcome, seq<Message>))
    requires turn <= MaxTurns
    ensures |r.1| >= |h|
    decreases MaxTurns - turn
  {
    if turn == MaxTurns then (Finished(done, ""), h)
    else
      match step(h, turn)
      case Reply(response) => (Finished(done + [TextTurn(response)], response), h + [Message(Assistant, response)])
      case Fail(e) => (Crashed(done, e), h)
      case ToolDone(response, tool, result) =>
        var t := ToolTurn(response, tool, result);
        Loop(h + TurnMessages(t), turn + 1, done + [t], step)
  }

  /** The loop does what `Run` describes: its outcome is `Run`'s, after the
      turns already taken, and its history is the starting one followed by the
      messages of every turn of the run. */
  lemma {:induction false} LoopIsRun(h: seq<Message>, turn: nat, done: seq<Turn>, step: Stepper)
    requires turn <= MaxTurns
    ensures Loop(h, turn, done, step).0 == PrependAll(done, Run(h, turn, step))
    ensures Loop(h, turn, done, step).1 == h + Flatten(Run(h, turn, step).turns)
    decreases MaxTurns - turn
  {
    if turn == MaxTurns {
      assert done + [] == done && h + [] == h;
    } else {
      match step(h, turn)
      case Reply(response) =>
        assert [TextTurn(response)][..0] == [];
        assert Flatten([TextTurn(response)]) == [Message(Assistant, response)];
      case Fail(e) =>
        assert done + [] == done && h + [] == h;
      case ToolDone(response, tool, result) =>
        var t := ToolTurn(response, tool, result);
        var h' := h + TurnMessages(t);
        LoopIsRun(h', turn + 1, done + [t], step);
        LoopRunsTool(h, turn, done, step);
        RunRunsTool(h, turn, step);
        var rest := Run(h', turn + 1, step);
        PrependAllStep(done, t, rest);
        HistoryStep(h, t, rest.turns);
    }
  }

  /** With no turns left the loop stops with the empty reply. */
  lemma LoopAtEnd(h: seq<Message>, done: seq<Turn>, step: Stepper)
    ensures Loop(h, MaxTurns, done, step) == (Finished(done, ""), h)
  {
  }

  /** A tool that raises stops the loop with the history as it stands. */
  lemma LoopFails(h: seq<Message>, turn: nat, done: seq<Turn>, step: Stepper)
    requires turn < MaxTurns && step(h, turn).Fail?
    ensures Loop(h, turn, done, step) == (Crashed(done, step(h, turn).error), h)
  {
  }

  /** A text response stops the loop and is appended to the history. */
  lemma LoopReplies(h: seq<Message>, turn: nat, done: seq<Turn>, step: Stepper)
    requires turn < MaxTurns && step(h, turn).Reply?
    ensures var r := step(h, turn).response;
      Loop(h, turn, done, step) == (Finished(done + [TextTurn(r)], r), h + [Message(Assistant, r)])
  {
  }

  /** A tool turn appends its two messages and moves on to the next turn. */
  lemma LoopRunsTool(h: seq<Message>, turn: nat, done: seq<Turn>, step: Stepper)
    requires turn < MaxTurns && step(h, turn).ToolDone?
    ensures var m := step(h, turn);
      var t := ToolTurn(m.response, m.tool, m.result);
      Loop(h, turn, done, step) == Loop(h + TurnMessages(t), turn + 1, done + [t], step)
  {
  }

  /** A tool turn runs on from the next turn with its messages appended. */
  lemma RunRunsTool(h: seq<Message>, turn: nat, step: Stepper)
    requires turn < MaxTurns && step(h, turn).ToolDone?
    ensures var m := step(h, turn);
      var t := ToolTurn(m.response, m.tool, m.result);
      Run(h, turn, step) == Prepend(t, Run(h + TurnMessages(t), turn + 1, step))
  {
  }

  /** The history after a first turn and the rest. */
  lemma HistoryStep(h: seq<Message>, t: Turn, turns: seq<Turn>)
    ensures h + Flatten([t] + turns) == h + TurnMessages(t) + Flatten(turns)
  {
    FlattenPrepend(t, turns);
  }

  /** What `chat_loop` returns and leaves in the history, given how each turn
      goes: a finished loop trims its history and returns the reply, an
      exception from `run_tool` leaves the loop (and the method) untrimmed. */
  function ChatLoopEffect(h: seq<Message>, userInput: string, step: Stepper, keep: int): (Result<string>, seq<Message>) {
    var (o, final) := Loop(h + [Message(User, userInput)], 0, [], step);
    match o
    case Finished(_, reply) => (Ok(reply), SlimHistory(final, keep))
    case Crashed(_, error) => (Raised(error), final)
  }

  /** `chat_loop` in terms of its run: the user's message and the messages of
      every turn are appended; a finished loop trims the history and returns
      the reply, a crashed one returns the exception with the history untrimmed. */
  lemma ChatLoopEffectIsRun(h: seq<Message>, userInput: string, step: Stepper, keep: int)
    ensures
      var start := h + [Message(User, userInput)];
      var o := Run(start, 0, step);
      ChatLoopEffect(h, userInput, step, keep)
        == if o.Finished? then (Ok(o.reply), SlimHistory(start + Flatten(o.turns), keep))
           else (Raised(o.error), start + Flatten(o.turns))
  {
    var start := h + [Message(User, userInput)];
    LoopIsRun(start, 0, [], step);
    assert [] + Run(start, 0, step).turns == Run(start, 0, step).turns;
  }

  /** Prefixes an outcome with turns that already happened. */
  function PrependAll(done: seq<Turn>, o: Outcome): Outcome {
    match o
    case Finished(turns, reply) => Finished(done + turns, reply)
    case Crashed(turns, error) => Crashed(done + turns, error)
  }

  lemma PrependAllStep(done: seq<Turn>, t: Turn, o: Outcome)
    ensures PrependAll(done, Prepend(t, o)) == PrependAll(done + [t], o)
  {
    assert done + ([t] + o.turns) == done + [t] + o.turns;
  }
}
