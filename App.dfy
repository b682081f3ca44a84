/** The backend's `/execute` handler: the allow-list check and the choice
    of response, as functions of the decoded request body and of what
    running the command produced. Python's own behaviour for the
    operations the handler applies to an arbitrary JSON value (truth
    testing, `in`, subscripting, `str.startswith`) is written out,
    including the exceptions they raise. */
module App {
  import opened Strings

  /** A value `request.json` can produce: JSON decoded into Python objects. */
  datatype PyValue =
    | PyNone
    | PyBool(b: bool)
    | PyInt(i: int)
    | PyFloat(f: real)
    | PyStr(s: string)
    | PyList(items: seq<PyValue>)
    | PyDict(entries: map<string, PyValue>)

  /** A Python evaluation either returns a value or raises an exception,
      here reduced to the text `str(e)` gives. */
  datatype Py<T> = Return(value: T) | Raise(message: string)

  /** `type(v).__name__`. */
  function TypeName(v: PyValue): string
  {
    match v
    case PyNone => "NoneType"
    case PyBool(_) => "bool"
    case PyInt(_) => "int"
    case PyFloat(_) => "float"
    case PyStr(_) => "str"
    case PyList(_) => "list"
    case PyDict(_) => "dict"
  }

  /** `bool(v)`: `None`, `False`, zero and empty containers are false. */
  predicate Truthy(v: PyValue)
  {
    match v
    case PyNone => false
    case PyBool(b) => b
    case PyInt(i) => i != 0
    case PyFloat(f) => f != 0.0
    case PyStr(s) => s != ""
    case PyList(items) => items != []
    case PyDict(entries) => entries != map[]
  }

  /** `key in v` for a string `key`: a key of a dict, an element of a list,
      a substring of a string; any other value is not iterable. */
  function Contains(v: PyValue, key: string): (r: Py<bool>)
    ensures r.Raise? <==> !(v.PyDict? || v.PyList? || v.PyStr?)
    ensures v.PyDict? ==> r == Return(key in v.entries)
  {
    match v
    case PyDict(entries) => Return(key in entries)
    case PyList(items) => Return(PyStr(key) in items)
    case PyStr(s) => Return(ContainsSubstring(s, key))
    case _ => Raise("argument of type '" + TypeName(v) + "' is not iterable")
  }

  /** `v[key]` for a string `key`: only a dict holding the key gives a value. */
  function Subscript(v: PyValue, key: string): (r: Py<PyValue>)
    ensures r.Return? <==> v.PyDict? && key in v.entries
    ensures r.Return? ==> r.value == v.entries[key]
  {
    match v
    case PyDict(entries) => if key in entries then Return(entries[key]) else Raise("'" + key + "'")
    case PyList(_) => Raise("list indices must be integers or slices, not str")
    case PyStr(_) => Raise("string indices must be integers, not 'str'")
    case _ => Raise("'" + TypeName(v) + "' object is not subscriptable")
  }

  /** `v.startswith(prefix)`: only strings have the method. */
  function StartsWithMethod(v: PyValue, prefix: string): (r: Py<bool>)
    ensures r.Raise? <==> !v.PyStr?
    ensures v.PyStr? ==> r == Return(StartsWith(v.s, prefix))
  {
    match v
    case PyStr(s) => Return(StartsWith(s, prefix))
    case _ => Raise("'" + TypeName(v) + "' object has no attribute 'startswith'")
  }

  /** `allowed_commands`. */
  const AllowedCommands: seq<string> := ["lk dispatch create"]

  /** `any(command.startswith(prefix) for prefix in prefixes)`: the
      generator is consumed in order, stops at the first true test, and
      passes on the first exception. */
  function AnyPrefix(command: PyValue, prefixes: seq<string>): (r: Py<bool>)
    decreases |prefixes|
  {
    if prefixes == [] then Return(false)
    else
      match StartsWithMethod(command, prefixes[0])
      case Raise(message) => Raise(message)
      case Return(true) => Return(true)
      case Return(false) => AnyPrefix(command, prefixes[1..])
  }

  /** `is_command_allowed`. */
  function IsCommandAllowed(command: PyValue): Py<bool>
  {
    AnyPrefix(command, AllowedCommands)
  }

  /** A string is allowed exactly when one of the prefixes starts it; any
      other value makes the first test raise, if there is a test at all. */
  lemma {:induction false} AnyPrefixSpec(command: PyValue, prefixes: seq<string>)
    ensures command.PyStr? ==>
      AnyPrefix(command, prefixes)
        == Return(exists i :: 0 <= i < |prefixes| && StartsWith(command.s, prefixes[i]))
    ensures !command.PyStr? && prefixes != [] ==>
      AnyPrefix(command, prefixes) == Raise("'" + TypeName(command) + "' object has no attribute 'startswith'")
  {
    if prefixes != [] {
      AnyPrefixSpec(command, prefixes[1..]);
      if command.PyStr? {
        if !StartsWith(command.s, prefixes[0]) {
          assert (exists i :: 0 <= i < |prefixes| && StartsWith(command.s, prefixes[i]))
            <==> (exists j :: 0 <= j < |prefixes[1..]| && StartsWith(command.s, prefixes[1..][j])) by {
            forall i | 0 < i < |prefixes| ensures prefixes[i] == prefixes[1..][i - 1] { }
          }
        }
      }
    }
  }

  /** A string command is allowed exactly when it starts with
      `lk dispatch create`; a command of any other type raises the
      `AttributeError` of its missing `startswith`. */
  lemma AllowedIff(command: PyValue)
    ensures command.PyStr? ==>
      IsCommandAllowed(command) == Return(StartsWith(command.s, "lk dispatch create"))
    ensures !command.PyStr? ==>
      IsCommandAllowed(command) == Raise("'" + TypeName(command) + "' object has no attribute 'startswith'")
  {
    AnyPrefixSpec(command, AllowedCommands);
    if command.PyStr? {
      assert (exists i :: 0 <= i < |AllowedCommands| && StartsWith(command.s, AllowedCommands[i]))
        == StartsWith(command.s, AllowedCommands[0]);
    }
  }

  /** Extending an allowed command keeps it allowed: the check only looks
      at how the command begins. */
  lemma AppendKeepsAllowed(c: string, tail: string)
    requires IsCommandAllowed(PyStr(c)) == Return(true)
    ensures IsCommandAllowed(PyStr(c + tail)) == Return(true)
  {
    AllowedIff(PyStr(c));
    AllowedIff(PyStr(c + tail));
    StartsWithAppend(c, "lk dispatch create", tail);
  }

  /** What `request.json` yields: a decoded value, or the exception raised
      when the body is not JSON or is not sent as JSON. */
  datatype RequestBody = Json(value: PyValue) | Unreadable(message: string)

  /** What `subprocess.run` produced: a finished process, or an exception. */
  datatype RunOutcome = Completed(returncode: int, stdout: string, stderr: string) | Failed(message: string)

  /** An HTTP status and the JSON object sent back. */
  datatype Response = Response(status: int, body: map<string, string>)

  /** The handler up to `subprocess.run`: either it has already answered,
      or it runs the command. */
  datatype Gate = Reply(response: Response) | Run(command: string)

  const NoCommand: Response := Response(400, map["error" := "No command provided"])
  const NotAllowed: Response := Response(403, map["error" := "Command not allowed"])

  /** The reply of the `except Exception` clause. */
  function ServerError(message: string): Response
  {
    Response(500, map["error" := message])
  }

  /** The handler's checks before the command runs, in order: a falsy body
      or one without `command`, the lookup of `command`, the allow-list.
      Each exception on the way is answered by the `except` clause. */
  function Screen(body: RequestBody): (g: Gate)
    ensures g.Run? ==>
      body.Json? && body.value.PyDict? && "command" in body.value.entries
      && body.value.entries["command"] == PyStr(g.command)
  {
    match body
    case Unreadable(message) => Reply(ServerError(message))
    case Json(data) =>
      if !Truthy(data) then Reply(NoCommand)
      else
        match Contains(data, "command")
        case Raise(message) => Reply(ServerError(message))
        case Return(false) => Reply(NoCommand)
        case Return(true) =>
          match Subscript(data, "command")
          case Raise(message) => Reply(ServerError(message))
          case Return(command) =>
            match IsCommandAllowed(command)
            case Raise(message) => Reply(ServerError(message))
            case Return(false) => Reply(NotAllowed)
            case Return(true) =>
              AllowedIff(command);
              Run(command.s)
  }

  /** The handler after `subprocess.run`: a non-zero exit status is an
      error carrying both streams, a zero one a success carrying the
      output, and an exception the message of the `except` clause. */
  function Finish(outcome: RunOutcome): (r: Response)
    ensures outcome.Completed? && outcome.returncode != 0 ==>
      r.status == 500 && r.body.Keys == {"output", "error", "status"}
      && r.body["output"] == outcome.stdout && r.body["error"] == outcome.stderr && r.body["status"] == "error"
    ensures outcome.Completed? && outcome.returncode == 0 ==>
      r.status == 200 && r.body.Keys == {"output", "status"}
      && r.body["output"] == outcome.stdout && r.body["status"] == "success"
    ensures outcome.Failed? ==> r == ServerError(outcome.message)
  {
    match outcome
    case Failed(message) => ServerError(message)
    case Completed(returncode, stdout, stderr) =>
      if returncode != 0 then
        Response(500, map["output" := stdout, "error" := stderr, "status" := "error"])
      else
        Response(200, map["output" := stdout, "status" := "success"])
  }

  /** `execute_command`, with `run` standing for `subprocess.run`. */
  function ExecuteCommand(body: RequestBody, run: string -> RunOutcome): Response
  {
    match Screen(body)
    case Reply(response) => response
    case Run(command) => Finish(run(command))
  }

  /** A falsy body, or one that holds no `command`, gets the 400 reply
      whatever running a command would do. */
  lemma MissingCommand(data: PyValue, run: string -> RunOutcome)
    requires !Truthy(data) || Contains(data, "command") == Return(false)
    ensures ExecuteCommand(Json(data), run) == NoCommand
  {
  }

  /** A string command outside the allow-list gets the 403 reply and the
      command is not run. */
  lemma RefusedCommand(entries: map<string, PyValue>, c: string, run: string -> RunOutcome)
    requires "command" in entries && entries["command"] == PyStr(c)
    requires !StartsWith(c, "lk dispatch create")
    ensures Screen(Json(PyDict(entries))) == Reply(NotAllowed)
    ensures ExecuteCommand(Json(PyDict(entries)), run) == NotAllowed
  {
    AllowedIff(PyStr(c));
  }

  /** A command runs exactly when the body is a dict whose `command` is a
      string starting with `lk dispatch create`, and then it is that string. */
  lemma RunsOnlyAllowed(body: RequestBody)
    ensures Screen(body).Run? <==>
      body.Json? && body.value.PyDict? && "command" in body.value.entries
      && body.value.entries["command"].PyStr?
      && StartsWith(body.value.entries["command"].s, "lk dispatch create")
    ensures Screen(body).Run? ==> StartsWith(Screen(body).command, "lk dispatch create")
  {
    if body.Json? && body.value.PyDict? && "command" in body.value.entries {
      AllowedIff(body.value.entries["command"]);
    }
  }

  /** When the handler answers before running anything, what running a
      command would do makes no difference. */
  lemma ReplyIgnoresRun(body: RequestBody, run1: string -> RunOutcome, run2: string -> RunOutcome)
    requires Screen(body).Reply?
    ensures ExecuteCommand(body, run1) == ExecuteCommand(body, run2) == Screen(body).response
  {
  }

  /** A `command` that is not a string is answered with a 500 carrying the
      `AttributeError` message of the allow-list check. */
  lemma NonStringCommand(entries: map<string, PyValue>, run: string -> RunOutcome)
    requires "command" in entries && !entries["command"].PyStr?
    ensures ExecuteCommand(Json(PyDict(entries)), run)
      == ServerError("'" + TypeName(entries["command"]) + "' object has no attribute 'startswith'")
  {
    AllowedIff(entries["command"]);
  }

  /** A list holding the string "command" passes the membership test, but
      subscripting it with a string raises, so the reply is a 500. */
  lemma ListBodyIsServerError(run: string -> RunOutcome)
    ensures ExecuteCommand(Json(PyList([PyStr("command")])), run)
      == ServerError("list indices must be integers or slices, not str")
  {
  }

  /** An allowed command that runs is answered from its outcome alone. */
  lemma AllowedCommandRuns(entries: map<string, PyValue>, c: string, run: string -> RunOutcome)
    requires "command" in entries && entries["command"] == PyStr(c)
    requires StartsWith(c, "lk dispatch create")
    ensures Screen(Json(PyDict(entries))) == Run(c)
    ensures ExecuteCommand(Json(PyDict(entries)), run) == Finish(run(c))
  {
    AllowedIff(PyStr(c));
  }
}
