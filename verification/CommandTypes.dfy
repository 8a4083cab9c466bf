/** Commands, their stream events and the pure decisions the cloud command executor takes about them. */
module CommandTypes {
  import opened Prelude

  type Id = string

  /** A decoded JSON value. */
  datatype Json =
    | JNull
    | JBool(b: bool)
    | JNum(n: real)
    | JStr(s: string)
    | JArr(items: seq<Json>)
    | JObj(fields: map<string, Json>)

  datatype EventType = Status | Chunk | Reply | Error | Done

  datatype Outcome = Finished | Failed | Cancelled

  /** The fields of a cloud command that the executor itself looks at. */
  datatype Command = Command(
    id: Id, operationId: string, verb: string, path: string, lockKey: Option<string>, body: Json)

  datatype Event = Event(etype: EventType, data: Json)

  function AsRecord(v: Json): map<string, Json> {
    if v.JObj? then v.fields else map[]
  }

  predicate Flag(data: Json, name: string) {
    var r := AsRecord(data);
    name in r && r[name] == JBool(true)
  }

  predicate IsTerminalEvent(e: Event) {
    e.etype.Done? || ((e.etype.Error? || e.etype.Reply?) && Flag(e.data, "terminal"))
  }

  function ResolveTerminalState(e: Event): Outcome {
    if e.etype.Done? then (if Flag(e.data, "cancelled") then Cancelled else Finished)
    else if e.etype.Reply? then Finished
    else Failed
  }

  /** A string field is trimmed; an absent or non-string one counts as missing. A blank string stays "". */
  function TextField(r: map<string, Json>, name: string): Option<string> {
    if name in r && r[name].JStr? then Some(Trim(r[name].s)) else None
  }

  function FirstPresent(r: map<string, Json>, names: seq<string>): Option<string> {
    if names == [] then None
    else if TextField(r, names[0]).Some? then TextField(r, names[0])
    else FirstPresent(r, names[1..])
  }

  const SCOPE_FIELDS: seq<string> := ["repoPath", "worktreePath", "workDir", "runDir", "path"]

  /** The lock a command must own while it runs, if any. */
  function DeriveLockKey(c: Command): Option<string> {
    if c.lockKey.Some? && Trim(c.lockKey.value) != "" then Some(Trim(c.lockKey.value))
    else
      var scoped := FirstPresent(AsRecord(c.body), SCOPE_FIELDS);
      if scoped.None? || scoped.value == "" then None
      else Some(c.operationId + ":" + scoped.value)
  }

  function UpperChar(c: char): char {
    if 'a' <= c <= 'z' then (c as int - 32) as char else c
  }

  function Upper(s: string): (r: string)
  {
    seq(|s|, i requires 0 <= i < |s| => UpperChar(s[i]))
  }

  function ValidateCommand(c: Command): Option<string> {
    if Trim(c.id) == "" then Some("commandId is required")
    else if Upper(c.verb) !in {"GET", "POST", "PUT", "PATCH", "DELETE"} then Some("unsupported method")
    else if !("/api/gateway/" <= c.path) then Some("path must start with /api/gateway/")
    else None
  }

  /**
   * Maps one line of a gateway stream to an event. `parse` is the JSON parser (None when it throws);
   * a line whose value is JSON null also ends up as text, because reading a field of null throws.
   */
  function MapLine(parse: string -> Option<Json>, line: string): Event {
    var parsed := parse(line);
    if parsed.None? || parsed.value.JNull? then
      Event(Chunk, JObj(map["type" := JStr("text"), "content" := JStr(line)]))
    else
      var kind := AsRecord(parsed.value);
      var name := if "type" in kind && kind["type"].JStr? then kind["type"].s else "";
      Event(
        if name == "status" then Status
        else if name == "error" then Error
        else if name == "result" then Reply
        else if name == "done" then Done
        else Chunk,
        parsed.value)
  }

  /** The line is the JSON text of an object whose `type` is this string. */
  ghost predicate HasType(parse: string -> Option<Json>, line: string, name: string) {
    var v := parse(line);
    v.Some? && v.value.JObj? && "type" in v.value.fields && v.value.fields["type"] == JStr(name)
  }

  /** And which has this flag set to true. */
  ghost predicate HasFlag(parse: string -> Option<Json>, line: string, name: string) {
    var v := parse(line);
    v.Some? && v.value.JObj? && name in v.value.fields && v.value.fields[name] == JBool(true)
  }

  /** Four types of lines have events of their own, which carry the line's value; every other line is a chunk. */
  lemma LineEventIs(parse: string -> Option<Json>, line: string)
    ensures var e := MapLine(parse, line);
      && (e.etype == Status <==> HasType(parse, line, "status")) && (e.etype == Error <==> HasType(parse, line, "error"))
      && (e.etype == Reply <==> HasType(parse, line, "result")) && (e.etype == Done <==> HasType(parse, line, "done"))
      && e.data == (if parse(line).Some? && parse(line).value != JNull then parse(line).value
                    else JObj(map["type" := JStr("text"), "content" := JStr(line)]))
  {
  }

  /**
   * A line ends its command exactly when it is a "done", or an "error" or "result" flagged as terminal; the
   * command is then cancelled, failed or finished as the line says.
   */
  lemma LineEndsIff(parse: string -> Option<Json>, line: string)
    ensures var e := MapLine(parse, line);
      && (IsTerminalEvent(e) <==>
            HasType(parse, line, "done") || ((HasType(parse, line, "error") || HasType(parse, line, "result")) && HasFlag(parse, line, "terminal")))
      && (IsTerminalEvent(e) ==>
            && (ResolveTerminalState(e) == Cancelled <==> HasType(parse, line, "done") && HasFlag(parse, line, "cancelled"))
            && (ResolveTerminalState(e) == Failed <==> HasType(parse, line, "error")))
  {
    LineEventIs(parse, line);
  }

  function RunningStatus(c: Command): Event {
    Event(Status, JObj(map["type" := JStr("status"), "status" := JStr("running"), "operationId" := JStr(c.operationId)]))
  }

  const PLAIN_DONE := Event(Done, JObj(map["type" := JStr("done")]))

  function CancelledDone(reason: string): Event {
    Event(Done, JObj(map["type" := JStr("done"), "cancelled" := JBool(true), "reason" := JStr(reason)]))
  }

  function FatalError(message: string): Event {
    Event(Error, JObj(map["type" := JStr("error"), "terminal" := JBool(true), "error" := JStr(message)]))
  }

  const TIMEOUT_ERROR := Event(Error, JObj(map["type" := JStr("error"), "terminal" := JBool(true),
                                               "code" := JStr("timeout"), "error" := JStr("command timed out")]))

  function ReplyEvent(status: int, ok: bool, data: Json): Event {
    Event(Reply, JObj(map["type" := JStr("result"), "statusCode" := JNum(status as real),
                          "success" := JBool(ok), "data" := data]))
  }

  /** The events the executor makes up itself end a command exactly where the code marks it terminal. */
  lemma OwnEvents(c: Command, reason: string, message: string, status: int, ok: bool, data: Json)
    ensures !IsTerminalEvent(RunningStatus(c)) && !IsTerminalEvent(ReplyEvent(status, ok, data))
    ensures IsTerminalEvent(PLAIN_DONE) && ResolveTerminalState(PLAIN_DONE) == Finished
    ensures IsTerminalEvent(CancelledDone(reason)) && ResolveTerminalState(CancelledDone(reason)) == Cancelled
    ensures IsTerminalEvent(FatalError(message)) && ResolveTerminalState(FatalError(message)) == Failed
    ensures IsTerminalEvent(TIMEOUT_ERROR) && ResolveTerminalState(TIMEOUT_ERROR) == Failed
  {
  }
}
