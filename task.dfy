/**
 * Tasks and their result records (libraries/task/task.cpp).
 *
 * A task names a unit of work by id, type and origin; a result copies that
 * triple from its task, adds an error code and message, and, for a compile
 * task, the path of the compiled artifact. Results render as a human-readable
 * string and are wrapped in a message whose id is the task id.
 */
module Task {
  import opened Decimal

  /**
   * The enumerators the constructors use. task/task.hpp, which declares the
   * enums, is not part of this model; both are taken to be the first
   * enumerator of their enum.
   */
  const COMPILE_TASK: int := 0
  const FROM_CLI: int := 0

  /** fc::time_point counts microseconds. */
  const MicrosPerSecond: nat := 1000000

  class TaskBase {
    var taskId: nat
    var taskType: int
    var taskFrom: int

    /**
     * `TaskBase()`: a compile task from the command line, identified by the
     * current time in whole seconds. `nowMicros` stands for the clock.
     */
    constructor (nowMicros: nat)
      ensures taskType == COMPILE_TASK && taskFrom == FROM_CLI
      ensures taskId * MicrosPerSecond <= nowMicros < (taskId + 1) * MicrosPerSecond
    {
      taskType := COMPILE_TASK;
      taskFrom := FROM_CLI;
      taskId := nowMicros / MicrosPerSecond;
    }
  }

  /** The result subtype, with the payload only the compile result has. */
  datatype ResultKind =
    | CompileResult(gpcPathFile: string)
    | RegisterResult
    | CallResult
    | TransferResult
    | UpgradeResult
    | DestroyResult

  /** The fields of a result, copied out of the object. */
  datatype ResultData = ResultData(
    taskId: nat,
    taskType: int,
    taskFrom: int,
    errorCode: int,
    errorMsg: string,
    kind: ResultKind)

  /** The wire message: an id and the result it carries. */
  datatype Message = Message(msgId: nat, payload: ResultData)

  class TaskImplResult {
    var taskId: nat
    var taskType: int
    var taskFrom: int
    var errorCode: int
    var errorMsg: string
    var kind: ResultKind

    /**
     * `TaskImplResult()` and the default constructors of its subtypes: no
     * error. The task triple is left as it comes (the source does not set it).
     */
    constructor (kind: ResultKind)
      ensures errorCode == 0 && errorMsg == ""
      ensures this.kind == kind
    {
      errorCode := 0;
      errorMsg := "";
      this.kind := kind;
    }

    /** `CompileTaskResult(TaskBase*)`: a result for `task`, with no error yet. */
    constructor Compile(task: TaskBase)
      ensures taskId == task.taskId && taskType == task.taskType && taskFrom == task.taskFrom
      ensures errorCode == 0 && errorMsg == ""
      ensures kind == CompileResult("")
      ensures RpcMessage(Data()) == Message(task.taskId, ResultData(task.taskId, task.taskType, task.taskFrom, 0, "", CompileResult("")))
    {
      errorCode := 0;
      errorMsg := "";
      kind := CompileResult("");
      new;
      InitTaskBase(task);
    }

    /** `init_task_base`: copies the task triple and nothing else. */
    method InitTaskBase(task: TaskBase)
      modifies this
      ensures taskId == task.taskId && taskType == task.taskType && taskFrom == task.taskFrom
      ensures errorCode == old(errorCode) && errorMsg == old(errorMsg) && kind == old(kind)
    {
      taskId := task.taskId;
      taskType := task.taskType;
      taskFrom := task.taskFrom;
    }

    /** The result's fields as a value, which the renderings and the message read. */
    function Data(): ResultData
      reads this
    {
      ResultData(taskId, taskType, taskFrom, errorCode, errorMsg, kind)
    }
  }

  /** The start of one line of the rendering: `"  <name> : "`. */
  function LinePrefix(name: string): string {
    "  " + name + " : "
  }

  /** One line of the rendering: `"  <name> : <value> \n"`. */
  function Line(name: string, value: string): string {
    LinePrefix(name) + (value + " \n")
  }

  /** `TaskImplResult::get_result_string`: a newline, then one line per field. */
  function BaseResultString(d: ResultData): (s: string)
    ensures |s| > 0 && s[0] == '\n'
    ensures |s| >= 2 && s[|s| - 2..] == " \n"
  {
    "\n"
      + (Line("task_id", IntToString(d.taskId))
      + (Line("task_type", IntToString(d.taskType))
      + (Line("task_from", IntToString(d.taskFrom))
      + (Line("error_code", IntToString(d.errorCode))
      + Line("error_msg", d.errorMsg)))))
  }

  /** A rendering `base` and an artifact path, wrapped in braces. */
  function Braced(base: string, path: string): (s: string)
    ensures |s| >= 2 && s[0] == '{' && s[|s| - 2..] == "\n}"
    ensures |s| > |base| && s[1..|base| + 1] == base
    ensures var tail := "  gpc_path_file : " + (path + "\n}");
      |s| == 1 + |base| + |tail| && s[|s| - |tail|..] == tail
  {
    var tail := "  gpc_path_file : " + (path + "\n}");
    assert ("{" + base + tail)[1..|base| + 1] == base;
    assert ("{" + base + tail)[|base| + 1..] == tail;
    "{" + base + tail
  }

  /**
   * `CompileTaskResult::get_result_string`: the base rendering and the
   * artifact path, wrapped in braces.
   */
  function CompileResultString(d: ResultData): (s: string)
    requires d.kind.CompileResult?
    ensures |s| >= 2 && s[0] == '{' && s[|s| - 2..] == "\n}"
    ensures var base := BaseResultString(d);
      |s| > |base| && s[1..|base| + 1] == base
    ensures var tail := "  gpc_path_file : " + (d.kind.gpcPathFile + "\n}");
      |s| == 1 + |BaseResultString(d)| + |tail| && s[|s| - |tail|..] == tail
  {
    var base := BaseResultString(d);
    Braced(base, d.kind.gpcPathFile)
  }

  /**
   * The `get_rpc_message` of every result subtype: the message carries a
   * copy of the result, and its id is the result's task id.
   */
  function RpcMessage(d: ResultData): (m: Message)
    ensures m.msgId == d.taskId
    ensures m.payload == d
  {
    Message(d.taskId, d)
  }

  predicate NoSpace(s: string) {
    forall k :: 0 <= k < |s| ==> s[k] != ' '
  }

  lemma IntToStringNoSpace(n: int)
    ensures NoSpace(IntToString(n))
  {
    var s := IntToString(n);
    forall k | 0 <= k < |s| ensures s[k] != ' ' {
      if n < 0 && k > 0 {
        assert s[k] == s[1..][k - 1];
      }
    }
  }

  /** Strips a shared prefix from two equal strings. */
  lemma DropPrefix(p: string, x: string, y: string)
    requires p + x == p + y
    ensures x == y
  {
    assert x == (p + x)[|p|..];
    assert y == (p + y)[|p|..];
  }

  /**
   * Reading one line back: a line whose value has no space, followed by
   * more text, determines the value and the text after it.
   */
  lemma ReadLine(p: string, v: string, t: string, w: string, u: string)
    requires NoSpace(v) && NoSpace(w)
    requires (p + (v + " \n")) + t == (p + (w + " \n")) + u
    ensures v == w && t == u
  {
    var s := (p + (v + " \n")) + t;
    assert s[|p| + |v|] == ' ';
    assert ((p + (w + " \n")) + u)[|p| + |w|] == ' ';
    assert v == s[|p|..|p| + |v|];
    assert w == ((p + (w + " \n")) + u)[|p|..|p| + |w|];
    assert t == s[|p| + |v| + 2..];
    assert u == ((p + (w + " \n")) + u)[|p| + |w| + 2..];
  }

  /**
   * The base rendering shows every field: two results that render alike
   * agree on the task triple, the error code and the error message.
   */
  lemma {:induction false} BaseResultStringInjective(d: ResultData, e: ResultData)
    requires BaseResultString(d) == BaseResultString(e)
    ensures d.taskId == e.taskId && d.taskType == e.taskType && d.taskFrom == e.taskFrom
    ensures d.errorCode == e.errorCode && d.errorMsg == e.errorMsg
  {
    var md := Line("error_msg", d.errorMsg);
    var me := Line("error_msg", e.errorMsg);
    var cd := Line("error_code", IntToString(d.errorCode)) + md;
    var ce := Line("error_code", IntToString(e.errorCode)) + me;
    var fd := Line("task_from", IntToString(d.taskFrom)) + cd;
    var fe := Line("task_from", IntToString(e.taskFrom)) + ce;
    var td := Line("task_type", IntToString(d.taskType)) + fd;
    var te := Line("task_type", IntToString(e.taskType)) + fe;
    var id := Line("task_id", IntToString(d.taskId)) + td;
    var ie := Line("task_id", IntToString(e.taskId)) + te;
    DropPrefix("\n", id, ie);
    IntToStringNoSpace(d.taskId);
    IntToStringNoSpace(e.taskId);
    ReadLine(LinePrefix("task_id"), IntToString(d.taskId), td, IntToString(e.taskId), te);
    IntToStringInjective(d.taskId, e.taskId);
    IntToStringNoSpace(d.taskType);
    IntToStringNoSpace(e.taskType);
    ReadLine(LinePrefix("task_type"), IntToString(d.taskType), fd, IntToString(e.taskType), fe);
    IntToStringInjective(d.taskType, e.taskType);
    IntToStringNoSpace(d.taskFrom);
    IntToStringNoSpace(e.taskFrom);
    ReadLine(LinePrefix("task_from"), IntToString(d.taskFrom), cd, IntToString(e.taskFrom), ce);
    IntToStringInjective(d.taskFrom, e.taskFrom);
    IntToStringNoSpace(d.errorCode);
    IntToStringNoSpace(e.errorCode);
    ReadLine(LinePrefix("error_code"), IntToString(d.errorCode), md, IntToString(e.errorCode), me);
    IntToStringInjective(d.errorCode, e.errorCode);
    DropPrefix(LinePrefix("error_msg"), d.errorMsg + " \n", e.errorMsg + " \n");
    assert d.errorMsg == (d.errorMsg + " \n")[..|d.errorMsg|];
    assert e.errorMsg == (e.errorMsg + " \n")[..|e.errorMsg|];
  }
}
