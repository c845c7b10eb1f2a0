# Contract operations, task results and the interpreter front end, in Dafny

This project models three pieces of sequential logic that sit around the
embedded Lua engine of the contract virtual machine:

- **Contract operations** (`contract_operations.dfy`, module `ContractOperations`).
  An engine scope (`GluaStateScope`) is a class. Its method `SetGluaStateScopeValue`
  binds the `caller` and `caller_address` globals. It also stores the evaluation
  state as a pointer-typed state value, clears pending exceptions and sets the
  instruction limit. `Classify` is the decision tree of
  `CallContractOperation::evaluate`. It turns what the engine reports into one of
  four outcomes: a fatal internal error, running out of money, the generic contract
  error (code 32000, name `exception`, the engine's message), or a normal return
  with `left = limit - executed`. `EvaluateCall` opens a scope, binds the request,
  runs the engine (an oracle) and is proved to produce exactly `Classify`'s outcome.
  The register, upgrade, destroy and transfer handlers are no-ops.
- **Tasks and results** (`task.dfy`, module `Task`). `TaskBase` and `TaskImplResult`
  are classes whose constructors and `InitTaskBase` assign fields in place. The
  result string, the compile result string and the wire message are pure functions
  of a result's fields. The base rendering is proved to show every field: two
  results that render alike agree on all five fields. Decimal rendering of integers
  (`decimal.dfy`) comes with a parse-back round trip.
- **The interpreter front end** (`repl.dfy`, module `Repl`). `CollectArgs` is the
  option loop of `collectargs`. It is proved against `CollectFrom`. The lemmas
  about `CollectFrom` compare it with `OptionWalk`, an independent list of the
  options the loop accepts and the entry that ends them. They show that `has_error`
  comes exactly from a bad option, that `has_E`, `has_i` and `has_v` mean `-E`, `-i`,
  and `-i` or `-v`, and where `*first` points. `RunArgs` runs the `-e`/`-l` chunks in
  order and stops at the first failure; the chunk runner is an oracle. A lemma shows
  that after `collectargs` succeeds, `runargs` is safe up to `*first`, and that the
  `has_e` bit is set exactly when a `-e` option appears before `*first`. The module
  also models `incomplete`, `get_prompt`, `pushline` (with its in-place line buffer
  and `strlen`) and the `-` means stdin rule of `handle_script`.

`wrappers.dfy` holds an `Option` type, `cstring.dfy` the text a C function sees of a
string (everything before its first NUL), and `misc.dfy` the `TaskAndCallback` shape.

## Model

| member | source | states |
|---|---|---|
| `ContractOperations.GluaStateScope.constructor` | libraries/glua/glua_contractoperations.cpp:30 | a fresh scope has no host globals and no host state values |
| `ContractOperations.GluaStateScope.SetGluaStateScopeValue` | libraries/glua/glua_contractoperations.cpp:7-17 | `caller` and `caller_address` are bound to the C text of the given strings (cut at a first NUL, as `c_str()` hands them over), `evaluate_state` holds the given value with the pointer kind, no exception is pending, the limit is `limit_num`; the engine status is unchanged |
| `ContractOperations.GluaStateScope.ExecuteContractApiByAddress` | libraries/glua/glua_contractoperations.cpp:42-45 | the engine status after the run is the oracle's answer for the C text of the contract, method and arguments and the scope's bindings |
| `ContractOperations.Classify` | libraries/glua/glua_contractoperations.cpp:47-65 | internal error exactly on forced stop with the internal-error exit code; out of money exactly when not that and the positive exception code is the limit-over code; contract error 32000/`exception` carrying the engine's message, up to a first NUL, exactly on any other positive code; a normal return exactly when the code is ≤ 0, with `left + executed == limit` |
| `ContractOperations.EvaluateCall` | libraries/glua/glua_contractoperations.cpp:28-66 | opening a scope, binding the request and running the engine yields exactly the classified outcome of the engine's answer for the bound request |
| `ContractOperations.EvaluateRegister` | libraries/glua/glua_contractoperations.cpp:19-20 | raises nothing and modifies nothing |
| `ContractOperations.EvaluateUpgrade` | libraries/glua/glua_contractoperations.cpp:22-23 | raises nothing and modifies nothing |
| `ContractOperations.EvaluateDestroy` | libraries/glua/glua_contractoperations.cpp:25-26 | raises nothing and modifies nothing |
| `ContractOperations.EvaluateTransfer` | libraries/glua/glua_contractoperations.cpp:68-69 | raises nothing and modifies nothing |
| `ContractOperations.ForcedStopAloneDoesNotRaise` | libraries/glua/glua_contractoperations.cpp:47-53 | a forced stop with another exit code gives the same outcome as the same run without the forced stop |
| `ContractOperations.InternalErrorOverridesException` | libraries/glua/glua_contractoperations.cpp:47-51 | with the internal-error signal, whatever exception code, message and instruction count the engine reports, the outcome is the internal error |
| `ContractOperations.LimitOverIsNeverContractError` | libraries/glua/glua_contractoperations.cpp:53-61 | the limit-over code never yields the generic contract error |
| `ContractOperations.MessageOnlyInContractError` | libraries/glua/glua_contractoperations.cpp:53-61 | the engine's message changes the outcome only through the contract error that carries it |
| `ContractOperations.CallerCutAtNul` | libraries/glua/glua_contractoperations.cpp:12 | a caller `"a\0b"` is bound as `"a"` |
| `Task.TaskBase.constructor` | libraries/task/task.cpp:9-14 | a compile task from the command line whose id is the clock in whole seconds (`id * 10^6 <= now < (id + 1) * 10^6`) |
| `Task.TaskImplResult.constructor` | libraries/task/task.cpp:16-19 | a new result has error code 0, an empty message and the given subtype |
| `Task.TaskImplResult.InitTaskBase` | libraries/task/task.cpp:21-25 | copies exactly the task's id, type and origin; error code, message and subtype are unchanged |
| `Task.TaskImplResult.Compile` | libraries/task/task.cpp:27-29 | a compile result for a task carries the task's triple, error code 0, an empty message and an empty artifact path, and its message has the task's id |
| `Task.BaseResultString` | libraries/task/task.cpp:31-41 | the rendering starts with a newline and ends with `" \n"` |
| `Task.BaseResultStringInjective` | libraries/task/task.cpp:31-41 | two results that render alike agree on task id, type, origin, error code and error message, so the rendering shows every field |
| `Task.CompileResultString` | libraries/task/task.cpp:43-51 | starts with `{`, holds the base rendering right after it, ends with `"  gpc_path_file : " + path + "\n}"`, and has nothing else |
| `Task.RpcMessage` | libraries/task/task.cpp:53-93 | for every result subtype the message id is the result's task id and the payload is a copy of the result |
| `Decimal.IntToStringSign` | libraries/task/task.cpp:34-37 | the rendering of an integer starts with `-` exactly when the integer is negative |
| `Decimal.IntToStringMagnitude` | libraries/task/task.cpp:34-37 | reading back the digits of a rendering (after the `-`, if any) gives the integer's magnitude |
| `Decimal.IntToStringInjective` | libraries/task/task.cpp:34-37 | integers written to the result string in decimal are determined by their text |
| `Repl.CollectArgs` | libraries/glua/lrepl.cpp:188-230 | the mask and `*first` the option loop returns, as `CollectFrom` defines them |
| `Repl.CollectArgsMask` | libraries/glua/lrepl.cpp:156-226 | every error return is exactly `has_error`, discarding collected bits, and `has_i` never comes without `has_v` |
| `Repl.CollectFromFirst` | libraries/glua/lrepl.cpp:185-229 | on error `*first` is the offending option, a bad option as `BadOption` lists them; otherwise it is the end of `argv`, a non-option, `-`, or the entry right after `--` |
| `Repl.CollectArgsExamples` | libraries/glua/lrepl.cpp:195-226 | `-i` sets `has_i` and `has_v`, `-l` sets no bit, `--` ends options, and unknown options, trailing characters and a missing or dash-led `-e` argument give `has_error` |
| `Repl.OptionWalk` | libraries/glua/lrepl.cpp:188-226 | the options the loop accepts, in order, skipping an option's argument entry, end at the end of `argv` or at an entry that ends the options (not an option, `-`, `--…` or a bad option), and the entry before that end is never `--` |
| `Repl.CollectArgsOptions` | libraries/glua/lrepl.cpp:188-229 | `has_error` exactly when the options end at a bad option (trailing text after `--`, `-E`, `-i` or `-v`; an unknown letter; `-e`/`-l` with no next entry or one starting with `-`), with `*first` on it; otherwise `*first` is that end (past it for `--`), `has_E` is set exactly when `-E` was given, `has_i` exactly for `-i`, and `has_v` exactly for `-i` or `-v` |
| `Repl.CollectFromWalk` | libraries/glua/lrepl.cpp:188-229 | the same, from any index and any clean starting mask, whose bits are kept |
| `Repl.RunArgs` | libraries/glua/lrepl.cpp:237-254 | runs a prefix of the `-e`/`-l` chunks in `argv` order; returns 1 when all ran and succeeded, 0 when the last one run failed after the earlier ones succeeded |
| `Repl.CollectArgsThenRunArgs` | libraries/glua/lrepl.cpp:239-246 | after `collectargs` succeeds, every entry `runargs` reads up to `*first` is an option with its argument present, and `has_e` is set exactly when a `-e` option appears before `*first` (whether its chunk runs depends on the chunks before it) |
| `Repl.AllSucceedEach` | libraries/glua/lrepl.cpp:240-254 | when `runargs` returns 1, each chunk it ran succeeded given the chunks run before it |
| `Repl.ScriptSource` | libraries/glua/lrepl.cpp:256-262 | the script is read from stdin exactly when its name is `-` and the entry before it is not `--` |
| `Repl.ScriptFromCommandLine` | libraries/glua/lrepl.cpp:256-262 | after a successful `collectargs`, the script at `*first` comes from stdin exactly when the options ended at `-` itself (and the program name is not `--` when `-` is the first argument) |
| `Repl.ScriptExamples` | libraries/glua/lrepl.cpp:195-202 | `lua -` reads the script from stdin, `lua -- -` loads a file named `-` |
| `Repl.GetPrompt` | libraries/glua/lrepl.cpp:317-323 | the `_PROMPT`/`_PROMPT2` global as a string if it is one (or a number), else `"> "` / `">> "` |
| `Repl.Incomplete` | libraries/glua/lrepl.cpp:325-345 | answers 1 and pops the message exactly on a syntax error whose message ends with `<eof>`; otherwise 0 with the stack unchanged |
| `CString.CLength` | libraries/glua/lrepl.cpp:359 | `strlen`: the index of the first NUL, or the whole sequence if it has none; nothing before it is NUL |
| `Repl.StrLen` | libraries/glua/lrepl.cpp:359 | scanning the buffer up to its first NUL gives `CLength` of the buffer |
| `Repl.LineToPush` | libraries/glua/lrepl.cpp:359-365 | the buffer holding the line read, cut at its first NUL, with a final newline removed in place and a first-line `=` rewritten, holds exactly the normalised C text of the line |
| `Repl.PushLine` | libraries/glua/lrepl.cpp:350-368 | shows the prompt up to its first NUL; at end of input answers 0 and leaves the prompt value on the stack; otherwise answers 1 and pushes the normalised C text of the line read, which for a line without NUL is the normalised line itself |
| `Repl.PushLineStopsAtNul` | libraries/glua/lrepl.cpp:359-365 | the line `"ab\0cd\n"` pushes `"ab"`, and on a first line `"=x\0\n"` pushes `"return x"` |
| `Repl.NormaliseIgnoresFinalNewline` | libraries/glua/lrepl.cpp:359-361 | a newline ending the line read makes no difference to what is pushed |
| `Repl.NormaliseContinuationLine` | libraries/glua/lrepl.cpp:359-365 | on a continuation line, only one trailing newline is removed |
| `Repl.NormaliseFirstLineEquals` | libraries/glua/lrepl.cpp:362-363 | on a first line, `=expr` becomes `return expr` |

## Left out

- The Lua engine. `execute_contract_api_by_address`, `get_lua_state_value` and `global_glua_chain_api` are foreign calls. A run is an oracle from the scope's bindings to an `EngineStatus`, and the two `get_lua_state_value` reads are fields of that status.
- `clear_exceptions` is foreign. It is modelled as clearing a pending-exception flag.
- The scope's destructor, which releases the engine instance, is not modelled.
- The values of `LUA_API_INTERNAL_ERROR` and `THINKYOUNG_API_LVM_LIMIT_OVER_ERROR` are in engine headers that are not part of this model. They are the parameter `EngineCodes`.
- `ContractOperations.Classify`: `left` is the mathematical difference `limit - executed`. The `size_t` wrap-around and the narrowing to `int` are not modelled, and no claim is made that `left` is non-negative. The value is unused in the source.
- `ContractOperations.EvaluateCall`: the empty strings, null state pointer and zero limit the source still uses are replaced by the fields of `CallRequest`.
- The `FC_CAPTURE_AND_THROW` exception machinery is modelled as the `Fault` values of `CallOutcome`.
- `GluaStateValue` is a union and `GluaStateValueType` an enum. Only the pointer member and the pointer kind, the ones the core uses, are modelled.
- `Task.TaskBase.constructor`: `sec_since_epoch` returns a 32-bit value. The id is an unbounded `nat`, so its truncation is not modelled.
- `COMPILE_TASK` and `FROM_CLI` are declared in `task/task.hpp`, which is not part of this model. Both are taken to be 0, the first enumerator of their enum.
- The `get_result_string` overrides of register, call, transfer, upgrade and destroy results return `NULL`. Building a `std::string` from `NULL` is undefined behaviour, so `CompileResultString` requires a compile result and nothing renders the others.
- The `*Rpc` wrapper types and `Message` serialisation are not shown. A message is its id and a copy of the result, and the result's subtype tells which wrapper it is.
- `ITaskImplementFinishNotify` is an interface with no implementation in the core. A callback is kept only as an object identity.
- SIGINT handling (`laction`, `lstop`, `globalL`) is left out, since it is asynchronous signal interruption.
- Terminal and file I/O is left out: `lua_readline`/`fgets`, `ll_message`, `report`, `l_print`, `luaL_writeline` and the `luaL_doREPL` loop. The line read is a parameter of `PushLine`, restricted to what `fgets` can deliver (shorter than the 512-byte buffer, a newline only at the end). It may hold NUL characters; `strlen` cuts it at the first one.
- `docall`, `msghandler`, `dostring`, `dofile`, `dolibrary`, `pushargs`, `addreturn`, `multiline` and `loadline` depend on the Lua compiler and stack. A chunk's success is an oracle of `RunArgs`. `handle_script` is modelled only for its choice between stdin and a named file.
- `lua_tostring` renders only integers here, not floating-point numbers. Its in-place conversion of a numeric stack slot to a string is not modelled.
