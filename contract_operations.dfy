/**
 * Evaluation of contract operations (libraries/glua/glua_contractoperations.cpp).
 *
 * A call opens an engine scope, binds the caller, the caller's address,
 * the evaluation state and the instruction limit into it, runs the contract
 * and turns what the engine reports into one of four outcomes: a fatal
 * internal error, running out of money, a contract error, or a normal
 * return with the instructions left. Register, upgrade, destroy and
 * transfer do nothing.
 *
 * The engine is foreign: its run is the `engine` oracle, a function from
 * what the scope hands it to the status it ends in. The host's exceptions
 * become the `Fault` values of a `CallOutcome`.
 */
module ContractOperations {
  import opened Wrappers
  import opened CString
  import Misc

  /**
   * `LUA_API_INTERNAL_ERROR` and `THINKYOUNG_API_LVM_LIMIT_OVER_ERROR`,
   * defined in engine headers that are not part of this model.
   */
  datatype EngineCodes = EngineCodes(internalError: int, limitOverError: int)

  /** The code and name of the generic `contract_error`. */
  const ContractErrorCode: int := 32000
  const ContractErrorName: string := "exception"

  /** A raw pointer value; 0 is `nullptr`. */
  type Address = nat

  /** `GluaStateValue`, of which the core only uses the pointer member. */
  datatype GluaStateValue = GluaStateValue(pointerValue: Address)

  /** `GluaStateValueType`, of which the core only uses the pointer kind. */
  datatype GluaStateValueType = LuaStateValuePointer

  /** A state value as the engine stores it: the value and its declared kind. */
  datatype TypedStateValue = TypedStateValue(value: GluaStateValue, kind: GluaStateValueType)

  /**
   * What the engine reports after a run: the forced-stop flag and exit code
   * of the Lua state, the `exception_code` and `exception_msg` state values,
   * and the number of instructions executed.
   */
  datatype EngineStatus = EngineStatus(
    forceStopping: bool,
    exitCode: int,
    exceptionCode: int,
    exceptionMsg: string,
    executed: nat)

  /** What a run sees: the contract, method and arguments, and the scope's bindings. */
  datatype EngineInput = EngineInput(
    contractAddress: string,
    methodName: string,
    args: string,
    globals: map<string, string>,
    stateValues: map<string, TypedStateValue>,
    instructionsLimit: nat)

  /** The host exceptions `evaluate` can raise. */
  datatype Fault =
    | LuaExecutorInternalError
    | ContractRunOutOfMoney
    | ContractError(code: int, name: string, message: string)

  /** How `CallContractOperation::evaluate` ends: it raises, or returns with `left` computed. */
  datatype CallOutcome = Raised(fault: Fault) | Returned(left: int)

  /**
   * The inputs of a call. The source still has placeholders (empty strings,
   * a null state pointer and a zero limit) where these will come from.
   */
  datatype CallRequest = CallRequest(
    caller: string,
    callerAddress: string,
    state: GluaStateValue,
    limitNum: nat,
    contractAddress: string,
    methodName: string,
    args: string)

  /** An isolated engine instance for one operation. */
  class GluaStateScope {
    /** Global string variables the host has added. */
    var globals: map<string, string>
    /** State values the host has set. */
    var stateValues: map<string, TypedStateValue>
    /** Whether an exception from an earlier run is still recorded. */
    var exceptionPending: bool
    var instructionsLimit: nat
    /** The engine's report on its last run. */
    var status: EngineStatus

    /** A fresh engine, with no host bindings yet. */
    constructor ()
      ensures globals == map[] && stateValues == map[]
    {
      globals := map[];
      stateValues := map[];
    }

    /**
     * `setGluaStateScopeValue`: binds `caller` and `caller_address` as global
     * strings (handed over with `c_str()`, so cut at a first NUL), stores the evaluation state as a pointer-typed state value,
     * clears pending exceptions and sets the instruction limit.
     */
    method SetGluaStateScopeValue(caller: string, callerAddr: string, stateValue: GluaStateValue, limitNum: nat)
      modifies this
      ensures globals == old(globals)["caller" := CText(caller)]["caller_address" := CText(callerAddr)]
      ensures stateValues == old(stateValues)["evaluate_state" := TypedStateValue(stateValue, LuaStateValuePointer)]
      ensures !exceptionPending
      ensures instructionsLimit == limitNum
      ensures status == old(status)
    {
      globals := globals["caller" := CText(caller)];
      globals := globals["caller_address" := CText(callerAddr)];
      stateValues := stateValues["evaluate_state" := TypedStateValue(stateValue, LuaStateValuePointer)];
      exceptionPending := false;
      instructionsLimit := limitNum;
    }

    /**
     * `execute_contract_api_by_address`: the engine runs and reports its
     * status. The contract, method and arguments arrive as C strings.
     */
    method ExecuteContractApiByAddress(contractAddress: string, methodName: string, args: string,
                                       engine: EngineInput -> EngineStatus)
      modifies this`status
      ensures status == engine(EngineInput(CText(contractAddress), CText(methodName), CText(args),
                                           globals, stateValues, instructionsLimit))
    {
      status := engine(EngineInput(CText(contractAddress), CText(methodName), CText(args),
                                   globals, stateValues, instructionsLimit));
    }
  }

  /**
   * The outcome of a call whose engine run ended in `s` under the limit
   * `limitNum`. The internal-error check comes first and overrides the
   * exception code; a positive exception code raises, the contract error
   * carrying the C text of the engine's message; anything else returns, with `left` the mathematical difference `limitNum - executed`.
   */
  function Classify(s: EngineStatus, codes: EngineCodes, limitNum: nat): (o: CallOutcome)
    ensures o == Raised(LuaExecutorInternalError)
            <==> s.forceStopping && s.exitCode == codes.internalError
    ensures o == Raised(ContractRunOutOfMoney)
            <==> !(s.forceStopping && s.exitCode == codes.internalError)
                 && s.exceptionCode > 0 && s.exceptionCode == codes.limitOverError
    ensures o.Raised? && o.fault.ContractError?
            <==> !(s.forceStopping && s.exitCode == codes.internalError)
                 && s.exceptionCode > 0 && s.exceptionCode != codes.limitOverError
    ensures o.Raised? && o.fault.ContractError? ==>
              o.fault == ContractError(ContractErrorCode, ContractErrorName, CText(s.exceptionMsg))
    ensures o.Returned? <==> !(s.forceStopping && s.exitCode == codes.internalError) && s.exceptionCode <= 0
    ensures o.Returned? ==> o.left + s.executed == limitNum
  {
    if s.forceStopping && s.exitCode == codes.internalError then
      Raised(LuaExecutorInternalError)
    else if s.exceptionCode > 0 then
      if s.exceptionCode == codes.limitOverError then Raised(ContractRunOutOfMoney)
      else Raised(ContractError(ContractErrorCode, ContractErrorName, CText(s.exceptionMsg)))
    else
      Returned(limitNum - s.executed)
  }

  /** What the engine is handed for `request`, once the scope is set up: C strings throughout. */
  function BoundInput(request: CallRequest): EngineInput {
    EngineInput(
      CText(request.contractAddress), CText(request.methodName), CText(request.args),
      map["caller" := CText(request.caller)]["caller_address" := CText(request.callerAddress)],
      map["evaluate_state" := TypedStateValue(request.state, LuaStateValuePointer)],
      request.limitNum)
  }

  /**
   * `CallContractOperation::evaluate`: opens a scope, binds the request into
   * it, runs the contract and classifies what the engine reports.
   */
  method EvaluateCall(taskAndCallback: Misc.TaskAndCallback, request: CallRequest,
                      codes: EngineCodes, engine: EngineInput -> EngineStatus)
    returns (outcome: CallOutcome)
    ensures outcome == Classify(engine(BoundInput(request)), codes, request.limitNum)
  {
    var scope := new GluaStateScope();
    scope.SetGluaStateScopeValue(request.caller, request.callerAddress, request.state, request.limitNum);
    scope.ExecuteContractApiByAddress(request.contractAddress, request.methodName, request.args, engine);
    if scope.status.forceStopping && scope.status.exitCode == codes.internalError {
      return Raised(LuaExecutorInternalError);
    }
    var exceptionCode := scope.status.exceptionCode;
    if exceptionCode > 0 {
      var exceptionMsg := scope.status.exceptionMsg;
      if exceptionCode == codes.limitOverError {
        return Raised(ContractRunOutOfMoney);
      } else {
        return Raised(ContractError(ContractErrorCode, ContractErrorName, CText(exceptionMsg)));
      }
    }
    var left := request.limitNum - scope.status.executed;
    return Returned(left);
  }

  /*
   * The four other handlers have empty bodies. They raise nothing, and
   * since they modify nothing, the task, its callback and everything else
   * are left as they were.
   */

  /** `RegisterContractOperation::evaluate`. */
  method EvaluateRegister(taskAndCallback: Misc.TaskAndCallback) returns (raised: Option<Fault>)
    ensures raised == None
  {
    raised := None;
  }

  /** `UpgradeContractOperation::evaluate`. */
  method EvaluateUpgrade(taskAndCallback: Misc.TaskAndCallback) returns (raised: Option<Fault>)
    ensures raised == None
  {
    raised := None;
  }

  /** `DestroyContractOperation::evaluate`. */
  method EvaluateDestroy(taskAndCallback: Misc.TaskAndCallback) returns (raised: Option<Fault>)
    ensures raised == None
  {
    raised := None;
  }

  /** `TransferContractOperation::evaluate`. */
  method EvaluateTransfer(taskAndCallback: Misc.TaskAndCallback) returns (raised: Option<Fault>)
    ensures raised == None
  {
    raised := None;
  }

  /**
   * A forced stop with any exit code other than the internal-error code
   * raises nothing by itself: the outcome is that of the same run without
   * the forced stop.
   */
  lemma ForcedStopAloneDoesNotRaise(s: EngineStatus, codes: EngineCodes, limitNum: nat)
    requires s.forceStopping && s.exitCode != codes.internalError
    ensures Classify(s, codes, limitNum) == Classify(s.(forceStopping := false), codes, limitNum)
  {
  }

  /** The internal-error check overrides whatever exception the engine recorded. */
  lemma InternalErrorOverridesException(s: EngineStatus, codes: EngineCodes, limitNum: nat,
                                        exceptionCode: int, exceptionMsg: string, executed: nat)
    requires s.forceStopping && s.exitCode == codes.internalError
    ensures var t := s.(exceptionCode := exceptionCode, exceptionMsg := exceptionMsg, executed := executed);
      Classify(t, codes, limitNum) == Raised(LuaExecutorInternalError)
  {
  }

  /** Running out of the limit is never reported as the generic contract error. */
  lemma LimitOverIsNeverContractError(s: EngineStatus, codes: EngineCodes, limitNum: nat)
    requires s.exceptionCode == codes.limitOverError
    ensures Classify(s, codes, limitNum) != Raised(ContractError(ContractErrorCode, ContractErrorName, CText(s.exceptionMsg)))
  {
  }

  /** The engine's message matters only to the contract error, which carries its C text. */
  lemma MessageOnlyInContractError(s: EngineStatus, codes: EngineCodes, limitNum: nat, msg: string)
    ensures var o := Classify(s, codes, limitNum);
            var o' := Classify(s.(exceptionMsg := msg), codes, limitNum);
      (o.Raised? && o.fault.ContractError?) || o == o'
  {
  }

  /** A caller name with a NUL is bound only up to it: `"a\0b"` becomes `"a"`. */
  lemma CallerCutAtNul(request: CallRequest)
    requires request.caller == "a\0b"
    ensures BoundInput(request).globals["caller"] == "a"
  {
    assert CLength("a\0b") == 1;
  }
}
