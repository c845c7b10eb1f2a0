/**
 * Shapes from libraries/include/base/misc.hpp: a task paired with the
 * object to notify when it finishes. The header declares them and gives
 * them no behaviour.
 */
module Misc {
  import Task

  /**
   * Stands for an `ITaskImplementFinishNotify*`: only its identity matters
   * here, since nothing in the core calls `task_finished`.
   */
  class FinishNotify {
    constructor () {
    }
  }

  /** `TaskAndCallback`: two pointers, either of which may be null. */
  class TaskAndCallback {
    var taskBase: Task.TaskBase?
    var callBack: FinishNotify?

    constructor (taskBase: Task.TaskBase?, callBack: FinishNotify?)
      ensures this.taskBase == taskBase && this.callBack == callBack
    {
      this.taskBase := taskBase;
      this.callBack := callBack;
    }
  }
}
