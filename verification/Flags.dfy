/** Flag sets, their neighbours (flags_util.py, iterative_elimination.py) and the tasks that carry
    them (task.py). */
module FlagSets {
  import opened Sequences

  /** A specification with a [start-end] range is numeric, any other is boolean. */
  datatype Spec =
    | Boolean(name: string)
    | Numeric(name: string, start: nat, end: nat)

  /** The flags that are on, with their values; a boolean flag has value 0. */
  type Flags = map<Spec, int>

  type Cost = real

  datatype BuildResult = BuildResult(checksum: int, buildCost: Cost, image: int)

  datatype Stage = BuildStage | TestStage

  datatype Result = Built(build: BuildResult) | Tested(cost: Cost)

  datatype Key = FlagsKey(flags: Flags) | ChecksumKey(checksum: int)

  /** `uid` tells apart tasks with equal flags, as task objects are told apart. */
  datatype Task = Task(uid: nat, flags: Flags, build: Option<BuildResult>, cost: Option<Cost>)

  predicate Done(stage: Stage, t: Task) {
    match stage
    case BuildStage => t.build.Some?
    case TestStage => t.cost.Some?
  }

  /** A task a stage can take: not done yet, and built before it is tested. */
  predicate Fresh(stage: Stage, t: Task) {
    !Done(stage, t) && (stage.TestStage? ==> t.build.Some?)
  }

  /** GetIdentifier: the flags identify a task to the builder, the image's checksum to the tester. */
  function KeyOf(stage: Stage, t: Task): Key {
    match stage
    case BuildStage => FlagsKey(t.flags)
    case TestStage => ChecksumKey(if t.build.Some? then t.build.value.checksum else 0)
  }

  predicate ResultOf(stage: Stage, r: Result) {
    match stage
    case BuildStage => r.Built?
    case TestStage => r.Tested?
  }

  /** SetResult. */
  function WithResult(stage: Stage, t: Task, r: Result): Task
    requires ResultOf(stage, r)
  {
    match stage
    case BuildStage => t.(build := Some(r.build))
    case TestStage => t.(cost := Some(r.cost))
  }

  /** The task as it was before the stage. */
  function Erased(stage: Stage, t: Task): Task {
    match stage
    case BuildStage => t.(build := None)
    case TestStage => t.(cost := None)
  }

  function FlagsOf(tasks: seq<Task>): set<Flags> {
    set t | t in tasks :: t.flags
  }

  ghost predicate Different(tasks: seq<Task>) {
    forall i, j :: 0 <= i < j < |tasks| ==> tasks[i].flags != tasks[j].flags
  }

  /** A pool the search algorithms may hand out: new tasks, all different, none sent before. */
  ghost predicate NewPool(tasks: seq<Task>, cache: set<Flags>) {
    && (forall i :: 0 <= i < |tasks| ==> tasks[i].build == None && tasks[i].cost == None && tasks[i].flags !in cache)
    && Different(tasks)
  }
}
