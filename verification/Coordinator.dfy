/** The coordinator of src/mr/coordinator.go: which task is handed out, and when a phase is over. */
module Coordinators {

  datatype Status = Idle | InProgress | Completed

  datatype Phase = MapPhase | ReducePhase | DonePhase

  /** What a worker is told to do. */
  datatype Task = MapTask(file: string) | ReduceTask(id: nat) | Wait | Exit

  datatype Found<K> = NotFound | Found(task: K)

  /** The state of the coordinator as a value. */
  datatype Book = Book(phase: Phase, files: map<string, Status>, reduces: map<nat, Status>)

  predicate AllDone<K>(tasks: map<K, Status>) {
    forall k :: k in tasks ==> tasks[k] == Completed
  }

  /** A task may be handed out if it is idle, or in progress for too long. */
  predicate Free<K>(tasks: map<K, Status>, late: set<K>, k: K) {
    k in tasks && (tasks[k] == Idle || (tasks[k] == InProgress && k in late))
  }

  /** The reply in the reduce phase. */
  ghost predicate Reduces(b: Book, late: set<nat>, b': Book, task: Task)
    requires b.phase == ReducePhase
  {
    if AllDone(b.reduces) then b' == b.(phase := DonePhase) && task == Exit
    else if task.ReduceTask? then Free(b.reduces, late, task.id) && b' == b.(reduces := b.reduces[task.id := InProgress])
    else task == Wait && b' == b && forall id :: id in b.reduces ==> !Free(b.reduces, late, id)
  }

  /** One call of GetTask; a file of empty name is never handed out. */
  ghost predicate Assigns(b: Book, lateFiles: set<string>, lateIds: set<nat>, b': Book, task: Task) {
    match b.phase
    case MapPhase =>
      if AllDone(b.files) then Reduces(b.(phase := ReducePhase), lateIds, b', task)
      else if task.MapTask? then Free(b.files, lateFiles, task.file) && task.file != "" && b' == b.(files := b.files[task.file := InProgress])
      else task == Wait && b' == b && (Free(b.files, lateFiles, "") || forall f :: f in b.files ==> !Free(b.files, lateFiles, f))
    case ReducePhase => Reduces(b, lateIds, b', task)
    case DonePhase => b' == b && task == Exit
  }

  function Completes(b: Book, task: Task): Book {
    match task
    case MapTask(f) => b.(files := b.files[f := Completed])
    case ReduceTask(id) => b.(reduces := b.reduces[id := Completed])
    case _ => b
  }

  function Fresh(files: set<string>, nReduce: nat): Book {
    Book(MapPhase, map f | f in files :: Idle, IdleIds(nReduce))
  }

  function IdleIds(n: nat): (r: map<nat, Status>)
    ensures forall id: nat :: id in r <==> id < n
    ensures forall id: nat :: id in r ==> r[id] == Idle
  {
    if n == 0 then map[] else IdleIds(n - 1)[n - 1 := Idle]
  }

  class Coordinator {
    var taskPhase: Phase
    var nReduce: nat
    var filesStatus: map<string, Status>
    var reduceTaskStatus: map<nat, Status>

    function Contents(): Book
      reads this
    {
      Book(taskPhase, filesStatus, reduceTaskStatus)
    }

    /** No map task is left. */
    predicate MapsOver()
      reads this
    {
      taskPhase != MapPhase || AllDone(filesStatus)
    }

    constructor (n: nat, files: seq<string>)
      ensures Contents() == Fresh((set f | f in files), n) && nReduce == n
    {
      var status: map<string, Status> := map[];
      var i := 0;
      while i < |files|
        invariant 0 <= i <= |files|
        invariant status == map f | f in files[..i] :: Idle
      {
        status := status[files[i] := Idle];
        i := i + 1;
      }
      var tasks: map<nat, Status> := map[];
      var id := 0;
      while id < n
        invariant 0 <= id <= n
        invariant tasks == IdleIds(id)
      {
        tasks := tasks[id := Idle];
        id := id + 1;
      }
      taskPhase, nReduce, filesStatus, reduceTaskStatus := MapPhase, n, status, tasks;
      new;
      ghost var names := set f | f in files;
      assert files[..i] == files;
      assert filesStatus == map f | f in names :: Idle;
    }

    /** Looks at the tasks in the map's order until one is free. */
    static method Scan<K(==)>(tasks: map<K, Status>, late: set<K>) returns (complete: bool, found: Found<K>)
      ensures complete <==> AllDone(tasks)
      ensures found.Found? ==> Free(tasks, late, found.task)
      ensures found.NotFound? ==> forall k :: k in tasks ==> !Free(tasks, late, k)
    {
      complete, found := true, NotFound;
      var todo := tasks.Keys;
      while todo != {}
        invariant todo <= tasks.Keys
        invariant complete ==> forall k :: k in tasks.Keys - todo ==> tasks[k] == Completed
        invariant !complete ==> !AllDone(tasks)
        invariant forall k :: k in tasks.Keys - todo ==> !Free(tasks, late, k)
        decreases |todo|
      {
        var k :| k in todo;
        if tasks[k] != Completed {
          complete := false;
        }
        if tasks[k] == Idle || (tasks[k] == InProgress && k in late) {
          found := Found(k);
          return;
        }
        todo := todo - {k};
      }
    }

    method GetTask(lateFiles: set<string>, lateIds: set<nat>) returns (task: Task)
      modifies this
      ensures Assigns(old(Contents()), lateFiles, lateIds, Contents(), task)
      ensures nReduce == old(nReduce)
      ensures task == Exit <==> taskPhase == DonePhase
      ensures taskPhase == DonePhase <==> old(taskPhase == DonePhase || (AllDone(reduceTaskStatus) && MapsOver()))
      ensures taskPhase == MapPhase <==> !old(MapsOver())
      ensures task.MapTask? ==> taskPhase == MapPhase && task.file in old(filesStatus)
                                && old(filesStatus)[task.file] != Completed && filesStatus == old(filesStatus)[task.file := InProgress]
      ensures task.ReduceTask? ==> taskPhase == ReducePhase && task.id in old(reduceTaskStatus)
                                   && old(reduceTaskStatus)[task.id] != Completed
                                   && reduceTaskStatus == old(reduceTaskStatus)[task.id := InProgress]
      ensures !task.MapTask? ==> filesStatus == old(filesStatus)
      ensures !task.ReduceTask? ==> reduceTaskStatus == old(reduceTaskStatus)
      ensures task == Wait && taskPhase == MapPhase && "" !in filesStatus ==>
                forall f :: f in filesStatus ==> filesStatus[f] == Completed || (filesStatus[f] == InProgress && f !in lateFiles)
      ensures task == Wait && taskPhase == ReducePhase ==>
                forall id :: id in reduceTaskStatus ==>
                  reduceTaskStatus[id] == Completed || (reduceTaskStatus[id] == InProgress && id !in lateIds)
    {
      task := Exit;
      if taskPhase == MapPhase {
        var complete, found := Scan(filesStatus, lateFiles);
        if complete {
          taskPhase := ReducePhase;
        } else if found.NotFound? || found.task == "" {
          return Wait;
        } else {
          task := MapTask(found.task);
          filesStatus := filesStatus[found.task := InProgress];
        }
      }
      if taskPhase == ReducePhase {
        var complete, found := Scan(reduceTaskStatus, lateIds);
        if complete {
          taskPhase := DonePhase;
        } else if found.NotFound? {
          return Wait;
        } else {
          task := ReduceTask(found.task);
          reduceTaskStatus := reduceTaskStatus[found.task := InProgress];
        }
      }
    }

    /** A report of a task that was never handed out would be a nil dereference. */
    method TaskComplete(task: Task)
      requires task.MapTask? ==> task.file in filesStatus
      requires task.ReduceTask? ==> task.id in reduceTaskStatus
      modifies this
      ensures Contents() == Completes(old(Contents()), task)
      ensures taskPhase == old(taskPhase)
      ensures filesStatus == if task.MapTask? then old(filesStatus)[task.file := Completed] else old(filesStatus)
      ensures reduceTaskStatus == if task.ReduceTask? then old(reduceTaskStatus)[task.id := Completed] else old(reduceTaskStatus)
      ensures nReduce == old(nReduce)
    {
      match task
      case MapTask(f) => filesStatus := filesStatus[f := Completed];
      case ReduceTask(id) => reduceTaskStatus := reduceTaskStatus[id := Completed];
      case _ =>
    }

    method Done() returns (done: bool)
      ensures done <==> Contents().phase == DonePhase
    {
      done := taskPhase == DonePhase;
    }
  }
}
