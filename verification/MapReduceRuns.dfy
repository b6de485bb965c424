/**
 Whole runs of the distributed job: workers that crash, are overtaken after ten seconds, or report late,
 against the sequential program.
 */
module MapReduceRuns {
  import opened MapReduce
  import opened Coordinators

  /** A map task being executed: what Map emitted this time, and how many bucket files are written. */
  datatype MapWork = MapWork(file: string, split: seq<seq<KeyValue>>, written: nat)

  /** A reduce task being executed: the files found, those read so far, their pairs, and the end. */
  datatype ReduceWork = ReduceWork(
    id: nat, globbed: bool, want: set<string>, read: set<string>, kvs: seq<KeyValue>, wrote: bool)

  datatype Bucket = Bucket(file: string, id: nat)

  /** Work is never taken back: a worker that crashed or was overtaken just makes no more steps. */
  datatype State = State(
    book: Book,
    maps: seq<MapWork>,
    reduces: seq<ReduceWork>,
    inter: map<Bucket, seq<KeyValue>>,
    outs: map<nat, seq<Line>>,
    reports: set<Task>)

  // ---------------------------------------------------------------- steps

  /** Map ran on a file and its pairs were partitioned. */
  ghost predicate SplitOk(job: Job, file: string, split: seq<seq<KeyValue>>) {
    && |split| == job.nReduce
    && forall b :: 0 <= b < |split| ==> IsBucket(job, job.mapped(file), b, multiset(split[b]))
  }

  /** Map on the file does not divide by zero. */
  ghost predicate MapSafe(job: Job, file: string) {
    job.nReduce > 0 || job.mapped(file) == multiset{}
  }

  /** With no reduce task, a map task that emits a pair divides by zero and never gets past it. */
  ghost predicate AskStep(job: Job, s: State, s': State, task: Task, split: seq<seq<KeyValue>>) {
    exists lateFiles, lateIds, book ::
      && Assigns(s.book, lateFiles, lateIds, book, task)
      && s' == s.(book := book,
                  maps := if task.MapTask? && SplitOk(job, task.file, split) && MapSafe(job, task.file)
                          then s.maps + [MapWork(task.file, split, 0)] else s.maps,
                  reduces := if task.ReduceTask? then s.reduces + [ReduceWork(task.id, false, {}, {}, [], false)] else s.reduces)
  }

  ghost predicate WriteBucketStep(s: State, s': State, i: nat) {
    && i < |s.maps| && s.maps[i].written < |s.maps[i].split|
    && var w := s.maps[i];
       s' == s.(maps := s.maps[i := w.(written := w.written + 1)],
                inter := s.inter[Bucket(w.file, w.written) := w.split[w.written]])
  }

  ghost predicate MapReportStep(s: State, s': State, i: nat) {
    && i < |s.maps| && s.maps[i].written == |s.maps[i].split|
    && s' == s.(reports := s.reports + {MapTask(s.maps[i].file)})
  }

  ghost predicate GlobStep(s: State, s': State, i: nat) {
    && i < |s.reduces| && !s.reduces[i].globbed
    && var w := s.reduces[i];
       s' == s.(reduces := s.reduces[i := w.(globbed := true,
                                             want := set b | b in s.inter && b.id == w.id :: b.file)])
  }

  ghost predicate ReadStep(s: State, s': State, i: nat, file: string) {
    && i < |s.reduces| && s.reduces[i].globbed && file in s.reduces[i].want - s.reduces[i].read
    && Bucket(file, s.reduces[i].id) in s.inter
    && var w := s.reduces[i];
       s' == s.(reduces := s.reduces[i := w.(read := w.read + {file}, kvs := w.kvs + s.inter[Bucket(file, w.id)])])
  }

  ghost predicate WriteOutStep(job: Job, s: State, s': State, i: nat, lines: seq<Line>) {
    && i < |s.reduces| && s.reduces[i].globbed && s.reduces[i].read == s.reduces[i].want
    && LinesOk(job, multiset(s.reduces[i].kvs), lines)
    && s' == s.(reduces := s.reduces[i := s.reduces[i].(wrote := true)], outs := s.outs[s.reduces[i].id := lines])
  }

  ghost predicate ReduceReportStep(s: State, s': State, i: nat) {
    && i < |s.reduces| && s.reduces[i].wrote
    && s' == s.(reports := s.reports + {ReduceTask(s.reduces[i].id)})
  }

  ghost predicate ReportedStep(s: State, s': State, task: Task) {
    task in s.reports && s' == s.(book := Completes(s.book, task))
  }

  ghost predicate Next(job: Job, s: State, s': State) {
    || (exists task, split :: AskStep(job, s, s', task, split))
    || (exists i: nat :: WriteBucketStep(s, s', i))
    || (exists i: nat :: MapReportStep(s, s', i))
    || (exists i: nat :: GlobStep(s, s', i))
    || (exists i: nat, file :: ReadStep(s, s', i, file))
    || (exists i: nat, lines :: WriteOutStep(job, s, s', i, lines))
    || (exists i: nat :: ReduceReportStep(s, s', i))
    || (exists task :: ReportedStep(s, s', task))
  }

  ghost predicate Init(job: Job, s: State) {
    s == State(Fresh(job.files, job.nReduce), [], [], map[], map[], {})
  }

  // ---------------------------------------------------------------- what the input amounts to

  /** All pairs of a set of files. */
  ghost function Total(job: Job, files: set<string>): multiset<KeyValue> {
    if files == {} then multiset{} else
      var f :| f in files;
      job.mapped(f) + Total(job, files - {f})
  }

  lemma {:induction false} TotalSplit(job: Job, files: set<string>, f: string)
    requires f in files
    ensures Total(job, files) == job.mapped(f) + Total(job, files - {f})
    decreases |files|
  {
    var g :| g in files && Total(job, files) == job.mapped(g) + Total(job, files - {g});
    if g != f {
      TotalSplit(job, files - {g}, f);
      TotalSplit(job, files - {f}, g);
      assert files - {g} - {f} == files - {f} - {g};
    }
  }

  // ---------------------------------------------------------------- invariant

  ghost predicate BucketFile(job: Job, s: State, b: Bucket) {
    b in s.inter ==> b.file in job.files && b.id < job.nReduce && IsBucket(job, job.mapped(b.file), b.id, multiset(s.inter[b]))
  }

  /** All bucket files of an input file are there, up to a number. */
  ghost predicate Stored(s: State, file: string, upto: nat) {
    forall b: nat :: b < upto ==> Bucket(file, b) in s.inter
  }

  ghost predicate MapWorkOk(job: Job, s: State, i: nat)
    requires i < |s.maps|
  {
    var w := s.maps[i];
    w.file in job.files && SplitOk(job, w.file, w.split) && w.written <= |w.split| && Stored(s, w.file, w.written)
    && MapSafe(job, w.file)
  }

  ghost predicate ReduceWorkOk(job: Job, s: State, i: nat)
    requires i < |s.reduces|
  {
    var w := s.reduces[i];
    && w.id < job.nReduce
    && s.book.phase != MapPhase
    && (w.globbed ==> w.want == job.files)
    && w.read <= job.files
    && IsBucket(job, Total(job, w.read), w.id, multiset(w.kvs))
    && (w.wrote ==> w.id in s.outs)
  }

  /** The output file of a bucket is right. */
  ghost predicate OutOk(job: Job, s: State, b: nat) {
    b in s.outs ==> b < job.nReduce && exists part :: IsBucket(job, Total(job, job.files), b, part) && LinesOk(job, part, s.outs[b])
  }

  ghost predicate MapDone(job: Job, s: State, file: string) {
    file in job.files && Stored(s, file, job.nReduce) && MapSafe(job, file)
  }

  ghost predicate ReportOk(job: Job, s: State, task: Task) {
    task in s.reports ==>
      match task
      case MapTask(f) => MapDone(job, s, f)
      case ReduceTask(id) => id < job.nReduce && id in s.outs
      case _ => false
  }

  ghost predicate FileOk(job: Job, s: State, f: string)
    requires f in s.book.files
  {
    s.book.files[f] == Completed ==> MapDone(job, s, f)
  }

  ghost predicate IdOk(s: State, id: nat)
    requires id in s.book.reduces
  {
    s.book.reduces[id] == Completed ==> id in s.outs
  }

  ghost predicate BookOk(job: Job, s: State) {
    && s.book.files.Keys == job.files
    && (forall id: nat :: id in s.book.reduces <==> id < job.nReduce)
    && (forall f :: f in s.book.files ==> FileOk(job, s, f))
    && (forall id :: id in s.book.reduces ==> IdOk(s, id))
    && (s.book.phase != MapPhase ==> AllDone(s.book.files))
    && (s.book.phase == DonePhase ==> AllDone(s.book.reduces))
  }

  ghost predicate Inv(job: Job, s: State) {
    && BookOk(job, s)
    && (forall b :: BucketFile(job, s, b))
    && (forall i :: 0 <= i < |s.maps| ==> MapWorkOk(job, s, i))
    && (forall i :: 0 <= i < |s.reduces| ==> ReduceWorkOk(job, s, i))
    && (forall b :: OutOk(job, s, b))
    && (forall t :: ReportOk(job, s, t))
  }

  // ---------------------------------------------------------------- every step keeps it

  /** Files appear and are replaced by others as good, and the coordinator's view is the same. */
  ghost predicate Builds(s: State, s': State) {
    && s'.book == s.book && s.inter.Keys <= s'.inter.Keys && s.outs.Keys <= s'.outs.Keys
  }

  lemma BookKeeps(job: Job, s: State, s': State)
    requires BookOk(job, s) && Builds(s, s')
    ensures BookOk(job, s')
  {
    forall f | f in s'.book.files ensures FileOk(job, s', f) { assert FileOk(job, s, f); }
    forall id | id in s'.book.reduces ensures IdOk(s', id) { assert IdOk(s, id); }
  }

  lemma WorkKeeps(job: Job, s: State, s': State)
    requires Inv(job, s) && s.inter.Keys <= s'.inter.Keys && s.outs.Keys <= s'.outs.Keys
    ensures forall i :: 0 <= i < |s.maps| && i < |s'.maps| && s'.maps[i] == s.maps[i] ==> MapWorkOk(job, s', i)
    ensures (s.book.phase != MapPhase ==> s'.book.phase != MapPhase) ==>
              forall i :: 0 <= i < |s.reduces| && i < |s'.reduces| && s'.reduces[i] == s.reduces[i] ==> ReduceWorkOk(job, s', i)
    ensures forall t :: t in s.reports ==> ReportOk(job, s', t)
  {
    forall i | 0 <= i < |s.maps| && i < |s'.maps| && s'.maps[i] == s.maps[i] ensures MapWorkOk(job, s', i) {
      assert MapWorkOk(job, s, i);
    }
    forall i | 0 <= i < |s.reduces| && i < |s'.reduces| && s'.reduces[i] == s.reduces[i]
               && (s.book.phase != MapPhase ==> s'.book.phase != MapPhase) ensures ReduceWorkOk(job, s', i) {
      assert ReduceWorkOk(job, s, i);
    }
    forall t | t in s.reports ensures ReportOk(job, s', t) { assert ReportOk(job, s, t); }
  }

  lemma OutsKeep(job: Job, s: State, s': State)
    requires Inv(job, s) && s'.inter == s.inter && s'.outs == s.outs
    ensures (forall b :: BucketFile(job, s', b)) && (forall b :: OutOk(job, s', b))
  {
    forall b ensures BucketFile(job, s', b) { assert BucketFile(job, s, b); }
    forall b ensures OutOk(job, s', b) { assert OutOk(job, s, b); }
  }

  /** Handing out a task completes nothing, and a phase ends only when all its tasks are completed. */
  lemma AssignKeeps(job: Job, s: State, lateFiles: set<string>, lateIds: set<nat>, book: Book, task: Task)
    requires BookOk(job, s) && Assigns(s.book, lateFiles, lateIds, book, task)
    ensures BookOk(job, s.(book := book))
    ensures s.book.phase != MapPhase ==> book.phase != MapPhase
    ensures task.MapTask? ==> task.file in job.files
    ensures task.ReduceTask? ==> task.id < job.nReduce && book.phase == ReducePhase
  {
    var s' := s.(book := book);
    forall f | f in book.files ensures FileOk(job, s', f) { assert f in s.book.files ==> FileOk(job, s, f); }
    forall id | id in book.reduces ensures IdOk(s', id) { assert id in s.book.reduces ==> IdOk(s, id); }
  }

  lemma AskKeeps(job: Job, s: State, s': State, task: Task, split: seq<seq<KeyValue>>)
    requires Inv(job, s) && AskStep(job, s, s', task, split)
    ensures Inv(job, s')
  {
    var lateFiles, lateIds, book :| Assigns(s.book, lateFiles, lateIds, book, task) && s'.book == book;
    AssignKeeps(job, s, lateFiles, lateIds, book, task);
    assert BookOk(job, s') by {
      var m := s.(book := book);
      assert Builds(m, s');
      BookKeeps(job, m, s');
    }
    WorkKeeps(job, s, s');
    OutsKeep(job, s, s');
    forall i | 0 <= i < |s'.reduces| ensures ReduceWorkOk(job, s', i) {
      assert i < |s.reduces| ==> ReduceWorkOk(job, s', i);
    }
  }

  lemma WriteBucketKeeps(job: Job, s: State, s': State, i: nat)
    requires Inv(job, s) && WriteBucketStep(s, s', i)
    ensures Inv(job, s')
  {
    assert MapWorkOk(job, s, i);
    BookKeeps(job, s, s');
    WorkKeeps(job, s, s');
    forall b ensures BucketFile(job, s', b) { assert BucketFile(job, s, b); }
    forall b ensures OutOk(job, s', b) { assert OutOk(job, s, b); }
    forall k | 0 <= k < |s'.maps| ensures MapWorkOk(job, s', k) {
      assert k != i ==> s'.maps[k] == s.maps[k];
    }
    forall k | 0 <= k < |s'.reduces| ensures ReduceWorkOk(job, s', k) { assert s'.reduces[k] == s.reduces[k]; }
    forall t ensures ReportOk(job, s', t) { assert t in s.reports ==> ReportOk(job, s', t); }
  }

  lemma ReportKeeps(job: Job, s: State, s': State, t: Task)
    requires Inv(job, s) && s' == s.(reports := s.reports + {t})
    requires match t case MapTask(f) => MapDone(job, s, f) case ReduceTask(id) => id < job.nReduce && id in s.outs case _ => false
    ensures Inv(job, s')
  {
    BookKeeps(job, s, s');
    WorkKeeps(job, s, s');
    OutsKeep(job, s, s');
    forall x ensures ReportOk(job, s', x) { assert ReportOk(job, s, x); }
  }

  /** Another worker's reduce makes progress; the rest is as it was. */
  lemma ReducerKeeps(job: Job, s: State, s': State, i: nat)
    requires Inv(job, s) && i < |s.reduces| == |s'.reduces| && ReduceWorkOk(job, s', i)
    requires s' == s.(reduces := s.reduces[i := s'.reduces[i]])
    ensures Inv(job, s')
  {
    BookKeeps(job, s, s');
    WorkKeeps(job, s, s');
    OutsKeep(job, s, s');
    forall k | 0 <= k < |s'.reduces| ensures ReduceWorkOk(job, s', k) {
      assert k != i ==> s'.reduces[k] == s.reduces[k];
    }
    forall t ensures ReportOk(job, s', t) { assert t in s.reports ==> ReportOk(job, s', t); }
  }

  /** In the reduce phase, globbing finds the bucket file of every input file. */
  lemma GlobFindsAll(job: Job, s: State, id: nat)
    requires Inv(job, s) && s.book.phase != MapPhase && id < job.nReduce
    ensures (set b | b in s.inter && b.id == id :: b.file) == job.files
  {
    var found := set b | b in s.inter && b.id == id :: b.file;
    forall f ensures f in found <==> f in job.files {
      assert BucketFile(job, s, Bucket(f, id));
      assert f in job.files ==> FileOk(job, s, f);
    }
  }

  lemma GlobKeeps(job: Job, s: State, s': State, i: nat)
    requires Inv(job, s) && GlobStep(s, s', i)
    ensures Inv(job, s')
  {
    assert ReduceWorkOk(job, s, i);
    GlobFindsAll(job, s, s.reduces[i].id);
    ReducerKeeps(job, s, s', i);
  }

  lemma ReadKeeps(job: Job, s: State, s': State, i: nat, file: string)
    requires Inv(job, s) && ReadStep(s, s', i, file)
    ensures Inv(job, s')
  {
    var w := s.reduces[i];
    assert ReduceWorkOk(job, s, i) && BucketFile(job, s, Bucket(file, w.id));
    TotalSplit(job, w.read + {file}, file);
    assert w.read + {file} - {file} == w.read;
    ReducerKeeps(job, s, s', i);
  }

  lemma WriteOutKeeps(job: Job, s: State, s': State, i: nat, lines: seq<Line>)
    requires Inv(job, s) && WriteOutStep(job, s, s', i, lines)
    ensures Inv(job, s')
  {
    var w := s.reduces[i];
    assert ReduceWorkOk(job, s, i);
    BookKeeps(job, s, s');
    WorkKeeps(job, s, s');
    forall b ensures BucketFile(job, s', b) { assert BucketFile(job, s, b); }
    forall b ensures OutOk(job, s', b) {
      assert OutOk(job, s, b);
      assert b == w.id ==> IsBucket(job, Total(job, job.files), b, multiset(w.kvs)) && LinesOk(job, multiset(w.kvs), s'.outs[b]);
    }
    forall k | 0 <= k < |s'.reduces| ensures ReduceWorkOk(job, s', k) {
      assert k != i ==> s'.reduces[k] == s.reduces[k];
    }
    forall k | 0 <= k < |s'.maps| ensures MapWorkOk(job, s', k) { assert s'.maps[k] == s.maps[k]; }
    forall t ensures ReportOk(job, s', t) { assert t in s.reports ==> ReportOk(job, s', t); }
  }

  lemma ReportedKeeps(job: Job, s: State, s': State, task: Task)
    requires Inv(job, s) && ReportedStep(s, s', task)
    ensures Inv(job, s')
  {
    assert ReportOk(job, s, task);
    forall f | f in s'.book.files ensures FileOk(job, s', f) { assert f in s.book.files ==> FileOk(job, s, f); }
    forall id | id in s'.book.reduces ensures IdOk(s', id) { assert id in s.book.reduces ==> IdOk(s, id); }
    WorkKeeps(job, s, s');
    OutsKeep(job, s, s');
    forall t ensures ReportOk(job, s', t) { assert t in s.reports ==> ReportOk(job, s', t); }
  }

  lemma NextKeeps(job: Job, s: State, s': State)
    requires Inv(job, s) && Next(job, s, s')
    ensures Inv(job, s')
  {
    if task, split :| AskStep(job, s, s', task, split) { AskKeeps(job, s, s', task, split); }
    else if i: nat :| WriteBucketStep(s, s', i) { WriteBucketKeeps(job, s, s', i); }
    else if i: nat :| MapReportStep(s, s', i) {
      assert MapWorkOk(job, s, i);
      ReportKeeps(job, s, s', MapTask(s.maps[i].file));
    }
    else if i: nat :| GlobStep(s, s', i) { GlobKeeps(job, s, s', i); }
    else if i: nat, file :| ReadStep(s, s', i, file) { ReadKeeps(job, s, s', i, file); }
    else if i: nat, lines :| WriteOutStep(job, s, s', i, lines) { WriteOutKeeps(job, s, s', i, lines); }
    else if i: nat :| ReduceReportStep(s, s', i) {
      assert ReduceWorkOk(job, s, i);
      ReportKeeps(job, s, s', ReduceTask(s.reduces[i].id));
    }
    else if task :| ReportedStep(s, s', task) { ReportedKeeps(job, s, s', task); }
  }

  ghost predicate Run(job: Job, r: seq<State>) {
    |r| > 0 && Init(job, r[0]) && forall n :: 0 < n < |r| ==> Follow(job, r, n)
  }

  ghost predicate Follow(job: Job, r: seq<State>, n: int)
    requires 0 < n < |r|
  {
    Next(job, r[n - 1], r[n])
  }

  lemma {:induction false} RunInv(job: Job, r: seq<State>, n: nat)
    requires Run(job, r) && n < |r|
    ensures Inv(job, r[n])
  {
    if n == 0 {
      forall b ensures IsBucket(job, Total(job, {}), b, multiset{}) { }
    } else {
      RunInv(job, r, n - 1);
      assert Follow(job, r, n);
      NextKeeps(job, r[n - 1], r[n]);
    }
  }

  // ---------------------------------------------------------------- agreement with the sequential program

  /** The lines of the first n output files, together. */
  function Together(outs: map<nat, seq<Line>>, n: nat): multiset<Line> {
    if n == 0 then multiset{} else Together(outs, n - 1) + if n - 1 in outs then multiset(outs[n - 1]) else multiset{}
  }

  /** Lines that are right are exactly the right lines, once each. */
  lemma LinesExact(job: Job, all: multiset<KeyValue>, lines: seq<Line>, x: Line)
    requires LinesOk(job, all, lines)
    ensures multiset(lines)[x] == if LineOk(job, all, x) then 1 else 0
  {
    if LineOk(job, all, x) {
      var v :| KeyValue(x.key, v) in all;
      assert HasLine(lines, KeyValue(x.key, v).key);
      var i :| 0 <= i < |lines| && lines[i].key == x.key;
      LineUnique(job, all, x, lines[i]);
      OnceOnly(lines, i);
    } else {
      assert x !in lines;
    }
  }

  lemma OnceOnly(lines: seq<Line>, i: nat)
    requires Ascending(lines) && i < |lines|
    ensures multiset(lines)[lines[i]] == 1
  {
    var x := lines[i];
    assert lines == lines[..i] + [x] + lines[i + 1..];
    LessTotal(x.key, x.key);
    assert x !in lines[..i] && x !in lines[i + 1..];
  }

  lemma PartLines(job: Job, all: multiset<KeyValue>, b: nat, part: multiset<KeyValue>, x: Line)
    requires job.nReduce > 0 && IsBucket(job, all, b, part)
    ensures LineOk(job, part, x) <==> LineOk(job, all, x) && BucketOf(job, x.key) == b
  {
    forall v ensures part[KeyValue(x.key, v)] == if BucketOf(job, x.key) == b then all[KeyValue(x.key, v)] else 0 { }
    if BucketOf(job, x.key) == b {
      forall vals ensures IsValues(part, x.key, vals) <==> IsValues(all, x.key, vals) { }
    }
  }

  lemma {:induction false} TogetherExact(job: Job, s: State, n: nat, x: Line)
    requires Inv(job, s) && s.book.phase == DonePhase && 0 < job.nReduce && n <= job.nReduce
    ensures Together(s.outs, n)[x] == if LineOk(job, Total(job, job.files), x) && BucketOf(job, x.key) < n then 1 else 0
  {
    if n > 0 {
      TogetherExact(job, s, n - 1, x);
      assert IdOk(s, n - 1) && OutOk(job, s, n - 1);
      var part :| IsBucket(job, Total(job, job.files), n - 1, part) && LinesOk(job, part, s.outs[n - 1]);
      LinesExact(job, part, s.outs[n - 1], x);
      PartLines(job, Total(job, job.files), n - 1, part, x);
    }
  }

  lemma {:induction false} TotalEmpty(job: Job, files: set<string>)
    requires forall f :: f in files ==> job.mapped(f) == multiset{}
    ensures Total(job, files) == multiset{}
    decreases |files|
  {
    if files != {} {
      var f :| f in files;
      TotalSplit(job, files, f);
      TotalEmpty(job, files - {f});
    }
  }

  function Names(files: seq<string>): set<string> {
    set f | f in files
  }

  ghost predicate Silent(job: Job, files: seq<string>, i: nat, j: nat)
    requires i < |files| && j < |files|
  {
    files[i] == files[j] ==> job.mapped(files[i]) == multiset{}
  }

  /** No file that yields a pair is named twice. */
  ghost predicate NamedOnce(job: Job, files: seq<string>) {
    forall i: nat, j: nat :: i < j < |files| ==> Silent(job, files, i, j)
  }

  lemma NamedOnceLast(job: Job, files: seq<string>)
    requires files != []
    ensures var n := |files| - 1;
            NamedOnce(job, files) <==>
              NamedOnce(job, files[..n]) && (files[n] in files[..n] ==> job.mapped(files[n]) == multiset{})
  {
    var n := |files| - 1;
    var f := files[n];
    if NamedOnce(job, files) {
      forall i: nat, j: nat | i < j < n ensures Silent(job, files[..n], i, j) { assert Silent(job, files, i, j); }
      if f in files[..n] {
        var i: nat :| i < n && files[i] == f;
        assert Silent(job, files, i, n);
      }
    }
    if NamedOnce(job, files[..n]) && (f in files[..n] ==> job.mapped(f) == multiset{}) {
      forall i: nat, j: nat | i < j < |files| ensures Silent(job, files, i, j) {
        if j < n { assert Silent(job, files[..n], i, j); } else { assert files[i] in files[..n]; }
      }
    }
  }

  /**
   The coordinator keeps files in a map, so a file named twice is mapped once, but the sequential program
   maps it twice: the two see the same pairs exactly when no file that yields any is named twice.
   */
  lemma {:induction false} SamePairs(job: Job, files: seq<string>)
    ensures Total(job, Names(files)) <= Emitted(job, files)
    ensures Emitted(job, files) == Total(job, Names(files)) <==> NamedOnce(job, files)
  {
    if files == [] {
      assert Names(files) == {};
    } else {
      var n := |files| - 1;
      var rest, f := files[..n], files[n];
      SamePairs(job, rest);
      NamedOnceLast(job, files);
      assert files == rest + [f];
      assert Names(files) == Names(rest) + {f};
      if f in rest {
        assert Names(files) == Names(rest);
        MoreOrSame(Total(job, Names(rest)), Emitted(job, rest), job.mapped(f));
      } else {
        TotalSplit(job, Names(files), f);
        assert Names(files) - {f} == Names(rest);
        SameAdded(Total(job, Names(rest)), Emitted(job, rest), job.mapped(f));
      }
    }
  }

  lemma MoreOrSame(a: multiset<KeyValue>, b: multiset<KeyValue>, c: multiset<KeyValue>)
    requires a <= b
    ensures a <= b + c && (b + c == a <==> b == a && c == multiset{})
  {
    if b + c == a {
      forall x ensures c[x] == 0 && b[x] == a[x] { assert (b + c)[x] == a[x]; }
    }
  }

  lemma SameAdded(a: multiset<KeyValue>, b: multiset<KeyValue>, c: multiset<KeyValue>)
    requires a <= b
    ensures c + a <= b + c && (b + c == c + a <==> b == a)
  {
    if b + c == c + a {
      forall x ensures b[x] == a[x] { assert (b + c)[x] == (c + a)[x]; }
    }
  }

  lemma SameCount(job: Job, s: State, lines: seq<Line>, x: Line)
    requires Inv(job, s) && s.book.phase == DonePhase && LinesOk(job, Total(job, job.files), lines)
    ensures Together(s.outs, job.nReduce)[x] == multiset(lines)[x]
  {
    LinesExact(job, Total(job, job.files), lines, x);
    if job.nReduce > 0 {
      TogetherExact(job, s, job.nReduce, x);
    } else {
      forall f | f in job.files ensures job.mapped(f) == multiset{} { assert FileOk(job, s, f); }
      TotalEmpty(job, job.files);
    }
  }

  /**
   When the coordinator says Done, the output files together hold exactly the lines of the sequential
   program on the same files, each once, whatever workers crashed, were overtaken or reported late.
   */
  lemma SameAsSequential(job: Job, r: seq<State>, n: nat, files: seq<string>, lines: seq<Line>)
    requires Run(job, r) && n < |r| && r[n].book.phase == DonePhase
    requires Names(files) == job.files && NamedOnce(job, files)
    requires LinesOk(job, Emitted(job, files), lines)
    ensures forall b: nat :: b < job.nReduce ==> b in r[n].outs
    ensures Together(r[n].outs, job.nReduce) == multiset(lines)
  {
    var s := r[n];
    RunInv(job, r, n);
    SamePairs(job, files);
    forall b: nat | b < job.nReduce ensures b in s.outs { assert IdOk(s, b); }
    forall x ensures Together(s.outs, job.nReduce)[x] == multiset(lines)[x] { SameCount(job, s, lines, x); }
  }

  // ---------------------------------------------------------------- files named twice show in the output

  /** A Reduce that counts the values of a key, as the word count does, but in unary. */
  function CountValues(key: string, vals: multiset<string>): string {
    seq(|vals|, i => '1')
  }

  lemma FewerValues(a: multiset<string>, b: multiset<string>, v: string)
    requires (forall x :: a[x] <= b[x]) && a[v] < b[v]
    ensures |a| < |b|
  {
    assert a <= b;
    assert b == a + (b - a);
    assert v in b - a;
  }

  /** A key with a value more often in `more` has another right line there. */
  lemma LinesDiffer(job: Job, less: multiset<KeyValue>, more: multiset<KeyValue>, kv: KeyValue, x: Line)
    requires job.reducef == CountValues && less <= more && less[kv] < more[kv]
    requires x.key == kv.key && LineOk(job, more, x)
    ensures !LineOk(job, less, x)
  {
    var b :| IsValues(more, x.key, b) && x.output == job.reducef(x.key, b);
    assert |x.output| == |b|;
    forall a | IsValues(less, x.key, a) ensures x.output != job.reducef(x.key, a) {
      assert forall v :: a[v] == less[KeyValue(x.key, v)] && b[v] == more[KeyValue(x.key, v)];
      assert KeyValue(kv.key, kv.value) == kv;
      FewerValues(a, b, kv.value);
      assert |job.reducef(x.key, a)| == |a|;
    }
  }

  /**
   The converse of SameAsSequential: if a file that yields a pair is named twice, then with a Reduce that
   counts its values no run of the distributed job ends with the lines of the sequential program.
   */
  lemma NamedTwiceShows(base: Job, r: seq<State>, n: nat, files: seq<string>, lines: seq<Line>)
    requires Run(base.(reducef := CountValues), r) && n < |r| && r[n].book.phase == DonePhase
    requires Names(files) == base.files && !NamedOnce(base.(reducef := CountValues), files)
    requires LinesOk(base.(reducef := CountValues), Emitted(base.(reducef := CountValues), files), lines)
    ensures Together(r[n].outs, base.nReduce) != multiset(lines)
  {
    var job, s := base.(reducef := CountValues), r[n];
    var less, more := Total(job, job.files), Emitted(job, files);
    RunInv(job, r, n);
    SamePairs(job, files);
    var kv :| kv in more && less[kv] < more[kv];
    assert HasLine(lines, kv.key);
    var i :| 0 <= i < |lines| && lines[i].key == kv.key;
    var x := lines[i];
    LinesDiffer(job, less, more, kv, x);
    assert multiset(lines)[x] > 0;
    if job.nReduce > 0 { TogetherExact(job, s, job.nReduce, x); }
  }

  // ---------------------------------------------------------------- reports count

  /** A report that arrives completes its task, in whatever phase, and no later step takes that back. */
  lemma {:induction false} ReportCounts(job: Job, r: seq<State>, i: nat, task: Task, j: nat)
    requires Run(job, r) && 0 < i <= j < |r| && ReportedStep(r[i - 1], r[i], task)
    ensures task.MapTask? ==> task.file in r[j].book.files && r[j].book.files[task.file] == Completed
    ensures task.ReduceTask? ==> task.id in r[j].book.reduces && r[j].book.reduces[task.id] == Completed
    decreases j
  {
    if i < j {
      ReportCounts(job, r, i, task, j - 1);
      assert Follow(job, r, j);
      CompletedStays(job, r[j - 1], r[j]);
    }
  }

  lemma CompletedStays(job: Job, s: State, s': State)
    requires Next(job, s, s')
    ensures forall f :: f in s.book.files && s.book.files[f] == Completed ==> f in s'.book.files && s'.book.files[f] == Completed
    ensures forall k :: k in s.book.reduces && s.book.reduces[k] == Completed ==> k in s'.book.reduces && s'.book.reduces[k] == Completed
  {
    if task, split :| AskStep(job, s, s', task, split) {
      var lateFiles, lateIds, book :| Assigns(s.book, lateFiles, lateIds, book, task) && s'.book == book;
    }
  }

  /** Once every report has come in, the next worker to ask ends the job. */
  lemma AllReportedEnds(job: Job, s: State, s': State, task: Task, split: seq<seq<KeyValue>>)
    requires AllDone(s.book.files) && AllDone(s.book.reduces) && AskStep(job, s, s', task, split)
    ensures s'.book.phase == DonePhase && task == Exit
  {
  }

  // ---------------------------------------------------------------- Done is final

  lemma DoneNext(job: Job, s: State, s': State)
    requires Next(job, s, s') && s.book.phase == DonePhase
    ensures s'.book.phase == DonePhase
  {
  }

  lemma {:induction false} DoneStays(job: Job, r: seq<State>, i: nat, j: nat)
    requires Run(job, r) && i <= j < |r| && r[i].book.phase == DonePhase
    ensures r[j].book.phase == DonePhase
    decreases j
  {
    if i < j {
      DoneStays(job, r, i, j - 1);
      assert Follow(job, r, j);
      DoneNext(job, r[j - 1], r[j]);
    }
  }

  lemma LastIsGreatest(a: seq<Line>, x: Line)
    requires Ascending(a) && x in a
    ensures x == a[|a| - 1] || Less(x.key, a[|a| - 1].key)
  {
    var i :| 0 <= i < |a| && a[i] == x;
  }

  lemma FrontElements(a: seq<Line>, x: Line)
    requires Ascending(a) && a != []
    ensures x in a[..|a| - 1] <==> x in a && x != a[|a| - 1]
  {
    var n := |a| - 1;
    LessTotal(a[n].key, a[n].key);
    assert a == a[..n] + [a[n]];
    if x in a[..n] {
      var i :| 0 <= i < n && a[..n][i] == x;
      assert Less(a[i].key, a[n].key);
    }
  }

  /** Ascending lists of the same lines are the same. */
  lemma {:induction false} AscendingUnique(a: seq<Line>, b: seq<Line>)
    requires Ascending(a) && Ascending(b) && forall x :: x in a <==> x in b
    ensures a == b
    decreases |a|
  {
    if a == [] {
      assert forall i :: 0 <= i < |b| ==> b[i] in b;
    } else {
      var m, n := |a| - 1, |b| - 1;
      assert a[m] in a;
      LastIsGreatest(b, a[m]);
      assert b[n] in b;
      LastIsGreatest(a, b[n]);
      LessTotal(a[m].key, b[n].key);
      forall x ensures x in a[..m] <==> x in b[..n] {
        FrontElements(a, x);
        FrontElements(b, x);
      }
      AscendingUnique(a[..m], b[..n]);
      assert a == a[..m] + [a[m]] && b == b[..n] + [b[n]];
    }
  }

  /** There is one right list of lines. */
  lemma LinesSame(job: Job, all: multiset<KeyValue>, a: seq<Line>, b: seq<Line>)
    requires LinesOk(job, all, a) && LinesOk(job, all, b)
    ensures a == b
  {
    forall x ensures x in a <==> x in b {
      LinesExact(job, all, a, x);
      LinesExact(job, all, b, x);
      assert (x in a <==> multiset(a)[x] > 0) && (x in b <==> multiset(b)[x] > 0);
    }
    AscendingUnique(a, b);
  }

  lemma OutputOf(job: Job, s: State, b: nat) returns (part: multiset<KeyValue>)
    requires Inv(job, s) && s.book.phase == DonePhase && b < job.nReduce
    ensures b in s.outs && IsBucket(job, Total(job, job.files), b, part) && LinesOk(job, part, s.outs[b])
  {
    assert IdOk(s, b) && OutOk(job, s, b);
    part :| IsBucket(job, Total(job, job.files), b, part) && LinesOk(job, part, s.outs[b]);
  }

  lemma BucketSame(job: Job, all: multiset<KeyValue>, b: nat, p: multiset<KeyValue>, q: multiset<KeyValue>)
    requires IsBucket(job, all, b, p) && IsBucket(job, all, b, q)
    ensures p == q
  {
    forall kv ensures p[kv] == q[kv] { }
  }

  /**
   Done is final: from then on every output file is there and never changes, though workers that were
   overtaken may still write theirs.
   */
  lemma DoneIsFinal(job: Job, r: seq<State>, i: nat, j: nat, b: nat)
    requires Run(job, r) && i <= j < |r| && r[i].book.phase == DonePhase && b < job.nReduce
    ensures r[j].book.phase == DonePhase && b in r[i].outs && b in r[j].outs && r[j].outs[b] == r[i].outs[b]
  {
    DoneStays(job, r, i, j);
    RunInv(job, r, i);
    RunInv(job, r, j);
    var p := OutputOf(job, r[i], b);
    var q := OutputOf(job, r[j], b);
    BucketSame(job, Total(job, job.files), b, p, q);
    LinesSame(job, p, r[i].outs[b], r[j].outs[b]);
  }
}
