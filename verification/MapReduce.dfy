/**
 What a MapReduce job computes, and the loops shared by src/mr/worker.go and src/main/mrsequential.go:
 partitioning by hash, sorting by key, and grouping equal keys.
 */
module MapReduce {

  datatype KeyValue = KeyValue(key: string, value: string)

  datatype Line = Line(key: string, output: string)

  /**
   A job: its input files and number of reduce tasks; what Map emits for a file, as a multiset; Reduce,
   which does not look at the order of values; and the hash of a key.
   */
  datatype Job = Job(
    files: set<string>,
    nReduce: nat,
    mapped: string -> multiset<KeyValue>,
    reducef: (string, multiset<string>) -> string,
    ihash: string -> nat)

  // ---------------------------------------------------------------- order of keys

  predicate Less(a: string, b: string) {
    b != [] && (a == [] || a[0] < b[0] || (a[0] == b[0] && Less(a[1..], b[1..])))
  }

  lemma {:induction false} LessTrans(a: string, b: string, c: string)
    requires Less(a, b) && Less(b, c)
    ensures Less(a, c)
  {
    if a != [] && a[0] == b[0] && b[0] == c[0] { LessTrans(a[1..], b[1..], c[1..]); }
  }

  lemma {:induction false} LessTotal(a: string, b: string)
    ensures Less(a, b) || a == b || Less(b, a)
    ensures !(Less(a, b) && Less(b, a))
    ensures !Less(a, a)
  {
    if a != [] && b != [] {
      LessTotal(a[1..], b[1..]);
      LessTotal(a[1..], a[1..]);
      assert a == [a[0]] + a[1..] && b == [b[0]] + b[1..];
    } else if a != [] {
      LessTotal(a[1..], a[1..]);
    }
  }

  /** As sort.Sort leaves it: no later key is less than an earlier one. */
  ghost predicate Sorted(kvs: seq<KeyValue>) {
    forall i, j :: 0 <= i < j < |kvs| ==> !Less(kvs[j].key, kvs[i].key)
  }

  lemma NotLessTrans(a: string, b: string, c: string)
    requires !Less(b, a) && !Less(c, b)
    ensures !Less(c, a) && (a == c ==> a == b)
  {
    LessTotal(a, b);
    LessTotal(b, c);
    LessTotal(a, c);
    if Less(a, b) && Less(b, c) { LessTrans(a, b, c); }
  }

  // ---------------------------------------------------------------- what the output must be

  ghost predicate IsValues(all: multiset<KeyValue>, key: string, vals: multiset<string>) {
    forall v :: vals[v] == all[KeyValue(key, v)]
  }

  /** The line of a key that occurs, with Reduce of all its values. */
  ghost predicate LineOk(job: Job, all: multiset<KeyValue>, line: Line) {
    && (exists v :: KeyValue(line.key, v) in all)
    && (exists vals :: IsValues(all, line.key, vals) && line.output == job.reducef(line.key, vals))
  }

  ghost predicate HasLine(lines: seq<Line>, key: string) {
    exists i :: 0 <= i < |lines| && lines[i].key == key
  }

  ghost predicate Ascending(lines: seq<Line>) {
    forall i, j :: 0 <= i < j < |lines| ==> Less(lines[i].key, lines[j].key)
  }

  /** One line per distinct key, in ascending order of keys. */
  ghost predicate LinesOk(job: Job, all: multiset<KeyValue>, lines: seq<Line>) {
    && Ascending(lines)
    && (forall i :: 0 <= i < |lines| ==> LineOk(job, all, lines[i]))
    && (forall kv :: kv in all ==> HasLine(lines, kv.key))
  }

  /** A key has one right line. */
  lemma LineUnique(job: Job, all: multiset<KeyValue>, a: Line, b: Line)
    requires LineOk(job, all, a) && LineOk(job, all, b) && a.key == b.key
    ensures a == b
  {
    var x :| IsValues(all, a.key, x) && a.output == job.reducef(a.key, x);
    var y :| IsValues(all, b.key, y) && b.output == job.reducef(b.key, y);
    assert x == y by {
      forall v ensures x[v] == y[v] { }
    }
  }

  // ---------------------------------------------------------------- partition

  function BucketOf(job: Job, key: string): nat
    requires job.nReduce > 0
  {
    job.ihash(key) % job.nReduce
  }

  /** `part` holds the pairs of `all` that belong to bucket b. */
  ghost predicate IsBucket(job: Job, all: multiset<KeyValue>, b: nat, part: multiset<KeyValue>) {
    forall kv :: part[kv] == if job.nReduce > 0 && BucketOf(job, kv.key) == b then all[kv] else 0
  }

  /** The loop of writeFileForMap: every pair goes to the bucket of its key's hash. */
  method Partition(job: Job, kva: seq<KeyValue>) returns (split: seq<seq<KeyValue>>)
    requires job.nReduce > 0
    ensures |split| == job.nReduce
    ensures forall b :: 0 <= b < |split| ==> IsBucket(job, multiset(kva), b, multiset(split[b]))
    ensures forall b, kv :: 0 <= b < |split| && kv in split[b] ==> kv in kva && job.ihash(kv.key) % job.nReduce == b
    ensures forall kv :: kv in kva ==> kv in split[job.ihash(kv.key) % job.nReduce]
  {
    split := seq(job.nReduce, b => []);
    var i := 0;
    while i < |kva|
      invariant 0 <= i <= |kva|
      invariant |split| == job.nReduce
      invariant forall b :: 0 <= b < |split| ==> IsBucket(job, multiset(kva[..i]), b, multiset(split[b]))
    {
      var kv := kva[i];
      var idx := BucketOf(job, kv.key);
      assert kva[..i + 1] == kva[..i] + [kv];
      ghost var before := split;
      split := split[idx := split[idx] + [kv]];
      forall b | 0 <= b < |split| ensures IsBucket(job, multiset(kva[..i + 1]), b, multiset(split[b])) {
        assert IsBucket(job, multiset(kva[..i]), b, multiset(before[b]));
      }
      i := i + 1;
    }
    assert kva[..i] == kva;
    forall b, kv | 0 <= b < |split| ensures kv in split[b] <==> kv in kva && job.ihash(kv.key) % job.nReduce == b {
      assert IsBucket(job, multiset(kva), b, multiset(split[b]));
      assert (kv in split[b] <==> multiset(split[b])[kv] > 0) && (kv in kva <==> multiset(kva)[kv] > 0);
    }
  }

  // ---------------------------------------------------------------- sort and group

  /** sort.Sort by key; the order of pairs with equal keys is not promised. */
  method SortByKey(kvs: seq<KeyValue>) returns (r: seq<KeyValue>)
    ensures Sorted(r) && multiset(r) == multiset(kvs)
  {
    r := [];
    var i := 0;
    while i < |kvs|
      invariant 0 <= i <= |kvs|
      invariant Sorted(r) && multiset(r) == multiset(kvs[..i])
    {
      assert kvs[..i + 1] == kvs[..i] + [kvs[i]];
      r := InsertByKey(r, kvs[i]);
      i := i + 1;
    }
    assert kvs[..i] == kvs;
  }

  method InsertByKey(s: seq<KeyValue>, kv: KeyValue) returns (r: seq<KeyValue>)
    requires Sorted(s)
    ensures Sorted(r) && multiset(r) == multiset(s) + multiset{kv}
  {
    var p := 0;
    while p < |s| && !Less(kv.key, s[p].key)
      invariant 0 <= p <= |s|
      invariant forall q :: 0 <= q < p ==> !Less(kv.key, s[q].key)
    {
      p := p + 1;
    }
    r := s[..p] + [kv] + s[p..];
    assert s == s[..p] + s[p..];
    forall q | p <= q < |s| ensures !Less(s[q].key, kv.key) {
      LessTotal(kv.key, s[p].key);
      if q > p { NotLessTrans(kv.key, s[p].key, s[q].key); }
    }
  }

  /** Place i parts the smaller keys from the larger ones. */
  ghost predicate Parts(kvs: seq<KeyValue>, i: nat) {
    forall q, r :: 0 <= q < i <= r < |kvs| ==> Less(kvs[q].key, kvs[r].key)
  }

  ghost predicate SameKeys(kvs: seq<KeyValue>, i: nat, j: nat)
    requires i < |kvs|
  {
    forall q :: i <= q < j && q < |kvs| ==> kvs[q].key == kvs[i].key
  }

  /** A maximal run of one key ends where the next key begins. */
  lemma GroupEnds(kvs: seq<KeyValue>, i: nat, j: nat)
    requires Sorted(kvs) && i < j <= |kvs| && Parts(kvs, i) && SameKeys(kvs, i, j)
    requires j < |kvs| ==> kvs[j].key != kvs[i].key
    ensures Parts(kvs, j)
  {
    forall q, r | 0 <= q < j <= r < |kvs| ensures Less(kvs[q].key, kvs[r].key) {
      if i <= q {
        LessTotal(kvs[i].key, kvs[j].key);
        LessTotal(kvs[i].key, kvs[r].key);
        LessTotal(kvs[r].key, kvs[r].key);
        NotLessTrans(kvs[i].key, kvs[j].key, kvs[r].key);
      }
    }
  }

  lemma {:induction false} ValuesOfRun(run: seq<KeyValue>, key: string, values: seq<string>, v: string)
    requires |run| == |values|
    requires forall k :: 0 <= k < |run| ==> run[k] == KeyValue(key, values[k])
    ensures multiset(values)[v] == multiset(run)[KeyValue(key, v)]
  {
    if run != [] {
      var n := |run| - 1;
      assert run == run[..n] + [run[n]] && values == values[..n] + [values[n]];
      ValuesOfRun(run[..n], key, values[..n], v);
    }
  }

  lemma KeyElsewhere(kvs: seq<KeyValue>, i: nat, j: nat, kv: KeyValue)
    requires i < j <= |kvs| && Parts(kvs, i) && Parts(kvs, j) && kv.key == kvs[i].key
    ensures kv !in kvs[..i] && kv !in kvs[j..]
  {
    LessTotal(kv.key, kv.key);
  }

  /** The values of a run between two parting places are all the values of its key. */
  lemma GroupValues(kvs: seq<KeyValue>, i: nat, j: nat, values: seq<string>)
    requires i < j <= |kvs| && Parts(kvs, i) && Parts(kvs, j) && SameKeys(kvs, i, j)
    requires |values| == j - i && forall k :: 0 <= k < j - i ==> values[k] == kvs[i + k].value
    ensures IsValues(multiset(kvs), kvs[i].key, multiset(values))
  {
    forall v ensures multiset(values)[v] == multiset(kvs)[KeyValue(kvs[i].key, v)] {
      var kv := KeyValue(kvs[i].key, v);
      assert kvs == kvs[..i] + kvs[i..j] + kvs[j..];
      ValuesOfRun(kvs[i..j], kvs[i].key, values, v);
      KeyElsewhere(kvs, i, j, kv);
      assert multiset(kvs[..i])[kv] == 0 && multiset(kvs[j..])[kv] == 0;
    }
  }

  /** The lines written so far are those of the keys before place i. */
  ghost predicate Written(job: Job, kvs: seq<KeyValue>, i: nat, lines: seq<Line>)
    requires i <= |kvs|
  {
    && Ascending(lines)
    && (forall l :: 0 <= l < |lines| ==> LineOk(job, multiset(kvs), lines[l]) && LineBefore(kvs, i, lines[l]))
    && (forall q :: 0 <= q < i ==> HasLine(lines, kvs[q].key))
  }

  ghost predicate LineBefore(kvs: seq<KeyValue>, i: nat, line: Line)
    requires i <= |kvs|
  {
    exists q :: 0 <= q < i && kvs[q].key == line.key
  }

  lemma HasLineMore(lines: seq<Line>, line: Line, key: string)
    ensures HasLine(lines, key) || line.key == key ==> HasLine(lines + [line], key)
  {
    var more := lines + [line];
    assert more[|lines|] == line;
    if HasLine(lines, key) {
      var l :| 0 <= l < |lines| && lines[l].key == key;
      assert more[l].key == key;
    }
  }

  lemma LineLater(kvs: seq<KeyValue>, i: nat, j: nat, line: Line)
    requires i <= j <= |kvs| && LineBefore(kvs, i, line)
    ensures LineBefore(kvs, j, line)
    ensures Parts(kvs, i) && i < |kvs| ==> Less(line.key, kvs[i].key)
  {
  }

  lemma AscendingMore(kvs: seq<KeyValue>, i: nat, lines: seq<Line>, line: Line)
    requires i < |kvs| && Parts(kvs, i) && Ascending(lines) && line.key == kvs[i].key
    requires forall l :: 0 <= l < |lines| ==> LineBefore(kvs, i, lines[l])
    ensures Ascending(lines + [line])
  {
    forall l | 0 <= l < |lines| ensures Less(lines[l].key, line.key) { LineLater(kvs, i, i, lines[l]); }
  }

  lemma LinesMore(job: Job, kvs: seq<KeyValue>, i: nat, j: nat, lines: seq<Line>, line: Line, l: nat)
    requires i <= j <= |kvs| && Written(job, kvs, i, lines) && LineBefore(kvs, j, line) && LineOk(job, multiset(kvs), line)
    requires l <= |lines|
    ensures var x := (lines + [line])[l]; LineOk(job, multiset(kvs), x) && LineBefore(kvs, j, x)
  {
    if l < |lines| { LineLater(kvs, i, j, lines[l]); }
  }

  lemma WriteLine(job: Job, kvs: seq<KeyValue>, i: nat, j: nat, lines: seq<Line>, line: Line)
    requires i < j <= |kvs| && Parts(kvs, i) && SameKeys(kvs, i, j) && Written(job, kvs, i, lines)
    requires line.key == kvs[i].key && LineOk(job, multiset(kvs), line)
    ensures Written(job, kvs, j, lines + [line])
  {
    var more := lines + [line];
    assert LineBefore(kvs, j, line);
    AscendingMore(kvs, i, lines, line);
    forall l | 0 <= l < |more| ensures LineOk(job, multiset(kvs), more[l]) && LineBefore(kvs, j, more[l]) {
      LinesMore(job, kvs, i, j, lines, line, l);
    }
    forall q | 0 <= q < j ensures HasLine(more, kvs[q].key) { HasLineMore(lines, line, kvs[q].key); }
  }

  lemma GroupWritten(job: Job, kvs: seq<KeyValue>, i: nat, j: nat, values: seq<string>, lines: seq<Line>)
    requires Sorted(kvs) && i < j <= |kvs| && Parts(kvs, i) && SameKeys(kvs, i, j)
    requires j < |kvs| ==> kvs[j].key != kvs[i].key
    requires |values| == j - i && forall k :: 0 <= k < j - i ==> values[k] == kvs[i + k].value
    requires Written(job, kvs, i, lines)
    ensures Parts(kvs, j)
    ensures Written(job, kvs, j, lines + [Line(kvs[i].key, job.reducef(kvs[i].key, multiset(values)))])
  {
    GroupEnds(kvs, i, j);
    GroupValues(kvs, i, j, values);
    var line := Line(kvs[i].key, job.reducef(kvs[i].key, multiset(values)));
    assert KeyValue(line.key, kvs[i].value) == kvs[i] && kvs[i] in kvs;
    assert LineOk(job, multiset(kvs), line);
    WriteLine(job, kvs, i, j, lines, line);
  }

  lemma AllWritten(job: Job, kvs: seq<KeyValue>, lines: seq<Line>)
    requires Written(job, kvs, |kvs|, lines)
    ensures LinesOk(job, multiset(kvs), lines)
  {
    forall kv | kv in multiset(kvs) ensures HasLine(lines, kv.key) {
      var q :| 0 <= q < |kvs| && kvs[q] == kv;
    }
  }

  /** The grouping loop of the worker and of the sequential program. */
  method ReduceSorted(job: Job, kvs: seq<KeyValue>) returns (lines: seq<Line>)
    requires Sorted(kvs)
    ensures LinesOk(job, multiset(kvs), lines)
  {
    lines := [];
    var i := 0;
    while i < |kvs|
      invariant 0 <= i <= |kvs| && Parts(kvs, i) && Written(job, kvs, i, lines)
    {
      var j := i + 1;
      while j < |kvs| && kvs[j].key == kvs[i].key
        invariant i < j <= |kvs| && SameKeys(kvs, i, j)
      {
        j := j + 1;
      }
      var values := [];
      var k := i;
      while k < j
        invariant i <= k <= j && |values| == k - i
        invariant forall m :: 0 <= m < k - i ==> values[m] == kvs[i + m].value
      {
        values := values + [kvs[k].value];
        k := k + 1;
      }
      GroupWritten(job, kvs, i, j, values, lines);
      lines := lines + [Line(kvs[i].key, job.reducef(kvs[i].key, multiset(values)))];
      i := j;
    }
    AllWritten(job, kvs, lines);
  }

  /** A reduce task, and the sequential program once it has all pairs: sort, then group. */
  method SortAndReduce(job: Job, kvs: seq<KeyValue>) returns (lines: seq<Line>)
    ensures LinesOk(job, multiset(kvs), lines)
  {
    var sorted := SortByKey(kvs);
    lines := ReduceSorted(job, sorted);
  }

  // ---------------------------------------------------------------- the sequential program

  /** All pairs the given files yield, each file counted as often as it is named. */
  function Emitted(job: Job, files: seq<string>): multiset<KeyValue> {
    if files == [] then multiset{} else Emitted(job, files[..|files| - 1]) + job.mapped(files[|files| - 1])
  }

  method Sequential(job: Job, files: seq<string>, mapf: string -> seq<KeyValue>) returns (lines: seq<Line>)
    requires forall f :: multiset(mapf(f)) == job.mapped(f)
    ensures LinesOk(job, Emitted(job, files), lines)
  {
    var intermediate := [];
    var i := 0;
    while i < |files|
      invariant 0 <= i <= |files|
      invariant multiset(intermediate) == Emitted(job, files[..i])
    {
      assert files[..i + 1][..i] == files[..i];
      intermediate := intermediate + mapf(files[i]);
      i := i + 1;
    }
    assert files[..i] == files;
    lines := SortAndReduce(job, intermediate);
  }
}
