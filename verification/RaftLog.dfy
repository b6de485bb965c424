/** Log entries, logs, and agreement between logs. */
module RaftLog {
  import opened KvStore

  type Server = nat
  type Term = nat

  /** What a log entry carries: the no-op of a new leader, or an operation of the service. */
  datatype Command = Nop | Op(server: Server, id: nat, req: Request)

  datatype Entry = Entry(term: Term, index: nat, command: Command)

  /** A complete log: position i holds the entry of index i, position 0 the initial sentinel. */
  type Log = seq<Entry>

  const SENTINEL := Entry(0, 0, Nop)

  /** The first k entries of a and b exist and coincide. */
  ghost predicate Agree(a: Log, b: Log, k: nat) {
    && k <= |a|
    && k <= |b|
    && forall i :: 0 <= i < k ==> a[i] == b[i]
  }

  /** a is an initial segment of b. */
  ghost predicate Prefix(a: Log, b: Log) {
    Agree(a, b, |a|)
  }

  function LastTerm(l: Log): Term
    requires |l| > 0
  {
    l[|l| - 1].term
  }

  /** The voter's test: a log `l` is at least as up to date as `m`. */
  predicate UpToDate(l: Log, m: Log)
    requires |l| > 0 && |m| > 0
  {
    LastTerm(l) > LastTerm(m) || (LastTerm(l) == LastTerm(m) && |l| >= |m|)
  }

  /** The state of the service after the operations of the first k entries, no-ops skipped. */
  function Fold(l: Log, k: nat): Store
    requires k <= |l|
  {
    if k == 0 then map[]
    else match l[k - 1].command
         case Nop => Fold(l, k - 1)
         case Op(_, _, req) => Execute(Fold(l, k - 1), req)
  }

  lemma {:induction false} FoldAgree(a: Log, b: Log, k: nat)
    requires Agree(a, b, k)
    ensures Fold(a, k) == Fold(b, k)
  {
    if k > 0 {
      FoldAgree(a, b, k - 1);
    }
  }

  /** The state of the service after more entries. */
  function FoldOver(store: Store, es: seq<Entry>): Store {
    if es == [] then store
    else match es[|es| - 1].command
         case Nop => FoldOver(store, es[..|es| - 1])
         case Op(_, _, req) => Execute(FoldOver(store, es[..|es| - 1]), req)
  }

  lemma {:induction false} FoldSplit(l: Log, a: nat, b: nat)
    requires a <= b <= |l|
    ensures Fold(l, b) == FoldOver(Fold(l, a), l[a..b])
  {
    if a < b {
      assert l[a..b][..b - a - 1] == l[a..b - 1];
      FoldSplit(l, a, b - 1);
    }
  }
}
