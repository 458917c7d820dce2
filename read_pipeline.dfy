/**
 * One invocation of the read closure each handler hands to `blockingQuery`:
 * store lookup, then (for `ServiceNodes` with filters) the node-meta filter,
 * then the ACL filter, the compiled bexpr filter and, where the handler has
 * one, the distance sort. The first stage that fails ends the read.
 */
module ReadPipeline {
  import opened Base
  import opened Structs
  import opened Collaborators

  /** What a read closure captures from its request. */
  datatype ReadPlan = ReadPlan(lookup: Lookup, token: string, filter: string, sortFrom: Option<QuerySource>)

  /** The closure's error, the reply as the closure left it, and the calls it made. */
  datatype ReadResult<T> = ReadResult(err: Option<string>, reply: Reply<T>, calls: seq<Call>)

  /** All the stages of a read, in the order they run. */
  function Stages(plan: ReadPlan, narrowed: bool): (s: seq<Call>)
    ensures 3 <= |s| <= 5
    ensures s[0] == StoreLookup(plan.lookup)
    ensures s[|s| - 1] == (if plan.sortFrom.Some? then SortByDistance else ExecuteFilter)
  {
    [StoreLookup(plan.lookup)]
    + (if narrowed then [ApplyNodeMetaFilter] else [])
    + [FilterACL, ExecuteFilter]
    + (if plan.sortFrom.Some? then [SortByDistance] else [])
  }

  /** The records after the optional in-memory narrowing. */
  function Narrowed<T>(narrow: Option<seq<T> -> seq<T>>, records: seq<T>): seq<T> {
    match narrow
    case None => records
    case Some(f) => f(records)
  }

  /**
   * The read closure, given the reply it starts from. The stages run in a
   * fixed order and stop at the first error; once the lookup has succeeded
   * the reply's index is the lookup's index whatever happens afterwards.
   */
  function Read<T>(ops: RecordOps<T>, plan: ReadPlan, narrow: Option<seq<T> -> seq<T>>, prior: Reply<T>)
    : (r: ReadResult<T>)
    ensures |r.calls| > 0 && r.calls <= Stages(plan, narrow.Some?)
    ensures r.err.None? ==> r.calls == Stages(plan, narrow.Some?)
    ensures ops.lookup(plan.lookup).Success? ==> r.reply.index == ops.lookup(plan.lookup).value.index
    ensures ops.lookup(plan.lookup).Failure? ==> r.reply == prior
  {
    var lookup := [StoreLookup(plan.lookup)];
    match ops.lookup(plan.lookup)
    case Failure(e) => ReadResult(Some(e), prior, lookup)
    case Success(snap) =>
      var found := Narrowed(narrow, snap.records);
      var before := lookup + (if narrow.Some? then [ApplyNodeMetaFilter] else []);
      match ops.filterACL(plan.token, found)
      case Failure(e) => ReadResult(Some(e), Reply(snap.index, found), before + [FilterACL])
      case Success(allowed) =>
        match ops.execute(plan.filter, allowed)
        case Failure(e) => ReadResult(Some(e), Reply(snap.index, allowed), before + [FilterACL, ExecuteFilter])
        case Success(kept) =>
          match plan.sortFrom
          case None => ReadResult(None, Reply(snap.index, kept), before + [FilterACL, ExecuteFilter])
          case Some(source) =>
            match ops.sortByDistance(source, kept)
            case Failure(e) =>
              ReadResult(Some(e), Reply(snap.index, kept), before + [FilterACL, ExecuteFilter, SortByDistance])
            case Success(sorted) =>
              ReadResult(None, Reply(snap.index, sorted), before + [FilterACL, ExecuteFilter, SortByDistance])
  }

  /** The only store read a read closure issues is the one its plan names. */
  lemma ReadLooksUpPlannedLookup<T>(ops: RecordOps<T>, plan: ReadPlan, narrow: Option<seq<T> -> seq<T>>, prior: Reply<T>)
    ensures forall l :: StoreLookup(l) in Read(ops, plan, narrow, prior).calls ==> l == plan.lookup
  {
    var r := Read(ops, plan, narrow, prior);
    var stages := Stages(plan, narrow.Some?);
    forall l | StoreLookup(l) in r.calls ensures l == plan.lookup {
      var i :| 0 <= i < |r.calls| && r.calls[i] == StoreLookup(l);
      assert stages[i] == r.calls[i];
    }
  }

  /**
   * The error a read returns is the one of the first stage that failed, and
   * the stages after it are not run.
   */
  lemma ReadStopsAtFirstError<T>(ops: RecordOps<T>, plan: ReadPlan, narrow: Option<seq<T> -> seq<T>>, prior: Reply<T>)
    ensures var r := Read(ops, plan, narrow, prior);
      match ops.lookup(plan.lookup)
      case Failure(e) => r.err == Some(e) && r.calls == [StoreLookup(plan.lookup)]
      case Success(snap) =>
        var found := Narrowed(narrow, snap.records);
        match ops.filterACL(plan.token, found)
        case Failure(e) =>
          r.err == Some(e) && r.reply.records == found && ExecuteFilter !in r.calls && SortByDistance !in r.calls
        case Success(allowed) =>
          match ops.execute(plan.filter, allowed)
          case Failure(e) => r.err == Some(e) && r.reply.records == allowed && SortByDistance !in r.calls
          case Success(kept) =>
            match plan.sortFrom
            case None => r.err.None? && r.reply.records == kept
            case Some(source) =>
              match ops.sortByDistance(source, kept)
              case Failure(e) => r.err == Some(e) && r.reply.records == kept
              case Success(sorted) => r.err.None? && r.reply.records == sorted
  {
  }

  /**
   * `records` is what the stages after the lookup make of `found` when each
   * of them succeeds: the ACL filter, then the compiled filter, then the
   * distance sort when the plan has one.
   */
  ghost predicate Yields<T>(ops: RecordOps<T>, plan: ReadPlan, found: seq<T>, records: seq<T>) {
    match ops.filterACL(plan.token, found)
    case Failure(_) => false
    case Success(allowed) =>
      match ops.execute(plan.filter, allowed)
      case Failure(_) => false
      case Success(kept) =>
        match plan.sortFrom
        case None => records == kept
        case Some(source) => ops.sortByDistance(source, kept) == Success(records)
  }

  /**
   * A read succeeds exactly when the lookup and every later stage succeed,
   * and then the reply holds the records those stages produced.
   */
  lemma ReadSucceeds<T>(ops: RecordOps<T>, plan: ReadPlan, narrow: Option<seq<T> -> seq<T>>, prior: Reply<T>)
    ensures var r := Read(ops, plan, narrow, prior);
      var lookup := ops.lookup(plan.lookup);
      r.err.None? <==> lookup.Success? && Yields(ops, plan, Narrowed(narrow, lookup.value.records), r.reply.records)
  {
    ReadStopsAtFirstError(ops, plan, narrow, prior);
  }
}
