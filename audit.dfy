/**
 * The audit-trail recorder of apps/core/audit.py: it sanitises the change
 * payload, extracts the request context and appends one AuditTrail entry,
 * immediately or, inside an atomic block, when the block commits.
 */
module Audit {
  import opened Wrappers
  import opened Strings
  import opened PyValues
  import CoreModels

  /** `ALLOWED_CHANGE_KEYS`. */
  const AllowedChangeKeys: set<string> := {"fields", "summary", "count", "filters", "metadata"}
  /** Keys whose values become sorted lists of strings. */
  const ListKeys: set<string> := {"fields", "filters"}
  /** Keys whose values become strings. */
  const TextKeys: set<string> := {"summary", "metadata"}
  /** Longest user agent that is stored. */
  const UserAgentLimit: nat := 512

  /** The request headers the recorder reads from `request.META`. */
  datatype Request = Request(
    forwardedFor: Option<string>,  // HTTP_X_FORWARDED_FOR
    remoteAddr: Option<string>,    // REMOTE_ADDR
    userAgent: Option<string>)     // HTTP_USER_AGENT

  // ------------------------------------------------------------ request context

  /**
   * `_get_client_ip`: the first comma-separated entry of a non-empty
   * X-Forwarded-For header, stripped; otherwise the direct peer address.
   */
  function ClientIp(request: Option<Request>): (r: Option<string>)
    ensures request.None? ==> r.None?
    ensures request.Some? && (request.value.forwardedFor.None? || request.value.forwardedFor.value == "") ==>
      r == request.value.remoteAddr
    ensures request.Some? && request.value.forwardedFor.Some? && request.value.forwardedFor.value != "" ==>
      var header := request.value.forwardedFor.value;
      && r.Some?
      && ',' !in r.value
      && (r.value != [] ==> !IsSpace(r.value[0]) && !IsSpace(r.value[|r.value| - 1]))
      && exists n | 0 <= n <= |header| ::
           && (n == |header| || header[n] == ',')
           && ',' !in header[..n]
           && r.value == Strip(header[..n])
  {
    if request.None? then None
    else
      match request.value.forwardedFor
      case Some(header) =>
        if header != "" then
          var first := BeforeFirst(header, ',');
          assert header[..|first|] == first;
          var ip := Strip(first);
          assert ',' !in ip by {
            if ip != [] {
              forall k | 0 <= k < |ip| ensures ip[k] != ',' {
                assert ip[k] == first[LeadingSpaces(first) + k];
              }
            }
          }
          Some(ip)
        else request.value.remoteAddr
      case None => request.value.remoteAddr
  }

  /** `_get_user_agent`: the user-agent header cut to 512 characters. */
  function UserAgent(request: Option<Request>): (r: string)
    ensures request.None? ==> r == ""
    ensures request.Some? ==>
      var header := request.value.userAgent.GetOr("");
      && r <= header
      && |r| <= UserAgentLimit
      && (|header| <= UserAgentLimit ==> r == header)
  {
    if request.None? then "" else Truncate(request.value.userAgent.GetOr(""), UserAgentLimit)
  }

  // ------------------------------------------------------------ sanitising

  predicate IsStrList(items: seq<PyValue>) {
    forall k | 0 <= k < |items| :: items[k].PyStr?
  }

  function Texts(items: seq<PyValue>): (r: seq<string>)
    requires IsStrList(items)
  {
    seq(|items|, k requires 0 <= k < |items| => items[k].s)
  }

  /** The stored form of one whitelisted key, or `None` when the key is dropped. */
  function SanitizedValue(key: string, value: PyValue): (r: Option<PyValue>)
    ensures r.Some? ==> key in AllowedChangeKeys
    ensures key in ListKeys ==> (r.Some? <==> Iterate(value).Some?)
    ensures key in ListKeys && r.Some? ==>
      && r.value.PyList?
      && IsStrList(r.value.items)
      && StrictlySorted(Texts(r.value.items))
      && forall y :: y in Texts(r.value.items) <==> y in StrAll(Iterate(value).value)
    ensures key in TextKeys ==> r == Some(PyStr(Str(value)))
    ensures key == "count" ==> r == Some(PyInt(IntOf(value).GetOr(0)))
  {
    if key in ListKeys && Iterate(value).Some? then
      var texts := SortedDistinct(StrAll(Iterate(value).value));
      assert Texts(StrList(texts)) == texts;
      Some(PyList(StrList(texts)))
    else if key in TextKeys then Some(PyStr(Str(value)))
    else if key == "count" then Some(PyInt(IntOf(value).GetOr(0)))
    else None
  }

  /** The sanitised dict built from a dict's items, processed in order. */
  function SanitizeEntries(entries: seq<(string, PyValue)>): (r: map<string, PyValue>)
    ensures forall k | k in r :: k in AllowedChangeKeys
  {
    if |entries| == 0 then map[]
    else
      var m := SanitizeEntries(entries[..|entries| - 1]);
      var (key, value) := entries[|entries| - 1];
      match SanitizedValue(key, value)
      case Some(v) => m[key := v]
      case None => m
  }

  /** What `sanitize_change_payload(changes)` returns. */
  function Sanitized(changes: PyValue): (r: map<string, PyValue>)
    ensures !changes.PyDict? ==> r == map[]
    ensures forall k | k in r :: k in AllowedChangeKeys
  {
    if changes.PyDict? then SanitizeEntries(changes.entries) else map[]
  }

  /** `sanitize_change_payload`: fills the sanitised dict key by key. */
  method SanitizeChangePayload(changes: PyValue) returns (sanitized: map<string, PyValue>)
    ensures sanitized == Sanitized(changes)
  {
    if !changes.PyDict? {
      return map[];
    }
    sanitized := map[];
    var items := changes.entries;
    for i := 0 to |items|
      invariant sanitized == SanitizeEntries(items[..i])
    {
      assert items[..i + 1][..i] == items[..i];
      var (key, value) := items[i];
      if key !in AllowedChangeKeys {
        continue;
      }
      var iterated := Iterate(value);
      if key in ListKeys && iterated.Some? {
        sanitized := sanitized[key := PyList(StrList(SortedDistinct(StrAll(iterated.value))))];
      } else if key in TextKeys {
        sanitized := sanitized[key := PyStr(Str(value))];
      } else if key == "count" {
        match IntOf(value) {
          case Some(n) => sanitized := sanitized[key := PyInt(n)];
          case None => sanitized := sanitized[key := PyInt(0)];
        }
      }
    }
    assert items[..|items|] == items;
  }

  /**
   * Each key of a sanitised dict (with distinct keys) comes from the one
   * item with that key, and is kept exactly when that item survives.
   */
  lemma {:induction false} SanitizeEntriesAt(entries: seq<(string, PyValue)>, key: string)
    requires UniqueKeys(entries)
    ensures key in SanitizeEntries(entries) <==>
      exists i | 0 <= i < |entries| :: entries[i].0 == key && SanitizedValue(key, entries[i].1).Some?
    ensures forall i | 0 <= i < |entries| && entries[i].0 == key && SanitizedValue(key, entries[i].1).Some? ::
      SanitizeEntries(entries)[key] == SanitizedValue(key, entries[i].1).value
  {
    if |entries| > 0 {
      var init := entries[..|entries| - 1];
      assert UniqueKeys(init);
      SanitizeEntriesAt(init, key);
      forall i | 0 <= i < |init| ensures init[i] == entries[i] { }
    }
  }

  /** A stored value sanitises to itself under its own key. */
  lemma SanitizedValueFixed(key: string, value: PyValue)
    requires SanitizedValue(key, value).Some?
    ensures SanitizedValue(key, SanitizedValue(key, value).value) == SanitizedValue(key, value)
  {
    var v := SanitizedValue(key, value).value;
    if key in ListKeys {
      var texts := Texts(v.items);
      assert v.items == StrList(texts);
      StrAllOfStrList(texts);
      SortedDistinctOfSorted(texts);
    }
  }

  /**
   * Sanitising is idempotent: any dict holding exactly the sanitised
   * payload (in any key order) sanitises to that same payload.
   */
  lemma SanitizeIdempotent(changes: PyValue, again: seq<(string, PyValue)>)
    requires UniqueKeys(again)
    requires forall k :: k in Sanitized(changes) <==> exists i | 0 <= i < |again| :: again[i].0 == k
    requires forall i | 0 <= i < |again| :: again[i].0 in Sanitized(changes) && again[i].1 == Sanitized(changes)[again[i].0]
    ensures Sanitized(PyDict(again)) == Sanitized(changes)
  {
    var first := Sanitized(changes);
    var second := Sanitized(PyDict(again));
    forall k ensures k in second <==> k in first {
      SanitizeEntriesAt(again, k);
      if k in first {
        var i :| 0 <= i < |again| && again[i].0 == k;
        SanitizedValueFixed(k, SanitizedValueSource(changes, k));
      }
    }
    forall k | k in first ensures second[k] == first[k] {
      SanitizeEntriesAt(again, k);
      var i :| 0 <= i < |again| && again[i].0 == k;
      SanitizedValueFixed(k, SanitizedValueSource(changes, k));
    }
  }

  /** The original value a sanitised key was computed from. */
  function SanitizedValueSource(changes: PyValue, key: string): (v: PyValue)
    requires key in Sanitized(changes)
    ensures SanitizedValue(key, v) == Some(Sanitized(changes)[key])
  {
    SanitizeEntriesSource(changes.entries, key)
  }

  function SanitizeEntriesSource(entries: seq<(string, PyValue)>, key: string): (v: PyValue)
    requires key in SanitizeEntries(entries)
    ensures SanitizedValue(key, v) == Some(SanitizeEntries(entries)[key])
  {
    var init := entries[..|entries| - 1];
    var (k, value) := entries[|entries| - 1];
    if k == key && SanitizedValue(k, value).Some? then value
    else SanitizeEntriesSource(init, key)
  }

  /**
   * An example: an unknown key is dropped, a numeric string count becomes
   * an int, and a list of fields is de-duplicated and sorted.
   */
  lemma SanitizeExample()
    ensures Sanitized(PyDict([
      ("secret", PyStr("x")),
      ("count", PyStr("5")),
      ("fields", PyList([PyStr("b"), PyStr("a"), PyStr("a")]))]))
      == map["count" := PyInt(5), "fields" := PyList([PyStr("a"), PyStr("b")])]
  {
    var entries := [
      ("secret", PyStr("x")),
      ("count", PyStr("5")),
      ("fields", PyList([PyStr("b"), PyStr("a"), PyStr("a")]))];
    IntStringRoundTrip(5);
    assert IntToString(5) == "5";
    assert SanitizedValue("secret", PyStr("x")).None?;
    assert entries[..2][..1] == [entries[0]];
    assert entries[..1][..0] == [];
    var strs := StrAll([PyStr("b"), PyStr("a"), PyStr("a")]);
    assert strs == ["b", "a", "a"];
    var texts := SortedDistinct(strs);
    assert Lt("a", "b");
    assert forall y :: y in texts <==> y in ["a", "b"];
    StrictlySortedUnique(texts, ["a", "b"]);
    assert SanitizeEntries(entries[..1]) == map[];
    assert SanitizeEntries(entries[..2]) == map["count" := PyInt(5)];
    assert StrList(["a", "b"]) == [PyStr("a"), PyStr("b")];
    assert SanitizedValue("fields", entries[2].1) == Some(PyList([PyStr("a"), PyStr("b")]));
  }

  // ------------------------------------------------------------ entries

  /** One AuditTrail row (its timestamp is set by the database when it is written). */
  datatype AuditEntry = AuditEntry(
    actor: Option<nat>,
    action: CoreModels.AuditAction,
    modelName: string,
    objectId: string,
    changes: map<string, PyValue>,
    ipAddress: Option<string>,
    userAgent: string)

  datatype AuditError = ModelNameRequired

  /** The row written for already-sanitised changes. */
  function EntryWith(
    user: Option<CoreModels.User>, action: CoreModels.AuditAction, modelName: string,
    objectId: Option<PyValue>, request: Option<Request>, stored: map<string, PyValue>): (e: AuditEntry)
    ensures e.actor.Some? <==> user.Some? && user.value.isAuthenticated
    ensures e.actor.Some? ==> e.actor.value == user.value.id
    ensures objectId.None? || objectId == Some(PyNone) ==> e.objectId == ""
    ensures objectId.Some? && objectId.value.PyStr? ==> e.objectId == objectId.value.s
    ensures objectId.Some? && objectId.value.PyInt? ==> e.objectId == IntToString(objectId.value.i)
    ensures e.action == action && e.modelName == modelName && e.changes == stored
    ensures e.ipAddress == ClientIp(request) && e.userAgent == UserAgent(request)
  {
    AuditEntry(
      actor := if user.Some? && user.value.isAuthenticated then Some(user.value.id) else None,
      action := action,
      modelName := modelName,
      objectId := if objectId.Some? && !objectId.value.PyNone? then Str(objectId.value) else "",
      changes := stored,
      ipAddress := ClientIp(request),
      userAgent := UserAgent(request))
  }

  /** The row `log_audit_event` writes for its arguments. */
  function MakeEntry(
    user: Option<CoreModels.User>, action: CoreModels.AuditAction, modelName: string,
    objectId: Option<PyValue>, request: Option<Request>, changes: PyValue): (e: AuditEntry)
    ensures forall k | k in e.changes :: k in AllowedChangeKeys
  {
    EntryWith(user, action, modelName, objectId, request, Sanitized(changes))
  }

  // ------------------------------------------------------------ transactions

  /**
   * The database connection as the recorder sees it: the AuditTrail table,
   * the on-commit queue of entries still to be written, and one mark per
   * open atomic block (the length of the queue when the block was entered;
   * the outermost block is the transaction, inner ones are savepoints).
   */
  datatype TxState = TxState(table: seq<AuditEntry>, pending: seq<AuditEntry>, marks: seq<nat>)

  predicate WellFormed(s: TxState) {
    && (|s.marks| == 0 ==> s.pending == [])
    && (|s.marks| > 0 ==> s.marks[0] == 0)
    && (forall i, j | 0 <= i <= j < |s.marks| :: s.marks[i] <= s.marks[j])
    && (forall i | 0 <= i < |s.marks| :: s.marks[i] <= |s.pending|)
  }

  /** `connection.in_atomic_block`. */
  predicate InAtomicBlock(s: TxState) { |s.marks| > 0 }

  datatype TxOp =
    | Begin                // entering `transaction.atomic()`
    | Commit               // leaving it normally
    | Rollback             // leaving it by an exception
    | Write(e: AuditEntry) // what log_audit_event does with its entry

  /**
   * One step. Leaving the outermost block commits: its queued entries are
   * written in order; rolling it back discards them. Leaving a savepoint
   * keeps the queue on commit and drops what it queued on rollback.
   * (A Commit or Rollback with no open block changes nothing; the class
   * below never issues one.)
   */
  function Step(s: TxState, op: TxOp): (t: TxState)
    requires WellFormed(s)
    ensures WellFormed(t)
    ensures s.table <= t.table
    ensures op.Write? ==> |t.table| + |t.pending| == |s.table| + |s.pending| + 1
    ensures op.Rollback? ==> t.table == s.table
    ensures InAtomicBlock(s) && !(op.Commit? && |s.marks| == 1) ==> t.table == s.table
  {
    match op
    case Begin => s.(marks := s.marks + [|s.pending|])
    case Write(e) =>
      if InAtomicBlock(s) then s.(pending := s.pending + [e]) else s.(table := s.table + [e])
    case Commit =>
      if |s.marks| == 0 then s
      else if |s.marks| == 1 then TxState(s.table + s.pending, [], [])
      else s.(marks := s.marks[..|s.marks| - 1])
    case Rollback =>
      if |s.marks| == 0 then s
      else s.(pending := s.pending[..s.marks[|s.marks| - 1]], marks := s.marks[..|s.marks| - 1])
  }

  /** The state after a sequence of steps. */
  function Run(s: TxState, ops: seq<TxOp>): (t: TxState)
    requires WellFormed(s)
    ensures WellFormed(t)
    decreases |ops|
  {
    if |ops| == 0 then s else Run(Step(s, ops[0]), ops[1..])
  }

  function Writes(es: seq<AuditEntry>): (ops: seq<TxOp>)
    ensures |ops| == |es|
    ensures forall k | 0 <= k < |es| :: ops[k] == Write(es[k])
  {
    seq(|es|, k requires 0 <= k < |es| => Write(es[k]))
  }

  lemma {:induction false} RunConcat(s: TxState, a: seq<TxOp>, b: seq<TxOp>)
    requires WellFormed(s)
    ensures Run(s, a + b) == Run(Run(s, a), b)
    decreases |a|
  {
    if |a| > 0 {
      assert (a + b)[0] == a[0];
      assert (a + b)[1..] == a[1..] + b;
      RunConcat(Step(s, a[0]), a[1..], b);
    } else {
      assert a + b == b;
    }
  }

  /** Entries written inside an open block only join its queue. */
  lemma {:induction false} WritesInsideBlock(s: TxState, es: seq<AuditEntry>)
    requires WellFormed(s) && InAtomicBlock(s)
    ensures Run(s, Writes(es)) == s.(pending := s.pending + es)
    decreases |es|
  {
    if |es| == 0 {
      assert s.pending + es == s.pending;
    } else {
      var s' := Step(s, Write(es[0]));
      assert Writes(es)[1..] == Writes(es[1..]);
      WritesInsideBlock(s', es[1..]);
      assert s.pending + [es[0]] + es[1..] == s.pending + es;
    }
  }

  /** The audit table is append-only: no sequence of steps removes or changes a written entry. */
  lemma {:induction false} TableAppendOnly(s: TxState, ops: seq<TxOp>)
    requires WellFormed(s)
    ensures s.table <= Run(s, ops).table
    decreases |ops|
  {
    if |ops| > 0 {
      TableAppendOnly(Step(s, ops[0]), ops[1..]);
    }
  }

  /** Outside an atomic block an entry is written at once. */
  lemma WriteOutsideBlock(s: TxState, e: AuditEntry)
    requires WellFormed(s) && !InAtomicBlock(s)
    ensures Step(s, Write(e)).table == s.table + [e]
  {
  }

  /** How many blocks an operation opens (1) or closes (-1). */
  function Delta(op: TxOp): int {
    match op
    case Begin => 1
    case Commit => -1
    case Rollback => -1
    case Write(_) => 0
  }

  /** The net number of blocks a sequence of operations opens. */
  function Depth(ops: seq<TxOp>): int
    decreases |ops|
  {
    if |ops| == 0 then 0 else Delta(ops[0]) + Depth(ops[1..])
  }

  /** Started with `open` blocks, no prefix of `ops` leaves fewer than `floor` open. */
  predicate KeepsOpen(ops: seq<TxOp>, open: int, floor: int) {
    forall k | 0 <= k <= |ops| :: open + Depth(ops[..k]) >= floor
  }

  /**
   * A well-nested block body: it closes every block it opens, and never
   * closes one it did not open.
   */
  predicate Balanced(body: seq<TxOp>) {
    Depth(body) == 0 && KeepsOpen(body, 0, 0)
  }

  /**
   * Operations that never close the first `floor` open blocks write nothing
   * to the table, leave those blocks' marks in place, and keep the queue up
   * to the innermost of them untouched, however they nest savepoints,
   * commit and roll back inside.
   */
  lemma {:induction false} InsideBlocks(t: TxState, ops: seq<TxOp>, floor: nat)
    requires WellFormed(t) && 1 <= floor <= |t.marks|
    requires KeepsOpen(ops, |t.marks|, floor)
    ensures
      var u := Run(t, ops);
      && u.table == t.table
      && |u.marks| == |t.marks| + Depth(ops)
      && floor <= |u.marks|
      && u.marks[..floor] == t.marks[..floor]
      && u.pending[..t.marks[floor - 1]] == t.pending[..t.marks[floor - 1]]
    decreases |ops|
  {
    if |ops| == 0 {
      assert Run(t, ops) == t;
    } else {
      var op := ops[0];
      var t' := Step(t, op);
      assert ops[..1][1..] == [];
      assert Depth(ops[..1]) == Delta(op);
      assert |t'.marks| == |t.marks| + Delta(op);
      var m := t.marks[floor - 1];
      assert t'.marks[..floor] == t.marks[..floor];
      assert t'.pending[..m] == t.pending[..m] by {
        if op.Rollback? {
          assert t.marks[|t.marks| - 1] >= m;
        }
      }
      forall k | 0 <= k <= |ops[1..]| ensures |t'.marks| + Depth(ops[1..][..k]) >= floor {
        assert ops[..k + 1][0] == op;
        assert ops[..k + 1][1..] == ops[1..][..k];
      }
      InsideBlocks(t', ops[1..], floor);
    }
  }

  /**
   * Entries queued in a block that is rolled back are never written, and
   * the connection is left exactly as it was before the block, whatever
   * savepoints the block opened, committed or rolled back inside it.
   */
  lemma RolledBackBlockLeavesNoTrace(s: TxState, body: seq<TxOp>)
    requires WellFormed(s) && Balanced(body)
    ensures Run(s, [Begin] + body + [Rollback]) == s
  {
    var inBlock := Step(s, Begin);
    RunConcat(s, [Begin], body);
    RunConcat(s, [Begin] + body, [Rollback]);
    assert KeepsOpen(body, |inBlock.marks|, |s.marks| + 1);
    InsideBlocks(inBlock, body, |s.marks| + 1);
    var before := Run(inBlock, body);
    assert before.marks == inBlock.marks by {
      assert before.marks == before.marks[..|s.marks| + 1];
      assert inBlock.marks == inBlock.marks[..|s.marks| + 1];
    }
    assert before.pending[..|s.pending|] == s.pending;
    assert before.marks[..|before.marks| - 1] == s.marks;
    assert Run(before, [Rollback]) == Step(before, Rollback);
  }

  /**
   * Committing a transaction, whatever savepoints its body nests: nothing
   * reaches the table before the outermost block commits, and the commit
   * appends exactly what is still queued, in order.
   */
  lemma NestedTransactionCommits(s: TxState, body: seq<TxOp>)
    requires WellFormed(s) && !InAtomicBlock(s) && Balanced(body)
    ensures
      var queued := Run(Step(s, Begin), body);
      && queued.table == s.table
      && Run(s, [Begin] + body + [Commit]) == s.(table := s.table + queued.pending)
  {
    var inBlock := Step(s, Begin);
    RunConcat(s, [Begin], body);
    RunConcat(s, [Begin] + body, [Commit]);
    assert KeepsOpen(body, |inBlock.marks|, 1);
    InsideBlocks(inBlock, body, 1);
    var before := Run(inBlock, body);
    assert |before.marks| == 1;
    assert Run(before, [Commit]) == Step(before, Commit);
  }

  /** An inner savepoint that commits is still undone when the outer block rolls back. */
  lemma InnerCommitUndoneByOuterRollback(s: TxState, e: AuditEntry, f: AuditEntry)
    requires WellFormed(s)
    ensures Run(s, [Begin, Write(e), Begin, Write(f), Commit, Rollback]) == s
  {
    var body := [Write(e), Begin, Write(f), Commit];
    assert [Commit][1..] == [];
    assert Depth([Commit]) == -1;
    assert [Write(f), Commit][1..] == [Commit];
    assert Depth([Write(f), Commit]) == -1;
    assert [Begin, Write(f), Commit][1..] == [Write(f), Commit];
    assert Depth([Begin, Write(f), Commit]) == 0;
    assert body[1..] == [Begin, Write(f), Commit];
    assert Depth(body) == 0;
    forall k | 0 <= k <= |body| ensures Depth(body[..k]) >= 0 {
      if k == 1 {
        assert body[..1][1..] == [];
      } else if k == 2 {
        assert [Begin][1..] == [];
        assert Depth([Begin]) == 1;
        assert body[..2][1..] == [Begin];
      } else if k == 3 {
        assert [Write(f)][1..] == [];
        assert Depth([Write(f)]) == 0;
        assert [Begin, Write(f)][1..] == [Write(f)];
        assert Depth([Begin, Write(f)]) == 1;
        assert body[..3][1..] == [Begin, Write(f)];
      } else if k == 4 {
        assert body[..4] == body;
      }
    }
    RolledBackBlockLeavesNoTrace(s, body);
    assert [Begin] + body + [Rollback] == [Begin, Write(e), Begin, Write(f), Commit, Rollback];
  }

  /** Committing a transaction writes its queued entries, in order, after the existing ones. */
  lemma CommittedTransactionWrites(s: TxState, es: seq<AuditEntry>)
    requires WellFormed(s) && !InAtomicBlock(s)
    ensures Run(s, [Begin] + Writes(es) + [Commit]) == s.(table := s.table + es)
  {
    var inBlock := Step(s, Begin);
    assert inBlock == s.(marks := [0]);
    RunConcat(s, [Begin], Writes(es));
    RunConcat(s, [Begin] + Writes(es), [Commit]);
    WritesInsideBlock(inBlock, es);
    var before := Run(inBlock, Writes(es));
    assert before == TxState(s.table, es, [0]);
    assert Run(before, [Commit]) == Step(before, Commit);
  }

  /** The connection, updated in place by the recorder and by atomic blocks. */
  class Transaction {
    var table: seq<AuditEntry>
    var pending: seq<AuditEntry>
    var marks: seq<nat>

    function State(): TxState
      reads this
    {
      TxState(table, pending, marks)
    }

    ghost predicate Valid()
      reads this
    {
      WellFormed(State())
    }

    constructor ()
      ensures Valid() && State() == TxState([], [], [])
    {
      table, pending, marks := [], [], [];
    }

    method Begin()
      requires Valid()
      modifies this
      ensures Valid() && State() == Step(old(State()), TxOp.Begin)
    {
      marks := marks + [|pending|];
    }

    /** Leaving a block normally; the outermost one runs the queued writes. */
    method Commit()
      requires Valid() && |marks| > 0
      modifies this
      ensures Valid() && State() == Step(old(State()), TxOp.Commit)
    {
      if |marks| == 1 {
        var i := 0;
        while i < |pending|
          invariant 0 <= i <= |pending|
          invariant table == old(table) + pending[..i]
          invariant pending == old(pending) && marks == old(marks)
        {
          table := table + [pending[i]];
          i := i + 1;
        }
        assert pending[..|pending|] == pending;
        pending, marks := [], [];
      } else {
        marks := marks[..|marks| - 1];
      }
    }

    /** Leaving a block by an exception; what it queued is discarded. */
    method Rollback()
      requires Valid() && |marks| > 0
      modifies this
      ensures Valid() && State() == Step(old(State()), TxOp.Rollback)
    {
      pending := pending[..marks[|marks| - 1]];
      marks := marks[..|marks| - 1];
    }

    /**
     * `log_audit_event`: an empty model name raises before anything is
     * queued or written; otherwise exactly one entry is written now, or
     * queued until the transaction commits when a block is open.
     */
    method LogAuditEvent(
      user: Option<CoreModels.User>, action: CoreModels.AuditAction, modelName: string,
      objectId: Option<PyValue>, request: Option<Request>, changes: PyValue)
      returns (r: Outcome<AuditError>)
      requires Valid()
      modifies this
      ensures Valid()
      ensures modelName == "" ==> r == Fail(ModelNameRequired) && State() == old(State())
      ensures modelName != "" ==>
        && r == Pass
        && State() == Step(old(State()), Write(MakeEntry(user, action, modelName, objectId, request, changes)))
    {
      if modelName == "" {
        return Fail(ModelNameRequired);
      }
      var sanitized := SanitizeChangePayload(changes);
      var ipAddress := ClientIp(request);
      var userAgent := UserAgent(request);
      var actor := if user.Some? && user.value.isAuthenticated then Some(user.value.id) else None;
      var entry := AuditEntry(actor, action, modelName,
        if objectId.Some? && !objectId.value.PyNone? then Str(objectId.value) else "", sanitized, ipAddress, userAgent);
      if |marks| > 0 {
        pending := pending + [entry];
      } else {
        table := table + [entry];
      }
      r := Pass;
    }
  }
}
