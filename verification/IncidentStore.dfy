/** The SQLite history mirror: the incidents, diagnoses and chat tables, the merge rule
    of the incident upsert, and retention by comparing timestamp texts. */
module IncidentStore {
  import opened Common
  import opened Timestamps

  /** Times the store can print with a four-digit year. */
  type Instant = t: Time | InRange(t) witness 0

  /** Descriptive columns: an empty incoming value never overwrites a stored one. */
  datatype Columns = Columns(
    eventUID: string, objectKind: string, objectName: string, objectNamespace: string,
    reason: string, message: string, llmProvider: string, llmModel: string)

  datatype Field = EventUID | ObjectKind | ObjectName | ObjectNamespace | Reason | Message | LLMProvider | LLMModel

  function Get(c: Columns, f: Field): string {
    match f
    case EventUID => c.eventUID
    case ObjectKind => c.objectKind
    case ObjectName => c.objectName
    case ObjectNamespace => c.objectNamespace
    case Reason => c.reason
    case Message => c.message
    case LLMProvider => c.llmProvider
    case LLMModel => c.llmModel
  }

  /** Lifecycle columns: every upsert overwrites them. */
  datatype Lifecycle = Lifecycle(
    phase: Phase, startedAt: Option<Instant>, completedAt: Option<Instant>,
    tokensUsed: int, promptRedacted: bool, persisted: bool)

  datatype Row = Row(cols: Columns, life: Lifecycle, createdAt: Instant, updatedAt: Instant)

  /** The argument of an upsert; a missing time means "now". */
  datatype Incident = Incident(
    key: Key, cols: Columns, life: Lifecycle, createdAt: Option<Instant>, updatedAt: Option<Instant>)

  datatype Diagnosis = Diagnosis(
    key: Key, eventUID: string, summary: string, rootCause: string, remediation: string,
    reasoning: string, createdAt: Instant)

  datatype Chat = Chat(key: Key, role: string, content: string)

  datatype Tables = Tables(incidents: map<Key, Row>, diagnoses: seq<Diagnosis>, chats: seq<Chat>)

  // ---------- upsert ----------

  function Coalesce(incoming: string, stored: string): string {
    if incoming != "" then incoming else stored
  }

  function Merge(incoming: Columns, stored: Columns): Columns {
    Columns(
      Coalesce(incoming.eventUID, stored.eventUID),
      Coalesce(incoming.objectKind, stored.objectKind),
      Coalesce(incoming.objectName, stored.objectName),
      Coalesce(incoming.objectNamespace, stored.objectNamespace),
      Coalesce(incoming.reason, stored.reason),
      Coalesce(incoming.message, stored.message),
      Coalesce(incoming.llmProvider, stored.llmProvider),
      Coalesce(incoming.llmModel, stored.llmModel))
  }

  function WholeSecond(t: Option<Instant>): Option<Instant> {
    match t
    case None => None
    case Some(v) => Some(TruncateToSecond(v))
  }

  /** Start and completion times are printed without a fraction. */
  function Printed(life: Lifecycle): Lifecycle {
    life.(startedAt := WholeSecond(life.startedAt), completedAt := WholeSecond(life.completedAt))
  }

  function OrNow(t: Option<Instant>, now: Instant): Instant {
    if t.Some? then t.value else now
  }

  function Upserted(incidents: map<Key, Row>, inc: Incident, now: Instant): Row {
    if inc.key in incidents then
      var stored := incidents[inc.key];
      Row(Merge(inc.cols, stored.cols), Printed(inc.life), stored.createdAt, OrNow(inc.updatedAt, now))
    else
      Row(inc.cols, Printed(inc.life), OrNow(inc.createdAt, now), OrNow(inc.updatedAt, now))
  }

  function Upsert(incidents: map<Key, Row>, inc: Incident, now: Instant): map<Key, Row> {
    incidents[inc.key := Upserted(incidents, inc, now)]
  }

  // ---------- what a sequence of upserts leaves behind ----------

  datatype Write = Write(inc: Incident, now: Instant)

  function UpsertAll(writes: seq<Write>): map<Key, Row> {
    if writes == [] then map[]
    else
      var n := |writes| - 1;
      Upsert(UpsertAll(writes[..n]), writes[n].inc, writes[n].now)
  }

  /** The writes that concern one key, oldest first. */
  function WritesOf(writes: seq<Write>, k: Key): (mine: seq<Write>)
    ensures forall w :: w in mine ==> w.inc.key == k
  {
    if writes == [] then []
    else
      var n := |writes| - 1;
      WritesOf(writes[..n], k) + if writes[n].inc.key == k then [writes[n]] else []
  }

  /** The value of a field in the most recent write that gave it one. */
  function LastNonEmpty(mine: seq<Write>, f: Field): string {
    if mine == [] then ""
    else
      var latest := Get(mine[|mine| - 1].inc.cols, f);
      if latest != "" then latest else LastNonEmpty(mine[..|mine| - 1], f)
  }

  /** A stored time is absent exactly if the given one is, and otherwise its whole second. */
  ghost predicate StoredTime(stored: Option<Instant>, given: Option<Instant>) {
    if given.None? then stored.None?
    else stored.Some? && stored.value <= given.value < stored.value + SECOND && stored.value % SECOND == 0
  }

  /** The lifecycle columns hold these values. */
  ghost predicate StoredLife(stored: Lifecycle, given: Lifecycle) {
    stored.phase == given.phase && stored.tokensUsed == given.tokensUsed &&
    stored.promptRedacted == given.promptRedacted && stored.persisted == given.persisted &&
    StoredTime(stored.startedAt, given.startedAt) && StoredTime(stored.completedAt, given.completedAt)
  }

  /** created_at is the first write's, each descriptive column the last non-empty value,
      the lifecycle columns and updated_at the last write's. */
  ghost predicate Summarises(r: Row, mine: seq<Write>)
    requires mine != []
  {
    var first, last := mine[0], mine[|mine| - 1];
    r.createdAt == OrNow(first.inc.createdAt, first.now) &&
    (forall f :: Get(r.cols, f) == LastNonEmpty(mine, f)) &&
    StoredLife(r.life, last.inc.life) &&
    r.updatedAt == OrNow(last.inc.updatedAt, last.now)
  }

  lemma {:induction false} UpsertsSummarise(writes: seq<Write>, k: Key)
    ensures k in UpsertAll(writes) <==> WritesOf(writes, k) != []
    ensures k in UpsertAll(writes) ==> Summarises(UpsertAll(writes)[k], WritesOf(writes, k))
  {
    if writes != [] {
      var n := |writes| - 1;
      UpsertsSummarise(writes[..n], k);
      var w := writes[n];
      if w.inc.key == k {
        OneMoreWrite(UpsertAll(writes[..n]), WritesOf(writes[..n], k), w);
      } else {
        assert WritesOf(writes, k) == WritesOf(writes[..n], k);
      }
    }
  }

  lemma {:induction false} OneMoreWrite(incidents: map<Key, Row>, mine: seq<Write>, w: Write)
    requires w.inc.key in incidents <==> mine != []
    requires w.inc.key in incidents ==> Summarises(incidents[w.inc.key], mine)
    ensures Summarises(Upserted(incidents, w.inc, w.now), mine + [w])
  {
    assert (mine + [w])[..|mine|] == mine;
    var r := Upserted(incidents, w.inc, w.now);
    forall f ensures Get(r.cols, f) == LastNonEmpty(mine + [w], f) {
      assert mine == [] ==> LastNonEmpty(mine, f) == "";
    }
  }

  /** The row after one upsert, given the row before it, if any: an empty column or a missing
      time never overwrites, the time of creation never changes. */
  ghost predicate RowAfter(r: Row, before: Option<Row>, inc: Incident, now: Instant) {
    (forall f :: Get(r.cols, f) ==
      if Get(inc.cols, f) != "" then Get(inc.cols, f) else if before.Some? then Get(before.value.cols, f) else "") &&
    StoredLife(r.life, inc.life) &&
    (before.Some? ==> r.createdAt == before.value.createdAt) &&
    (before.None? ==> r.createdAt == if inc.createdAt.Some? then inc.createdAt.value else now) &&
    r.updatedAt == if inc.updatedAt.Some? then inc.updatedAt.value else now
  }

  function RowOf(incidents: map<Key, Row>, k: Key): Option<Row> {
    if k in incidents then Some(incidents[k]) else None
  }

  /** What one upsert does to the table. */
  ghost predicate WritesRow(incidents: map<Key, Row>, incidents': map<Key, Row>, inc: Incident, now: Instant) {
    incidents'.Keys == incidents.Keys + {inc.key} &&
    RowAfter(incidents'[inc.key], RowOf(incidents, inc.key), inc, now) &&
    forall k :: k in incidents && k != inc.key ==> incidents'[k] == incidents[k]
  }

  lemma {:induction false} UpsertWritesRow(incidents: map<Key, Row>, inc: Incident, now: Instant)
    ensures WritesRow(incidents, Upsert(incidents, inc, now), inc, now)
  {
    var r := Upserted(incidents, inc, now);
    forall f
      ensures Get(r.cols, f) ==
              if Get(inc.cols, f) != "" then Get(inc.cols, f)
              else if inc.key in incidents then Get(incidents[inc.key].cols, f) else ""
    {}
  }

  /** Writing the same complete record again changes nothing: this is what makes the
      mirror of a finished resource a fixed point. */
  lemma {:induction false} UpsertIdempotent(incidents: map<Key, Row>, inc: Incident, now: Instant, later: Instant)
    requires inc.updatedAt.Some?
    ensures Upsert(Upsert(incidents, inc, now), inc, later) == Upsert(incidents, inc, now)
    ensures Upsert(incidents, inc, now)[inc.key].updatedAt == inc.updatedAt.value
  {
    var once := Upsert(incidents, inc, now);
    assert Upserted(once, inc, later) == once[inc.key];
  }

  // ---------- retention ----------

  /** The row's timestamp text sorts before the cutoff's. */
  predicate Older(r: Row, cutoff: Instant) {
    LexLess(Rfc3339Nano(r.updatedAt), Rfc3339Nano(cutoff))
  }

  function OldKeys(incidents: map<Key, Row>, cutoff: Instant): set<Key> {
    set k | k in incidents && Older(incidents[k], cutoff)
  }

  /** The rows whose key is not gone. */
  function Outside<T(!new)>(rows: seq<T>, key: T -> Key, gone: set<Key>): (left: seq<T>)
    ensures forall x :: x in left <==> x in rows && key(x) !in gone
  {
    if rows == [] then []
    else if key(rows[0]) in gone then Outside(rows[1..], key, gone)
    else [rows[0]] + Outside(rows[1..], key, gone)
  }

  function DiagnosisKey(d: Diagnosis): Key {
    d.key
  }

  function ChatKey(m: Chat): Key {
    m.key
  }

  function Pruned(t: Tables, cutoff: Instant): Tables {
    var gone := OldKeys(t.incidents, cutoff);
    Tables(t.incidents - gone, Outside(t.diagnoses, DiagnosisKey, gone), Outside(t.chats, ChatKey, gone))
  }

  /** Every diagnosis row belongs to an incident row; no foreign key enforces it. */
  ghost predicate Referential(t: Tables) {
    forall d :: d in t.diagnoses ==> d.key in t.incidents
  }

  lemma {:induction false} PruneKeepsReferences(t: Tables, cutoff: Instant)
    requires Referential(t)
    ensures Referential(Pruned(t, cutoff))
  {
    var gone := OldKeys(t.incidents, cutoff);
    forall d | d in Pruned(t, cutoff).diagnoses ensures d.key in t.incidents - gone {
      assert d in t.diagnoses && d.key !in gone;
    }
  }

  /** Retention is right to the second, and within the cutoff's own second it deletes
      exactly what byte order of trimmed fractions puts first. */
  lemma {:induction false} PruneDeletesExactly(t: Tables, cutoff: Instant, k: Key)
    requires k in t.incidents
    ensures var u := t.incidents[k].updatedAt;
            k !in Pruned(t, cutoff).incidents <==>
            Seconds(u) < Seconds(cutoff) ||
            (Seconds(u) == Seconds(cutoff) &&
             ((u < cutoff && !(Fraction(u) <= Fraction(cutoff))) ||
              (cutoff < u && Fraction(cutoff) <= Fraction(u))))
    ensures k in Pruned(t, cutoff).incidents ==> Pruned(t, cutoff).incidents[k] == t.incidents[k]
  {
    ByteOrderRule(t.incidents[k].updatedAt, cutoff);
  }

  /** The child rows go with their incident and only with it; the others stay in order. */
  lemma {:induction false} PruneTakesChildren(t: Tables, cutoff: Instant)
    ensures var t' := Pruned(t, cutoff);
            var gone := t.incidents.Keys - t'.incidents.Keys;
            (forall d :: d in t'.diagnoses <==> d in t.diagnoses && d.key !in gone) &&
            (forall m :: m in t'.chats <==> m in t.chats && m.key !in gone) &&
            LeftInOrder(t.diagnoses, DiagnosisKey, gone, t'.diagnoses) && LeftInOrder(t.chats, ChatKey, gone, t'.chats)
  {
    var gone := OldKeys(t.incidents, cutoff);
    assert t.incidents.Keys - Pruned(t, cutoff).incidents.Keys == gone;
    OutsideInOrder(t.diagnoses, DiagnosisKey, gone);
    OutsideInOrder(t.chats, ChatKey, gone);
  }

  /** Read from the end: every row whose key is not gone, as often as before, in order. */
  ghost predicate LeftInOrder<T(!new)>(rows: seq<T>, key: T -> Key, gone: set<Key>, left: seq<T>) {
    if rows == [] then left == []
    else
      var n := |rows| - 1;
      if key(rows[n]) in gone then LeftInOrder(rows[..n], key, gone, left)
      else left != [] && left[|left| - 1] == rows[n] && LeftInOrder(rows[..n], key, gone, left[..|left| - 1])
  }

  lemma {:induction false} OutsideInOrder<T(!new)>(rows: seq<T>, key: T -> Key, gone: set<Key>)
    ensures LeftInOrder(rows, key, gone, Outside(rows, key, gone))
  {
    if rows != [] {
      var n := |rows| - 1;
      OutsideInOrder(rows[..n], key, gone);
      assert rows[..n] + [rows[n]] == rows;
      OneMoreRow(rows[..n], rows[n], key, gone);
      var left := Outside(rows[..n], key, gone);
      assert (left + [rows[n]])[..|left|] == left;
    }
  }

  lemma {:induction false} OneMoreRow<T(!new)>(rows: seq<T>, x: T, key: T -> Key, gone: set<Key>)
    ensures Outside(rows + [x], key, gone) ==
            if key(x) in gone then Outside(rows, key, gone) else Outside(rows, key, gone) + [x]
  {
    if rows == [] {
      assert rows + [x] == [x] && Outside([x][1..], key, gone) == [];
    } else {
      OneMoreRow(rows[1..], x, key, gone);
      assert (rows + [x])[0] == rows[0] && (rows + [x])[1..] == rows[1..] + [x];
    }
  }

  // ---------- the store itself ----------

  /** A failing statement leaves the database as it was. */
  class Store {
    var tables: Tables

    constructor ()
      ensures tables == Tables(map[], [], [])
    {
      tables := Tables(map[], [], []);
    }

    method UpsertIncident(inc: Incident, now: Instant, fails: bool) returns (ok: bool)
      modifies this
      ensures ok == !fails
      ensures tables == if ok then old(tables).(incidents := Upsert(old(tables).incidents, inc, now))
                        else old(tables)
      ensures ok ==> WritesRow(old(tables).incidents, tables.incidents, inc, now)
    {
      if fails {
        return false;
      }
      UpsertWritesRow(tables.incidents, inc, now);
      var created := if inc.createdAt.Some? then inc.createdAt.value else now;
      var updated := if inc.updatedAt.Some? then inc.updatedAt.value else now;
      var life := Printed(inc.life);
      var row := Row(inc.cols, life, created, updated);
      if inc.key in tables.incidents {
        var stored := tables.incidents[inc.key];
        row := Row(Merge(inc.cols, stored.cols), life, stored.createdAt, updated);
      }
      tables := tables.(incidents := tables.incidents[inc.key := row]);
      return true;
    }

    method InsertDiagnosis(d: Diagnosis, now: Instant, fails: bool) returns (ok: bool)
      modifies this
      ensures ok == !fails
      ensures tables == if ok then old(tables).(diagnoses := old(tables).diagnoses + [d.(createdAt := now)])
                        else old(tables)
    {
      if fails {
        return false;
      }
      tables := tables.(diagnoses := tables.diagnoses + [d.(createdAt := now)]);
      return true;
    }

    /** Three deletes and a commit in one transaction; `failsAt` is the statement that
        fails, if any.  The child deletes evaluate the age condition against the
        incidents table, so incidents must go last. */
    method Prune(cutoff: Instant, failsAt: Option<nat>) returns (deleted: Option<nat>)
      requires failsAt.Some? ==> failsAt.value < 4
      modifies this
      ensures deleted.Some? <==> failsAt.None?
      ensures tables == if deleted.Some? then Pruned(old(tables), cutoff) else old(tables)
      ensures deleted.Some? ==> |old(tables).incidents| == |tables.incidents| + deleted.value
    {
      var tx := tables;
      if failsAt == Some(0) { return None; }
      tx := tx.(chats := Outside(tx.chats, ChatKey, OldKeys(tx.incidents, cutoff)));
      if failsAt == Some(1) { return None; }
      tx := tx.(diagnoses := Outside(tx.diagnoses, DiagnosisKey, OldKeys(tx.incidents, cutoff)));
      if failsAt == Some(2) { return None; }
      var gone := OldKeys(tx.incidents, cutoff);
      RemovalCounts(tx.incidents, gone);
      tx := tx.(incidents := tx.incidents - gone);
      if failsAt == Some(3) { return None; }
      tables := tx;
      return Some(|gone|);
    }
  }

  lemma {:induction false} RemovalCounts(m: map<Key, Row>, gone: set<Key>)
    requires gone <= m.Keys
    ensures |m| == |m - gone| + |gone|
  {
    assert (m - gone).Keys == m.Keys - gone;
    assert m.Keys == (m.Keys - gone) + gone;
  }
}
