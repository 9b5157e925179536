/** The append-only journal store (ledger-kernel ledgerStore.ts). */
module LedgerStore {
  import opened Text
  import opened Ledger

  /** Where a key sits in a log, or the log's length when it is not there. */
  function IndexOfKey(log: seq<Entry>, key: string): (i: nat)
    ensures i <= |log|
    ensures i < |log| ==> log[i].draft.key == key
    ensures forall k :: 0 <= k < i ==> log[k].draft.key != key
  {
    if log == [] || log[0].draft.key == key then 0
    else
      var j := IndexOfKey(log[1..], key);
      assert forall k :: 0 < k < 1 + j ==> log[k] == log[1..][k - 1];
      1 + j
  }

  predicate HasKey(log: seq<Entry>, key: string) {
    IndexOfKey(log, key) < |log|
  }

  lemma HasKeyAt(log: seq<Entry>, i: nat)
    requires i < |log|
    ensures HasKey(log, log[i].draft.key)
  {
  }

  function ByKey(log: seq<Entry>, key: string): Option<Entry> {
    var i := IndexOfKey(log, key);
    if i < |log| then Some(log[i]) else None
  }

  function EntryId(t: TenantId, sequence: nat): string {
    t + ":" + NatText(sequence)
  }

  function Finalized(draft: Draft, sequence: nat): Entry {
    Entry(EntryId(draft.tenantId, sequence), sequence, draft)
  }

  /** The log after an append: unchanged when the key was used, else one entry longer. */
  function Appended(log: seq<Entry>, draft: Draft): seq<Entry> {
    if HasKey(log, draft.key) then log else log + [Finalized(draft, |log| + 1)]
  }

  function AppendAll(log: seq<Entry>, drafts: seq<Draft>): seq<Entry> {
    if drafts == [] then log
    else Appended(AppendAll(log, drafts[..|drafts| - 1]), drafts[|drafts| - 1])
  }

  /** One tenant's entries: numbered from one, tenant-scoped, every key at most once. */
  ghost predicate WellFormed(t: TenantId, log: seq<Entry>) {
    && (forall i :: 0 <= i < |log| ==>
          log[i].sequence == i + 1 && log[i].draft.tenantId == t && log[i].id == EntryId(t, i + 1))
    && (forall i, j :: 0 <= i < j < |log| ==> log[i].draft.key != log[j].draft.key)
  }

  lemma AppendKeepsWellFormed(t: TenantId, log: seq<Entry>, draft: Draft)
    requires WellFormed(t, log) && draft.tenantId == t
    ensures WellFormed(t, Appended(log, draft))
    ensures log <= Appended(log, draft)
    ensures ByKey(Appended(log, draft), draft.key).Some?
    ensures forall key :: HasKey(log, key) ==> ByKey(Appended(log, draft), key) == ByKey(log, key)
  {
    var log' := Appended(log, draft);
    HasKeyAt(log', if HasKey(log, draft.key) then IndexOfKey(log, draft.key) else |log|);
    forall key | HasKey(log, key) ensures ByKey(log', key) == ByKey(log, key) {
      var i, j := IndexOfKey(log, key), IndexOfKey(log', key);
      assert log'[i] == log[i];
      assert i == j;
    }
  }

  lemma IdsAreDistinct(t: TenantId, m: nat, n: nat)
    requires EntryId(t, m) == EntryId(t, n)
    ensures m == n
  {
    var prefix := t + ":";
    assert EntryId(t, m)[|prefix|..] == NatText(m) && EntryId(t, n)[|prefix|..] == NatText(n);
    NatTextInjective(m, n);
  }

  /** A tenant's entries with the two indexes the source keeps beside them. */
  datatype TenantLog = TenantLog(entries: seq<Entry>, byKey: map<string, Entry>, byId: map<string, Entry>)

  const EmptyLog := TenantLog([], map[], map[])

  ghost predicate KeyIndexed(entries: seq<Entry>, byKey: map<string, Entry>) {
    && (forall key :: key in byKey <==> HasKey(entries, key))
    && (forall key :: key in byKey ==> Some(byKey[key]) == ByKey(entries, key))
  }

  ghost predicate IdIndexed(entries: seq<Entry>, byId: map<string, Entry>) {
    && (forall i :: 0 <= i < |entries| ==> entries[i].id in byId && byId[entries[i].id] == entries[i])
    && (forall id :: id in byId ==> byId[id].id == id && byId[id] in entries)
  }

  /** The indexes hold exactly the entries of the list. */
  ghost predicate Indexed(l: TenantLog) {
    KeyIndexed(l.entries, l.byKey) && IdIndexed(l.entries, l.byId)
  }

  /** Push the entry and index it under its key and its id. */
  function Grown(l: TenantLog, e: Entry): TenantLog {
    TenantLog(l.entries + [e], l.byKey[e.draft.key := e], l.byId[e.id := e])
  }

  lemma GrownLogIsIndexed(t: TenantId, l: TenantLog, draft: Draft, e: Entry)
    requires WellFormed(t, l.entries) && Indexed(l) && draft.tenantId == t && !HasKey(l.entries, draft.key)
    requires e == Finalized(draft, |l.entries| + 1)
    ensures WellFormed(t, Grown(l, e).entries) && Indexed(Grown(l, e))
    ensures Grown(l, e).entries == Appended(l.entries, draft)
    ensures ByKey(Grown(l, e).entries, draft.key) == Some(e)
  {
    AppendKeepsWellFormed(t, l.entries, draft);
    AppendKeepsKeyIndex(t, l.entries, l.byKey, draft);
    AppendKeepsIdIndex(t, l.entries, l.byId, draft);
  }

  class InMemoryLedgerStore {
    var tenants: map<TenantId, TenantLog>

    ghost predicate Valid()
      reads this
    {
      forall t :: t in tenants ==> WellFormed(t, tenants[t].entries) && Indexed(tenants[t])
    }

    /** The tenant's entries, in posting order. */
    function Log(t: TenantId): seq<Entry>
      reads this
    {
      if t in tenants then tenants[t].entries else []
    }

    constructor ()
      ensures Valid() && forall t :: Log(t) == []
    {
      tenants := map[];
    }

    method Append(draft: Draft) returns (entry: Entry)
      requires Valid()
      modifies this
      ensures Valid()
      ensures Log(draft.tenantId) == Appended(old(Log(draft.tenantId)), draft)
      ensures Some(entry) == ByKey(Log(draft.tenantId), draft.key)
      ensures forall t :: t != draft.tenantId ==> Log(t) == old(Log(t))
    {
      var t := draft.tenantId;
      var l := if t in tenants then tenants[t] else EmptyLog;
      if draft.key in l.byKey {
        return l.byKey[draft.key];
      }
      var sequence := |l.entries| + 1;
      entry := Finalized(draft, sequence);
      GrownLogIsIndexed(t, l, draft, entry);
      tenants := tenants[t := Grown(l, entry)];
    }

    method GetByIdempotencyKey(t: TenantId, key: string) returns (r: Option<Entry>)
      requires Valid()
      ensures r == ByKey(Log(t), key)
    {
      if t !in tenants || key !in tenants[t].byKey {
        return None;
      }
      return Some(tenants[t].byKey[key]);
    }

    method GetById(t: TenantId, id: string) returns (r: Option<Entry>)
      requires Valid()
      ensures r == ById(Log(t), id)
    {
      if t !in tenants || id !in tenants[t].byId {
        ByIdMeans(t, Log(t), id);
        return None;
      }
      ByIdMeans(t, Log(t), id);
      return Some(tenants[t].byId[id]);
    }

    method GetBySequence(t: TenantId, sequence: int) returns (r: Option<Entry>)
      requires Valid()
      ensures r.Some? <==> 1 <= sequence <= |Log(t)|
      ensures r.Some? ==> r.value.sequence == sequence && r.value in Log(t)
    {
      if t in tenants && 0 <= sequence - 1 < |tenants[t].entries| {
        return Some(tenants[t].entries[sequence - 1]);
      }
      return None;
    }
  }

  /** The last entry with an id, as a search from the end of the journal finds it. */
  function ById(log: seq<Entry>, id: string): Option<Entry> {
    if log == [] then None
    else if log[|log| - 1].id == id then Some(log[|log| - 1])
    else ById(log[..|log| - 1], id)
  }

  lemma {:induction false} ByIdMeans(t: TenantId, log: seq<Entry>, id: string)
    requires WellFormed(t, log)
    ensures ById(log, id).Some? ==> ById(log, id).value in log && ById(log, id).value.id == id
    ensures forall e :: e in log && e.id == id ==> ById(log, id) == Some(e)
  {
    if log != [] {
      var front, last := log[..|log| - 1], log[|log| - 1];
      ByIdMeans(t, front, id);
      forall e | e in log && e.id == id ensures ById(log, id) == Some(e) {
        var i :| 0 <= i < |log| && log[i] == e;
        if last.id == id {
          IdsAreDistinct(t, i + 1, |log|);
        } else {
          assert e == front[i];
        }
      }
    }
  }

  lemma AppendKeepsKeyIndex(t: TenantId, entries: seq<Entry>, byKey: map<string, Entry>, draft: Draft)
    requires WellFormed(t, entries) && KeyIndexed(entries, byKey)
    requires draft.tenantId == t && !HasKey(entries, draft.key)
    ensures var e := Finalized(draft, |entries| + 1);
            KeyIndexed(entries + [e], byKey[draft.key := e]) && ByKey(entries + [e], draft.key) == Some(e)
  {
    AppendKeepsWellFormed(t, entries, draft);
    var e := Finalized(draft, |entries| + 1);
    var entries' := entries + [e];
    assert entries'[|entries|].draft.key == draft.key;
    forall key | HasKey(entries', key) && key != draft.key ensures HasKey(entries, key) {
      assert entries'[IndexOfKey(entries', key)] != e;
    }
  }

  lemma AppendKeepsIdIndex(t: TenantId, entries: seq<Entry>, byId: map<string, Entry>, draft: Draft)
    requires WellFormed(t, entries) && IdIndexed(entries, byId) && draft.tenantId == t
    ensures var e := Finalized(draft, |entries| + 1);
            IdIndexed(entries + [e], byId[e.id := e])
  {
    var n := |entries| + 1;
    var e := Finalized(draft, n);
    forall i | 0 <= i < |entries| ensures entries[i].id != e.id {
      if entries[i].id == e.id {
        IdsAreDistinct(t, i + 1, n);
      }
    }
    assert (entries + [e])[|entries|] == e;
    assert forall x :: x in entries ==> x in entries + [e];
  }
}
