/**
 * The audit rules applied just before changes are saved: which tracked
 * changes produce an audit record, and what the record holds (entity type,
 * key, action, old and new scalar values, acting user and time). Values are
 * kept as they are; their JSON serialisation is not modelled.
 */
module Audit {
  import opened Wrappers
  import opened Domain

  datatype EntityState = Detached | Unchanged | Deleted | Modified | Added

  /** The entity types the data context tracks. */
  datatype EntityKind = AppUserEntity | CustomerEntity | InvoiceEntity | InvoiceItemEntity | PaymentEntity | AuditLogEntity

  /** A property value, null or by its string form. */
  datatype Value = Null | Text(text: string)

  datatype PropertyValue = PropertyValue(name: string, value: Value)

  /**
   * One tracked entity as the change tracker describes it: its state, its
   * type, the names of its modified properties, its original and current
   * property values, and the names of its primary key properties (None when
   * the type has no primary key).
   */
  datatype ChangeEntry = ChangeEntry(
    state: EntityState,
    kind: EntityKind,
    modifiedProperties: seq<string>,
    originalValues: seq<PropertyValue>,
    currentValues: seq<PropertyValue>,
    primaryKey: Option<seq<string>>)

  datatype AuditLog = AuditLog(
    entityType: string,
    entityId: string,
    action: string,
    oldValues: Option<map<string, Value>>,
    newValues: Option<map<string, Value>>,
    performedByUserId: Option<Guid>,
    performedAtUtc: Instant)

  /** The concurrency token, never audited. */
  const RowVersion: string := "RowVersion"

  function TypeName(kind: EntityKind): string
  {
    match kind
    case AppUserEntity => "AppUser"
    case CustomerEntity => "Customer"
    case InvoiceEntity => "Invoice"
    case InvoiceItemEntity => "InvoiceItem"
    case PaymentEntity => "Payment"
    case AuditLogEntity => "AuditLog"
  }

  /** An added, modified or deleted entity that is not itself an audit record. */
  predicate Tracked(e: ChangeEntry)
  {
    (e.state == Added || e.state == Modified || e.state == Deleted) && e.kind != AuditLogEntity
  }

  /** A modified invoice whose only modified property is its concurrency token. */
  predicate OnlyRowVersionChanged(e: ChangeEntry)
  {
    e.kind == InvoiceEntity && e.state == Modified
    && |e.modifiedProperties| == 1 && e.modifiedProperties[0] == RowVersion
  }

  /** An entry that gets an audit record. */
  predicate Audited(e: ChangeEntry)
  {
    Tracked(e) && !OnlyRowVersionChanged(e)
  }

  /** The entries that survive the two filters, in order. */
  function Selected(entries: seq<ChangeEntry>): seq<ChangeEntry>
  {
    if entries == [] then []
    else
      var last := entries[|entries| - 1];
      Selected(entries[..|entries| - 1]) + (if Tracked(last) then [last] else [])
  }

  /** The action recorded for a state. */
  function ActionName(state: EntityState): (r: string)
    ensures r == "Created" <==> state == Added
    ensures r == "Updated" <==> state == Modified
    ensures r == "Deleted" <==> state == Deleted
    ensures r == "Unknown" <==> state == Detached || state == Unchanged
  {
    match state
    case Added => "Created"
    case Modified => "Updated"
    case Deleted => "Deleted"
    case _ => "Unknown"
  }

  function Names(values: seq<PropertyValue>): set<string>
  {
    set v | v in values :: v.name
  }

  /** No later property in `values` has the name of the one at `i`. */
  predicate LastWithName(values: seq<PropertyValue>, i: int)
    requires 0 <= i < |values|
  {
    forall j :: i < j < |values| ==> values[j].name != values[i].name
  }

  /**
   * The name-to-value map of a property list: every name but the concurrency
   * token, each once, with the value written last for it.
   */
  function ScalarValues(values: seq<PropertyValue>): (r: map<string, Value>)
    ensures RowVersion !in r
    ensures r.Keys == Names(values) - {RowVersion}
    ensures forall i :: 0 <= i < |values| && values[i].name != RowVersion && LastWithName(values, i) ==>
      r[values[i].name] == values[i].value
  {
    if values == [] then map[]
    else
      var init := values[..|values| - 1];
      var last := values[|values| - 1];
      assert values == init + [last];
      assert Names(values) == Names(init) + {last.name};
      var m := ScalarValues(init);
      assert forall i :: 0 <= i < |init| && LastWithName(values, i) ==> LastWithName(init, i);
      if last.name == RowVersion then m else m[last.name := last.value]
  }

  /** Fills the value map one property at a time, skipping the concurrency token. */
  method GetScalarValues(values: seq<PropertyValue>) returns (dict: map<string, Value>)
    ensures dict == ScalarValues(values)
    ensures RowVersion !in dict && dict.Keys == Names(values) - {RowVersion}
  {
    dict := map[];
    for i := 0 to |values|
      invariant dict == ScalarValues(values[..i])
    {
      assert values[..i + 1][..i] == values[..i];
      var prop := values[i];
      if prop.name == RowVersion {
        continue;
      }
      dict := dict[prop.name := prop.value];
    }
    assert values[..|values|] == values;
  }

  /** The value of the first property with this name; null when there is none. */
  function ValueOf(values: seq<PropertyValue>, name: string): (v: Value)
    ensures v.Text? ==> exists i :: 0 <= i < |values| && values[i].name == name && values[i].value == v
    ensures forall k :: 0 <= k < |values| && NameFirstAt(values, name, k) ==> v == values[k].value
    ensures (forall k :: 0 <= k < |values| ==> values[k].name != name) ==> v == Null
  {
    if values == [] then Null
    else if values[0].name == name then values[0].value
    else ValueOf(values[1..], name)
  }

  /** The property at `k` has this name and no earlier property has. */
  predicate NameFirstAt(values: seq<PropertyValue>, name: string, k: int)
    requires 0 <= k < |values|
  {
    values[k].name == name && forall j :: 0 <= j < k ==> values[j].name != name
  }

  /**
   * The string form of the first key property's current value, or of its
   * original value when the current one is null; "" when there is no key or
   * both are null.
   */
  function TryGetPrimaryKeyValue(e: ChangeEntry): (r: string)
    ensures e.primaryKey.None? || e.primaryKey.value == [] ==> r == ""
    ensures e.primaryKey.Some? && e.primaryKey.value != [] ==>
      var current := ValueOf(e.currentValues, e.primaryKey.value[0]);
      var original := ValueOf(e.originalValues, e.primaryKey.value[0]);
      && (current.Text? ==> r == current.text)
      && (current.Null? && original.Text? ==> r == original.text)
      && (current.Null? && original.Null? ==> r == "")
  {
    match e.primaryKey
    case None => ""
    case Some(keys) =>
      if keys == [] then ""
      else
        var keyName := keys[0];
        var val := if ValueOf(e.currentValues, keyName).Text? then ValueOf(e.currentValues, keyName)
                   else ValueOf(e.originalValues, keyName);
        if val.Text? then val.text else ""
  }

  /** The record written for one entry. */
  function Record(e: ChangeEntry, user: Option<Guid>, now: Instant): (a: AuditLog)
    ensures a.entityType == TypeName(e.kind) && a.entityId == TryGetPrimaryKeyValue(e)
    ensures a.action == ActionName(e.state)
    ensures a.oldValues.None? <==> e.state == Added
    ensures a.newValues.None? <==> e.state == Deleted
    ensures a.oldValues.Some? ==> a.oldValues.value.Keys == Names(e.originalValues) - {RowVersion}
    ensures a.newValues.Some? ==> a.newValues.value.Keys == Names(e.currentValues) - {RowVersion}
    ensures a.oldValues == if e.state == Added then None else Some(ScalarValues(e.originalValues))
    ensures a.newValues == if e.state == Deleted then None else Some(ScalarValues(e.currentValues))
    ensures a.performedByUserId == user && a.performedAtUtc == now
  {
    AuditLog(TypeName(e.kind), TryGetPrimaryKeyValue(e), ActionName(e.state),
             if e.state == Added then None else Some(ScalarValues(e.originalValues)),
             if e.state == Deleted then None else Some(ScalarValues(e.currentValues)),
             user, now)
  }

  /** The records for the selected entries, skipping invoices whose only change is the token. */
  function Records(selected: seq<ChangeEntry>, user: Option<Guid>, now: Instant): seq<AuditLog>
  {
    if selected == [] then []
    else
      var e := selected[|selected| - 1];
      Records(selected[..|selected| - 1], user, now)
      + (if OnlyRowVersionChanged(e) then [] else [Record(e, user, now)])
  }

  /** Extending the selection by one entry extends its records by that entry's record, if any. */
  lemma RecordsStep(selected: seq<ChangeEntry>, i: nat, user: Option<Guid>, now: Instant)
    requires i < |selected|
    ensures Records(selected[..i + 1], user, now)
      == Records(selected[..i], user, now) + (if OnlyRowVersionChanged(selected[i]) then [] else [Record(selected[i], user, now)])
  {
    assert selected[..i + 1][..i] == selected[..i];
  }

  /** Everything one save adds to the audit log. */
  function AuditTrail(entries: seq<ChangeEntry>, user: Option<Guid>, now: Instant): seq<AuditLog>
  {
    Records(Selected(entries), user, now)
  }

  /** One entry on its own yields its record exactly when it is audited. */
  lemma AuditTrailOfOne(e: ChangeEntry, user: Option<Guid>, now: Instant)
    ensures AuditTrail([e], user, now) == if Audited(e) then [Record(e, user, now)] else []
  {
    assert [e][..0] == [];
    assert Selected([e]) == Selected([]) + (if Tracked(e) then [e] else []);
    if Tracked(e) {
      assert Selected([e]) == [e];
      var records := Records([e], user, now);
      assert records == Records([], user, now) + (if OnlyRowVersionChanged(e) then [] else [Record(e, user, now)]);
      assert AuditTrail([e], user, now) == records;
    } else {
      assert Selected([e]) == [];
      assert AuditTrail([e], user, now) == Records([], user, now);
    }
  }

  lemma {:induction false} SelectedConcat(a: seq<ChangeEntry>, b: seq<ChangeEntry>)
    ensures Selected(a + b) == Selected(a) + Selected(b)
    decreases |b|
  {
    if b == [] {
      assert a + b == a;
    } else {
      var init := b[..|b| - 1];
      assert (a + b)[..|a + b| - 1] == a + init;
      SelectedConcat(a, init);
    }
  }

  lemma {:induction false} RecordsConcat(a: seq<ChangeEntry>, b: seq<ChangeEntry>, user: Option<Guid>, now: Instant)
    ensures Records(a + b, user, now) == Records(a, user, now) + Records(b, user, now)
    decreases |b|
  {
    if b == [] {
      assert a + b == a;
    } else {
      var init := b[..|b| - 1];
      assert (a + b)[..|a + b| - 1] == a + init;
      RecordsConcat(a, init, user, now);
    }
  }

  /**
   * The records of a save follow the entries: the entries of two lists
   * together give the records of the first followed by those of the second.
   * With AuditTrailOfOne this is one record per audited entry, in entry order.
   */
  lemma AuditTrailConcat(a: seq<ChangeEntry>, b: seq<ChangeEntry>, user: Option<Guid>, now: Instant)
    ensures AuditTrail(a + b, user, now) == AuditTrail(a, user, now) + AuditTrail(b, user, now)
  {
    SelectedConcat(a, b);
    RecordsConcat(Selected(a), Selected(b), user, now);
  }

  /** A save adds nothing exactly when none of its entries is audited. */
  lemma {:induction false} AuditTrailEmpty(entries: seq<ChangeEntry>, user: Option<Guid>, now: Instant)
    ensures AuditTrail(entries, user, now) == [] <==> forall i :: 0 <= i < |entries| ==> !Audited(entries[i])
    decreases |entries|
  {
    if entries != [] {
      var init := entries[..|entries| - 1];
      var last := entries[|entries| - 1];
      assert entries == init + [last];
      AuditTrailConcat(init, [last], user, now);
      AuditTrailOfOne(last, user, now);
      AuditTrailEmpty(init, user, now);
      assert forall i :: 0 <= i < |init| ==> init[i] == entries[i];
    }
  }

  /** Builds the record for one audited entry, reading its value maps property by property. */
  method BuildRecord(e: ChangeEntry, user: Option<Guid>, now: Instant) returns (a: AuditLog)
    ensures a == Record(e, user, now)
  {
    var entityType := TypeName(e.kind);
    var entityId := TryGetPrimaryKeyValue(e);
    var oldValues: Option<map<string, Value>> := None;
    if e.state != Added {
      var values := GetScalarValues(e.originalValues);
      oldValues := Some(values);
    }
    var newValues: Option<map<string, Value>> := None;
    if e.state != Deleted {
      var values := GetScalarValues(e.currentValues);
      newValues := Some(values);
    }
    a := AuditLog(entityType, entityId, ActionName(e.state), oldValues, newValues, user, now);
  }

  /** The audit records added to the data context. */
  class AuditSink {
    var logs: seq<AuditLog>

    constructor ()
      ensures logs == []
    {
      logs := [];
    }

    /** Adds one record per audited entry, in entry order. */
    method WriteAudit(entries: seq<ChangeEntry>, user: Option<Guid>, now: Instant)
      modifies this
      ensures logs == old(logs) + AuditTrail(entries, user, now)
    {
      var selected := Selected(entries);
      if |selected| == 0 {
        return;
      }
      AddRecords(selected, user, now);
    }

    /** The loop over the selected entries: one record each, except for a token-only invoice change. */
    method AddRecords(selected: seq<ChangeEntry>, user: Option<Guid>, now: Instant)
      modifies this
      ensures logs == old(logs) + Records(selected, user, now)
    {
      ghost var before := logs;
      for i := 0 to |selected|
        invariant logs == before + Records(selected[..i], user, now)
      {
        var e := selected[i];
        RecordsStep(selected, i, user, now);
        if OnlyRowVersionChanged(e) {
          continue;
        }
        var record := BuildRecord(e, user, now);
        logs := logs + [record];
      }
      assert selected[..|selected|] == selected;
    }
  }
}
