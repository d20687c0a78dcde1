/** The generic CRUD layer every model inherits (src/crud_base.py): how edits are
    merged into a stored record, how lookups miss, and how creation errors are
    classified.  A table is a map from id to record; Prisma's own behaviour
    (unique constraints, a missing row on update) is modelled by what the
    table holds, and any other database failure is a parameter. */
module CrudBase {
  import opened Common

  const UNIQUE_CONSTRAINT_PREFIX: string := "Unique constraint failed"

  /** The message of get_unique's miss (crud_base.py:92-93). */
  const NO_UNIQUE_RECORD: string := "No such unique record found"

  predicate StartsWith(s: string, prefix: string) {
    |prefix| <= |s| && s[..|prefix|] == prefix
  }

  /** create's error mapping (crud_base.py:136-140). */
  function ClassifyCreateError(msg: string): (e: Error)
    ensures e == UniqueConstraintFailed(msg) <==> StartsWith(msg, UNIQUE_CONSTRAINT_PREFIX)
    ensures !StartsWith(msg, UNIQUE_CONSTRAINT_PREFIX) ==> e == DBCreate(msg)
  {
    if StartsWith(msg, UNIQUE_CONSTRAINT_PREFIX) then UniqueConstraintFailed(msg) else DBCreate(msg)
  }

  /** The message Prisma reports when a unique field is duplicated. */
  function UniqueViolationMessage(field: string): (msg: string)
    ensures StartsWith(msg, UNIQUE_CONSTRAINT_PREFIX)
    ensures ClassifyCreateError(msg) == UniqueConstraintFailed(msg)
  {
    var msg := UNIQUE_CONSTRAINT_PREFIX + " on the fields: (`" + field + "`)";
    assert msg[..|UNIQUE_CONSTRAINT_PREFIX|] == UNIQUE_CONSTRAINT_PREFIX;
    msg
  }

  /** An edit as the services pass it: a plain dict, or a schema instance whose
      explicitly set fields are known. */
  datatype UpdateInput = Plain(d: Dict) | Schema(fields: Dict, explicitlySet: set<string>)

  /** get_update_data (crud_base.py:33-42): dicts pass through; a schema becomes
      its explicitly set fields only (`.dict(exclude_unset=True)`). */
  function GetUpdateData(input: UpdateInput): (d: Dict)
    ensures input.Plain? ==> d == input.d
    ensures input.Schema? ==> d.Keys == input.fields.Keys * input.explicitlySet
    ensures input.Schema? ==> forall k :: k in d ==> k in input.fields && d[k] == input.fields[k]
  {
    match input
    case Plain(d) => d
    case Schema(fields, set_) => map k | k in fields && k in set_ :: fields[k]
  }

  /** `.dict(exclude_none=True)`: the fields whose value is not None. */
  function DropNone(d: Dict): (r: Dict)
    ensures forall k :: k in r <==> k in d && d[k] != VNull
    ensures forall k :: k in r ==> r[k] == d[k]
  {
    map k | k in d && d[k] != VNull :: d[k]
  }

  /** The record after every field in `fields` that the update names has been
      overwritten with the update's value. */
  function Overwritten(record: Dict, fields: set<string>, update: Dict): (r: Dict)
    ensures r.Keys == record.Keys
    ensures forall k :: k in record ==> r[k] == (if k in fields && k in update then update[k] else record[k])
  {
    map k | k in record :: if k in fields && k in update then update[k] else record[k]
  }

  /** A database object (a Prisma model instance) whose attributes are set in place. */
  class DbObject {
    var fields: Dict

    constructor (fields: Dict)
      ensures this.fields == fields
    {
      this.fields := fields;
    }
  }

  /** update_old_data (crud_base.py:44-60): for each field of old_data that the
      update names, setattr the object; then return it without None fields. */
  method UpdateOldData(oldData: Dict, obj: DbObject, update: Dict) returns (payload: Dict)
    requires oldData.Keys <= obj.fields.Keys
    modifies obj
    ensures obj.fields == Overwritten(old(obj.fields), oldData.Keys, update)
    ensures payload == DropNone(obj.fields)
  {
    var remaining := oldData.Keys;
    while remaining != {}
      invariant remaining <= oldData.Keys
      invariant obj.fields == Overwritten(old(obj.fields), oldData.Keys - remaining, update)
      decreases remaining
    {
      var field :| field in remaining;
      if field in update {
        obj.fields := obj.fields[field := update[field]];
      }
      remaining := remaining - {field};
    }
    payload := DropNone(obj.fields);
  }

  /** The stored record after update (excludeNone = false, crud_base.py:156-168)
      or update_by_email (excludeNone = true, crud_base.py:170-182), when the
      old object is the stored record itself. */
  function MergedRow(row: Dict, update: Dict, excludeNone: bool): Dict {
    var oldData := if excludeNone then DropNone(row) else row;
    row + DropNone(Overwritten(row, oldData.Keys, update))
  }

  /** update: a field takes the edit's value unless the edit sets it to None,
      in which case it keeps its stored value. */
  lemma {:induction false} UpdateMergeAt(row: Dict, update: Dict, k: string)
    requires k in row
    ensures k in MergedRow(row, update, false)
    ensures MergedRow(row, update, false)[k]
            == if k in update && update[k] != VNull then update[k] else row[k]
  {
    var over := Overwritten(row, row.Keys, update);
    assert k in over && over[k] == (if k in update then update[k] else row[k]);
  }

  /** update_by_email: additionally, a field that is None now stays None
      whatever the edit says. */
  lemma {:induction false} UpdateByEmailMergeAt(row: Dict, update: Dict, k: string)
    requires k in row
    ensures k in MergedRow(row, update, true)
    ensures MergedRow(row, update, true)[k]
            == if k in update && update[k] != VNull && row[k] != VNull then update[k] else row[k]
  {
    var over := Overwritten(row, DropNone(row).Keys, update);
    assert k in over && over[k] == (if k in DropNone(row) && k in update then update[k] else row[k]);
  }

  /** The two diverge exactly on a None field the edit sets. */
  lemma UpdateByEmailCannotFillNone(row: Dict, update: Dict, k: string, v: Value)
    requires k in row && row[k] == VNull
    requires k in update && update[k] == v && v != VNull
    ensures MergedRow(row, update, false)[k] == v
    ensures MergedRow(row, update, true)[k] == VNull
  {
    UpdateMergeAt(row, update, k);
    UpdateByEmailMergeAt(row, update, k);
  }

  /** A Prisma table: rows keyed by id; `nextId` is the autoincrement counter. */
  class Table {
    var rows: map<int, Dict>
    var nextId: int

    ghost predicate Valid()
      reads this
    {
      0 < nextId && (forall id :: id in rows ==> 0 < id < nextId)
      && forall a, b :: a in rows && b in rows && a != b && Get(rows[a], "email") != VNull
                        ==> Get(rows[a], "email") != Get(rows[b], "email")
    }

    constructor ()
      ensures Valid() && rows == map[] && nextId == 1
    {
      rows := map[];
      nextId := 1;
    }

    /** get (crud_base.py:62-74). */
    function GetRecord(id: int): (r: Result<Dict>)
      reads this
      ensures r.Ok? <==> id in rows
      ensures r.Ok? ==> r.value == rows[id]
      ensures r.Err? ==> r.error == RecordNotFound(id)
    {
      if id in rows then Ok(rows[id]) else Err(RecordNotFound(id))
    }

    ghost predicate HasEmail(email: string)
      reads this
    {
      exists id :: id in rows && Get(rows[id], "email") == VStr(email)
    }

    ghost function RowIdByEmail(email: string): (id: int)
      reads this
      requires HasEmail(email)
      ensures id in rows && Get(rows[id], "email") == VStr(email)
    {
      var id :| id in rows && Get(rows[id], "email") == VStr(email); id
    }

    lemma RowIdByEmailUnique(email: string, id: int)
      requires Valid() && id in rows && Get(rows[id], "email") == VStr(email)
      ensures HasEmail(email) && RowIdByEmail(email) == id
    {
    }

    /** No other row holds the email of `row`: what Prisma's unique
      constraint on email demands of a row written at `id`. */
    predicate EmailFree(id: int, row: Dict)
      reads this
    {
      Get(row, "email") == VNull
      || forall b :: b in rows && b != id ==> Get(rows[b], "email") != Get(row, "email")
    }

    /** The write Prisma performs for an update of an existing row: refused as a
      DBUpdate when it would duplicate an email. */
    method WriteRow(id: int, payload: Dict) returns (r: Result<Dict>)
      requires Valid() && id in rows
      modifies this
      ensures Valid() && nextId == old(nextId)
      ensures old(EmailFree(id, rows[id] + payload)) ==> rows == old(rows)[id := old(rows)[id] + payload] && r == Ok(rows[id])
      ensures !old(EmailFree(id, rows[id] + payload)) ==> rows == old(rows) && r == Err(DBUpdate)
    {
      var row := rows[id] + payload;
      if Get(row, "email") != VNull && exists b :: b in rows && b != id && Get(rows[b], "email") == Get(row, "email") {
        return Err(DBUpdate);
      }
      rows := rows[id := row];
      r := Ok(row);
    }

    /** update (crud_base.py:156-168): merges every field of the old object,
      None ones included, then writes the result without its None fields to
      the row with this id.  Prisma answers None when no row has the id. */
    method Update(id: int, oldData: DbObject, newData: UpdateInput) returns (r: Result<Option<Dict>>)
      requires Valid()
      modifies this, oldData
      ensures Valid() && nextId == old(nextId)
      ensures oldData.fields == Overwritten(old(oldData.fields), old(oldData.fields).Keys, GetUpdateData(newData))
      ensures id !in old(rows) ==> r == Ok(None) && rows == old(rows)
      ensures id in old(rows) && !old(EmailFree(id, rows[id] + DropNone(Overwritten(oldData.fields, oldData.fields.Keys, GetUpdateData(newData)))))
              ==> r == Err(DBUpdate) && rows == old(rows)
      ensures id in old(rows) && old(EmailFree(id, rows[id] + DropNone(Overwritten(oldData.fields, oldData.fields.Keys, GetUpdateData(newData)))))
              ==> rows == old(rows)[id := old(rows)[id] + DropNone(oldData.fields)] && r == Ok(Some(rows[id]))
    {
      var updateData := GetUpdateData(newData);
      var payload := UpdateOldData(oldData.fields, oldData, updateData);
      if id !in rows {
        return Ok(None);
      }
      var written := WriteRow(id, payload);
      r := if written.Ok? then Ok(Some(written.value)) else Err(written.error);
    }

    /** update_by_email (crud_base.py:170-182): only the old object's non-None
      fields are merged, and the row is found by its email; Prisma answers
      None when no row holds it. */
    method UpdateByEmail(email: string, oldData: DbObject, newData: UpdateInput) returns (r: Result<Option<Dict>>)
      requires Valid()
      modifies this, oldData
      ensures Valid() && nextId == old(nextId)
      ensures oldData.fields == Overwritten(old(oldData.fields), DropNone(old(oldData.fields)).Keys, GetUpdateData(newData))
      ensures !old(HasEmail(email)) ==> r == Ok(None) && rows == old(rows)
      ensures old(HasEmail(email)) && !old(EmailFree(RowIdByEmail(email), rows[RowIdByEmail(email)]
                + DropNone(Overwritten(oldData.fields, DropNone(oldData.fields).Keys, GetUpdateData(newData)))))
              ==> r == Err(DBUpdate) && rows == old(rows)
      ensures old(HasEmail(email)) && old(EmailFree(RowIdByEmail(email), rows[RowIdByEmail(email)]
                + DropNone(Overwritten(oldData.fields, DropNone(oldData.fields).Keys, GetUpdateData(newData)))))
              ==> var id := old(RowIdByEmail(email));
                  rows == old(rows)[id := old(rows)[id] + DropNone(oldData.fields)] && r == Ok(Some(rows[id]))
    {
      var updateData := GetUpdateData(newData);
      var payload := UpdateOldData(DropNone(oldData.fields), oldData, updateData);
      if !(exists id :: id in rows && Get(rows[id], "email") == VStr(email)) {
        return Ok(None);
      }
      var id :| id in rows && Get(rows[id], "email") == VStr(email);
      RowIdByEmailUnique(email, id);
      var written := WriteRow(id, payload);
      r := if written.Ok? then Ok(Some(written.value)) else Err(written.error);
    }

    /** create (crud_base.py:130-140): a duplicated email is Prisma's unique
      violation; `failure` is any other error the database reports; otherwise
      the row is stored under the next id. */
    method Create(data: Dict, failure: Option<string>) returns (r: Result<Dict>)
      requires Valid()
      modifies this
      ensures Valid()
      ensures r.Err? ==> rows == old(rows) && nextId == old(nextId)
      ensures !old(EmailFree(nextId, data)) ==> r == Err(UniqueConstraintFailed(UniqueViolationMessage("email")))
      ensures old(EmailFree(nextId, data)) && failure.Some? ==> r == Err(ClassifyCreateError(failure.value))
      ensures old(EmailFree(nextId, data)) && failure.None? ==>
                var row := data["id" := VInt(old(nextId))];
                rows == old(rows)[old(nextId) := row] && nextId == old(nextId) + 1 && r == Ok(row)
    {
      if Get(data, "email") != VNull && exists b :: b in rows && b != nextId && Get(rows[b], "email") == Get(data, "email") {
        return Err(ClassifyCreateError(UniqueViolationMessage("email")));
      }
      if failure.Some? {
        return Err(ClassifyCreateError(failure.value));
      }
      var row := data["id" := VInt(nextId)];
      rows := rows[nextId := row];
      nextId := nextId + 1;
      r := Ok(row);
    }
  }
}
