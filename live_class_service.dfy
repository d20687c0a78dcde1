/** LiveClassService.get_by_batch (src/live_class/service.py): the live
    classes of one batch, optionally only those starting within a time range,
    fetched through find_many with skip and limit.  Times are seconds; a
    datetime argument is always truthy, so only its absence matters. */
module LiveClassService {
  import opened Common

  /** A LiveClass row (serializers.py:8-15). */
  datatype LiveClass = LiveClass(id: int, name: string, moduleId: int, batchId: int, meetingLink: Option<string>,
                                 teacherId: Option<int>, classStartsAt: int, classEndsAt: int)

  /** `{"gte": _from, "lte": _to}`. */
  datatype TimeRange = TimeRange(gte: int, lte: int)

  /** The `where` dict: batch_id always, class_starts_at when a range is given. */
  datatype LiveClassWhere = LiveClassWhere(batchId: int, classStartsAt: Option<TimeRange>)

  /** The `include` dict. */
  datatype Include = Include(teacher: bool, batch: bool)

  /** Prisma's reading of a `where`: the batch equals and the start lies in
      the range, both ends included. */
  predicate Matches(where: LiveClassWhere, c: LiveClass) {
    c.batchId == where.batchId
    && (where.classStartsAt.Some? ==>
          where.classStartsAt.value.gte <= c.classStartsAt <= where.classStartsAt.value.lte)
  }

  /** The rows a `where` selects, in table order. */
  function Filter(rows: seq<LiveClass>, where: LiveClassWhere): (r: seq<LiveClass>)
    ensures |r| <= |rows|
    ensures forall c :: c in r <==> c in rows && Matches(where, c)
    ensures (forall i :: 0 <= i < |rows| ==> Matches(where, rows[i])) ==> r == rows
    ensures (forall i :: 0 <= i < |rows| ==> !Matches(where, rows[i])) ==> r == []
  {
    if rows == [] then []
    else (if Matches(where, rows[0]) then [rows[0]] else []) + Filter(rows[1..], where)
  }

  /** Filtering keeps table order: the selection from two consecutive runs of
      rows is the selection from the first followed by that from the second. */
  lemma {:induction false} FilterConcat(a: seq<LiveClass>, b: seq<LiveClass>, where: LiveClassWhere)
    ensures Filter(a + b, where) == Filter(a, where) + Filter(b, where)
    decreases |a|
  {
    if a == [] {
      assert a + b == b;
    } else {
      assert (a + b)[0] == a[0];
      assert (a + b)[1..] == a[1..] + b;
      FilterConcat(a[1..], b, where);
    }
  }

  /** find_many (crud_base.py:76-80): the selected rows after skipping `skip`,
      at most `limit` of them. */
  function FindMany(rows: seq<LiveClass>, where: LiveClassWhere, skip: nat, limit: nat): (r: seq<LiveClass>)
    ensures |r| <= limit
    ensures forall c :: c in r ==> c in rows && Matches(where, c)
    ensures skip == 0 && |rows| <= limit ==> forall c :: c in rows && Matches(where, c) ==> c in r
    ensures |r| == if skip >= |Filter(rows, where)| then 0
                   else if limit <= |Filter(rows, where)| - skip then limit
                   else |Filter(rows, where)| - skip
    ensures forall i :: 0 <= i < |r| ==> r[i] == Filter(rows, where)[skip + i]
  {
    var selected := Filter(rows, where);
    var rest := if skip <= |selected| then selected[skip..] else [];
    if limit <= |rest| then rest[..limit] else rest
  }

  /** The `where` get_by_batch builds (service.py:32-43). */
  function ByBatchWhere(batchId: int, from: Option<int>, to: Option<int>, now: int): LiveClassWhere {
    if from.None? then LiveClassWhere(batchId, None)
    else LiveClassWhere(batchId, Some(TimeRange(from.value, if to.Some? then to.value else now)))
  }

  /** A class is selected exactly when it is of the batch and, given `_from`,
      starts no earlier than `_from` and no later than `_to`, or than now when
      `_to` is absent. */
  lemma ByBatchSelects(batchId: int, from: Option<int>, to: Option<int>, now: int, c: LiveClass)
    ensures Matches(ByBatchWhere(batchId, from, to, now), c)
            <==> c.batchId == batchId
                 && (from.Some? ==> from.value <= c.classStartsAt <= (if to.Some? then to.value else now))
  {
  }

  /** Without `_from` there is no time filter and `_to` is ignored. */
  lemma ToIgnoredWithoutFrom(batchId: int, to1: Option<int>, to2: Option<int>, now1: int, now2: int, c: LiveClass)
    ensures ByBatchWhere(batchId, None, to1, now1) == ByBatchWhere(batchId, None, to2, now2)
    ensures Matches(ByBatchWhere(batchId, None, to1, now1), c) <==> c.batchId == batchId
  {
  }

  /** The live-class route's guard (live_class/router.py:35-36): a student
      sees only the classes of their own batch; one without a batch sees none. */
  function CheckBatchAccess(studentBatchId: Option<int>, batchId: int): (r: Result<int>)
    ensures r.Ok? <==> studentBatchId == Some(batchId)
    ensures r.Err? ==> r.error == BatchNotAllowed
  {
    if studentBatchId != Some(batchId) then Err(BatchNotAllowed) else Ok(batchId)
  }

  class LiveClassService {
    /** LiveClassModel's table, in its stored order. */
    var liveClasses: seq<LiveClass>

    constructor ()
      ensures liveClasses == []
    {
      liveClasses := [];
    }

    /** get_by_batch (service.py:24-45); `now` is get_current_time(). */
    method GetByBatch(batchId: int, from: Option<int>, to: Option<int>, now: int, skip: nat, limit: nat)
      returns (where: LiveClassWhere, includes: Include, r: seq<LiveClass>)
      ensures where == ByBatchWhere(batchId, from, to, now)
      ensures includes == Include(false, true)
      ensures r == FindMany(liveClasses, where, skip, limit)
      ensures |r| <= limit
      ensures forall c :: c in r ==> c in liveClasses && c.batchId == batchId
      ensures from.Some? ==> forall c :: c in r ==>
                from.value <= c.classStartsAt <= (if to.Some? then to.value else now)
    {
      where := LiveClassWhere(batchId, None);
      includes := Include(false, true);
      if from.Some? {
        var upper := if to.Some? then to.value else now;
        where := where.(classStartsAt := Some(TimeRange(from.value, upper)));
      }
      r := FindMany(liveClasses, where, skip, limit);
    }
  }
}
