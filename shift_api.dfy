/**
 * The shift API (backend/app/main.py): a table of shifts keyed by id, the
 * `ShiftCreate` request schema, and the create, list and delete handlers.
 * Timestamps are integers that keep the order of Python datetimes (for
 * instance microseconds since a fixed instant); the database is an in-memory
 * table whose rows are kept in id order.
 */
module ShiftApi {
  import opened Wrappers

  /** An order-preserving integer encoding of a datetime; the handlers only compare timestamps. */
  type Timestamp = int

  const MinUserNameLength: nat := 1
  const MaxUserNameLength: nat := 100

  const StatusBadRequest: int := 400
  const StatusNotFound: int := 404
  const StatusUnprocessable: int := 422

  const EndNotAfterStartDetail: string := "end_at must be after start_at"
  const ShiftNotFoundDetail: string := "shift not found"

  /** The body of `POST /shifts` once the framework has decoded it. */
  datatype ShiftCreate = ShiftCreate(
    userName: string,
    role: Option<string>,
    startAt: Timestamp,
    endAt: Timestamp,
    note: Option<string>)

  /** A row of the `shifts` table, also what `ShiftRead` returns. */
  datatype Shift = Shift(
    id: nat,
    userName: string,
    role: Option<string>,
    startAt: Timestamp,
    endAt: Timestamp,
    note: Option<string>)

  /** Why a request is refused. */
  datatype ApiError =
    | Unprocessable                           // the body violates the ShiftCreate schema
    | HttpError(status: int, detail: string)  // an HTTPException raised by a handler
  {
    function Status(): int {
      match this
      case Unprocessable => StatusUnprocessable
      case HttpError(status, _) => status
    }
  }

  /** The `user_name` field constraint of `ShiftCreate`: 1 to 100 characters. */
  predicate UserNameValid(name: string) {
    MinUserNameLength <= |name| <= MaxUserNameLength
  }

  /**
   * What `create_shift` refuses, in the order it is checked: first the schema
   * (422), then the handler's own `end_at <= start_at` test (400).
   */
  function CreateRefusal(p: ShiftCreate): (r: Option<ApiError>)
    ensures r.None? <==> UserNameValid(p.userName) && p.startAt < p.endAt
    ensures !UserNameValid(p.userName) ==> r == Some(Unprocessable)
    ensures UserNameValid(p.userName) && p.endAt <= p.startAt ==>
              r == Some(HttpError(StatusBadRequest, EndNotAfterStartDetail))
    ensures r.Some? ==> r.value.Status() in {StatusBadRequest, StatusUnprocessable}
  {
    if !UserNameValid(p.userName) then Some(Unprocessable)
    else if p.endAt <= p.startAt then Some(HttpError(StatusBadRequest, EndNotAfterStartDetail))
    else None
  }

  /** A row the table may hold: a valid name and a start strictly before its end. */
  predicate RowValid(s: Shift) {
    UserNameValid(s.userName) && s.startAt < s.endAt
  }

  /** Ids in table order are strictly increasing, hence unique. */
  ghost predicate IdsIncreasing(rows: seq<Shift>) {
    forall i, j :: 0 <= i < j < |rows| ==> rows[i].id < rows[j].id
  }

  /** The ids present in the table. */
  ghost function Ids(rows: seq<Shift>): set<int> {
    set k | 0 <= k < |rows| :: rows[k].id
  }

  /** `db.query(ShiftORM).get(shift_id)`: the position of the row with this id, if any. */
  function FindIndex(rows: seq<Shift>, id: int): (r: Option<nat>)
    ensures r.None? <==> forall k :: 0 <= k < |rows| ==> rows[k].id != id
    ensures r.Some? ==> r.value < |rows| && rows[r.value].id == id
    ensures r.Some? ==> forall k :: 0 <= k < r.value ==> rows[k].id != id
  {
    if rows == [] then None
    else if rows[0].id == id then Some(0)
    else
      match FindIndex(rows[1..], id)
      case None => None
      case Some(k) => Some(k + 1)
  }

  /** Rows in non-decreasing `start_at` order. */
  ghost predicate SortedByStart(s: seq<Shift>) {
    forall i, j :: 0 <= i < j < |s| ==> s[i].startAt <= s[j].startAt
  }

  /** Inserts `x` into a sorted sequence before the first row that does not start earlier. */
  function InsertByStart(x: Shift, s: seq<Shift>): (r: seq<Shift>)
    requires SortedByStart(s)
    ensures SortedByStart(r)
    ensures multiset(r) == multiset(s) + multiset{x}
    ensures |r| == |s| + 1
    ensures r[0] == x || (s != [] && r[0] == s[0])
  {
    if s == [] || x.startAt <= s[0].startAt then [x] + s
    else
      var t := InsertByStart(x, s[1..]);
      assert s == [s[0]] + s[1..];
      assert s[0].startAt <= t[0].startAt;
      [s[0]] + t
  }

  /** A sort of the table by `start_at`; the order of rows with equal starts is not promised. */
  function SortByStart(s: seq<Shift>): (r: seq<Shift>)
    ensures SortedByStart(r)
    ensures multiset(r) == multiset(s)
    ensures |r| == |s|
  {
    if s == [] then []
    else
      assert s == [s[0]] + s[1..];
      InsertByStart(s[0], SortByStart(s[1..]))
  }

  /** The `shifts` table with SQLite's id allocation abstracted to a counter above every id in use. */
  class ShiftStore {
    var rows: seq<Shift>
    var nextId: nat

    /** Every row is valid, ids are unique and increasing in table order, and `nextId` is fresh. */
    ghost predicate Valid()
      reads this
    {
      && (forall k :: 0 <= k < |rows| ==> RowValid(rows[k]) && rows[k].id < nextId)
      && IdsIncreasing(rows)
    }

    /** An empty table; SQLite hands out ids from 1. */
    constructor ()
      ensures Valid()
      ensures rows == [] && nextId == 1
    {
      rows := [];
      nextId := 1;
    }

    /** `GET /shifts`: every row, ordered by `start_at` ascending. */
    function ListShifts(): (r: seq<Shift>)
      reads this
      ensures SortedByStart(r)
      ensures multiset(r) == multiset(rows)
      ensures |r| == |rows|
    {
      SortByStart(rows)
    }

    /** `POST /shifts`: validate the payload, then insert one row with a fresh id and return it. */
    method CreateShift(p: ShiftCreate) returns (r: Result<Shift, ApiError>)
      requires Valid()
      modifies this
      ensures Valid()
      ensures r.Err? <==> CreateRefusal(p).Some?
      ensures r.Err? ==> r.error == CreateRefusal(p).value
      ensures r.Err? ==> rows == old(rows) && nextId == old(nextId)
      ensures r.Ok? ==> r.value == Shift(r.value.id, p.userName, p.role, p.startAt, p.endAt, p.note)
      ensures r.Ok? ==> r.value.id !in Ids(old(rows))
      ensures r.Ok? ==> rows == old(rows) + [r.value]
    {
      var refusal := CreateRefusal(p);
      if refusal.Some? {
        return Err(refusal.value);
      }
      var row := Shift(nextId, p.userName, p.role, p.startAt, p.endAt, p.note);
      rows := rows + [row];
      nextId := nextId + 1;
      r := Ok(row);
    }

    /** `DELETE /shifts/{shift_id}`: remove the row with this id, or refuse with 404. */
    method DeleteShift(id: int) returns (r: Option<ApiError>)
      requires Valid()
      modifies this
      ensures Valid()
      ensures r.Some? <==> id !in Ids(old(rows))
      ensures r.Some? ==> r.value == HttpError(StatusNotFound, ShiftNotFoundDetail)
      ensures r.Some? ==> rows == old(rows) && nextId == old(nextId)
      ensures r.None? ==> FindIndex(old(rows), id).Some?
      ensures r.None? ==> var i := FindIndex(old(rows), id).value;
                          rows == old(rows)[..i] + old(rows)[i + 1..]
      ensures r.None? ==> id !in Ids(rows)
      ensures r.None? ==> forall s :: s in old(rows) ==> (s in rows <==> s.id != id)
    {
      var found := FindIndex(rows, id);
      if found.None? {
        assert id !in Ids(rows);
        return Some(HttpError(StatusNotFound, ShiftNotFoundDetail));
      }
      var i := found.value;
      assert rows[i].id == id;
      ghost var before := rows;
      rows := rows[..i] + rows[i + 1..];
      assert forall k :: 0 <= k < |rows| ==> rows[k] == if k < i then before[k] else before[k + 1];
      ShrunkIdsIncreasing(before, i);
      RemovedRowGone(before, i);
      r := None;
    }
  }

  /** Removing one row keeps the ids increasing. */
  lemma ShrunkIdsIncreasing(rows: seq<Shift>, i: nat)
    requires i < |rows| && IdsIncreasing(rows)
    ensures IdsIncreasing(rows[..i] + rows[i + 1..])
  {
  }

  /**
   * With unique ids, removing the row at `i` removes exactly the rows carrying
   * its id: that id is no longer present and every other row survives.
   */
  lemma RemovedRowGone(rows: seq<Shift>, i: nat)
    requires i < |rows| && IdsIncreasing(rows)
    ensures rows[i].id !in Ids(rows[..i] + rows[i + 1..])
    ensures forall s :: s in rows ==> (s in rows[..i] + rows[i + 1..] <==> s.id != rows[i].id)
  {
  }
}
