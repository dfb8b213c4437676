/**
 * The record arena of src/edge-record.ts: a dictionary from id to record, shared by every
 * edge view of one bag. A record names its rotation and its origin-next edge by id and may
 * carry origin data. `create` stores a record, `update` writes a new `onextId` and/or new
 * data into an existing record, and `delete` drops a key.
 */
module EdgeRecords {
  import opened Wrappers

  type Id = string

  /** A stored record. `id` and `rotId` are fixed at creation; `onextId` and `data` are
      the only fields ever written afterwards. */
  datatype EdgeRecord<T> = EdgeRecord(id: Id, rotId: Id, onextId: Id, data: Option<T>)

  type Records<T> = map<Id, EdgeRecord<T>>

  /** `create`: a data-less record under `id`, replacing whatever was stored there. */
  function Created<T>(m: Records<T>, id: Id, rotId: Id, onextId: Id): (r: Records<T>)
    ensures r.Keys == m.Keys + {id}
    ensures r[id].id == id && r[id].rotId == rotId && r[id].onextId == onextId && r[id].data.None?
    ensures forall k :: k in m && k != id ==> r[k] == m[k]
  {
    m[id := EdgeRecord(id, rotId, onextId, None)]
  }

  /** `update`: a given `onextId` replaces the record's `onextId` and given data replaces
      its data; an absent field leaves the stored one alone, so data can be set but never
      cleared. The source reads the record only when some field is given, so only then
      must the id be present. */
  function Updated<T>(m: Records<T>, id: Id, onextId: Option<Id>, data: Option<T>): (r: Records<T>)
    requires (onextId.Some? || data.Some?) ==> id in m
    ensures r.Keys == m.Keys
    ensures onextId.None? && data.None? ==> r == m
    ensures forall k :: k in m && k != id ==> r[k] == m[k]
    ensures id in m ==> r[id].id == m[id].id && r[id].rotId == m[id].rotId
    ensures id in m ==> r[id].onextId == onextId.GetOr(m[id].onextId)
    ensures id in m ==> r[id].data == (if data.Some? then data else m[id].data)
  {
    var afterLink := if onextId.Some? then m[id := m[id].(onextId := onextId.value)] else m;
    if data.Some? then afterLink[id := afterLink[id].(data := data)] else afterLink
  }

  /** Data once set stays set: no update clears it. */
  lemma UpdatedKeepsData<T>(m: Records<T>, id: Id, onextId: Option<Id>, data: Option<T>, k: Id)
    requires (onextId.Some? || data.Some?) ==> id in m
    requires k in m && m[k].data.Some?
    ensures Updated(m, id, onextId, data)[k].data.Some?
  {
  }

  /** `delete`: the key is gone and every other record is as it was. */
  function Deleted<T>(m: Records<T>, id: Id): (r: Records<T>)
    ensures r.Keys == m.Keys - {id}
    ensures forall k :: k in r ==> r[k] == m[k]
  {
    m - {id}
  }

  /** No id occurs twice in s. */
  predicate Distinct(s: seq<Id>) {
    forall i, j :: 0 <= i < j < |s| ==> s[i] != s[j]
  }

  /** s with x removed, other ids in their original order. */
  function Without(s: seq<Id>, x: Id): (r: seq<Id>)
    ensures forall y :: y in r <==> y in s && y != x
    ensures Distinct(s) ==> Distinct(r)
    ensures |r| <= |s|
  {
    if |s| == 0 then []
    else
      var p, last := s[..|s| - 1], s[|s| - 1];
      assert Distinct(s) ==> Distinct(p) && last !in p;
      if last == x then Without(p, x) else Without(p, x) + [last]
  }

  /** `order` lists every stored key exactly once, and every record is stored under its
      own id. */
  ghost predicate WellStored<T>(records: Records<T>, order: seq<Id>) {
    && Distinct(order)
    && (forall k :: k in records <==> k in order)
    && (forall k :: k in records ==> records[k].id == k)
  }

  /** The shared dictionary. `order` lists the live keys in insertion order, which is the
      order in which the bag's `edges` listing presents them (ids are never integer-like,
      so the host's property order is insertion order). */
  class EdgeRecordStore<T> {
    var records: Records<T>
    var order: seq<Id>

    ghost predicate Valid()
      reads this
    {
      WellStored(records, order)
    }

    constructor ()
      ensures Valid()
      ensures records == map[] && order == []
    {
      records := map[];
      order := [];
    }

    /** `makeCreateEdgeRecord`'s closure: stores the record and returns it. A new key
        goes to the end of the insertion order; a replaced key keeps its place. */
    method Create(id: Id, rotId: Id, onextId: Id) returns (r: EdgeRecord<T>)
      requires Valid()
      modifies this
      ensures Valid()
      ensures records == Created(old(records), id, rotId, onextId)
      ensures order == if id in old(records) then old(order) else old(order) + [id]
      ensures r == records[id]
    {
      if id !in records {
        order := order + [id];
      }
      records := Created(records, id, rotId, onextId);
      r := records[id];
    }

    /** `makeUpdateEdgeRecord`'s closure. */
    method Update(id: Id, onextId: Option<Id>, data: Option<T>)
      requires Valid()
      requires (onextId.Some? || data.Some?) ==> id in records
      modifies this
      ensures Valid()
      ensures records == Updated(old(records), id, onextId, data)
      ensures order == old(order)
    {
      if onextId.Some? {
        records := records[id := records[id].(onextId := onextId.value)];
      }
      if data.Some? {
        records := records[id := records[id].(data := data)];
      }
    }

    /** `makeDeleteEdgeRecord`'s closure; deleting an absent key changes nothing. */
    method Delete(id: Id)
      requires Valid()
      modifies this
      ensures Valid()
      ensures records == Deleted(old(records), id)
      ensures order == Without(old(order), id)
    {
      records := Deleted(records, id);
      order := Without(order, id);
    }
  }
}
