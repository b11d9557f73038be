/**
 * example/adapter.js: the sample in-memory adapter. It keeps a counter `id`
 * and an object `data` of records keyed by id; create issues the next id,
 * and update and delete act only on records that are present and truthy.
 */
module ExampleAdapter {
  import opened JsValue
  import opened HttpMethods
  import opened Adapters
  import opened VerifyAdapterResponse

  /** The keys of the ids issued so far, 1 to `n`. */
  function IssuedKeys(n: nat): set<string> {
    set i | 1 <= i <= n :: NatToString(i)
  }

  /** The next id's key has never been issued, so it is not in use. */
  lemma NextKeyIsFresh(n: nat)
    ensures NatToString(n + 1) !in IssuedKeys(n)
    ensures IssuedKeys(n + 1) == IssuedKeys(n) + {NatToString(n + 1)}
  {
    if NatToString(n + 1) in IssuedKeys(n) {
      var i :| 1 <= i <= n && NatToString(i) == NatToString(n + 1);
      NatToStringInjective(i, n + 1);
    }
  }

  /** `params.id` as the property key `data[params.id]` uses. */
  function KeyOf(params: Value): string {
    ToPropertyKey(Get(params, "id"))
  }

  /** `data[k]`: the record, or undefined. */
  function Entry(data: map<string, Value>, k: string): Value {
    if k in data then data[k] else Undefined
  }

  /** The store behind the adapter the factory returns. */
  class MemoryStore {
    var id: nat
    var data: map<string, Value>

    /** Every record sits under an issued id: ids are never reused. */
    predicate Valid()
      reads this
    {
      data.Keys <= IssuedKeys(id)
    }

    constructor ()
      ensures id == 0 && data == map[] && Valid()
    {
      id := 0;
      data := map[];
    }

    /**
     * `create(params, done)`: issue the next id, store `params.data` under
     * it and answer `{uid, data}` with the whole store, a response the
     * router accepts.
     */
    method Create(params: Value) returns (c: Completion)
      requires Valid()
      modifies this
      ensures Valid()
      ensures id == old(id) + 1
      ensures NatToString(id) !in IssuedKeys(old(id)) && NatToString(id) !in old(data)
      ensures data == old(data)[NatToString(id) := Get(params, "data")]
      ensures c == Completion(None, Obj(map["uid" := Num(id), "data" := Obj(data)]), Undefined)
      ensures ValidResponse(Op.Create, c.data)
    {
      NextKeyIsFresh(id);
      id := id + 1;
      data := data[NatToString(id) := Get(params, "data")];
      c := Completion(None, Obj(map["uid" := Num(id), "data" := Obj(data)]), Undefined);
    }

    /** `read(params, done)`: the record under `params.id`, undefined (so a 404) when there is none. */
    method Read(params: Value) returns (c: Completion)
      ensures c.err.None? && c.extra == Undefined
      ensures KeyOf(params) in data ==> c.data == data[KeyOf(params)]
      ensures KeyOf(params) !in data ==> c.data == Undefined
    {
      c := Completion(None, Entry(data, KeyOf(params)), Undefined);
    }

    /**
     * `update(params, done)`: a present, truthy record is replaced by
     * `params.data` and answered with (new, old); otherwise nothing changes
     * and the answer is null.
     */
    method Update(params: Value) returns (c: Completion)
      requires Valid()
      modifies this
      ensures Valid() && id == old(id) && data.Keys == old(data).Keys
      ensures var k := KeyOf(params);
              if Truthy(Entry(old(data), k)) then
                data == old(data)[k := Get(params, "data")]
                && c == Completion(None, Get(params, "data"), old(data)[k])
              else data == old(data) && c == Completion(None, Null, Undefined)
    {
      var k := KeyOf(params);
      if Truthy(Entry(data, k)) {
        var prior := data[k];
        data := data[k := Get(params, "data")];
        c := Completion(None, Get(params, "data"), prior);
      } else {
        c := Completion(None, Null, Undefined);
      }
    }

    /** `list(params, done)`: the whole store, whatever the query. */
    method List(params: Value) returns (c: Completion)
      ensures c == Completion(None, Obj(data), Undefined)
      ensures ValidResponse(Op.List, c.data)
    {
      c := Completion(None, Obj(data), Undefined);
    }

    /**
     * `delete(params, done)`: a present, truthy record is removed and
     * answered; otherwise nothing changes and the answer is null. The
     * counter is left alone, so the id is never issued again.
     */
    method Delete(params: Value) returns (c: Completion)
      requires Valid()
      modifies this
      ensures Valid() && id == old(id)
      ensures var k := KeyOf(params);
              if Truthy(Entry(old(data), k)) then
                data == old(data) - {k} && c == Completion(None, old(data)[k], Undefined)
              else data == old(data) && c == Completion(None, Null, Undefined)
    {
      var k := KeyOf(params);
      var d := Entry(data, k);
      if !Truthy(d) {
        c := Completion(None, Null, Undefined);
      } else {
        data := data - {k};
        c := Completion(None, d, Undefined);
      }
    }
  }

  /**
   * A record deleted and a record created afterwards never share a key: the
   * new key is outside every key issued before, deleted ones included.
   */
  lemma {:induction false} IdsAreNeverReused(n: nat, m: nat, k: string)
    requires k in IssuedKeys(n) && n <= m
    ensures NatToString(m + 1) != k
  {
    var i :| 1 <= i <= n && NatToString(i) == k;
    if NatToString(m + 1) == k {
      NatToStringInjective(i, m + 1);
    }
  }
}
