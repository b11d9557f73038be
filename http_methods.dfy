/**
 * The CRUDL operations and the HTTP verb of each (lib/http-methods.js), and
 * the verb-to-operation table lodash's `invert` builds from it
 * (lib/get-request-type.js:3-5).
 */
module HttpMethods {
  import opened JsValue

  datatype Op = Create | Read | Update | Delete | List

  /** The operation's key in the table, also used in event names and messages. */
  function Name(op: Op): string {
    match op
    case Create => "create"
    case Read => "read"
    case Update => "update"
    case Delete => "delete"
    case List => "list"
  }

  /** lib/http-methods.js:5-9 */
  function Verb(op: Op): string {
    match op
    case Create => "POST"
    case Read => "GET"
    case Update => "PUT"
    case Delete => "DELETE"
    case List => "GET"
  }

  /** The key order of the object literal, which `_.keys` and `_.invert` follow. */
  const Order: seq<Op> := [Create, Read, Update, Delete, List]

  /** Every operation appears in the key order exactly once. */
  lemma OrderListsEachOperationOnce(op: Op)
    ensures op in Order
    ensures forall i, j :: 0 <= i < j < |Order| ==> Order[i] != Order[j]
  {
  }

  lemma NamesAreDistinct(a: Op, b: Op)
    requires Name(a) == Name(b)
    ensures a == b
  {
  }

  /** `_.invert` over `keys`, starting from `acc`: each key is stored under its verb, a later key overwriting an earlier one. */
  function InvertFrom(keys: seq<Op>, acc: map<string, Op>): map<string, Op>
    decreases keys
  {
    if keys == [] then acc else InvertFrom(keys[1..], acc[Verb(keys[0]) := keys[0]])
  }

  function Inverted(): map<string, Op> {
    InvertFrom(Order, map[])
  }

  /** A table whose every entry maps a verb back to an operation with that verb. */
  ghost predicate RightInverse(m: map<string, Op>) {
    forall v :: v in m ==> Verb(m[v]) == v
  }

  /** Inverting keeps every entry honest: the operation found under a verb has that verb. */
  lemma {:induction false} InvertFromIsRightInverse(keys: seq<Op>, acc: map<string, Op>)
    requires RightInverse(acc)
    ensures RightInverse(InvertFrom(keys, acc))
    ensures InvertFrom(keys, acc).Keys == acc.Keys + (set op | op in keys :: Verb(op))
    decreases keys
  {
    if keys != [] {
      var acc' := acc[Verb(keys[0]) := keys[0]];
      InvertFromIsRightInverse(keys[1..], acc');
      assert (set op | op in keys :: Verb(op))
        == {Verb(keys[0])} + (set op | op in keys[1..] :: Verb(op)) by {
        forall op | op in keys ensures op == keys[0] || op in keys[1..] {
          if op != keys[0] {
            var i :| 0 <= i < |keys| && keys[i] == op;
            assert keys[1..][i - 1] == op;
          }
        }
      }
    }
  }

  /** Where two keys share a verb, the later one wins. */
  lemma {:induction false} InvertFromLastWins(keys: seq<Op>, acc: map<string, Op>, i: nat)
    requires i < |keys|
    requires forall j :: i < j < |keys| ==> Verb(keys[j]) != Verb(keys[i])
    ensures Verb(keys[i]) in InvertFrom(keys, acc)
    ensures InvertFrom(keys, acc)[Verb(keys[i])] == keys[i]
    decreases keys
  {
    var acc' := acc[Verb(keys[0]) := keys[0]];
    if i == 0 {
      InvertFromKeepsUntouched(keys[1..], acc', Verb(keys[0]));
    } else {
      forall j | i - 1 < j < |keys[1..]| ensures Verb(keys[1..][j]) != Verb(keys[1..][i - 1]) {
        assert keys[1..][j] == keys[j + 1];
      }
      InvertFromLastWins(keys[1..], acc', i - 1);
    }
  }

  /** A verb no remaining key has keeps the entry it already had. */
  lemma {:induction false} InvertFromKeepsUntouched(keys: seq<Op>, acc: map<string, Op>, v: string)
    requires v in acc
    requires forall j :: 0 <= j < |keys| ==> Verb(keys[j]) != v
    ensures v in InvertFrom(keys, acc) && InvertFrom(keys, acc)[v] == acc[v]
    decreases keys
  {
    if keys != [] {
      InvertFromKeepsUntouched(keys[1..], acc[Verb(keys[0]) := keys[0]], v);
    }
  }

  /** The inverted table in full: GET resolves to `list`, because list comes after read. */
  lemma InvertedTable()
    ensures Inverted() == map["POST" := Create, "GET" := List, "PUT" := Update, "DELETE" := Delete]
  {
    var m := Inverted();
    InvertFromIsRightInverse(Order, map[]);
    assert m.Keys == {"POST", "GET", "PUT", "DELETE"};
    InvertFromLastWins(Order, map[], 0);
    InvertFromLastWins(Order, map[], 2);
    InvertFromLastWins(Order, map[], 3);
    InvertFromLastWins(Order, map[], 4);
  }

  /** read and list share GET, so the verb table cannot be inverted without losing one of them. */
  lemma VerbTableNotInjective()
    ensures Read != List && Verb(Read) == Verb(List)
    ensures forall op :: Verb(op) == "GET" <==> op == Read || op == List
  {
  }
}
