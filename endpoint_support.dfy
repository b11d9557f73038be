/**
 * lib/endpoint-support.js: the `Allow` header listing what an adapter
 * supports, and the middleware answering 405 for an operation the adapter
 * does not own.
 */
module EndpointSupport {
  import opened JsValue
  import opened Errors
  import opened HttpMethods
  import opened Adapters
  import opened Http

  /**
   * The `_.reduce` over the operation keys: an owned operation adds its verb,
   * bare when nothing is accumulated yet, after ", " otherwise.
   */
  function AllowFold(keys: seq<Op>, a: Adapter, sum: string): string
    decreases keys
  {
    if keys == [] then sum
    else if Owns(a, keys[0]) then
      AllowFold(keys[1..], a, if sum != "" then sum + ", " + Verb(keys[0]) else Verb(keys[0]))
    else AllowFold(keys[1..], a, sum)
  }

  /** `generateAllowHeader(adapter)` */
  function GenerateAllowHeader(a: Adapter): string {
    AllowFold(Order, a, "")
  }

  /** The operations among `keys` that `a` owns, in order. */
  function Owned(keys: seq<Op>, a: Adapter): seq<Op>
    decreases keys
  {
    if keys == [] then []
    else if Owns(a, keys[0]) then [keys[0]] + Owned(keys[1..], a)
    else Owned(keys[1..], a)
  }

  function Verbs(ops: seq<Op>): seq<string>
    decreases ops
  {
    if ops == [] then [] else [Verb(ops[0])] + Verbs(ops[1..])
  }

  /** Strings joined with ", " between neighbours: the reference the fold is measured against. */
  function Join(parts: seq<string>): string
    decreases parts
  {
    if parts == [] then ""
    else if |parts| == 1 then parts[0]
    else parts[0] + ", " + Join(parts[1..])
  }

  /** `sum` followed by the parts, with a separator only between non-empty neighbours. */
  function JoinAfter(sum: string, parts: seq<string>): string {
    if parts == [] then sum
    else if sum == "" then Join(parts)
    else sum + ", " + Join(parts)
  }

  lemma VerbNonEmpty(op: Op)
    ensures Verb(op) != ""
  {
  }

  /** The fold from any accumulator is the accumulator followed by the owned verbs, joined. */
  lemma {:induction false} AllowFoldIsJoin(keys: seq<Op>, a: Adapter, sum: string)
    ensures AllowFold(keys, a, sum) == JoinAfter(sum, Verbs(Owned(keys, a)))
    decreases keys
  {
    if keys != [] {
      var k := keys[0];
      if Owns(a, k) {
        var sum' := if sum != "" then sum + ", " + Verb(k) else Verb(k);
        AllowFoldIsJoin(keys[1..], a, sum');
        var rest := Verbs(Owned(keys[1..], a));
        assert Verbs(Owned(keys, a)) == [Verb(k)] + rest;
        VerbNonEmpty(k);
        if rest != [] && sum != "" {
          assert sum' + ", " + Join(rest) == sum + ", " + (Verb(k) + ", " + Join(rest));
        }
      } else {
        AllowFoldIsJoin(keys[1..], a, sum);
      }
    }
  }

  /**
   * The Allow header lists the verbs of exactly the owned operations, in the
   * order create, read, update, delete, list, joined by ", ".
   */
  lemma AllowHeaderJoinsOwnedVerbs(a: Adapter)
    ensures GenerateAllowHeader(a) == Join(Verbs(Owned(Order, a)))
  {
    AllowFoldIsJoin(Order, a, "");
  }

  /** `Owned` keeps exactly the owned operations, in their original order. */
  lemma {:induction false} OwnedIsFilter(keys: seq<Op>, a: Adapter)
    ensures forall op :: op in Owned(keys, a) <==> op in keys && Owns(a, op)
    ensures |Owned(keys, a)| <= |keys|
    decreases keys
  {
    if keys != [] {
      OwnedIsFilter(keys[1..], a);
      assert forall op :: op in keys <==> op == keys[0] || op in keys[1..];
    }
  }

  /** Which verbs appear depends only on what the adapter owns. */
  lemma {:induction false} VerbsInOwned(keys: seq<Op>, a: Adapter, v: string)
    ensures v in Verbs(Owned(keys, a)) <==> exists op :: op in keys && Owns(a, op) && Verb(op) == v
    decreases keys
  {
    if keys != [] {
      VerbsInOwned(keys[1..], a, v);
      assert forall op :: op in keys <==> op == keys[0] || op in keys[1..];
      if Owns(a, keys[0]) {
        assert Verbs(Owned(keys, a)) == [Verb(keys[0])] + Verbs(Owned(keys[1..], a));
      }
    }
  }

  /** An adapter that owns no operation gets an empty header. */
  lemma NothingOwnedGivesEmptyHeader(a: Adapter)
    requires forall op :: !Owns(a, op)
    ensures GenerateAllowHeader(a) == ""
  {
    AllowHeaderJoinsOwnedVerbs(a);
    assert Owned(Order, a) == [];
  }

  /** Owning only read and list gives GET twice: verbs are not de-duplicated. */
  lemma ReadAndListGiveGetTwice(a: Adapter)
    requires forall op :: Owns(a, op) <==> op == Read || op == List
    ensures GenerateAllowHeader(a) == "GET, GET"
  {
    AllowHeaderJoinsOwnedVerbs(a);
    assert Owned(Order, a) == [Read, List];
  }

  /** Owning everything lists all five verbs in the fixed key order. */
  lemma EverythingOwnedHeader(a: Adapter)
    requires forall op :: Owns(a, op)
    ensures GenerateAllowHeader(a) == "POST, GET, PUT, DELETE, GET"
  {
    AllowHeaderJoinsOwnedVerbs(a);
    assert Owned(Order, a) == Order;
  }

  /** Owning an operation is judged by own properties only: an inherited function does not count. */
  lemma InheritedDoesNotCount(a: Adapter)
    requires forall op :: a.slots(op).Inherited?
    ensures GenerateAllowHeader(a) == ""
  {
    NothingOwnedGivesEmptyHeader(a);
  }

  /** A string starting and ending with an upper-case letter. */
  predicate UpperAtEnds(s: string) {
    |s| > 0 && 'A' <= s[0] <= 'Z' && 'A' <= s[|s| - 1] <= 'Z'
  }

  /** Joining parts that start and end with a letter never leaves a separator at either end. */
  lemma {:induction false} JoinEnds(parts: seq<string>)
    requires parts != []
    requires forall i :: 0 <= i < |parts| ==> UpperAtEnds(parts[i])
    ensures UpperAtEnds(Join(parts))
    decreases parts
  {
    if |parts| > 1 {
      JoinEnds(parts[1..]);
      var j := parts[0] + ", " + Join(parts[1..]);
      assert j[0] == parts[0][0];
      assert j[|j| - 1] == Join(parts[1..])[|Join(parts[1..])| - 1];
    }
  }

  lemma {:induction false} VerbsUpperAtEnds(ops: seq<Op>)
    ensures |Verbs(ops)| == |ops|
    ensures forall i :: 0 <= i < |Verbs(ops)| ==> UpperAtEnds(Verbs(ops)[i])
    decreases ops
  {
    if ops != [] {
      VerbsUpperAtEnds(ops[1..]);
    }
  }

  /** The header is empty or begins and ends with a verb, never with ", ". */
  lemma NoStraySeparator(a: Adapter)
    ensures GenerateAllowHeader(a) == "" || UpperAtEnds(GenerateAllowHeader(a))
  {
    AllowHeaderJoinsOwnedVerbs(a);
    VerbsUpperAtEnds(Owned(Order, a));
    if Owned(Order, a) != [] {
      JoinEnds(Verbs(Owned(Order, a)));
    }
  }

  /** The 405 body's text. */
  function NotSupportedMessage(httpMethod: string, originalUrl: string): string {
    "action not supported: " + httpMethod + " " + originalUrl
  }

  /**
   * `_isSupported(req, res, next)` for the router's `opts.adapter`; the router
   * guarantees that is an object or null, and null makes `hasOwnProperty` throw.
   */
  method IsSupported(adapter: AdapterRef, fnType: Op, req: Request, res: Response) returns (next: NextCall)
    requires adapter.Ref? || adapter.NullRef?
    modifies res
    ensures adapter.NullRef? ==>
      next == CalledWith(TypeError("Cannot read properties of null (reading 'hasOwnProperty')"))
      && unchanged(res)
    ensures adapter.Ref? && Owns(adapter.adapter, fnType) ==> next == Called && unchanged(res)
    ensures adapter.Ref? && !Owns(adapter.adapter, fnType) ==>
      next == NotCalled
      && res.headers == old(res.headers)["Allow" := GenerateAllowHeader(adapter.adapter)]
      && res.statusCode == 405
      && res.body == Some(MsgBody(NotSupportedMessage(req.httpMethod, req.originalUrl)))
  {
    if adapter.NullRef? {
      next := CalledWith(TypeError("Cannot read properties of null (reading 'hasOwnProperty')"));
    } else if !Owns(adapter.adapter, fnType) {
      res.Set("Allow", GenerateAllowHeader(adapter.adapter));
      res.Status(405);
      res.Json(MsgBody(NotSupportedMessage(req.httpMethod, req.originalUrl)));
      next := NotCalled;
    } else {
      next := Called;
    }
  }
}
