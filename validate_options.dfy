/**
 * lib/validate-request/validate-validate-options.js: the structural check of
 * a validations option (`routeParamValidations` or `bodyAndQueryValidations`)
 * made when the middleware is built. Each of the five operation keys may hold
 * an array of `{schema, options}` entries.
 *
 * Three of its messages are not what the code evidently means to say, so the
 * messages are parameterised by a `Wording`: `AsWritten` reproduces the code,
 * `Intended` is what the rest of the model uses. Acceptance does not depend on
 * the wording.
 */
module ValidateOptions {
  import opened JsValue
  import opened Errors
  import opened HttpMethods

  datatype Verdict = Accepted | Rejected(error: Error)

  datatype Wording = AsWritten | Intended

  /** lib/validate-request/validate-validate-options.js:25-28 */
  function TopMessage(w: Wording, container: string): string {
    match w
    case AsWritten => "opts.routeParamValidations must be an Object"
    case Intended => "opts." + container + " must be an Object"
  }

  /** The `opts.<container>.<type>[<idx>]` prefix that `format` builds. */
  function EntryPath(container: string, key: string, idx: nat): string {
    "opts." + container + "." + key + "[" + NatToString(idx) + "]"
  }

  /** lib/validate-request/validate-validate-options.js:62-66: `format` is given no arguments. */
  function JoiMessage(w: Wording, container: string, key: string, idx: nat): string {
    match w
    case AsWritten => "opts.%s.%s[%d].schema must be a Joi schema"
    case Intended => EntryPath(container, key, idx) + ".schema must be a Joi schema"
  }

  /** lib/validate-request/validate-validate-options.js:68-72: no arguments, and it names `schema`. */
  function OptionsMessage(w: Wording, container: string, key: string, idx: nat): string {
    match w
    case AsWritten => "opts.%s.%s[%d].schema must be an Object"
    case Intended => EntryPath(container, key, idx) + ".options must be an Object"
  }

  /** One entry's assertions (lib/validate-request/validate-validate-options.js:51-73). */
  function CheckEntry(w: Wording, entry: Value, container: string, key: string, idx: nat): Verdict {
    if !IsObjectLike(entry) then
      Rejected(AssertionError(EntryPath(container, key, idx) + " must be an Object"))
    else if !IsObjectLike(Get(entry, "schema")) then
      Rejected(AssertionError(EntryPath(container, key, idx) + ".schema must be an Object"))
    else if !LooseEqualsTrue(Get(Get(entry, "schema"), "isJoi")) then
      Rejected(AssertionError(JoiMessage(w, container, key, idx)))
    else if Truthy(Get(entry, "options")) && !IsObject(Get(entry, "options")) then
      Rejected(AssertionError(OptionsMessage(w, container, key, idx)))
    else Accepted
  }

  /** The entries from index `i` on, in order, stopping at the first failure. */
  function CheckEntriesFrom(w: Wording, items: seq<Value>, container: string, key: string, i: nat): Verdict
    requires i <= |items|
    decreases |items| - i
  {
    if i == |items| then Accepted
    else if CheckEntry(w, items[i], container, key, i).Rejected? then CheckEntry(w, items[i], container, key, i)
    else CheckEntriesFrom(w, items, container, key, i + 1)
  }

  /** `validateValidationOption(options, container, type)` */
  function CheckOption(w: Wording, validations: Value, container: string, op: Op): Verdict {
    var entry := Get(validations, Name(op));
    if !entry.Arr? then Rejected(AssertionError("opts." + container + "." + Name(op) + " must be an Array"))
    else CheckEntriesFrom(w, entry.items, container, Name(op), 0)
  }

  /** The `_.each` over the operation keys: a falsy key is skipped. */
  function CheckKeys(w: Wording, validations: Value, container: string, ops: seq<Op>): Verdict
    decreases ops
  {
    if ops == [] then Accepted
    else if Truthy(Get(validations, Name(ops[0]))) && CheckOption(w, validations, container, ops[0]).Rejected? then
      CheckOption(w, validations, container, ops[0])
    else CheckKeys(w, validations, container, ops[1..])
  }

  /** The exported checker: `Accepted`, or the first assertion that fails. */
  function CheckValidations(w: Wording, validations: Value, container: string): Verdict {
    if !IsObjectLike(validations) then Rejected(AssertionError(TopMessage(w, container)))
    else CheckKeys(w, validations, container, Order)
  }

  /** An entry of the documented shape: an object whose schema is a Joi schema, with object options if any. */
  predicate WellFormedEntry(entry: Value) {
    IsObjectLike(entry)
    && IsObjectLike(Get(entry, "schema"))
    && LooseEqualsTrue(Get(Get(entry, "schema"), "isJoi"))
    && (Truthy(Get(entry, "options")) ==> IsObject(Get(entry, "options")))
  }

  /** The rules stored under one operation key: absent (falsy) or an array of well-formed entries. */
  predicate WellFormedRules(rules: Value) {
    Truthy(rules) ==> rules.Arr? && forall i :: 0 <= i < |rules.items| ==> WellFormedEntry(rules.items[i])
  }

  /** A validations option of the documented shape; other keys are not looked at. */
  predicate WellFormed(validations: Value) {
    IsObjectLike(validations) && forall op :: WellFormedRules(Get(validations, Name(op)))
  }

  lemma CheckEntryAccepts(w: Wording, entry: Value, container: string, key: string, idx: nat)
    ensures CheckEntry(w, entry, container, key, idx) == Accepted <==> WellFormedEntry(entry)
  {
  }

  lemma {:induction false} CheckEntriesFromAccepts(w: Wording, items: seq<Value>, container: string, key: string, i: nat)
    requires i <= |items|
    ensures CheckEntriesFrom(w, items, container, key, i) == Accepted
        <==> forall j :: i <= j < |items| ==> WellFormedEntry(items[j])
    decreases |items| - i
  {
    if i < |items| {
      CheckEntryAccepts(w, items[i], container, key, i);
      CheckEntriesFromAccepts(w, items, container, key, i + 1);
    }
  }

  lemma {:induction false} CheckKeysAccepts(w: Wording, validations: Value, container: string, ops: seq<Op>)
    ensures CheckKeys(w, validations, container, ops) == Accepted
        <==> forall op :: op in ops ==> WellFormedRules(Get(validations, Name(op)))
    decreases ops
  {
    if ops != [] {
      var rules := Get(validations, Name(ops[0]));
      if rules.Arr? {
        CheckEntriesFromAccepts(w, rules.items, container, Name(ops[0]), 0);
      }
      CheckKeysAccepts(w, validations, container, ops[1..]);
      assert forall op :: op in ops <==> op == ops[0] || op in ops[1..];
    }
  }

  /**
   * The check accepts exactly the well-formed options: every truthy
   * operation key holds an array of entries of the documented shape.
   */
  lemma CheckAcceptsExactlyWellFormed(w: Wording, validations: Value, container: string)
    ensures CheckValidations(w, validations, container) == Accepted <==> WellFormed(validations)
  {
    if IsObjectLike(validations) {
      CheckKeysAccepts(w, validations, container, Order);
      forall op ensures op in Order {
        OrderListsEachOperationOnce(op);
      }
    }
  }

  /** The wording changes messages only, never whether an option is accepted. */
  lemma WordingDoesNotChangeAcceptance(validations: Value, container: string)
    ensures CheckValidations(AsWritten, validations, container).Accepted?
        <==> CheckValidations(Intended, validations, container).Accepted?
  {
    CheckAcceptsExactlyWellFormed(AsWritten, validations, container);
    CheckAcceptsExactlyWellFormed(Intended, validations, container);
  }

  /** A string starts with a prefix. */
  predicate StartsWith(s: string, prefix: string) {
    |prefix| <= |s| && s[..|prefix|] == prefix
  }

  lemma {:induction false} EntriesRejectionNamesContainer(items: seq<Value>, container: string, key: string, i: nat)
    requires i <= |items|
    requires CheckEntriesFrom(Intended, items, container, key, i).Rejected?
    ensures CheckEntriesFrom(Intended, items, container, key, i).error.AssertionError?
    ensures StartsWith(CheckEntriesFrom(Intended, items, container, key, i).error.message, "opts." + container + ".")
    decreases |items| - i
  {
    if CheckEntry(Intended, items[i], container, key, i).Accepted? {
      EntriesRejectionNamesContainer(items, container, key, i + 1);
    } else {
      var p := "opts." + container + ".";
      assert EntryPath(container, key, i) == p + (key + "[" + NatToString(i) + "]");
    }
  }

  lemma {:induction false} KeysRejectionNamesContainer(validations: Value, container: string, ops: seq<Op>)
    requires CheckKeys(Intended, validations, container, ops).Rejected?
    ensures CheckKeys(Intended, validations, container, ops).error.AssertionError?
    ensures StartsWith(CheckKeys(Intended, validations, container, ops).error.message, "opts." + container + ".")
    decreases ops
  {
    var rules := Get(validations, Name(ops[0]));
    if Truthy(rules) && CheckOption(Intended, validations, container, ops[0]).Rejected? {
      if rules.Arr? {
        EntriesRejectionNamesContainer(rules.items, container, Name(ops[0]), 0);
      } else {
        assert "opts." + container + "." + Name(ops[0]) + " must be an Array"
            == ("opts." + container + ".") + (Name(ops[0]) + " must be an Array");
      }
    } else {
      KeysRejectionNamesContainer(validations, container, ops[1..]);
    }
  }

  /** With the intended wording every rejection names the container it was raised for. */
  lemma IntendedMessagesNameContainer(validations: Value, container: string)
    requires CheckValidations(Intended, validations, container).Rejected?
    ensures CheckValidations(Intended, validations, container).error.AssertionError?
    ensures StartsWith(CheckValidations(Intended, validations, container).error.message, "opts." + container)
  {
    if IsObjectLike(validations) {
      KeysRejectionNamesContainer(validations, container, Order);
    }
  }

  /** As written, a bad `bodyAndQueryValidations` is reported as `routeParamValidations`. */
  lemma AsWrittenTopMessageNamesWrongContainer()
    ensures CheckValidations(AsWritten, Num(1), "bodyAndQueryValidations")
         == Rejected(AssertionError("opts.routeParamValidations must be an Object"))
    ensures !StartsWith("opts.routeParamValidations must be an Object", "opts.bodyAndQueryValidations")
  {
    assert "opts.routeParamValidations must be an Object"[5] == 'r';
  }

  /** As written, a non-Joi schema is reported with the placeholders left unfilled. */
  lemma AsWrittenJoiMessageUnformatted()
    ensures CheckValidations(AsWritten, Obj(map["create" := Arr([Obj(map["schema" := Obj(map[])])])]), "routeParamValidations")
         == Rejected(AssertionError("opts.%s.%s[%d].schema must be a Joi schema"))
  {
    var v := Obj(map["create" := Arr([Obj(map["schema" := Obj(map[])])])]);
    assert CheckKeys(AsWritten, v, "routeParamValidations", Order) == CheckOption(AsWritten, v, "routeParamValidations", Create);
  }

  /** As written, bad `options` next to a valid schema is blamed on the schema. */
  lemma AsWrittenOptionsMessageBlamesSchema()
    ensures CheckValidations(AsWritten,
              Obj(map["create" := Arr([Obj(map["schema" := Obj(map["isJoi" := Bool(true)]), "options" := Arr([])])])]),
              "routeParamValidations")
         == Rejected(AssertionError("opts.%s.%s[%d].schema must be an Object"))
  {
    var entry := Obj(map["schema" := Obj(map["isJoi" := Bool(true)]), "options" := Arr([])]);
    var v := Obj(map["create" := Arr([entry])]);
    assert CheckKeys(AsWritten, v, "routeParamValidations", Order) == CheckOption(AsWritten, v, "routeParamValidations", Create);
  }

  /**
   * lib/validate-request/index.test.js:93-162: a non-object option, a
   * non-array key and a non-object entry, each rejected with its message.
   */
  lemma CheckRejectsExamples(container: string)
    ensures CheckValidations(Intended, Str("nope"), container)
         == Rejected(AssertionError("opts." + container + " must be an Object"))
    ensures CheckValidations(Intended, Obj(map["create" := Obj(map[])]), container)
         == Rejected(AssertionError("opts." + container + ".create must be an Array"))
    ensures CheckValidations(Intended, Obj(map["read" := Arr([Str("x")])]), container)
         == Rejected(AssertionError("opts." + container + ".read[0] must be an Object"))
  {
    var v1 := Obj(map["create" := Obj(map[])]);
    assert Name(Create) == "create" && Truthy(Get(v1, "create"));
    assert "opts." + container + "." + "create" + " must be an Array" == "opts." + container + ".create must be an Array";
    assert CheckKeys(Intended, v1, container, Order) == CheckOption(Intended, v1, container, Create);
    var v2 := Obj(map["read" := Arr([Str("x")])]);
    assert Name(Read) == "read" && !Truthy(Get(v2, Name(Create))) && Truthy(Get(v2, "read"));
    assert NatToString(0) == "0";
    assert EntryPath(container, "read", 0) + " must be an Object" == "opts." + container + ".read[0] must be an Object";
    assert CheckEntriesFrom(Intended, [Str("x")], container, "read", 0) == CheckEntry(Intended, Str("x"), container, "read", 0);
    assert CheckKeys(Intended, v2, container, Order[1..]) == CheckOption(Intended, v2, container, Read);
  }


  /** lib/validate-request/index.test.js:170-183: an entry with no `schema` is rejected. */
  lemma CheckRejectsMissingSchema(container: string)
    ensures CheckValidations(Intended, Obj(map["list" := Arr([Obj(map["options" := Obj(map[])])])]), container).Rejected?
  {
    var v := Obj(map["list" := Arr([Obj(map["options" := Obj(map[])])])]);
    CheckAcceptsExactlyWellFormed(Intended, v, container);
    assert !WellFormedEntry(Get(v, Name(List)).items[0]);
  }

  /** An empty rule list and a null key pass; keys other than the five are ignored. */
  lemma CheckAcceptsExamples(container: string)
    ensures CheckValidations(Intended, Obj(map["update" := Arr([])]), container) == Accepted
    ensures CheckValidations(Intended, Obj(map["create" := Null, "other" := Num(3)]), container) == Accepted
  {
    CheckAcceptsExactlyWellFormed(Intended, Obj(map["update" := Arr([])]), container);
    CheckAcceptsExactlyWellFormed(Intended, Obj(map["create" := Null, "other" := Num(3)]), container);
  }
}
