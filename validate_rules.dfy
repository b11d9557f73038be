/**
 * lib/validate-request/validate.js: `doValidate(validations, type, data,
 * next)`. The rules for the request type run one at a time on the same data,
 * stopping at the first error; on success their outputs are merged with
 * `_.assign`, later outputs overwriting earlier ones.
 */
module ValidateRules {
  import opened JsValue
  import opened Errors
  import opened HttpMethods

  /** `Joi.validate(data, schema, options, callback)` as a function of its three inputs. */
  type Validator = (Value, Value, Value) -> Result<Value, Error>

  /** A stand-in Joi schema, told apart by its `name`, for the examples. */
  function Schema(name: string): Value {
    Obj(map["isJoi" := Bool(true), "name" := Str(name)])
  }

  /** One rule entry `{schema, options}` applied to `data`. */
  function ApplyRule(validate: Validator, rule: Value, data: Value): Result<Value, Error> {
    validate(data, Get(rule, "schema"), Get(rule, "options"))
  }

  /** `async.mapSeries` over the rules: the outputs in order, or the first error. */
  function RunRules(validate: Validator, rules: seq<Value>, data: Value): Result<seq<Value>, Error>
    decreases rules
  {
    if rules == [] then Ok([])
    else match ApplyRule(validate, rules[0], data)
      case Err(e) => Err(e)
      case Ok(out) =>
        match RunRules(validate, rules[1..], data)
        case Err(e) => Err(e)
        case Ok(outs) => Ok([out] + outs)
  }

  /** The own enumerable properties `_.assign` copies from one output; non-objects are not modelled as contributing. */
  function FieldsOf(v: Value): map<string, Value> {
    if v.Obj? then v.fields else map[]
  }

  /** `_.assign.apply(_, outputs)`: a left-to-right merge, so later outputs win. */
  function Merge(outs: seq<Value>): map<string, Value>
    decreases |outs|
  {
    if outs == [] then map[] else Merge(outs[..|outs| - 1]) + FieldsOf(outs[|outs| - 1])
  }

  /**
   * `doValidate(validations, type, data, next)`: the value passed to `next`,
   * or its error. The rules under the type's key are an array or falsy, as the
   * configuration check at construction guarantees.
   */
  function DoValidate(validate: Validator, validations: Value, op: Op, data: Value): Result<Value, Error>
    requires var rules := Get(validations, Name(op)); Truthy(rules) ==> rules.Arr?
  {
    var rules := Get(validations, Name(op));
    if !Truthy(rules) then Ok(data)
    else match RunRules(validate, rules.items, data)
      case Err(e) => Err(e)
      case Ok(outs) => Ok(Obj(Merge(outs)))
  }

  /**
   * The runner succeeds exactly when every rule accepts the same original
   * data, and then the outputs are the rules' outputs in order.
   */
  lemma {:induction false} RunRulesSucceeds(validate: Validator, rules: seq<Value>, data: Value)
    ensures RunRules(validate, rules, data).Ok? <==> forall i :: 0 <= i < |rules| ==> ApplyRule(validate, rules[i], data).Ok?
    ensures RunRules(validate, rules, data).Ok? ==>
              |RunRules(validate, rules, data).value| == |rules|
              && forall i :: 0 <= i < |rules| ==> RunRules(validate, rules, data).value[i] == ApplyRule(validate, rules[i], data).value
    decreases rules
  {
    if rules != [] {
      RunRulesSucceeds(validate, rules[1..], data);
      assert forall i :: 1 <= i < |rules| ==> rules[1..][i - 1] == rules[i];
      if RunRules(validate, rules, data).Ok? {
        var outs := RunRules(validate, rules, data).value;
        assert outs == [ApplyRule(validate, rules[0], data).value] + RunRules(validate, rules[1..], data).value;
      }
    }
  }

  /** The error returned is that of the first failing rule; every rule before it accepted. */
  lemma {:induction false} FirstErrorWins(validate: Validator, rules: seq<Value>, data: Value)
    requires RunRules(validate, rules, data).Err?
    ensures exists i :: 0 <= i < |rules|
              && ApplyRule(validate, rules[i], data) == Err(RunRules(validate, rules, data).error)
              && forall j :: 0 <= j < i ==> ApplyRule(validate, rules[j], data).Ok?
    decreases rules
  {
    var e := RunRules(validate, rules, data).error;
    if ApplyRule(validate, rules[0], data).Err? {
      assert ApplyRule(validate, rules[0], data) == Err(e);
    } else {
      FirstErrorWins(validate, rules[1..], data);
      var i :| 0 <= i < |rules[1..]|
              && ApplyRule(validate, rules[1..][i], data) == Err(e)
              && forall j :: 0 <= j < i ==> ApplyRule(validate, rules[1..][j], data).Ok?;
      assert rules[i + 1] == rules[1..][i];
      forall j | 0 <= j < i + 1 ensures ApplyRule(validate, rules[j], data).Ok? {
        if j > 0 { assert rules[j] == rules[1..][j - 1]; }
      }
    }
  }

  /** Once a prefix of the rules fails, the rules after it make no difference: they never run. */
  lemma {:induction false} LaterRulesDoNotRun(validate: Validator, pre: seq<Value>, post: seq<Value>, data: Value)
    requires RunRules(validate, pre, data).Err?
    ensures RunRules(validate, pre + post, data) == RunRules(validate, pre, data)
    decreases pre
  {
    assert (pre + post)[0] == pre[0];
    if ApplyRule(validate, pre[0], data).Ok? {
      assert (pre + post)[1..] == pre[1..] + post;
      LaterRulesDoNotRun(validate, pre[1..], post, data);
    }
  }

  /** The merged keys are the union of the outputs' keys. */
  lemma {:induction false} MergeKeys(outs: seq<Value>)
    ensures Merge(outs).Keys == set i, k | 0 <= i < |outs| && k in FieldsOf(outs[i]) :: k
    decreases |outs|
  {
    if outs != [] {
      var init := outs[..|outs| - 1];
      MergeKeys(init);
      var lhs := Merge(outs).Keys;
      var rhs := set i, k | 0 <= i < |outs| && k in FieldsOf(outs[i]) :: k;
      forall k | k in rhs ensures k in lhs {
        var i :| 0 <= i < |outs| && k in FieldsOf(outs[i]);
        if i < |outs| - 1 { assert init[i] == outs[i]; }
      }
      forall k | k in lhs ensures k in rhs {
        if k !in FieldsOf(outs[|outs| - 1]) {
          var i :| 0 <= i < |init| && k in FieldsOf(init[i]);
          assert outs[i] == init[i];
        }
      }
    }
  }

  /** A merged key holds the value of the last output that has it. */
  lemma {:induction false} MergeLastWins(outs: seq<Value>, i: nat, k: string)
    requires i < |outs| && k in FieldsOf(outs[i])
    requires forall j :: i < j < |outs| ==> k !in FieldsOf(outs[j])
    ensures k in Merge(outs) && Merge(outs)[k] == FieldsOf(outs[i])[k]
    decreases |outs|
  {
    var init := outs[..|outs| - 1];
    if i < |outs| - 1 {
      forall j | i < j < |init| ensures k !in FieldsOf(init[j]) {
        assert init[j] == outs[j];
      }
      assert init[i] == outs[i];
      MergeLastWins(init, i, k);
    }
  }

  /** With no rules for the type the data goes through unchanged. */
  lemma NoRulesPassesDataThrough(validate: Validator, validations: Value, op: Op, data: Value)
    requires !Truthy(Get(validations, Name(op)))
    ensures DoValidate(validate, validations, op, data) == Ok(data)
  {
  }

  /** An empty rule array is truthy: no rule runs and the data is replaced by `{}`. */
  lemma EmptyRuleListGivesEmptyObject(validate: Validator, validations: Value, op: Op, data: Value)
    requires Get(validations, Name(op)) == Arr([])
    ensures DoValidate(validate, validations, op, data) == Ok(Obj(map[]))
  {
  }

  /**
   * Validation succeeds exactly when every rule accepts the data, and then
   * yields each key of the outputs with the value of the last output holding it.
   */
  lemma DoValidateSucceeds(validate: Validator, validations: Value, op: Op, data: Value)
    requires Get(validations, Name(op)).Arr?
    ensures var rules := Get(validations, Name(op)).items;
            DoValidate(validate, validations, op, data).Ok?
            <==> forall i :: 0 <= i < |rules| ==> ApplyRule(validate, rules[i], data).Ok?
    ensures var rules := Get(validations, Name(op)).items;
            var r := DoValidate(validate, validations, op, data);
            r.Ok? ==> r.value == Obj(Merge(RunRules(validate, rules, data).value))
                      && |RunRules(validate, rules, data).value| == |rules|
  {
    RunRulesSucceeds(validate, Get(validations, Name(op)).items, data);
  }

  /** lib/validate-request/validate.js:41-44 and 32-38 on two rules whose outputs share a key. */
  lemma DoValidateExample(validate: Validator, data: Value)
    requires validate(data, Str("s1"), Undefined) == Ok(Obj(map["a" := Num(1), "b" := Num(1)]))
    requires validate(data, Str("s2"), Undefined) == Ok(Obj(map["b" := Num(2)]))
    ensures DoValidate(validate, Obj(map["create" := Arr([Obj(map["schema" := Str("s1")]), Obj(map["schema" := Str("s2")])])]), Create, data)
         == Ok(Obj(map["a" := Num(1), "b" := Num(2)]))
  {
    var rules := [Obj(map["schema" := Str("s1")]), Obj(map["schema" := Str("s2")])];
    var validations := Obj(map["create" := Arr(rules)]);
    var o1 := Obj(map["a" := Num(1), "b" := Num(1)]);
    var o2 := Obj(map["b" := Num(2)]);
    assert "options" != "schema";
    assert ApplyRule(validate, rules[0], data) == Ok(o1);
    assert ApplyRule(validate, rules[1], data) == Ok(o2);
    assert rules[1..][1..] == [];
    assert RunRules(validate, rules[1..][1..], data) == Ok([]);
    assert [o2] + [] == [o2];
    assert RunRules(validate, rules[1..], data) == Ok([o2]);
    var outs := [o1] + [o2];
    assert RunRules(validate, rules, data) == Ok(outs);
    assert outs[..1] == [o1] && outs[1] == o2;
    assert [o1][..0] == [];
    assert Merge([o1]) == map[] + o1.fields;
    assert Merge(outs) == o1.fields + o2.fields;
    assert o1.fields + o2.fields == map["a" := Num(1), "b" := Num(2)];
    assert Get(validations, Name(Create)) == Arr(rules);
  }
}
