/** Document.update_one and its wrappers: an atomic update is sent for this
    document alone and, when the server reports that it matched one
    document, the in-memory fields the update names are changed to match. */
module DocumentUpdate {
  import opened Values
  import opened Schema
  import opened KeyPath
  import opened QueryValues

  /** The `ops` dict of line 229: the in-memory value each field gets, in
      insertion order. */
  type Ops = seq<(string, Value)>

  /** self[field]: the value of a declared field, KeyError otherwise. */
  function Get(values: map<string, Value>, field: string): (r: Result<Value>)
    ensures r.Success? <==> field in values
    ensures r.Success? ==> r.value == values[field]
  {
    if field in values then Success(values[field]) else Failure(KeyError(field))
  }

  /** The object the value `newVal` of `field` in an operand read in
      `opCtx` is by the time the write-back of line 276 stores it. `ops`
      holds the caller's own objects, and the transform of line 262 runs in
      between: an operand it walks leaves each of its values as Settled
      says; an operand bound for a DictField is not walked, and only its
      own slots are replaced, so its values stay as they were. */
  function AfterTransform(reg: map<string, DocSchema>, opCtx: Context, field: string, newVal: Value): (r: Value)
    ensures !newVal.VDict? ==> r == newVal
    ensures IsDictField(opCtx) ==> r == newVal
  {
    if IsDictField(opCtx) then newVal else Settled(reg, newVal, ChildContext(reg, field, opCtx))
  }

  /** The values $addToSet adds (lines 252-255): `new_val['$each']` when
      `'$each' in new_val`, otherwise `new_val` alone, as `after` is when
      it is stored. */
  function ValuesToAdd(newVal: Value, after: Value): (r: Result<seq<Value>>)
  {
    var each :- Contains(VStr("$each"), newVal);
    if each then
      var vals :- Subscript(newVal, "$each");
      Iterate(vals)
    else Success([after])
  }

  /** One pass of the loop of lines 258-260 with value v: it asks whether
      `new_val` (not v) is in the field and, if not, sets the field to its
      current value plus v. No other field is touched. */
  function AddStep(values: map<string, Value>, field: string, newVal: Value, v: Value, ops: Ops): (r: Result<Ops>)
  {
    var cur :- Get(values, field);
    var present :- Contains(newVal, cur);
    if present then Success(ops)
    else
      var copy :- Copy(cur);
      var appended :- Add(copy, VList([v]));
      Success(SonSet(ops, field, appended))
  }

  /** The loop of lines 258-260 from pass i on. */
  function AddEach(values: map<string, Value>, field: string, newVal: Value, vals: seq<Value>, i: nat, ops: Ops): (r: Result<Ops>)
    requires i <= |vals|
    ensures r.Failure? ==> r.error == KeyError(field) || r.error == TypeError
    decreases |vals| - i
  {
    if i == |vals| then Success(ops)
    else
      var next :- AddStep(values, field, newVal, vals[i], ops);
      AddEach(values, field, newVal, vals, i + 1, next)
  }

  /** The value $set, $unset, $inc, $push and $pushAll give a field
      (lines 240-249), None for every operator that leaves memory alone.
      `after` is `new_val` as it is when stored. */
  function NewFieldValue(values: map<string, Value>, operator: string, field: string, newVal: Value, after: Value): (r: Result<Option<Value>>)
  {
    if operator == "$set" then Success(Some(after))
    else if operator == "$unset" then Success(Some(VNone))
    else if operator == "$inc" then
      var cur :- Get(values, field);
      var sum :- Add(cur, newVal);
      Success(Some(sum))
    else if operator == "$push" then
      var cur :- Get(values, field);
      var copy :- Copy(cur);
      var pushed :- Add(copy, VList([after]));
      Success(Some(pushed))
    else if operator == "$pushAll" then
      var cur :- Get(values, field);
      var copy :- Copy(cur);
      var pushed :- Add(copy, newVal);
      Success(Some(pushed))
    else Success(None)
  }

  /** The in-memory effect of one operator on one field (lines 240-259):
      no other field is touched. */
  function PlanField(values: map<string, Value>, operator: string, field: string, newVal: Value, after: Value, ops: Ops): (r: Result<Ops>)
  {
    if operator == "$addToSet" then
      var vals :- ValuesToAdd(newVal, after);
      AddEach(values, field, newVal, vals, 0, ops)
    else
      var v :- NewFieldValue(values, operator, field, newVal, after);
      if v.Some? then Success(SonSet(ops, field, v.value)) else Success(ops)
  }

  /** The loop of lines 235-259 over the fields of one operand, read in
      `opCtx`, from entry i on; a dotted field is skipped, and no field the
      operand does not name is touched. */
  function PlanFields(reg: map<string, DocSchema>, opCtx: Context, values: map<string, Value>, operator: string,
                      es: seq<(string, Value)>, i: nat, ops: Ops): (r: Result<Ops>)
    requires i <= |es|
    decreases |es| - i
  {
    if i == |es| then Success(ops)
    else if '.' in es[i].0 then PlanFields(reg, opCtx, values, operator, es, i + 1, ops)
    else
      var next :- PlanField(values, operator, es[i].0, es[i].1, AfterTransform(reg, opCtx, es[i].0, es[i].1), ops);
      PlanFields(reg, opCtx, values, operator, es, i + 1, next)
  }

  /** The loop of lines 231-259 from operator i on, for an instance of
      `doc`. */
  function PlanFrom(reg: map<string, DocSchema>, doc: DocSchema, values: map<string, Value>,
                    update: seq<(string, Value)>, i: nat, ops: Ops): (r: Result<Ops>)
    requires i <= |update|
    ensures r.Success? ==> forall j :: i <= j < |update| ==> update[j].0 != "" && update[j].0[0] == '$'
    decreases |update| - i
  {
    if i == |update| then Success(ops)
    else
      var operator := update[i].0;
      var operand := update[i].1;
      if operator == "" then Failure(IndexError)
      else if operator[0] != '$' then Failure(NotAtomic)
      else
        var dotted :- Contains(VStr("."), operand);
        if dotted then PlanFrom(reg, doc, values, update, i + 1, ops)
        else if !operand.VDict? then Failure(AttributeError)
        else
          var next :- PlanFields(reg, ChildContext(reg, operator, DocCtx(doc)), values, operator, operand.entries, 0, ops);
          PlanFrom(reg, doc, values, update, i + 1, next)
  }

  /** The in-memory changes update_one computes before it sends anything;
      it fails, and nothing is sent, unless every key is an operator. */
  function PlanOps(reg: map<string, DocSchema>, doc: DocSchema, values: map<string, Value>, update: seq<(string, Value)>): (r: Result<Ops>)
    ensures r.Success? ==> forall j :: 0 <= j < |update| ==> update[j].0 != "" && update[j].0[0] == '$'
  {
    PlanFrom(reg, doc, values, update, 0, [])
  }

  /** query_spec.update(spec) from entry i on: the keys of both. */
  function MergeSpec(query: seq<(string, Value)>, spec: seq<(string, Value)>, i: nat): (r: seq<(string, Value)>)
    requires i <= |spec|
    ensures KeySet(r) == KeySet(query) + KeySet(spec[i..])
    decreases |spec| - i
  {
    if i == |spec| then
      assert spec[i..] == [];
      query
    else
      SonSetKeys(query, spec[i].0, spec[i].1);
      assert spec[i..][1..] == spec[i + 1..];
      MergeSpec(SonSet(query, spec[i].0, spec[i].1), spec, i + 1)
  }

  /** The query of lines 263-266 before translation: `{'_id': self.id}`,
      updated with the caller's spec when one is given (an empty spec is
      falsy and changes nothing). It always selects on `_id`: this
      document's id unless the spec overrides it, plus every key of the
      spec. */
  function QuerySpec(id: Value, spec: seq<(string, Value)>): (r: seq<(string, Value)>)
    ensures KeySet(r) == {"_id"} + KeySet(spec)
    ensures !HasKey(spec, "_id") ==> Lookup(r, "_id") == Some(id)
  {
    assert spec[0..] == spec;
    assert KeySet([("_id", id)]) == {"_id"} by {
      assert [("_id", id)][1..] == [];
    }
    if HasKey(spec, "_id") then MergeSpec([("_id", id)], spec, 0)
    else
      MergeSpecKeeps([("_id", id)], spec, 0, "_id");
      MergeSpec([("_id", id)], spec, 0)
  }

  /** `self.id` (line 127), read through the primary key (`_meta['id_field']`). */
  function DocumentId(schema: DocSchema, values: map<string, Value>): (r: Result<Value>)
    ensures IsDocumentClass(schema) && schema.idField.value in values ==> r == Success(values[schema.idField.value])
    ensures schema.idField.None? ==> r == Failure(AttributeError)
  {
    if schema.idField.None? then Failure(AttributeError) else Get(values, schema.idField.value)
  }

  /** What is handed to the collection's update(). */
  datatype UpdateRequest = UpdateRequest(query: Value, document: Value)

  /** Everything update_one computes before the collection call (lines
      229-267): the request and the in-memory changes, or the exception
      raised first. The changes name each field at most once, and only
      undotted fields the update names; both halves of the request are
      translated dicts. */
  function UpdatePlan(env: Env, schema: DocSchema, values: map<string, Value>,
                      update: seq<(string, Value)>, spec: seq<(string, Value)>): (r: Result<(UpdateRequest, Ops)>)
    ensures r.Success? ==> DistinctKeys(r.value.1) && KeySet(r.value.1) <= UpdateFields(update, 0)
    ensures r.Success? ==> r.value.0.query.VDict? && r.value.0.document.VDict?
    ensures r.Success? ==> PlanOps(env.registry, schema, values, update) == Success(r.value.1)
  {
    var ops :- PlanOps(env.registry, schema, values, update);
    PlanOpsKeys(env.registry, schema, values, update);
    var document :- TransformValue(env, VDict(update), DocCtx(schema), None, true);
    var id :- DocumentId(schema, values);
    var query :- TransformValue(env, VDict(QuerySpec(id, spec)), DocCtx(schema), None, true);
    Success((UpdateRequest(query, document), ops))
  }

  /** The write-back of lines 275-276 from entry i on, for fields the class
      declares: each gets its planned value in turn. */
  function ApplyOps(values: map<string, Value>, ops: Ops, i: nat): (r: map<string, Value>)
    requires i <= |ops|
    decreases |ops| - i
  {
    if i == |ops| then values
    else ApplyOps(values[ops[i].0 := ops[i].1], ops, i + 1)
  }

  /** The write-back leaves the fields of `values` plus the planned ones. */
  lemma {:induction false} ApplyOpsKeys(values: map<string, Value>, ops: Ops, i: nat)
    requires i <= |ops|
    ensures ApplyOps(values, ops, i).Keys == values.Keys + (set j | i <= j < |ops| :: ops[j].0)
    decreases |ops| - i
  {
    if i < |ops| {
      ApplyOpsKeys(values[ops[i].0 := ops[i].1], ops, i + 1);
      assert (set j | i <= j < |ops| :: ops[j].0) == {ops[i].0} + (set j | i + 1 <= j < |ops| :: ops[j].0);
    }
  }

  /** The first planned field from entry i on that the class does not
      declare, or |ops| when there is none. */
  function FirstUndeclared(fields: set<string>, ops: Ops, i: nat): (r: nat)
    requires i <= |ops|
    ensures i <= r <= |ops|
    ensures forall j :: i <= j < r ==> ops[j].0 in fields
    ensures r < |ops| ==> ops[r].0 !in fields
    decreases |ops| - i
  {
    if i == |ops| || ops[i].0 !in fields then i else FirstUndeclared(fields, ops, i + 1)
  }

  /** What update_one leaves behind once the plan is known (lines 269-278):
      the fields of the instance and the result. Nothing changes unless the
      server matched one document; then the planned fields are set in
      turn, and a name the class does not declare raises KeyError with the
      fields before it already set. The instance keeps exactly its declared
      fields, and the call succeeds exactly when the plan does and, with
      n == 1, every planned field is declared. */
  function UpdateOutcome(fields: set<string>, values: map<string, Value>, plan: Result<(UpdateRequest, Ops)>, n: int)
    : (r: (map<string, Value>, Result<UpdateRequest>))
    ensures values.Keys == fields ==> r.0.Keys == fields
    ensures r.1.Success? <==> plan.Success? && (n != 1 || KeySet(plan.value.1) <= fields)
    ensures r.1.Success? ==> r.1.value == plan.value.0
    ensures plan.Failure? || n != 1 ==> r.0 == values
    ensures plan.Success? && n == 1 && KeySet(plan.value.1) <= fields ==> r.0 == ApplyOps(values, plan.value.1, 0)
  {
    if plan.Failure? then (values, Failure(plan.error))
    else if n != 1 then (values, Success(plan.value.0))
    else
      var ops := plan.value.1;
      var k := FirstUndeclared(fields, ops, 0);
      FirstUndeclaredKeys(fields, ops);
      assert ops[..k][..] == ops[..k];
      assert (set j | 0 <= j < k :: ops[..k][j].0) <= fields;
      ApplyOpsKeys(values, ops[..k], 0);
      (ApplyOps(values, ops[..k], 0), if k < |ops| then Failure(KeyError(ops[k].0)) else Success(plan.value.0))
  }

  /** All planned fields are declared exactly when none is undeclared. */
  lemma FirstUndeclaredKeys(fields: set<string>, ops: Ops)
    ensures FirstUndeclared(fields, ops, 0) == |ops| <==> KeySet(ops) <= fields
    ensures FirstUndeclared(fields, ops, 0) == |ops| ==> ops[..FirstUndeclared(fields, ops, 0)] == ops
  {
    var k := FirstUndeclared(fields, ops, 0);
    if k < |ops| {
      KeySetHasKey(ops, ops[k].0);
    } else {
      forall x | x in KeySet(ops) ensures x in fields {
        KeySetHasKey(ops, x);
      }
    }
  }

  /** The fields of es from entry i on that the in-memory plan can touch:
      the undotted ones. */
  function UndottedFields(es: seq<(string, Value)>, i: nat): (r: set<string>)
    requires i <= |es|
    ensures forall k :: k in r ==> '.' !in k
    decreases |es| - i
  {
    if i == |es| then {}
    else if '.' in es[i].0 then UndottedFields(es, i + 1)
    else {es[i].0} + UndottedFields(es, i + 1)
  }

  /** The undotted fields named by the operands of update from operator i on. */
  function UpdateFields(update: seq<(string, Value)>, i: nat): (r: set<string>)
    requires i <= |update|
    ensures forall k :: k in r ==> '.' !in k
    decreases |update| - i
  {
    if i == |update| then {}
    else (if update[i].1.VDict? then UndottedFields(update[i].1.entries, 0) else {}) + UpdateFields(update, i + 1)
  }

  /** The values $addToSet adds: the `$each` list of a dict that has one,
      otherwise `new_val` alone, as it is when stored; a value `in` cannot
      search raises TypeError. */
  lemma ValuesToAddCases(newVal: Value, after: Value)
    ensures newVal.VList? && VStr("$each") !in newVal.items ==> ValuesToAdd(newVal, after) == Success([after])
    ensures newVal.VDict? && !HasKey(newVal.entries, "$each") ==> ValuesToAdd(newVal, after) == Success([after])
    ensures newVal.VDict? && HasKey(newVal.entries, "$each") && Lookup(newVal.entries, "$each").value.VList? ==>
      ValuesToAdd(newVal, after) == Success(Lookup(newVal.entries, "$each").value.items)
    ensures newVal.VNone? || newVal.VInt? || newVal.VObjectId? ==> ValuesToAdd(newVal, after) == Failure(TypeError)
  {
  }

  /** What each operator plans for one field: $set the value as stored,
      $unset None, $inc the sum, $push and $pushAll a copy of the list
      extended; the three that read the field raise KeyError when the
      instance has no such field, and every other operator plans nothing. */
  lemma NewFieldValueCases(values: map<string, Value>, operator: string, field: string, newVal: Value, after: Value)
    ensures var r := NewFieldValue(values, operator, field, newVal, after);
      && (operator == "$set" ==> r == Success(Some(after)))
      && (operator == "$unset" ==> r == Success(Some(VNone)))
      && (operator == "$inc" && field in values && values[field].VInt? && newVal.VInt? ==>
            r == Success(Some(VInt(values[field].i + newVal.i))))
      && (operator == "$push" && field in values && values[field].VList? ==>
            r == Success(Some(VList(values[field].items + [after]))))
      && (operator == "$pushAll" && field in values && values[field].VList? && newVal.VList? ==>
            r == Success(Some(VList(values[field].items + newVal.items))))
      && (operator in {"$inc", "$push", "$pushAll"} && field !in values ==> r == Failure(KeyError(field)))
      && (operator !in {"$set", "$unset", "$inc", "$push", "$pushAll"} ==> r == Success(None))
  {
  }

  /** One pass of $addToSet changes no field but its own. */
  lemma AddStepOthers(values: map<string, Value>, field: string, newVal: Value, v: Value, ops: Ops, k: string)
    requires k != field
    requires AddStep(values, field, newVal, v, ops).Success?
    ensures Lookup(AddStep(values, field, newVal, v, ops).value, k) == Lookup(ops, k)
  {
    var cur := values[field];
    if !Contains(newVal, cur).value {
      SonSetLookup(ops, field, Add(Copy(cur).value, VList([v])).value);
    }
  }

  /** The passes of $addToSet change no field but their own. */
  lemma {:induction false} AddEachOthers(values: map<string, Value>, field: string, newVal: Value, vals: seq<Value>, i: nat, ops: Ops,
                                         k: string)
    requires i <= |vals| && k != field
    requires AddEach(values, field, newVal, vals, i, ops).Success?
    ensures Lookup(AddEach(values, field, newVal, vals, i, ops).value, k) == Lookup(ops, k)
    decreases |vals| - i
  {
    if i < |vals| {
      var next := AddStep(values, field, newVal, vals[i], ops).value;
      AddStepOthers(values, field, newVal, vals[i], ops, k);
      AddEachOthers(values, field, newVal, vals, i + 1, next, k);
    }
  }

  /** One pass of $addToSet plans at most its own field, once. */
  lemma AddStepKeys(values: map<string, Value>, field: string, newVal: Value, v: Value, ops: Ops)
    requires DistinctKeys(ops)
    requires AddStep(values, field, newVal, v, ops).Success?
    ensures KeySet(AddStep(values, field, newVal, v, ops).value) <= KeySet(ops) + {field}
    ensures DistinctKeys(AddStep(values, field, newVal, v, ops).value)
  {
    var cur := values[field];
    if !Contains(newVal, cur).value {
      var appended := Add(Copy(cur).value, VList([v])).value;
      SonSetKeys(ops, field, appended);
      SonSetDistinct(ops, field, appended);
    }
  }

  lemma {:induction false} AddEachKeys(values: map<string, Value>, field: string, newVal: Value, vals: seq<Value>, i: nat, ops: Ops)
    requires i <= |vals|
    requires DistinctKeys(ops)
    requires AddEach(values, field, newVal, vals, i, ops).Success?
    ensures KeySet(AddEach(values, field, newVal, vals, i, ops).value) <= KeySet(ops) + {field}
    ensures DistinctKeys(AddEach(values, field, newVal, vals, i, ops).value)
    decreases |vals| - i
  {
    if i < |vals| {
      var next := AddStep(values, field, newVal, vals[i], ops).value;
      AddStepKeys(values, field, newVal, vals[i], ops);
      AddEachKeys(values, field, newVal, vals, i + 1, next);
    }
  }

  lemma PlanFieldKeys(values: map<string, Value>, operator: string, field: string, newVal: Value, after: Value, ops: Ops)
    requires DistinctKeys(ops)
    requires PlanField(values, operator, field, newVal, after, ops).Success?
    ensures KeySet(PlanField(values, operator, field, newVal, after, ops).value) <= KeySet(ops) + {field}
    ensures DistinctKeys(PlanField(values, operator, field, newVal, after, ops).value)
    ensures forall k :: k != field ==> Lookup(PlanField(values, operator, field, newVal, after, ops).value, k) == Lookup(ops, k)
  {
    if operator == "$addToSet" {
      AddEachKeys(values, field, newVal, ValuesToAdd(newVal, after).value, 0, ops);
      forall k | k != field
        ensures Lookup(PlanField(values, operator, field, newVal, after, ops).value, k) == Lookup(ops, k)
      {
        AddEachOthers(values, field, newVal, ValuesToAdd(newVal, after).value, 0, ops, k);
      }
    } else {
      var v := NewFieldValue(values, operator, field, newVal, after).value;
      if v.Some? {
        SonSetLookup(ops, field, v.value);
        SonSetKeys(ops, field, v.value);
        SonSetDistinct(ops, field, v.value);
      }
    }
  }

  lemma {:induction false} PlanFieldsKeys(reg: map<string, DocSchema>, opCtx: Context, values: map<string, Value>, operator: string,
                                          es: seq<(string, Value)>, i: nat, ops: Ops)
    requires i <= |es|
    requires DistinctKeys(ops)
    requires PlanFields(reg, opCtx, values, operator, es, i, ops).Success?
    ensures KeySet(PlanFields(reg, opCtx, values, operator, es, i, ops).value) <= KeySet(ops) + UndottedFields(es, i)
    ensures DistinctKeys(PlanFields(reg, opCtx, values, operator, es, i, ops).value)
    ensures forall k :: k !in UndottedFields(es, i) ==> Lookup(PlanFields(reg, opCtx, values, operator, es, i, ops).value, k) == Lookup(ops, k)
    decreases |es| - i
  {
    if i < |es| {
      if '.' in es[i].0 {
        PlanFieldsKeys(reg, opCtx, values, operator, es, i + 1, ops);
      } else {
        var after := AfterTransform(reg, opCtx, es[i].0, es[i].1);
        var next := PlanField(values, operator, es[i].0, es[i].1, after, ops).value;
        PlanFieldKeys(values, operator, es[i].0, es[i].1, after, ops);
        PlanFieldsKeys(reg, opCtx, values, operator, es, i + 1, next);
      }
    }
  }

  lemma {:induction false} PlanFromKeys(reg: map<string, DocSchema>, doc: DocSchema, values: map<string, Value>,
                                        update: seq<(string, Value)>, i: nat, ops: Ops)
    requires i <= |update|
    requires DistinctKeys(ops)
    requires PlanFrom(reg, doc, values, update, i, ops).Success?
    ensures KeySet(PlanFrom(reg, doc, values, update, i, ops).value) <= KeySet(ops) + UpdateFields(update, i)
    ensures DistinctKeys(PlanFrom(reg, doc, values, update, i, ops).value)
    ensures forall k :: k !in UpdateFields(update, i) ==> Lookup(PlanFrom(reg, doc, values, update, i, ops).value, k) == Lookup(ops, k)
    decreases |update| - i
  {
    if i < |update| {
      var operand := update[i].1;
      if Contains(VStr("."), operand).value {
        PlanFromKeys(reg, doc, values, update, i + 1, ops);
      } else {
        var opCtx := ChildContext(reg, update[i].0, DocCtx(doc));
        var next := PlanFields(reg, opCtx, values, update[i].0, operand.entries, 0, ops).value;
        PlanFieldsKeys(reg, opCtx, values, update[i].0, operand.entries, 0, ops);
        PlanFromKeys(reg, doc, values, update, i + 1, next);
      }
    }
  }

  /** The in-memory plan names each field at most once, only fields that
      an operand names, and never a dotted one. */
  lemma PlanOpsKeys(reg: map<string, DocSchema>, doc: DocSchema, values: map<string, Value>, update: seq<(string, Value)>)
    requires PlanOps(reg, doc, values, update).Success?
    ensures DistinctKeys(PlanOps(reg, doc, values, update).value)
    ensures KeySet(PlanOps(reg, doc, values, update).value) <= UpdateFields(update, 0)
    ensures forall j :: 0 <= j < |PlanOps(reg, doc, values, update).value| ==> '.' !in PlanOps(reg, doc, values, update).value[j].0
  {
    PlanFromKeys(reg, doc, values, update, 0, []);
    var ops := PlanOps(reg, doc, values, update).value;
    forall j | 0 <= j < |ops| ensures '.' !in ops[j].0 {
      KeySetHasKey(ops, ops[j].0);
    }
  }

  /** The write-back from entry i on: the fields of ops[i..] get their
      planned values, every other field keeps its own. */
  lemma {:induction false} ApplyOpsFrom(values: map<string, Value>, ops: Ops, i: nat)
    requires i <= |ops|
    requires DistinctKeys(ops)
    ensures forall k :: HasKey(ops[i..], k) ==> k in ApplyOps(values, ops, i) && ApplyOps(values, ops, i)[k] == Lookup(ops[i..], k).value
    ensures forall k :: k in values && !HasKey(ops[i..], k) ==> k in ApplyOps(values, ops, i) && ApplyOps(values, ops, i)[k] == values[k]
    decreases |ops| - i
  {
    if i < |ops| {
      var k0 := ops[i].0;
      var values' := values[k0 := ops[i].1];
      var rest := ops[i + 1..];
      ApplyOpsFrom(values', ops, i + 1);
      assert ops[i..][1..] == rest;
      assert ops[i..][0] == ops[i];
      assert !HasKey(rest, k0) by {
        forall j | 0 <= j < |rest| ensures rest[j].0 != k0 {
          assert rest[j] == ops[i + 1 + j];
        }
      }
      forall k | HasKey(ops[i..], k) && k != k0 ensures HasKey(rest, k) {
        var j :| 0 <= j < |ops[i..]| && ops[i..][j].0 == k;
        assert j != 0;
        assert rest[j - 1] == ops[i..][j];
      }
      forall k | HasKey(rest, k) ensures HasKey(ops[i..], k) {
        var j :| 0 <= j < |rest| && rest[j].0 == k;
        assert rest[j] == ops[i..][j + 1];
      }
    } else {
      assert ops[i..] == [];
    }
  }

  /** After update_one with n == 1, exactly the planned fields hold their
      planned values and every other field is as it was. */
  lemma WriteBack(values: map<string, Value>, ops: Ops)
    requires DistinctKeys(ops)
    ensures forall k :: k in ApplyOps(values, ops, 0) <==> k in values || HasKey(ops, k)
    ensures forall k :: HasKey(ops, k) ==> ApplyOps(values, ops, 0)[k] == Lookup(ops, k).value
    ensures forall k :: k in values && !HasKey(ops, k) ==> ApplyOps(values, ops, 0)[k] == values[k]
  {
    ApplyOpsFrom(values, ops, 0);
    ApplyOpsKeys(values, ops, 0);
    assert ops[0..] == ops;
    forall k ensures HasKey(ops, k) <==> k in (set j | 0 <= j < |ops| :: ops[j].0) {
      if HasKey(ops, k) {
        var j :| 0 <= j < |ops| && ops[j].0 == k;
      }
    }
  }

  /** A successful update_one whose every planned field is declared, with
      the server matching one document: the instance keeps exactly its
      declared fields, the planned ones hold their planned values and the
      others are as they were. */
  lemma DeclaredFieldsWriteBack(env: Env, schema: DocSchema, values: map<string, Value>,
                                update: seq<(string, Value)>, spec: seq<(string, Value)>)
    requires values.Keys == schema.fields.Keys
    requires UpdatePlan(env, schema, values, update, spec).Success?
    requires KeySet(UpdatePlan(env, schema, values, update, spec).value.1) <= schema.fields.Keys
    ensures var ops := UpdatePlan(env, schema, values, update, spec).value.1;
      var after := UpdateOutcome(schema.fields.Keys, values, UpdatePlan(env, schema, values, update, spec), 1).0;
      && after.Keys == schema.fields.Keys
      && (forall k :: HasKey(ops, k) ==> after[k] == Lookup(ops, k).value)
      && (forall k :: k in values && !HasKey(ops, k) ==> after[k] == values[k])
  {
    WriteBack(values, UpdatePlan(env, schema, values, update, spec).value.1);
  }

  /** An update whose first key is not an operator raises "All updates
      should be atomic operators" before anything else happens. */
  lemma FirstKeyNotAtomic(reg: map<string, DocSchema>, doc: DocSchema, values: map<string, Value>, update: seq<(string, Value)>)
    requires |update| > 0 && update[0].0 != "" && update[0].0[0] != '$'
    ensures PlanOps(reg, doc, values, update) == Failure(NotAtomic)
  {
  }

  /** A field-by-field plan: when every undotted, distinct field of an
      operand gets the entry `out[j]` appended, the operand plans to `out`. */
  lemma {:induction false} PlanFieldsAppend(reg: map<string, DocSchema>, opCtx: Context, values: map<string, Value>,
                                            operator: string, es: seq<(string, Value)>, out: Ops, i: nat)
    requires i <= |es| == |out|
    requires forall j :: 0 <= j < |es| ==> '.' !in es[j].0
    requires forall j :: 0 <= j < |es| ==>
      PlanField(values, operator, es[j].0, es[j].1, AfterTransform(reg, opCtx, es[j].0, es[j].1), out[..j]) == Success(out[..j + 1])
    ensures PlanFields(reg, opCtx, values, operator, es, i, out[..i]) == Success(out)
    decreases |es| - i
  {
    if i < |es| {
      PlanFieldsAppend(reg, opCtx, values, operator, es, out, i + 1);
    } else {
      assert out[..i] == out;
    }
  }

  /** An operator key is read in the document class itself. */
  lemma OperatorContext(reg: map<string, DocSchema>, doc: DocSchema, operator: string)
    requires operator != "" && operator[0] == '$' && '.' !in operator
    ensures ChildContext(reg, operator, DocCtx(doc)) == DocCtx(doc)
  {
    UndottedKey(reg, operator, DocCtx(doc));
  }

  /** A single-operator update whose fields are undotted plans exactly what
      its operand plans, read in the document class. */
  lemma SingleOperator(reg: map<string, DocSchema>, doc: DocSchema, values: map<string, Value>, operator: string, es: seq<(string, Value)>)
    requires operator != "" && operator[0] == '$' && '.' !in operator
    requires forall j :: 0 <= j < |es| ==> '.' !in es[j].0
    ensures PlanOps(reg, doc, values, [(operator, VDict(es))]) == PlanFields(reg, DocCtx(doc), values, operator, es, 0, [])
  {
    assert !HasKey(es, ".") by {
      forall j | 0 <= j < |es| ensures es[j].0 != "." {
        assert '.' !in es[j].0;
      }
    }
    OperatorContext(reg, doc, operator);
    var update := [(operator, VDict(es))];
    assert update[0].0 == operator && update[0].1 == VDict(es);
    assert Contains(VStr("."), VDict(es)) == Success(false);
    var planned := PlanFields(reg, DocCtx(doc), values, operator, es, 0, []);
    if planned.Success? {
      assert PlanFrom(reg, doc, values, update, 1, planned.value) == Success(planned.value);
    }
  }

  /** The entries of a plan before position j, which follow distinct
      fields, do not hold the field of entry j. */
  lemma PrefixLacksField(es: seq<(string, Value)>, out: Ops, j: nat)
    requires j < |es| == |out|
    requires DistinctKeys(es)
    requires forall m :: 0 <= m < |es| ==> out[m].0 == es[m].0
    ensures !HasKey(out[..j], es[j].0)
  {
    forall m | 0 <= m < j
      ensures out[..j][m].0 != es[j].0
    {
      assert out[m].0 == es[m].0;
    }
  }

  /** The entry a field appends to a plan that does not hold it yet. */
  lemma AppendToPlan(es: seq<(string, Value)>, out: Ops, j: nat, v: Value)
    requires j < |es| == |out|
    requires DistinctKeys(es)
    requires forall m :: 0 <= m < |es| ==> out[m].0 == es[m].0
    requires out[j] == (es[j].0, v)
    ensures SonSet(out[..j], es[j].0, v) == out[..j + 1]
  {
    PrefixLacksField(es, out, j);
    SonSetAbsent(out[..j], es[j].0, v);
    assert out[..j] + [out[j]] == out[..j + 1];
  }

  /** $set with distinct, undotted fields plans every field to its value as
      the transform leaves it: `p.set(age=19, name="Josh")` sets age and
      name in memory. */
  lemma SetPlansOperand(reg: map<string, DocSchema>, doc: DocSchema, values: map<string, Value>, es: seq<(string, Value)>)
    requires DistinctKeys(es)
    requires forall j :: 0 <= j < |es| ==> '.' !in es[j].0
    ensures PlanOps(reg, doc, values, [("$set", VDict(es))]) == Success(Settled(reg, VDict(es), DocCtx(doc)).entries)
  {
    var out := Settled(reg, VDict(es), DocCtx(doc)).entries;
    SingleOperator(reg, doc, values, "$set", es);
    forall j | 0 <= j < |es|
      ensures PlanField(values, "$set", es[j].0, es[j].1, AfterTransform(reg, DocCtx(doc), es[j].0, es[j].1), out[..j]) == Success(out[..j + 1])
    {
      NewFieldValueCases(values, "$set", es[j].0, es[j].1, AfterTransform(reg, DocCtx(doc), es[j].0, es[j].1));
      AppendToPlan(es, out, j, out[j].1);
    }
    PlanFieldsAppend(reg, DocCtx(doc), values, "$set", es, out, 0);
  }

  /** `$set` of a dict on a DictField: the transform replaces the dict's
      documents by their SON in the caller's own dict, so that is what the
      field holds in memory afterwards. */
  lemma SetDictFieldStoresSon(reg: map<string, DocSchema>, doc: DocSchema, values: map<string, Value>,
                              field: string, xs: seq<(string, Value)>)
    requires field != "" && !Verbatim(field) && '.' !in field
    requires field in doc.fields && doc.fields[field].kind.Dict?
    ensures PlanOps(reg, doc, values, [("$set", VDict([(field, VDict(xs))]))])
         == Success([(field, VDict(EncodeDictEntries(xs)))])
  {
    var es := [(field, VDict(xs))];
    UndottedKey(reg, field, DocCtx(doc));
    DeclaredSegment(reg, field, DocCtx(doc));
    assert ChildContext(reg, field, DocCtx(doc)) == FieldCtx(doc.fields[field]);
    assert es[0] == (field, VDict(xs));
    assert Settled(reg, VDict(es), DocCtx(doc)).entries == [(field, VDict(EncodeDictEntries(xs)))];
    SetPlansOperand(reg, doc, values, es);
  }

  /** $unset plans every field to None. */
  lemma UnsetPlansOperand(reg: map<string, DocSchema>, doc: DocSchema, values: map<string, Value>, es: seq<(string, Value)>)
    requires DistinctKeys(es)
    requires forall j :: 0 <= j < |es| ==> '.' !in es[j].0
    ensures PlanOps(reg, doc, values, [("$unset", VDict(es))]) == Success(seq(|es|, j requires 0 <= j < |es| => (es[j].0, VNone)))
  {
    var out := seq(|es|, j requires 0 <= j < |es| => (es[j].0, VNone));
    SingleOperator(reg, doc, values, "$unset", es);
    forall j | 0 <= j < |es|
      ensures PlanField(values, "$unset", es[j].0, es[j].1, AfterTransform(reg, DocCtx(doc), es[j].0, es[j].1), out[..j]) == Success(out[..j + 1])
    {
      NewFieldValueCases(values, "$unset", es[j].0, es[j].1, AfterTransform(reg, DocCtx(doc), es[j].0, es[j].1));
      AppendToPlan(es, out, j, VNone);
    }
    PlanFieldsAppend(reg, DocCtx(doc), values, "$unset", es, out, 0);
  }

  /** $inc on one integer field plans it to the sum. */
  lemma IncField(values: map<string, Value>, field: string, newVal: Value, after: Value, ops: Ops)
    requires field in values && values[field].VInt? && newVal.VInt?
    ensures PlanField(values, "$inc", field, newVal, after, ops) == Success(SonSet(ops, field, VInt(values[field].i + newVal.i)))
  {
    NewFieldValueCases(values, "$inc", field, newVal, after);
  }

  /** The sums $inc plans, field by field. */
  function Increments(values: map<string, Value>, es: seq<(string, Value)>): (r: Ops)
    requires forall j :: 0 <= j < |es| ==> es[j].0 in values && values[es[j].0].VInt? && es[j].1.VInt?
    ensures |r| == |es|
    ensures forall j :: 0 <= j < |es| ==> r[j] == (es[j].0, VInt(values[es[j].0].i + es[j].1.i))
  {
    seq(|es|, j requires 0 <= j < |es| => (es[j].0, VInt(values[es[j].0].i + es[j].1.i)))
  }

  /** $inc on integer fields plans each field to its current value plus the
      increment: `p.inc(age=-3)` takes three from age. */
  lemma IncPlansOperand(reg: map<string, DocSchema>, doc: DocSchema, values: map<string, Value>, es: seq<(string, Value)>)
    requires DistinctKeys(es)
    requires forall j :: 0 <= j < |es| ==> '.' !in es[j].0
    requires forall j :: 0 <= j < |es| ==> es[j].0 in values && values[es[j].0].VInt? && es[j].1.VInt?
    ensures PlanOps(reg, doc, values, [("$inc", VDict(es))]) == Success(Increments(values, es))
  {
    var out := Increments(values, es);
    SingleOperator(reg, doc, values, "$inc", es);
    IncSteps(reg, doc, values, es);
    PlanFieldsAppend(reg, DocCtx(doc), values, "$inc", es, out, 0);
  }

  lemma IncSteps(reg: map<string, DocSchema>, doc: DocSchema, values: map<string, Value>, es: seq<(string, Value)>)
    requires DistinctKeys(es)
    requires forall j :: 0 <= j < |es| ==> es[j].0 in values && values[es[j].0].VInt? && es[j].1.VInt?
    ensures forall j :: 0 <= j < |es| ==>
      PlanField(values, "$inc", es[j].0, es[j].1, AfterTransform(reg, DocCtx(doc), es[j].0, es[j].1), Increments(values, es)[..j])
      == Success(Increments(values, es)[..j + 1])
  {
    var out := Increments(values, es);
    forall j | 0 <= j < |es|
      ensures PlanField(values, "$inc", es[j].0, es[j].1, AfterTransform(reg, DocCtx(doc), es[j].0, es[j].1), out[..j]) == Success(out[..j + 1])
    {
      IncField(values, es[j].0, es[j].1, AfterTransform(reg, DocCtx(doc), es[j].0, es[j].1), out[..j]);
      AppendToPlan(es, out, j, out[j].1);
    }
  }


  /** $push on list fields plans each field to a copy of its list with the
      value, as the transform leaves it, appended. */
  lemma PushPlansOperand(reg: map<string, DocSchema>, doc: DocSchema, values: map<string, Value>, es: seq<(string, Value)>)
    requires DistinctKeys(es)
    requires forall j :: 0 <= j < |es| ==> '.' !in es[j].0
    requires forall j :: 0 <= j < |es| ==> es[j].0 in values && values[es[j].0].VList?
    ensures PlanOps(reg, doc, values, [("$push", VDict(es))])
         == Success(seq(|es|, j requires 0 <= j < |es| && es[j].0 in values =>
              (es[j].0, VList(values[es[j].0].items + [Settled(reg, es[j].1, ChildContext(reg, es[j].0, DocCtx(doc)))]))))
  {
    var out := seq(|es|, j requires 0 <= j < |es| && es[j].0 in values =>
      (es[j].0, VList(values[es[j].0].items + [Settled(reg, es[j].1, ChildContext(reg, es[j].0, DocCtx(doc)))])));
    SingleOperator(reg, doc, values, "$push", es);
    forall j | 0 <= j < |es|
      ensures PlanField(values, "$push", es[j].0, es[j].1, AfterTransform(reg, DocCtx(doc), es[j].0, es[j].1), out[..j]) == Success(out[..j + 1])
    {
      NewFieldValueCases(values, "$push", es[j].0, es[j].1, AfterTransform(reg, DocCtx(doc), es[j].0, es[j].1));
      AppendToPlan(es, out, j, out[j].1);
    }
    PlanFieldsAppend(reg, DocCtx(doc), values, "$push", es, out, 0);
  }

  /** $pushAll on list fields plans each field to its list followed by the
      given list. */
  lemma PushAllPlansOperand(reg: map<string, DocSchema>, doc: DocSchema, values: map<string, Value>, es: seq<(string, Value)>)
    requires DistinctKeys(es)
    requires forall j :: 0 <= j < |es| ==> '.' !in es[j].0
    requires forall j :: 0 <= j < |es| ==> es[j].0 in values && values[es[j].0].VList? && es[j].1.VList?
    ensures PlanOps(reg, doc, values, [("$pushAll", VDict(es))])
         == Success(seq(|es|, j requires 0 <= j < |es| && es[j].0 in values => (es[j].0, VList(values[es[j].0].items + es[j].1.items))))
  {
    var out := seq(|es|, j requires 0 <= j < |es| && es[j].0 in values => (es[j].0, VList(values[es[j].0].items + es[j].1.items)));
    SingleOperator(reg, doc, values, "$pushAll", es);
    forall j | 0 <= j < |es|
      ensures PlanField(values, "$pushAll", es[j].0, es[j].1, AfterTransform(reg, DocCtx(doc), es[j].0, es[j].1), out[..j]) == Success(out[..j + 1])
    {
      NewFieldValueCases(values, "$pushAll", es[j].0, es[j].1, AfterTransform(reg, DocCtx(doc), es[j].0, es[j].1));
      AppendToPlan(es, out, j, out[j].1);
    }
    PlanFieldsAppend(reg, DocCtx(doc), values, "$pushAll", es, out, 0);
  }

  /** $addToSet of a single string on a list field: planned as the list
      plus the string when the string is absent, not planned when present. */
  lemma AddToSetSingle(values: map<string, Value>, field: string, s: string, ops: Ops)
    requires field in values && values[field].VList?
    requires !IsSubstring("$each", s)
    ensures PlanField(values, "$addToSet", field, VStr(s), VStr(s), ops)
         == Success(if VStr(s) in values[field].items then ops else SonSet(ops, field, VList(values[field].items + [VStr(s)])))
  {
    ValuesToAddCases(VStr(s), VStr(s));
    assert ValuesToAdd(VStr(s), VStr(s)) == Success([VStr(s)]);
    AddEachLast(values, field, VStr(s), [VStr(s)], 0, ops);
  }

  /** A value that cannot be searched for '$each', such as an integer, makes
      $addToSet raise TypeError before anything is sent. */
  lemma AddToSetIntRejected(values: map<string, Value>, field: string, x: int, ops: Ops)
    ensures PlanField(values, "$addToSet", field, VInt(x), VInt(x), ops) == Failure(TypeError)
  {
  }

  /** The passes of $addToSet with `$each` on a list field. Every pass
      tests the whole `{'$each': ...}` value for membership and rebuilds the
      field from its original list, so at most the last value is added. */
  lemma {:induction false} AddEachLast(values: map<string, Value>, field: string, newVal: Value, vals: seq<Value>, i: nat, ops: Ops)
    requires i <= |vals|
    requires field in values && values[field].VList?
    ensures AddEach(values, field, newVal, vals, i, ops)
         == Success(if i == |vals| || newVal in values[field].items then ops
                    else SonSet(ops, field, VList(values[field].items + [vals[|vals| - 1]])))
    decreases |vals| - i
  {
    if i < |vals| {
      var xs := values[field].items;
      assert Get(values, field) == Success(VList(xs));
      if newVal in xs {
        assert AddStep(values, field, newVal, vals[i], ops) == Success(ops);
        assert AddEach(values, field, newVal, vals, i, ops) == AddEach(values, field, newVal, vals, i + 1, ops);
        AddEachLast(values, field, newVal, vals, i + 1, ops);
      } else {
        var once := SonSet(ops, field, VList(xs + [vals[i]]));
        assert AddStep(values, field, newVal, vals[i], ops) == Success(once);
        assert AddEach(values, field, newVal, vals, i, ops) == AddEach(values, field, newVal, vals, i + 1, once);
        AddEachLast(values, field, newVal, vals, i + 1, once);
        if i + 1 < |vals| {
          SonSetTwice(ops, field, VList(xs + [vals[i]]), VList(xs + [vals[|vals| - 1]]));
        }
      }
    }
  }

  /** `add_to_set(f={'$each': ys})` on a list field: when ys is not empty and
      the dict itself is not an element, the field is planned as its list
      plus the LAST of ys only. */
  lemma AddToSetEach(values: map<string, Value>, field: string, ys: seq<Value>, after: Value, ops: Ops)
    requires field in values && values[field].VList?
    ensures var newVal := VDict([("$each", VList(ys))]);
      PlanField(values, "$addToSet", field, newVal, after, ops)
      == Success(if ys == [] || newVal in values[field].items then ops
                 else SonSet(ops, field, VList(values[field].items + [ys[|ys| - 1]])))
  {
    var newVal := VDict([("$each", VList(ys))]);
    assert [("$each", VList(ys))][0].0 == "$each";
    assert ValuesToAdd(newVal, after) == Success(ys);
    AddEachLast(values, field, newVal, ys, 0, ops);
  }

  lemma {:induction false} MergeSpecKeeps(query: seq<(string, Value)>, spec: seq<(string, Value)>, i: nat, k: string)
    requires i <= |spec|
    requires forall j :: i <= j < |spec| ==> spec[j].0 != k
    ensures Lookup(MergeSpec(query, spec, i), k) == Lookup(query, k)
    decreases |spec| - i
  {
    if i < |spec| {
      SonSetLookup(query, spec[i].0, spec[i].1);
      MergeSpecKeeps(SonSet(query, spec[i].0, spec[i].1), spec, i + 1, k);
    }
  }

  /** An instance of a Document class: the values of its declared fields. */
  class DocumentObject {
    const schema: DocSchema
    var values: map<string, Value>

    /** A Document class, and a value for every field it declares and no
        other name. */
    predicate Valid()
      reads this
    {
      IsDocumentClass(schema) && values.Keys == schema.fields.Keys
    }

    /** `cls(**given)`: every declared field starts at its default, and the
        keyword arguments, all of them declared names, override theirs. */
    constructor (schema: DocSchema, defaults: map<string, Value>, given: map<string, Value>)
      requires IsDocumentClass(schema)
      requires defaults.Keys == schema.fields.Keys
      requires given.Keys <= schema.fields.Keys
      ensures Valid() && this.schema == schema
      ensures forall f :: f in given ==> f in values && values[f] == given[f]
      ensures forall f :: f in defaults && f !in given ==> f in values && values[f] == defaults[f]
    {
      this.schema := schema;
      this.values := defaults + given;
    }

    /** Lines 229-259: the in-memory changes, collected by the loops of
        the source. */
    method CollectOps(reg: map<string, DocSchema>, update: seq<(string, Value)>) returns (r: Result<Ops>)
      ensures r == PlanOps(reg, schema, values, update)
    {
      var ops: Ops := [];
      var i := 0;
      while i < |update|
        invariant 0 <= i <= |update|
        invariant PlanFrom(reg, schema, values, update, i, ops) == PlanOps(reg, schema, values, update)
      {
        var operator := update[i].0;
        var operand := update[i].1;
        if operator == "" {
          return Failure(IndexError);
        }
        if operator[0] != '$' {
          return Failure(NotAtomic);
        }
        var dotted := Contains(VStr("."), operand);
        if dotted.Failure? {
          return Failure(dotted.error);
        }
        if !dotted.value {
          if !operand.VDict? {
            return Failure(AttributeError);
          }
          var next := CollectFields(reg, ChildContext(reg, operator, DocCtx(schema)), operator, operand.entries, ops);
          if next.Failure? {
            return Failure(next.error);
          }
          ops := next.value;
        }
        i := i + 1;
      }
      return Success(ops);
    }

    /** Lines 235-259 for one operand, read in `opCtx`. */
    method CollectFields(reg: map<string, DocSchema>, opCtx: Context, operator: string, es: seq<(string, Value)>, ops0: Ops)
      returns (r: Result<Ops>)
      ensures r == PlanFields(reg, opCtx, values, operator, es, 0, ops0)
    {
      var ops := ops0;
      var j := 0;
      while j < |es|
        invariant 0 <= j <= |es|
        invariant PlanFields(reg, opCtx, values, operator, es, j, ops) == PlanFields(reg, opCtx, values, operator, es, 0, ops0)
      {
        var field := es[j].0;
        if '.' !in field {
          var after := AfterTransform(reg, opCtx, field, es[j].1);
          var next := CollectField(operator, field, es[j].1, after, ops);
          if next.Failure? {
            assert PlanFields(reg, opCtx, values, operator, es, j, ops) == Failure(next.error);
            return Failure(next.error);
          }
          assert PlanFields(reg, opCtx, values, operator, es, j, ops) == PlanFields(reg, opCtx, values, operator, es, j + 1, next.value);
          ops := next.value;
        }
        j := j + 1;
      }
      return Success(ops);
    }

    /** Lines 240-259 for one field; `after` is the value as it is when
        stored. */
    method CollectField(operator: string, field: string, newVal: Value, after: Value, ops: Ops) returns (r: Result<Ops>)
      ensures r == PlanField(values, operator, field, newVal, after, ops)
    {
      if operator != "$addToSet" {
        var v := NewFieldValue(values, operator, field, newVal, after);
        if v.Failure? {
          return Failure(v.error);
        }
        return Success(if v.value.Some? then SonSet(ops, field, v.value.value) else ops);
      }
      var vals := ValuesToAdd(newVal, after);
      if vals.Failure? {
        return Failure(vals.error);
      }
      r := CollectAdditions(field, newVal, vals.value, ops);
    }

    /** Lines 257-259: the passes of $addToSet. */
    method CollectAdditions(field: string, newVal: Value, vals: seq<Value>, ops0: Ops) returns (r: Result<Ops>)
      ensures r == AddEach(values, field, newVal, vals, 0, ops0)
    {
      var ops := ops0;
      var k := 0;
      while k < |vals|
        invariant 0 <= k <= |vals|
        invariant AddEach(values, field, newVal, vals, k, ops) == AddEach(values, field, newVal, vals, 0, ops0)
      {
        if field !in values {
          return Failure(KeyError(field));
        }
        var cur := values[field];
        var present := Contains(newVal, cur);
        if present.Failure? {
          return Failure(present.error);
        }
        if !present.value {
          var copy := Copy(cur);
          if copy.Failure? {
            return Failure(copy.error);
          }
          var appended := Add(copy.value, VList([vals[k]]));
          if appended.Failure? {
            return Failure(appended.error);
          }
          ops := SonSet(ops, field, appended.value);
        }
        k := k + 1;
      }
      return Success(ops);
    }

    /** The write-back of lines 275-276: each planned field is set in turn,
        and the first name the class does not declare raises KeyError with
        the fields before it already set. */
    method Store(written: Ops) returns (r: Result<()>)
      requires values.Keys == schema.fields.Keys
      modifies this
      ensures values.Keys == schema.fields.Keys
      ensures var k := FirstUndeclared(schema.fields.Keys, written, 0);
        && values == ApplyOps(old(values), written[..k], 0)
        && (if k < |written| then r == Failure(KeyError(written[k].0)) else r == Success(()))
    {
      ghost var k := FirstUndeclared(schema.fields.Keys, written, 0);
      var i := 0;
      while i < |written|
        invariant 0 <= i <= k
        invariant values.Keys == schema.fields.Keys
        invariant ApplyOps(values, written[..k], i) == ApplyOps(old(values), written[..k], 0)
      {
        if written[i].0 !in schema.fields {
          return Failure(KeyError(written[i].0));
        }
        assert written[..k][i] == written[i];
        values := values[written[i].0 := written[i].1];
        i := i + 1;
      }
      return Success(());
    }

    /** Document.update_one(document, spec) (lines 228-278). `n` is the
        count the server reports in its reply. The instance ends as
        UpdateOutcome says: unchanged on an exception before the call or
        when n is not 1, otherwise with the planned fields written in turn
        until one the class does not declare raises KeyError. It keeps
        exactly its declared fields. */
    method UpdateOne(env: Env, update: seq<(string, Value)>, spec: seq<(string, Value)>, n: int)
      returns (r: Result<UpdateRequest>)
      requires Valid()
      modifies this
      ensures Valid()
      ensures (values, r) == UpdateOutcome(schema.fields.Keys, old(values), UpdatePlan(env, schema, old(values), update, spec), n)
    {
      var ops := CollectOps(env.registry, update);
      if ops.Failure? {
        return Failure(ops.error);
      }
      PlanOpsKeys(env.registry, schema, values, update);
      var document := Transform(env, VDict(update), DocCtx(schema), None, true);
      if document.Failure? {
        return Failure(document.error);
      }
      var id := values[schema.idField.value];
      var query := Transform(env, VDict(QuerySpec(id, spec)), DocCtx(schema), None, true);
      if query.Failure? {
        return Failure(query.error);
      }
      assert UpdatePlan(env, schema, old(values), update, spec) == Success((UpdateRequest(query.value, document.value), ops.value));
      if n == 1 {
        var stored := Store(ops.value);
        if stored.Failure? {
          return Failure(stored.error);
        }
        FirstUndeclaredKeys(schema.fields.Keys, ops.value);
      }
      return Success(UpdateRequest(query.value, document.value));
    }

    /** Document.set(**kwargs) (lines 280-281). */
    method Set(env: Env, kwargs: seq<(string, Value)>, n: int) returns (r: Result<UpdateRequest>)
      requires Valid()
      modifies this
      ensures Valid()
      ensures (values, r) == UpdateOutcome(schema.fields.Keys, old(values), UpdatePlan(env, schema, old(values), [("$set", VDict(kwargs))], []), n)
    {
      r := UpdateOne(env, [("$set", VDict(kwargs))], [], n);
    }

    /** Document.inc(**kwargs) (lines 283-284). */
    method Inc(env: Env, kwargs: seq<(string, Value)>, n: int) returns (r: Result<UpdateRequest>)
      requires Valid()
      modifies this
      ensures Valid()
      ensures (values, r) == UpdateOutcome(schema.fields.Keys, old(values), UpdatePlan(env, schema, old(values), [("$inc", VDict(kwargs))], []), n)
    {
      r := UpdateOne(env, [("$inc", VDict(kwargs))], [], n);
    }

    /** Document.push(**kwargs) (lines 286-287). */
    method Push(env: Env, kwargs: seq<(string, Value)>, n: int) returns (r: Result<UpdateRequest>)
      requires Valid()
      modifies this
      ensures Valid()
      ensures (values, r) == UpdateOutcome(schema.fields.Keys, old(values), UpdatePlan(env, schema, old(values), [("$push", VDict(kwargs))], []), n)
    {
      r := UpdateOne(env, [("$push", VDict(kwargs))], [], n);
    }

    /** Document.add_to_set(**kwargs) (lines 289-290). */
    method AddToSet(env: Env, kwargs: seq<(string, Value)>, n: int) returns (r: Result<UpdateRequest>)
      requires Valid()
      modifies this
      ensures Valid()
      ensures (values, r) == UpdateOutcome(schema.fields.Keys, old(values), UpdatePlan(env, schema, old(values), [("$addToSet", VDict(kwargs))], []), n)
    {
      r := UpdateOne(env, [("$addToSet", VDict(kwargs))], [], n);
    }
  }
}
