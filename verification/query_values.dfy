/** Translation of a whole query or update document (Document._transform_value):
    every key is translated as a field path, every leaf value is encoded
    (ObjectIds, embedded documents) and validated according to the atomic
    operator in force. */
module QueryValues {
  import opened Values
  import opened Schema
  import opened KeyPath

  /** The operator tables of lines 301-310. */
  const ValidateOps: seq<string> := ["$set", "$inc", "$eq", "$gte", "$lte", "$lt", "$gt", "$ne"]
  const ListValidateOps: seq<string> := ["$addToSet", "$push", "$pull"]
  const ListValidateAllOps: seq<string> := ["$pushAll", "$pullAll", "$each", "$in", "$nin", "$all"]
  const NoValidateOps: seq<string> := ["$unset", "$pop", "$rename", "$bit", "$all", "$and", "$or",
    "$exists", "$mod", "$elemMatch", "$size", "$type", "$not", "$returnKey", "$maxScan", "$orderby",
    "$explain", "$snapshot", "$max", "$min", "$showDiskLoc", "$hint", "$comment"]

  /** How a leaf value is checked under an operator. */
  datatype OpClass = Validating | ListValidating | ListValidatingAll | Unchecked | Unknown

  /** The class of an operator, by the first table that holds it (the
      validation at lines 339-350 tests them in this order; no operator
      (None) counts as validating). */
  function Classify(op: Option<string>): (c: OpClass)
    ensures c == Validating <==> op.None? || op.value in ValidateOps
    ensures c == Unknown <==> op.Some? && op.value !in ValidateOps + ListValidateOps + ListValidateAllOps + NoValidateOps
    ensures c == Unknown ==> op.Some?
  {
    if op.None? || op.value in ValidateOps then Validating
    else if op.value in ListValidateOps then ListValidating
    else if op.value in ListValidateAllOps then ListValidatingAll
    else if op.value in NoValidateOps then Unchecked
    else Unknown
  }

  /** The operator as "%s" prints it. */
  function OpName(op: Option<string>): string
  {
    if op.Some? then op.value else "None"
  }

  /** ObjectId(v): an ObjectId stays as it is. */
  function ObjectIdOf(v: Value): Value
  {
    if v.VObjectId? then v else VObjectId(v)
  }

  /** Lines 329-336: a value bound for an ObjectIdField is made an ObjectId,
      element by element under a list operator. */
  function EncodeObjectIds(value: Value, ctx: Context, c: OpClass): (r: Result<Value>)
    ensures !IsObjectIdField(ctx) || c == Unchecked || c == Unknown ==> r == Success(value)
    ensures IsObjectIdField(ctx) && c == Validating ==> r == Success(ObjectIdOf(value))
    ensures IsObjectIdField(ctx) && (c == ListValidating || c == ListValidatingAll) && value.VList? ==>
      r == Success(VList(seq(|value.items|, i requires 0 <= i < |value.items| => ObjectIdOf(value.items[i]))))
    ensures r.Failure? ==> r.error == TypeError
  {
    if IsObjectIdField(ctx) && c == Validating then Success(ObjectIdOf(value))
    else if IsObjectIdField(ctx) && (c == ListValidating || c == ListValidatingAll) then
      var xs :- Iterate(value);
      Success(VList(seq(|xs|, i requires 0 <= i < |xs| => ObjectIdOf(xs[i]))))
    else Success(value)
  }

  /** `context.field` where it is used as a field to validate with: only a
      ListField whose element is a field instance has one. */
  function ElementField(ctx: Context): Result<Field>
  {
    if ctx.FieldCtx? && ctx.field.kind.List? && ctx.field.kind.elem.ElemField? then
      Success(ctx.field.kind.elem.field)
    else Failure(AttributeError)
  }

  /** Lines 344-348: every entry validated by the list's element field, or by
      the context itself when it is not a ListField. */
  function ValidateEach(env: Env, xs: seq<Value>, ctx: Context): (r: Result<()>)
    ensures !IsListField(ctx) ==> (r.Success? <==> forall i :: 0 <= i < |xs| ==> env.validate(ctx, xs[i]))
    ensures ElementField(ctx).Success? ==>
      (r.Success? <==> forall i :: 0 <= i < |xs| ==> env.validate(FieldCtx(ElementField(ctx).value), xs[i]))
    ensures r.Failure? ==> r.error == Invalid || (r.error == AttributeError && IsListField(ctx) && ElementField(ctx).Failure?)
  {
    if xs == [] then Success(())
    else
      var target :- if IsListField(ctx) then (var f :- ElementField(ctx); Success(FieldCtx(f))) else Success(ctx);
      var _ :- Check(env.validate(target, xs[0]), Invalid);
      ValidateEach(env, xs[1..], ctx)
  }

  /** Lines 338-350. */
  function ValidateValue(env: Env, v: Value, ctx: Context, op: Option<string>): (r: Result<()>)
    ensures Classify(op) == Validating ==> (r.Success? <==> env.validate(ctx, v))
    ensures Classify(op) == ListValidating ==>
      (r.Success? <==> ElementField(ctx).Success? && env.validate(FieldCtx(ElementField(ctx).value), v))
    ensures Classify(op) == ListValidatingAll && v.VList? && !IsListField(ctx) ==>
      (r.Success? <==> forall i :: 0 <= i < |v.items| ==> env.validate(ctx, v.items[i]))
    ensures Classify(op) == Unchecked ==> r.Success?
    ensures Classify(op) == Unknown ==> r == Failure(UnknownOperator(OpName(op)))
    ensures r.Failure? ==> r.error in {Invalid, UnknownOperator(OpName(op)), AttributeError, TypeError}
  {
    match Classify(op)
    case Validating => Check(env.validate(ctx, v), Invalid)
    case ListValidating =>
      var f :- ElementField(ctx);
      Check(env.validate(FieldCtx(f), v), Invalid)
    case ListValidatingAll =>
      var xs :- Iterate(v);
      ValidateEach(env, xs, ctx)
    case Unchecked => Success(())
    case Unknown => Failure(UnknownOperator(OpName(op)))
  }

  /** Lines 329-350: the ObjectId encoding, then the validation. */
  function Prepare(env: Env, value: Value, ctx: Context, op: Option<string>, validate: bool): (r: Result<Value>)
    ensures !validate && r.Failure? ==> r.error == TypeError
    ensures !validate && !IsObjectIdField(ctx) ==> r == Success(value)
    ensures r.Success? ==> EncodeObjectIds(value, ctx, Classify(op)) == r
    ensures validate && Classify(op) == Validating ==>
      (r.Success? <==> env.validate(ctx, if IsObjectIdField(ctx) then ObjectIdOf(value) else value))
    ensures validate && Classify(op) == Validating && r.Failure? ==> r.error == Invalid
    ensures validate && Classify(op) == Unknown ==> r == Failure(UnknownOperator(OpName(op)))
  {
    var encoded :- EncodeObjectIds(value, ctx, Classify(op));
    var _ :- if validate then ValidateValue(env, encoded, ctx, op) else Success(());
    Success(encoded)
  }

  predicate IsListOfEmbedded(ctx: Context)
  {
    IsListField(ctx) && ctx.field.kind.elem.ElemField? && ctx.field.kind.elem.field.kind.Embedded?
  }

  /** `d.to_mongo()` for every element of a list of documents. */
  function AllToMongo(xs: seq<Value>): (r: Result<seq<Value>>)
    ensures r.Success? ==> |r.value| == |xs|
    ensures r.Success? <==> forall i :: 0 <= i < |xs| ==> xs[i].VDocument?
    ensures r.Success? ==> forall i :: 0 <= i < |xs| ==> r.value[i] == VDict(xs[i].son)
    ensures r.Failure? ==> r.error == AttributeError
  {
    if xs == [] then Success([])
    else if !xs[0].VDocument? then Failure(AttributeError)
    else
      var rest :- AllToMongo(xs[1..]);
      Success([VDict(xs[0].son)] + rest)
  }

  /** A dict value under a DictField: each value that is a document replaced
      by its to_mongo(), every key kept. */
  function EncodeDictValue(v: Value): Value
  {
    if v.VDocument? then VDict(v.son) else v
  }

  function EncodeDictEntries(es: seq<(string, Value)>): (r: seq<(string, Value)>)
    ensures |r| == |es| && forall i :: 0 <= i < |es| ==> r[i] == (es[i].0, EncodeDictValue(es[i].1))
  {
    seq(|es|, i requires 0 <= i < |es| => (es[i].0, EncodeDictValue(es[i].1)))
  }

  /** Lines 352-365. */
  function ToMongo(v: Value, ctx: Context): (r: Result<Value>)
    ensures r.Failure? ==> r.error == TypeError || r.error == AttributeError
    ensures v.VDocument? ==> r == Success(VDict(v.son))
    ensures !v.VDocument? && IsListOfEmbedded(ctx) && v.VList? ==>
      (r.Success? <==> forall i :: 0 <= i < |v.items| ==> v.items[i].VDocument?)
      && (r.Success? ==> r.value.VList? && |r.value.items| == |v.items|
                         && forall i :: 0 <= i < |v.items| ==> r.value.items[i] == VDict(v.items[i].son))
    ensures !v.VDocument? && IsDictField(ctx) ==>
      r == if v.VDict? then Success(VDict(EncodeDictEntries(v.entries))) else Failure(AttributeError)
    ensures !v.VDocument? && !IsListOfEmbedded(ctx) && !IsDictField(ctx) ==> r == Success(v)
  {
    if v.VDocument? then Success(VDict(v.son))
    else if IsListOfEmbedded(ctx) then
      var xs :- Iterate(v);
      var ys :- AllToMongo(xs);
      Success(VList(ys))
    else if IsDictField(ctx) then
      if v.VDict? then Success(VDict(EncodeDictEntries(v.entries))) else Failure(AttributeError)
    else Success(v)
  }

  predicate IsValidationError(e: Error)
  {
    e.UnknownOperator? || e.Invalid?
  }

  /** The exceptions _transform_value can raise. */
  predicate IsTransformError(e: Error)
  {
    IsPathError(e) || IsValidationError(e) || e.TypeError?
  }

  /** Document._transform_value(value, context, op, validate) (lines 296-367):
      a dict that is walked gives a new SON; every failure is a path error,
      a validation error or a TypeError. */
  function TransformValue(env: Env, value: Value, ctx: Context, op: Option<string>, validate: bool): (r: Result<Value>)
    ensures r.Success? && value.VDict? && !IsDictField(ctx) ==> r.value.VDict?
    ensures r.Failure? ==> IsTransformError(r.error)
    decreases value, if value.VDict? then |value.entries| + 1 else 0
  {
    if value.VDict? && !IsDictField(ctx) then TransformEntries(env, value.entries, 0, ctx, op, validate, [])
    else Leaf(env, value, ctx, op, validate)
  }

  /** A value that is not walked into: encoded, validated, converted. */
  function Leaf(env: Env, value: Value, ctx: Context, op: Option<string>, validate: bool): (r: Result<Value>)
    ensures !validate && r.Failure? ==> r.error == TypeError || r.error == AttributeError
    ensures validate && Classify(op) == Unknown ==> r == Failure(UnknownOperator(OpName(op)))
    ensures validate && Classify(op) == Validating && !IsObjectIdField(ctx) ==>
      (r == Failure(Invalid) <==> !env.validate(ctx, value))
    ensures Classify(op) == Validating && !IsObjectIdField(ctx) && (!validate || env.validate(ctx, value)) ==>
      r == ToMongo(value, ctx)
    ensures r.Failure? ==> IsTransformError(r.error)
  {
    var encoded :- Prepare(env, value, ctx, op, validate);
    ToMongo(encoded, ctx)
  }

  /** The loop of lines 316-324 from entry i on, with the operator in force
      and the SON built so far. A key that starts with `$` becomes the
      operator for its own value and for every later sibling. */
  function TransformEntries(env: Env, es: seq<(string, Value)>, i: nat, ctx: Context, op: Option<string>,
                            validate: bool, son: seq<(string, Value)>): (r: Result<Value>)
    requires i <= |es|
    ensures r.Success? ==> r.value.VDict?
    ensures r.Failure? ==> IsTransformError(r.error)
    decreases VDict(es), |es| - i
  {
    if i == |es| then Success(VDict(son))
    else
      var key := es[i].0;
      if key == "" then Failure(IndexError)
      else
        var current := if key[0] == '$' then Some(key) else op;
        var k :- TransformKey(env.registry, key, ctx, "");
        var v :- TransformValue(env, es[i].1, k.1, current, validate);
        TransformEntries(env, es, i + 1, ctx, current, validate, SonSet(son, k.0, v))
  }

  /** The context the walk passes a dict entry's value down to (line 320).
      A key that cannot be translated aborts the whole transform; the
      dict's own context stands in for it then. */
  function ChildContext(reg: map<string, DocSchema>, key: string, ctx: Context): (r: Context)
    ensures TransformKey(reg, key, ctx, "").Success? ==> r == TransformKey(reg, key, ctx, "").value.1
  {
    var k := TransformKey(reg, key, ctx, "");
    if k.Success? then k.value.1 else ctx
  }

  /** The caller's own object `value` as _transform_value(value, ctx) leaves
      it. A dict that is walked is not changed itself (a new SON is built),
      but each of its values is left as its own transform leaves it; a dict
      bound for a DictField has its documents replaced by their SON in place
      (lines 362-365); every other value is untouched. */
  function Settled(reg: map<string, DocSchema>, value: Value, ctx: Context): (r: Value)
    ensures r.VDict? <==> value.VDict?
    ensures r.VDict? ==> |r.entries| == |value.entries| && forall j :: 0 <= j < |value.entries| ==> r.entries[j].0 == value.entries[j].0
    ensures !value.VDict? ==> r == value
    ensures value.VDict? && IsDictField(ctx) ==> r.entries == EncodeDictEntries(value.entries)
    decreases value
  {
    match value
    case VDict(es) =>
      if IsDictField(ctx) then VDict(EncodeDictEntries(es))
      else VDict(seq(|es|, j requires 0 <= j < |es| => (es[j].0, Settled(reg, es[j].1, ChildContext(reg, es[j].0, ctx)))))
    case _ => value
  }

  /** One pass of the loop of lines 316-324, when the key and the value
      both translate. */
  lemma EntriesUnfold(env: Env, es: seq<(string, Value)>, i: nat, ctx: Context, op: Option<string>,
                      validate: bool, son: seq<(string, Value)>, k: (string, Context), v: Value)
    requires i < |es| && es[i].0 != ""
    requires TransformKey(env.registry, es[i].0, ctx, "") == Success(k)
    requires TransformValue(env, es[i].1, k.1, if es[i].0[0] == '$' then Some(es[i].0) else op, validate) == Success(v)
    ensures TransformEntries(env, es, i, ctx, op, validate, son)
         == TransformEntries(env, es, i + 1, ctx, if es[i].0[0] == '$' then Some(es[i].0) else op, validate, SonSet(son, k.0, v))
  {
  }

  lemma ChildSmaller(es: seq<(string, Value)>, i: nat)
    requires i < |es|
    ensures es[i].1 < VDict(es)
  {
    assert es[i] in es;
  }

  /** _transform_value as the source runs it: the SON is built by a loop and
      a dict bound for a DictField has its document values replaced by
      their SON. */
  method Transform(env: Env, value: Value, ctx: Context, op: Option<string>, validate: bool) returns (r: Result<Value>)
    ensures r == TransformValue(env, value, ctx, op, validate)
    decreases value, if value.VDict? then |value.entries| + 2 else 0
  {
    if value.VDict? && !IsDictField(ctx) {
      r := TransformDict(env, value.entries, ctx, op, validate);
    } else {
      r := TransformLeaf(env, value, ctx, op, validate);
    }
  }

  /** The loop of lines 314-326 building the SON. */
  method TransformDict(env: Env, es: seq<(string, Value)>, ctx: Context, op: Option<string>, validate: bool)
    returns (r: Result<Value>)
    ensures r == TransformEntries(env, es, 0, ctx, op, validate, [])
    decreases VDict(es), |es| + 1
  {
    var son: seq<(string, Value)> := [];
    var current := op;
    var i := 0;
    while i < |es|
      invariant 0 <= i <= |es|
      invariant TransformEntries(env, es, i, ctx, current, validate, son) == TransformEntries(env, es, 0, ctx, op, validate, [])
    {
      var next := TransformEntry(env, es, i, ctx, current, validate, son);
      if next.Failure? {
        return Failure(next.error);
      }
      son, current := next.value.0, next.value.1;
      i := i + 1;
    }
    return Success(VDict(son));
  }

  /** One pass of that loop: the entry's key translated, its value
      transformed under the operator now in force, the pair stored. */
  method TransformEntry(env: Env, es: seq<(string, Value)>, i: nat, ctx: Context, current: Option<string>,
                        validate: bool, son: seq<(string, Value)>)
    returns (r: Result<(seq<(string, Value)>, Option<string>)>)
    requires i < |es|
    ensures r.Failure? ==> TransformEntries(env, es, i, ctx, current, validate, son) == Failure(r.error)
    ensures r.Success? ==>
      TransformEntries(env, es, i, ctx, current, validate, son)
      == TransformEntries(env, es, i + 1, ctx, r.value.1, validate, r.value.0)
    decreases VDict(es), |es| - i
  {
    var key := es[i].0;
    if key == "" {
      return Failure(IndexError);
    }
    var next := if key[0] == '$' then Some(key) else current;
    var k := TransformKey(env.registry, key, ctx, "");
    if k.Failure? {
      return Failure(k.error);
    }
    ChildSmaller(es, i);
    var v := Transform(env, es[i].1, k.value.1, next, validate);
    if v.Failure? {
      return Failure(v.error);
    }
    EntriesUnfold(env, es, i, ctx, current, validate, son, k.value, v.value);
    return Success((SonSet(son, k.value.0, v.value), next));
  }

  /** The leaf branch. The replacement of lines 362-365 runs over the
      entries of the dict; the dict returned is the caller's dict as the
      replacement leaves it. */
  method TransformLeaf(env: Env, value: Value, ctx: Context, op: Option<string>, validate: bool) returns (r: Result<Value>)
    ensures r == Leaf(env, value, ctx, op, validate)
    ensures r.Success? && IsDictField(ctx) && value.VDict? ==> r.value == Settled(env.registry, value, ctx)
  {
    var prepared := Prepare(env, value, ctx, op, validate);
    if prepared.Failure? {
      return Failure(prepared.error);
    }
    var encoded := prepared.value;
    if encoded.VDocument? || !IsDictField(ctx) {
      return ToMongo(encoded, ctx);
    }
    if !encoded.VDict? {
      return Failure(AttributeError);
    }
    var entries := encoded.entries;
    var j := 0;
    while j < |entries|
      invariant 0 <= j <= |entries| == |encoded.entries|
      invariant forall m :: 0 <= m < j ==> entries[m] == (encoded.entries[m].0, EncodeDictValue(encoded.entries[m].1))
      invariant forall m :: j <= m < |entries| ==> entries[m] == encoded.entries[m]
    {
      if entries[j].1.VDocument? {
        entries := entries[j := (entries[j].0, VDict(entries[j].1.son))];
      }
      j := j + 1;
    }
    assert entries == EncodeDictEntries(encoded.entries);
    return Success(VDict(entries));
  }

  /** With validate=False nothing is ever rejected as invalid or as an
      unknown operator. */
  lemma {:induction false} UncheckedNeverRejects(env: Env, value: Value, ctx: Context, op: Option<string>)
    ensures var r := TransformValue(env, value, ctx, op, false); r.Failure? ==> !IsValidationError(r.error)
    decreases value, if value.VDict? then |value.entries| + 1 else 0
  {
    if value.VDict? && !IsDictField(ctx) {
      UncheckedEntriesNeverReject(env, value.entries, 0, ctx, op, []);
    }
  }

  lemma {:induction false} UncheckedEntriesNeverReject(env: Env, es: seq<(string, Value)>, i: nat, ctx: Context,
                                                       op: Option<string>, son: seq<(string, Value)>)
    requires i <= |es|
    ensures var r := TransformEntries(env, es, i, ctx, op, false, son); r.Failure? ==> !IsValidationError(r.error)
    decreases VDict(es), |es| - i
  {
    if i < |es| && es[i].0 != "" {
      var key := es[i].0;
      var current := if key[0] == '$' then Some(key) else op;
      var k := TransformKey(env.registry, key, ctx, "");
      if k.Success? {
        UncheckedNeverRejects(env, es[i].1, k.value.1, current);
        var v := TransformValue(env, es[i].1, k.value.1, current, false);
        if v.Success? {
          UncheckedEntriesNeverReject(env, es, i + 1, ctx, current, SonSet(son, k.value.0, v.value));
        }
      }
    }
  }

  /** The translated paths of the keys of es from entry i on. */
  function TranslatedPaths(reg: map<string, DocSchema>, es: seq<(string, Value)>, i: nat, ctx: Context): set<string>
    requires i <= |es|
    decreases |es| - i
  {
    if i == |es| then {} else {PathOf(reg, es[i].0, ctx)} + TranslatedPaths(reg, es, i + 1, ctx)
  }

  /** The keys of a translated document are exactly the translated paths of
      its keys: `{'$set': {'name': .., 'age': ..}}` gives `{'$set': {'name': .., 'a': ..}}`. */
  lemma TranslatedKeys(env: Env, es: seq<(string, Value)>, ctx: Context, op: Option<string>, validate: bool)
    requires !IsDictField(ctx)
    requires TransformValue(env, VDict(es), ctx, op, validate).Success?
    ensures forall i :: 0 <= i < |es| ==> TransformKey(env.registry, es[i].0, ctx, "").Success?
    ensures TransformValue(env, VDict(es), ctx, op, validate).value.VDict?
    ensures KeySet(TransformValue(env, VDict(es), ctx, op, validate).value.entries)
         == TranslatedPaths(env.registry, es, 0, ctx)
  {
    EntriesKeys(env, es, 0, ctx, op, validate, []);
    EntriesKeysTranslate(env, es, 0, ctx, op, validate, []);
  }

  lemma {:induction false} EntriesKeys(env: Env, es: seq<(string, Value)>, i: nat, ctx: Context, op: Option<string>,
                                       validate: bool, son: seq<(string, Value)>)
    requires i <= |es|
    requires TransformEntries(env, es, i, ctx, op, validate, son).Success?
    ensures TransformEntries(env, es, i, ctx, op, validate, son).value.VDict?
    ensures KeySet(TransformEntries(env, es, i, ctx, op, validate, son).value.entries)
         == KeySet(son) + TranslatedPaths(env.registry, es, i, ctx)
    decreases |es| - i
  {
    if i < |es| {
      var key := es[i].0;
      var current := if key[0] == '$' then Some(key) else op;
      var k := TransformKey(env.registry, key, ctx, "").value;
      var v := TransformValue(env, es[i].1, k.1, current, validate).value;
      var son' := SonSet(son, k.0, v);
      assert TransformEntries(env, es, i, ctx, op, validate, son)
          == TransformEntries(env, es, i + 1, ctx, current, validate, son');
      EntriesKeys(env, es, i + 1, ctx, current, validate, son');
      SonSetKeys(son, k.0, v);
    }
  }

  lemma {:induction false} EntriesKeysTranslate(env: Env, es: seq<(string, Value)>, i: nat, ctx: Context,
                                                op: Option<string>, validate: bool, son: seq<(string, Value)>)
    requires i <= |es|
    requires TransformEntries(env, es, i, ctx, op, validate, son).Success?
    ensures forall j :: i <= j < |es| ==> TransformKey(env.registry, es[j].0, ctx, "").Success?
    decreases |es| - i
  {
    if i < |es| {
      var key := es[i].0;
      var current := if key[0] == '$' then Some(key) else op;
      var k := TransformKey(env.registry, key, ctx, "").value;
      var v := TransformValue(env, es[i].1, k.1, current, validate).value;
      var son' := SonSet(son, k.0, v);
      assert TransformEntries(env, es, i, ctx, op, validate, son)
          == TransformEntries(env, es, i + 1, ctx, current, validate, son');
      EntriesKeysTranslate(env, es, i + 1, ctx, current, validate, son');
      forall j | i <= j < |es| ensures TransformKey(env.registry, es[j].0, ctx, "").Success? {
        if j == i {
          assert TransformKey(env.registry, key, ctx, "").Success?;
        }
      }
    }
  }

  /** A key without a dot is translated by its single segment. */
  lemma UndottedKey(reg: map<string, DocSchema>, key: string, ctx: Context)
    requires '.' !in key
    ensures var st := Step(reg, key, ctx);
      TransformKey(reg, key, ctx, "") == if st.Success? then Success(st.value) else Failure(st.error)
  {
  }

  /** Every value that is not walked into is rejected under an operator no
      table holds, when validated (lines 349-350). */
  lemma UnknownOperatorLeaf(env: Env, value: Value, ctx: Context, op: Option<string>)
    requires Classify(op) == Unknown
    requires !(value.VDict? && !IsDictField(ctx))
    ensures TransformValue(env, value, ctx, op, true) == Failure(UnknownOperator(OpName(op)))
  {
  }

  /** A validated query or update naming an operator no table holds is
      rejected as soon as the walk reaches a value under it: here the first
      field of its operand, in any context and whatever follows. */
  lemma UnknownOperatorRejected(env: Env, ctx: Context, opKey: string, es: seq<(string, Value)>,
                                rest: seq<(string, Value)>, op: Option<string>)
    requires !IsDictField(ctx)
    requires opKey != "" && opKey[0] == '$' && '.' !in opKey
    requires Classify(Some(opKey)) == Unknown
    requires |es| > 0 && es[0].0 != "" && es[0].0[0] != '$'
    requires TransformKey(env.registry, es[0].0, ctx, "").Success?
    requires var c := TransformKey(env.registry, es[0].0, ctx, "").value.1; !(es[0].1.VDict? && !IsDictField(c))
    ensures TransformValue(env, VDict([(opKey, VDict(es))] + rest), ctx, op, true) == Failure(UnknownOperator(opKey))
  {
    UndottedKey(env.registry, opKey, ctx);
    assert TransformKey(env.registry, opKey, ctx, "") == Success((opKey, ctx));
    var c := TransformKey(env.registry, es[0].0, ctx, "").value.1;
    UnknownOperatorLeaf(env, es[0].1, c, Some(opKey));
    assert TransformEntries(env, es, 0, ctx, Some(opKey), true, []) == Failure(UnknownOperator(opKey));
    var outer := [(opKey, VDict(es))] + rest;
    assert outer[0] == (opKey, VDict(es));
    assert TransformEntries(env, outer, 0, ctx, op, true, []) == Failure(UnknownOperator(opKey));
  }

  /** Under an ObjectIdField a validating operator sends ObjectId(value),
      and validates that (lines 330-331). */
  lemma ObjectIdEncoded(env: Env, value: Value, f: Field, op: Option<string>, validate: bool)
    requires f.kind.ObjectIdKind? && Classify(op) == Validating
    ensures Leaf(env, value, FieldCtx(f), op, validate)
         == if validate && !env.validate(FieldCtx(f), ObjectIdOf(value)) then Failure(Invalid) else Success(ObjectIdOf(value))
  {
  }

  /** Under an ObjectIdField a list operator sends every element as an
      ObjectId (lines 334-336). $in and the other whole-list operators
      validate each element with the field; $push, $addToSet and $pull look
      for an element field an ObjectIdField does not have. */
  lemma ObjectIdsEncoded(env: Env, xs: seq<Value>, f: Field, op: Option<string>, validate: bool)
    requires f.kind.ObjectIdKind?
    requires Classify(op) == ListValidating || Classify(op) == ListValidatingAll
    ensures var ids := VList(seq(|xs|, i requires 0 <= i < |xs| => ObjectIdOf(xs[i])));
      && (!validate ==> Leaf(env, VList(xs), FieldCtx(f), op, validate) == Success(ids))
      && (validate && Classify(op) == ListValidating ==> Leaf(env, VList(xs), FieldCtx(f), op, validate) == Failure(AttributeError))
      && (validate && Classify(op) == ListValidatingAll ==>
            Leaf(env, VList(xs), FieldCtx(f), op, validate)
            == if forall i :: 0 <= i < |xs| ==> env.validate(FieldCtx(f), ObjectIdOf(xs[i])) then Success(ids) else Failure(Invalid))
  {
    var ctx := FieldCtx(f);
    var ids := VList(seq(|xs|, i requires 0 <= i < |xs| => ObjectIdOf(xs[i])));
    assert EncodeObjectIds(VList(xs), ctx, Classify(op)) == Success(ids);
    assert ToMongo(ids, ctx) == Success(ids);
    if validate && Classify(op) == ListValidatingAll {
      var checked := ValidateEach(env, ids.items, ctx);
      assert ValidateValue(env, ids, ctx, op) == checked;
      assert checked.Success? <==> forall i :: 0 <= i < |xs| ==> env.validate(ctx, ObjectIdOf(xs[i])) by {
        assert forall i :: 0 <= i < |xs| ==> ids.items[i] == ObjectIdOf(xs[i]);
      }
      assert Prepare(env, VList(xs), ctx, op, validate) == if checked.Success? then Success(ids) else Failure(Invalid);
    }
  }

  /** `{'$in': ids}` read at an ObjectIdField: every id sent as an ObjectId. */
  lemma InOperandEncoded(env: Env, f: Field, xs: seq<Value>, validate: bool)
    requires f.kind.ObjectIdKind?
    requires validate ==> forall i :: 0 <= i < |xs| ==> env.validate(FieldCtx(f), ObjectIdOf(xs[i]))
    ensures TransformValue(env, VDict([("$in", VList(xs))]), FieldCtx(f), None, validate)
         == Success(VDict([("$in", VList(seq(|xs|, i requires 0 <= i < |xs| => ObjectIdOf(xs[i]))))]))
  {
    var pk := FieldCtx(f);
    var ids := VList(seq(|xs|, i requires 0 <= i < |xs| => ObjectIdOf(xs[i])));
    UndottedKey(env.registry, "$in", pk);
    assert TransformKey(env.registry, "$in", pk, "") == Success(("$in", pk));
    ObjectIdsEncoded(env, xs, f, Some("$in"), validate);
    assert TransformValue(env, VList(xs), pk, Some("$in"), validate) == Success(ids);
    var inner := [("$in", VList(xs))];
    assert inner[0].0 == "$in";
    assert TransformEntries(env, inner, 1, pk, Some("$in"), validate, [("$in", ids)]) == Success(VDict([("$in", ids)]));
  }

  /** `{'_id': {'$in': ids}}` on a class whose primary key is an
      ObjectIdField: every id is sent as an ObjectId, under the same keys. */
  lemma InQueryEncodesIds(env: Env, d: DocSchema, xs: seq<Value>, validate: bool)
    requires IsDocumentClass(d) && d.fields[d.idField.value].kind.ObjectIdKind?
    requires validate ==> forall i :: 0 <= i < |xs| ==> env.validate(FieldCtx(d.fields[d.idField.value]), ObjectIdOf(xs[i]))
    ensures TransformValue(env, VDict([("_id", VDict([("$in", VList(xs))]))]), DocCtx(d), None, validate)
         == Success(VDict([("_id", VDict([("$in", VList(seq(|xs|, i requires 0 <= i < |xs| => ObjectIdOf(xs[i]))))]))]))
  {
    var pk := FieldCtx(d.fields[d.idField.value]);
    var encoded := VDict([("$in", VList(seq(|xs|, i requires 0 <= i < |xs| => ObjectIdOf(xs[i]))))]);
    assert !IsDigits("_id") by { assert "_id"[0] == '_'; }
    UndottedKey(env.registry, "_id", DocCtx(d));
    assert TransformKey(env.registry, "_id", DocCtx(d), "") == Success(("_id", pk));
    InOperandEncoded(env, pk.field, xs, validate);
    var outer := [("_id", VDict([("$in", VList(xs))]))];
    assert outer[0].0 == "_id";
    assert TransformEntries(env, outer, 1, DocCtx(d), None, validate, [("_id", encoded)]) == Success(VDict([("_id", encoded)]));
  }

  /** Under a DictField a dict keeps every key; only document values are
      encoded. */
  lemma DictFieldKeepsKeys(env: Env, es: seq<(string, Value)>, f: Field, op: Option<string>, validate: bool)
    requires f.kind.Dict?
    requires TransformValue(env, VDict(es), FieldCtx(f), op, validate).Success?
    ensures TransformValue(env, VDict(es), FieldCtx(f), op, validate) == Success(VDict(EncodeDictEntries(es)))
    ensures TransformValue(env, VDict(es), FieldCtx(f), op, validate) == Success(Settled(env.registry, VDict(es), FieldCtx(f)))
  {
  }
}
