/** The request Document.find_raw hands to the collection: the translated
    query (tagged with the class name when the class allows inheritance),
    the translated field selection, the translated sort and the read
    preference. */
module FindRequest {
  import opened Values
  import opened Schema
  import opened KeyPath
  import opened QueryValues

  datatype ReadPreference = Primary | Secondary

  /** What is passed on to find() or find_one(). */
  datatype Request = Request(
    spec: Value,
    fields: Value,
    sort: Value,
    readPreference: ReadPreference)

  /** `[cls._transform_key(f, cls)[0] for f in fields]` (line 149): every
      item is a name translated in order. */
  function TranslateNames(reg: map<string, DocSchema>, items: seq<Value>, ctx: Context): (r: Result<seq<Value>>)
    ensures r.Success? ==> |r.value| == |items|
    ensures r.Success? ==> forall i :: 0 <= i < |items| ==>
      items[i].VStr? && TransformKey(reg, items[i].s, ctx, "").Success?
      && r.value[i] == VStr(PathOf(reg, items[i].s, ctx))
    ensures r.Failure? ==> IsPathError(r.error)
  {
    if items == [] then Success([])
    else
      var first :- TranslateName(reg, items[0], ctx);
      var rest :- TranslateNames(reg, items[1..], ctx);
      Success([VStr(first)] + rest)
  }

  /** `dict([[cls._transform_key(f, cls)[0], fields[f]] for f in fields])`
      (lines 151-152) from entry i on; two names that translate alike keep
      the later value. */
  function TranslateFieldMap(reg: map<string, DocSchema>, es: seq<(string, Value)>, i: nat, ctx: Context,
                             acc: seq<(string, Value)>): (r: Result<seq<(string, Value)>>)
    requires i <= |es|
    ensures r.Failure? ==> IsPathError(r.error)
    decreases |es| - i
  {
    if i == |es| then Success(acc)
    else
      var k :- TransformKey(reg, es[i].0, ctx, "");
      TranslateFieldMap(reg, es, i + 1, ctx, SonSet(acc, k.0, es[i].1))
  }

  /** Lines 147-152: a list (or tuple) of names or a dict of names is
      translated in the class, and any other `fields` is passed on as it
      is; any untranslatable name raises its path error. */
  function TranslateProjection(reg: map<string, DocSchema>, fields: Value, ctx: Context): (r: Result<Value>)
    ensures !fields.VList? && !fields.VDict? ==> r == Success(fields)
    ensures fields.VList? && r.Success? ==>
      r.value.VList? && |r.value.items| == |fields.items|
      && forall i :: 0 <= i < |fields.items| ==>
           fields.items[i].VStr? && r.value.items[i] == VStr(PathOf(reg, fields.items[i].s, ctx))
    ensures fields.VDict? && r.Success? ==> r.value.VDict?
    ensures r.Failure? ==> IsPathError(r.error)
  {
    match fields
    case VList(items) =>
      var translated :- TranslateNames(reg, items, ctx);
      Success(VList(translated))
    case VDict(es) =>
      var translated :- TranslateFieldMap(reg, es, 0, ctx, []);
      Success(VDict(translated))
    case _ => Success(fields)
  }

  /** A name that is not a string in a list of fields has no `split`, so the
      whole selection raises AttributeError. */
  lemma NonStringFieldRejected(reg: map<string, DocSchema>, items: seq<Value>, j: nat, ctx: Context)
    requires j < |items| && !items[j].VStr?
    requires forall i :: 0 <= i < j ==> TranslateName(reg, items[i], ctx).Success?
    ensures TranslateProjection(reg, VList(items), ctx) == Failure(AttributeError)
  {
    NamesFailAt(reg, items, j, ctx);
  }

  lemma {:induction false} NamesFailAt(reg: map<string, DocSchema>, items: seq<Value>, j: nat, ctx: Context)
    requires j < |items| && TranslateName(reg, items[j], ctx).Failure?
    requires forall i :: 0 <= i < j ==> TranslateName(reg, items[i], ctx).Success?
    ensures TranslateNames(reg, items, ctx) == Failure(TranslateName(reg, items[j], ctx).error)
    decreases j
  {
    if j > 0 {
      NamesFailAt(reg, items[1..], j - 1, ctx);
      assert items[1..][j - 1] == items[j];
    }
  }

  /** A dict of fields keeps its values under exactly the translated names:
      each translated name holds the value of the last entry translating to
      it. */
  lemma ProjectionTranslated(reg: map<string, DocSchema>, es: seq<(string, Value)>, ctx: Context)
    requires TranslateProjection(reg, VDict(es), ctx).Success?
    ensures var r := TranslateProjection(reg, VDict(es), ctx).value;
      r.VDict? && KeySet(r.entries) == (set j | 0 <= j < |es| :: PathOf(reg, es[j].0, ctx))
    ensures var r := TranslateProjection(reg, VDict(es), ctx).value;
      forall j :: 0 <= j < |es| && LastTranslating(reg, es, j, ctx) ==>
        Lookup(r.entries, PathOf(reg, es[j].0, ctx)) == Some(es[j].1)
  {
    FieldMapKeys(reg, es, 0, ctx, []);
    forall j | 0 <= j < |es| && LastTranslating(reg, es, j, ctx)
      ensures Lookup(TranslateFieldMap(reg, es, 0, ctx, []).value, PathOf(reg, es[j].0, ctx)) == Some(es[j].1)
    {
      FieldMapLastWins(reg, es, 0, ctx, [], j);
    }
  }

  /** No entry after j translates to the name entry j translates to. */
  predicate LastTranslating(reg: map<string, DocSchema>, es: seq<(string, Value)>, j: nat, ctx: Context)
    requires j < |es|
  {
    forall m :: j < m < |es| ==> PathOf(reg, es[m].0, ctx) != PathOf(reg, es[j].0, ctx)
  }

  /** `for f, dir in sort`: each item of the sort is unpacked into a name
      and a direction; an item that is not iterable raises TypeError, one
      with other than two elements ValueError. A string item is iterated
      by character, so `'age'` has three. */
  function Unpack2(item: Value): (r: Result<(Value, Value)>)
    ensures item.VList? && |item.items| == 2 ==> r == Success((item.items[0], item.items[1]))
    ensures item.VStr? && |item.s| != 2 ==> r == Failure(WrongArity)
    ensures item.VNone? || item.VInt? ==> r == Failure(TypeError)
    ensures r.Failure? ==> r.error == WrongArity || r.error == TypeError
  {
    var xs :- Iterate(item);
    if |xs| != 2 then Failure(WrongArity) else Success((xs[0], xs[1]))
  }

  /** The exceptions the sort loop can raise. */
  predicate IsSortError(e: Error)
  {
    IsPathError(e) || e.WrongArity? || e.TypeError?
  }

  /** `cls._transform_key(f, cls)[0]` on a field or sort name (lines 149,
      152 and 158): a name that is not a string has no `split` and raises
      AttributeError. */
  function TranslateName(reg: map<string, DocSchema>, f: Value, ctx: Context): (r: Result<string>)
    ensures f.VStr? ==> r == (var k := TransformKey(reg, f.s, ctx, ""); if k.Success? then Success(k.value.0) else Failure(k.error))
    ensures !f.VStr? ==> r == Failure(AttributeError)
    ensures r.Failure? ==> IsPathError(r.error)
  {
    if f.VStr? then
      var k :- TransformKey(reg, f.s, ctx, "");
      Success(k.0)
    else Failure(AttributeError)
  }

  /** One item of the loop of lines 156-159: unpacked into a name and a
      direction, the name translated, the pair `(f, dir)` (a two-element
      sequence) appended. */
  function SortItem(reg: map<string, DocSchema>, item: Value, ctx: Context): (r: Result<Value>)
    ensures r.Failure? ==> IsSortError(r.error)
  {
    var pair :- Unpack2(item);
    var f :- TranslateName(reg, pair.0, ctx);
    Success(VList([VStr(f), pair.1]))
  }

  /** An item that translates was a pair whose name translates, and
      becomes the translated name with the same direction. */
  lemma SortItemTranslated(reg: map<string, DocSchema>, item: Value, ctx: Context)
    requires SortItem(reg, item, ctx).Success?
    ensures Unpack2(item).Success? && Unpack2(item).value.0.VStr?
    ensures TransformKey(reg, Unpack2(item).value.0.s, ctx, "").Success?
    ensures SortItem(reg, item, ctx).value == VList([VStr(PathOf(reg, Unpack2(item).value.0.s, ctx)), Unpack2(item).value.1])
  {
  }

  /** A loop that appends `f(item)` for every item from i on, in order,
      and stops at the first item that raises. */
  function MapItems(f: Value -> Result<Value>, items: seq<Value>, i: nat): (r: Result<seq<Value>>)
    requires i <= |items|
    ensures r.Success? ==> |r.value| == |items| - i
    ensures r.Failure? ==> exists j :: i <= j < |items| && f(items[j]) == Failure(r.error)
    decreases |items| - i
  {
    if i == |items| then Success([])
    else
      var x :- f(items[i]);
      var rest :- MapItems(f, items, i + 1);
      Success([x] + rest)
  }

  /** Every item of a completed loop is `f` of the item at the same
      position. */
  lemma {:induction false} MapItemsAt(f: Value -> Result<Value>, items: seq<Value>, i: nat, j: nat)
    requires i <= j < |items|
    requires MapItems(f, items, i).Success?
    ensures f(items[j]).Success? && MapItems(f, items, i).value[j - i] == f(items[j]).value
    decreases j - i
  {
    if i < j {
      MapItemsAt(f, items, i + 1, j);
    }
  }

  /** SortItem in the class and context of the query. */
  function SortItemIn(reg: map<string, DocSchema>, ctx: Context): Value -> Result<Value>
  {
    item => SortItem(reg, item, ctx)
  }

  /** The loop of lines 156-159 from item i on. */
  function TranslateSort(reg: map<string, DocSchema>, items: seq<Value>, i: nat, ctx: Context): (r: Result<seq<Value>>)
    requires i <= |items|
    ensures r.Success? ==> |r.value| == |items| - i
    ensures r.Failure? ==> IsSortError(r.error)
  {
    MapItems(SortItemIn(reg, ctx), items, i)
  }

  /** The translated items so far put in front of the translation of the
      rest. */
  function Prepend(done: seq<Value>, rest: Result<seq<Value>>): Result<seq<Value>>
  {
    if rest.Success? then Success(done + rest.value) else rest
  }

  lemma PrependNothing(rest: Result<seq<Value>>)
    ensures Prepend([], rest) == rest
  {
    if rest.Success? {
      assert [] + rest.value == rest.value;
    }
  }

  /** One pass of the sort loop. */
  lemma SortStep(reg: map<string, DocSchema>, items: seq<Value>, i: nat, ctx: Context, done: seq<Value>)
    requires i < |items|
    ensures var x := SortItem(reg, items[i], ctx);
      Prepend(done, TranslateSort(reg, items, i, ctx))
      == if x.Failure? then Failure(x.error) else Prepend(done + [x.value], TranslateSort(reg, items, i + 1, ctx))
  {
    var rest := TranslateSort(reg, items, i + 1, ctx);
    var x := SortItem(reg, items[i], ctx);
    if x.Success? && rest.Success? {
      assert done + [x.value] + rest.value == done + ([x.value] + rest.value);
    }
  }

  /** `if sort:` (line 155): a falsy sort (None, the empty list, the empty
      string) is passed on as it is; any other is iterated and replaced by
      the list of translated pairs. */
  function SortArgument(reg: map<string, DocSchema>, sort: Value, ctx: Context): (r: Result<Value>)
    ensures !Truthy(sort) ==> r == Success(sort)
    ensures Truthy(sort) && r.Success? ==> r.value.VList? && Iterate(sort).Success? && |r.value.items| == |Iterate(sort).value|
    ensures r.Failure? ==> IsSortError(r.error)
  {
    if !Truthy(sort) then Success(sort)
    else
      var items :- Iterate(sort);
      var translated :- TranslateSort(reg, items, 0, ctx);
      Success(VList(translated))
  }

  /** `sort='age'`, or any non-empty string: its first item is a single
      character, which does not unpack into a name and a direction. */
  lemma SortStringRejected(reg: map<string, DocSchema>, s: string, ctx: Context)
    requires s != ""
    ensures SortArgument(reg, VStr(s), ctx) == Failure(WrongArity)
  {
    var items := Iterate(VStr(s)).value;
    assert items[0] == VStr([s[0]]);
  }

  /** `sort=['age']`: a list whose first item is a bare name of other than
      two characters raises ValueError. */
  lemma SortBareNameRejected(reg: map<string, DocSchema>, name: string, rest: seq<Value>, ctx: Context)
    requires |name| != 2
    ensures SortArgument(reg, VList([VStr(name)] + rest), ctx) == Failure(WrongArity)
  {
    assert ([VStr(name)] + rest)[0] == VStr(name);
  }

  /** Lines 163-166: reads go to a secondary exactly when slave_ok is set. */
  function ReadPreferenceFor(slaveOk: bool): (r: ReadPreference)
    ensures r == Secondary <==> slaveOk
  {
    if slaveOk then Secondary else Primary
  }

  /** `spec['_types'] = cls._class_name` (line 145); item assignment on
      anything but a dict raises TypeError. The tag is the only key that
      changes: an existing `_types` keeps its place, a new one goes last. */
  function TagTypes(spec: Value, className: string): (r: Result<Value>)
    ensures spec.VDict? ==> r.Success? && r.value.VDict? && Lookup(r.value.entries, "_types") == Some(VStr(className))
    ensures spec.VDict? ==> forall k :: k != "_types" ==> Lookup(r.value.entries, k) == Lookup(spec.entries, k)
    ensures spec.VDict? ==> KeySet(r.value.entries) == KeySet(spec.entries) + {"_types"}
    ensures spec.VDict? && !HasKey(spec.entries, "_types") ==>
      r.value.entries == spec.entries + [("_types", VStr(className))]
    ensures !spec.VDict? ==> r == Failure(TypeError)
  {
    if spec.VDict? then
      SonSetLookup(spec.entries, "_types", VStr(className));
      SonSetKeys(spec.entries, "_types", VStr(className));
      if !HasKey(spec.entries, "_types") then
        SonSetAbsent(spec.entries, "_types", VStr(className));
        Success(VDict(SonSet(spec.entries, "_types", VStr(className))))
      else
        Success(VDict(SonSet(spec.entries, "_types", VStr(className))))
    else Failure(TypeError)
  }

  /** Lines 140-145: the query translated in the class and, when the class
      allows inheritance, restricted to its own `_types`: every other key of
      the translated query is kept as it is. */
  function QueryFor(env: Env, doc: DocSchema, spec: Value): (r: Result<Value>)
    ensures var t := TransformValue(env, spec, DocCtx(doc), None, true);
      r.Success? <==> t.Success? && (doc.allowInheritance ==> t.value.VDict?)
    ensures r.Success? && doc.allowInheritance ==>
      r.value.VDict? && Lookup(r.value.entries, "_types") == Some(VStr(doc.className))
    ensures var t := TransformValue(env, spec, DocCtx(doc), None, true);
      r.Success? && doc.allowInheritance ==>
        forall k :: k != "_types" ==> Lookup(r.value.entries, k) == Lookup(t.value.entries, k)
    ensures var t := TransformValue(env, spec, DocCtx(doc), None, true);
      r.Success? && doc.allowInheritance ==> KeySet(r.value.entries) == KeySet(t.value.entries) + {"_types"}
    ensures !doc.allowInheritance ==> r == TransformValue(env, spec, DocCtx(doc), None, true)
    ensures r.Failure? ==> IsTransformError(r.error)
  {
    var translated :- TransformValue(env, spec, DocCtx(doc), None, true);
    if doc.allowInheritance then TagTypes(translated, doc.className) else Success(translated)
  }

  /** Document.find_raw (lines 137-166) up to the collection call: the
      request carries the query of QueryFor, the projection, the sort and the
      read preference, and fails with the first of their errors. */
  function FindRequestFor(env: Env, doc: DocSchema, spec: Value, fields: Value,
                          sort: Value, slaveOk: bool): (r: Result<Request>)
    ensures r.Success? <==>
      && QueryFor(env, doc, spec).Success?
      && TranslateProjection(env.registry, fields, DocCtx(doc)).Success?
      && SortArgument(env.registry, sort, DocCtx(doc)).Success?
    ensures r.Success? ==> Success(r.value.spec) == QueryFor(env, doc, spec)
    ensures r.Success? && doc.allowInheritance ==>
      r.value.spec.VDict? && Lookup(r.value.spec.entries, "_types") == Some(VStr(doc.className))
    ensures var t := TransformValue(env, spec, DocCtx(doc), None, true);
      r.Success? && doc.allowInheritance ==>
        forall k :: k != "_types" ==> Lookup(r.value.spec.entries, k) == Lookup(t.value.entries, k)
    ensures r.Success? && !doc.allowInheritance ==> Success(r.value.spec) == TransformValue(env, spec, DocCtx(doc), None, true)
    ensures r.Success? ==> Success(r.value.fields) == TranslateProjection(env.registry, fields, DocCtx(doc))
    ensures r.Success? ==> Success(r.value.sort) == SortArgument(env.registry, sort, DocCtx(doc))
    ensures r.Success? ==> (r.value.readPreference == Secondary <==> slaveOk)
    ensures r.Failure? ==> IsTransformError(r.error) || IsSortError(r.error)
  {
    var query :- QueryFor(env, doc, spec);
    var projection :- TranslateProjection(env.registry, fields, DocCtx(doc));
    var sorted :- SortArgument(env.registry, sort, DocCtx(doc));
    Success(Request(query, projection, sorted, ReadPreferenceFor(slaveOk)))
  }

  /** find_raw's request shaping, with the sort loop of the source. */
  method ShapeRequest(env: Env, doc: DocSchema, spec: Value, fields: Value,
                      sort: Value, slaveOk: bool) returns (r: Result<Request>)
    ensures r == FindRequestFor(env, doc, spec, fields, sort, slaveOk)
  {
    var query := ShapeQuery(env, doc, spec);
    if query.Failure? {
      assert FindRequestFor(env, doc, spec, fields, sort, slaveOk) == Failure(query.error);
      return Failure(query.error);
    }
    var projection := TranslateProjection(env.registry, fields, DocCtx(doc));
    if projection.Failure? {
      assert FindRequestFor(env, doc, spec, fields, sort, slaveOk) == Failure(projection.error);
      return Failure(projection.error);
    }
    var sorted := ShapeSort(env.registry, sort, DocCtx(doc));
    if sorted.Failure? {
      assert FindRequestFor(env, doc, spec, fields, sort, slaveOk) == Failure(sorted.error);
      return Failure(sorted.error);
    }
    return Success(Request(query.value, projection.value, sorted.value, ReadPreferenceFor(slaveOk)));
  }

  /** Lines 140-145: `spec['_types'] = cls._class_name` on the translated
      query. */
  method ShapeQuery(env: Env, doc: DocSchema, spec: Value) returns (r: Result<Value>)
    ensures r == QueryFor(env, doc, spec)
  {
    var translated := Transform(env, spec, DocCtx(doc), None, true);
    if translated.Failure? {
      return Failure(translated.error);
    }
    if !doc.allowInheritance {
      return translated;
    }
    if !translated.value.VDict? {
      return Failure(TypeError);
    }
    var query := translated.value.entries;
    query := SonSet(query, "_types", VStr(doc.className));
    return Success(VDict(query));
  }

  /** Lines 155-161: `if sort:` and the sort loop. */
  method ShapeSort(reg: map<string, DocSchema>, sort: Value, ctx: Context) returns (r: Result<Value>)
    ensures r == SortArgument(reg, sort, ctx)
  {
    if !Truthy(sort) {
      return Success(sort);
    }
    var items := Iterate(sort);
    if items.Failure? {
      return Failure(items.error);
    }
    var translated := TranslatePairs(reg, items.value, ctx);
    if translated.Failure? {
      return Failure(translated.error);
    }
    return Success(VList(translated.value));
  }

  /** The loop itself: `new_sort.append((f, dir))` for every item. */
  method TranslatePairs(reg: map<string, DocSchema>, items: seq<Value>, ctx: Context) returns (r: Result<seq<Value>>)
    ensures r == TranslateSort(reg, items, 0, ctx)
  {
    var newSort: seq<Value> := [];
    var i := 0;
    PrependNothing(TranslateSort(reg, items, 0, ctx));
    while i < |items|
      invariant 0 <= i <= |items|
      invariant Prepend(newSort, TranslateSort(reg, items, i, ctx)) == TranslateSort(reg, items, 0, ctx)
    {
      SortStep(reg, items, i, ctx, newSort);
      var pair := Unpack2(items[i]);
      if pair.Failure? {
        assert SortItem(reg, items[i], ctx) == Failure(pair.error);
        return Failure(pair.error);
      }
      var f := TranslateName(reg, pair.value.0, ctx);
      if f.Failure? {
        assert SortItem(reg, items[i], ctx) == Failure(f.error);
        return Failure(f.error);
      }
      assert SortItem(reg, items[i], ctx) == Success(VList([VStr(f.value), pair.value.1]));
      newSort := newSort + [VList([VStr(f.value), pair.value.1])];
      i := i + 1;
    }
    assert newSort + [] == newSort;
    return Success(newSort);
  }

  /** A pair of a translated sort: its name translated, its direction
      kept, at the same position. */
  lemma SortedPair(reg: map<string, DocSchema>, items: seq<Value>, ctx: Context, j: nat, name: string, dir: Value)
    requires j < |items| && items[j] == VList([VStr(name), dir])
    requires TranslateSort(reg, items, 0, ctx).Success?
    ensures TranslateSort(reg, items, 0, ctx).value[j] == VList([VStr(PathOf(reg, name, ctx)), dir])
  {
    MapItemsAt(SortItemIn(reg, ctx), items, 0, j);
    assert Unpack2(items[j]) == Success((VStr(name), dir));
    SortItemTranslated(reg, items[j], ctx);
  }

  /** A non-empty list of pairs is translated pair by pair: the same
      number of pairs, each name translated in the class, each direction
      kept. */
  lemma SortTranslated(reg: map<string, DocSchema>, pairs: seq<(string, Value)>, ctx: Context)
    requires |pairs| > 0
    requires SortArgument(reg, VList(seq(|pairs|, j requires 0 <= j < |pairs| => VList([VStr(pairs[j].0), pairs[j].1]))), ctx).Success?
    ensures var sorted := SortArgument(reg, VList(seq(|pairs|, j requires 0 <= j < |pairs| => VList([VStr(pairs[j].0), pairs[j].1]))), ctx).value;
      && sorted.VList? && |sorted.items| == |pairs|
      && forall j :: 0 <= j < |pairs| ==> sorted.items[j] == VList([VStr(PathOf(reg, pairs[j].0, ctx)), pairs[j].1])
  {
    var items := seq(|pairs|, j requires 0 <= j < |pairs| => VList([VStr(pairs[j].0), pairs[j].1]));
    assert items[0] == VList([VStr(pairs[0].0), pairs[0].1]);
    assert Truthy(VList(items)) && Iterate(VList(items)) == Success(items);
    var sorted := TranslateSort(reg, items, 0, ctx).value;
    assert SortArgument(reg, VList(items), ctx) == Success(VList(sorted));
    forall j | 0 <= j < |pairs|
      ensures sorted[j] == VList([VStr(PathOf(reg, pairs[j].0, ctx)), pairs[j].1])
    {
      assert items[j] == VList([VStr(pairs[j].0), pairs[j].1]);
      SortedPair(reg, items, ctx, j, pairs[j].0, pairs[j].1);
    }
  }

  /** A name in the field dict that cannot be translated makes find_raw
      raise the path's error. */
  lemma {:induction false} FieldMapNameTranslates(reg: map<string, DocSchema>, es: seq<(string, Value)>, i: nat, ctx: Context,
                                                  acc: seq<(string, Value)>, j: nat)
    requires i <= j < |es|
    requires TranslateFieldMap(reg, es, i, ctx, acc).Success?
    ensures TransformKey(reg, es[j].0, ctx, "").Success?
    decreases j - i
  {
    if i < j {
      var k := TransformKey(reg, es[i].0, ctx, "").value;
      FieldMapNameTranslates(reg, es, i + 1, ctx, SonSet(acc, k.0, es[i].1), j);
    }
  }

  /** A field dict whose names all translate keeps exactly the translated
      names. */
  lemma {:induction false} FieldMapKeys(reg: map<string, DocSchema>, es: seq<(string, Value)>, i: nat, ctx: Context,
                                        acc: seq<(string, Value)>)
    requires i <= |es|
    requires TranslateFieldMap(reg, es, i, ctx, acc).Success?
    ensures KeySet(TranslateFieldMap(reg, es, i, ctx, acc).value) == KeySet(acc) + (set j | i <= j < |es| :: PathOf(reg, es[j].0, ctx))
    decreases |es| - i
  {
    if i < |es| {
      var k := TransformKey(reg, es[i].0, ctx, "").value;
      FieldMapKeys(reg, es, i + 1, ctx, SonSet(acc, k.0, es[i].1));
      SonSetKeys(acc, k.0, es[i].1);
      assert (set j | i <= j < |es| :: PathOf(reg, es[j].0, ctx))
          == {k.0} + (set j | i + 1 <= j < |es| :: PathOf(reg, es[j].0, ctx));
    }
  }

  /** Entries from i on that never translate to `key` leave what the dict
      holds under `key` alone. */
  lemma {:induction false} FieldMapFrame(reg: map<string, DocSchema>, es: seq<(string, Value)>, i: nat, ctx: Context,
                                         acc: seq<(string, Value)>, key: string)
    requires i <= |es|
    requires TranslateFieldMap(reg, es, i, ctx, acc).Success?
    requires forall m :: i <= m < |es| ==> PathOf(reg, es[m].0, ctx) != key
    ensures Lookup(TranslateFieldMap(reg, es, i, ctx, acc).value, key) == Lookup(acc, key)
    decreases |es| - i
  {
    if i < |es| {
      var k := TransformKey(reg, es[i].0, ctx, "").value;
      FieldMapFrame(reg, es, i + 1, ctx, SonSet(acc, k.0, es[i].1), key);
      SonSetLookup(acc, k.0, es[i].1);
    }
  }

  /** `fields[f]` lands under f's translated name, and no later entry with
      the same translated name overrides it. */
  lemma {:induction false} FieldMapLastWins(reg: map<string, DocSchema>, es: seq<(string, Value)>, i: nat, ctx: Context,
                                            acc: seq<(string, Value)>, j: nat)
    requires i <= j < |es|
    requires TranslateFieldMap(reg, es, i, ctx, acc).Success?
    requires LastTranslating(reg, es, j, ctx)
    ensures Lookup(TranslateFieldMap(reg, es, i, ctx, acc).value, PathOf(reg, es[j].0, ctx)) == Some(es[j].1)
    decreases j - i
  {
    var k := TransformKey(reg, es[i].0, ctx, "").value;
    var next := SonSet(acc, k.0, es[i].1);
    if i < j {
      FieldMapLastWins(reg, es, i + 1, ctx, next, j);
    } else {
      SonSetLookup(acc, k.0, es[i].1);
      FieldMapFrame(reg, es, i + 1, ctx, next, PathOf(reg, es[j].0, ctx));
    }
  }
}
