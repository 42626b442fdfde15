/** Translation of a dotted field path into the names the fields are stored
    under (Document._transform_key): `other_colours.1.name` becomes `o.1.n`
    when `other_colours` is stored as `o` and a colour's `name` as `n`. */
module KeyPath {
  import opened Values
  import opened Schema

  /** key.split('.', 1): the part before the first dot and, when there is a
      dot, the part after it. */
  function SplitFirst(key: string): (r: (string, Option<string>))
    ensures '.' !in r.0
    ensures r.1.None? ==> r.0 == key
    ensures r.1.Some? ==> key == r.0 + "." + r.1.value
  {
    if key == [] then ("", None)
    else if key[0] == '.' then ("", Some(key[1..]))
    else
      var (head, tail) := SplitFirst(key[1..]);
      ([key[0]] + head, tail)
  }

  /** key.split('.'): every segment, in order. */
  function Split(key: string): (r: seq<string>)
    ensures |r| > 0
    ensures forall i :: 0 <= i < |r| ==> '.' !in r[i]
    decreases |key|
  {
    var (head, tail) := SplitFirst(key);
    if tail.None? then [head] else [head] + Split(tail.value)
  }

  /** '.'.join(segs). */
  function JoinDots(segs: seq<string>): string
    requires |segs| > 0
  {
    if |segs| == 1 then segs[0] else segs[0] + "." + JoinDots(segs[1..])
  }

  predicate NoEmptySegment(key: string)
  {
    forall i :: 0 <= i < |Split(key)| ==> Split(key)[i] != ""
  }

  /** A segment the translation emits unchanged (line 393): an operator, a
      list index or `_id`. */
  predicate Verbatim(seg: string)
  {
    |seg| > 0 && (seg[0] == '$' || IsDigits(seg) || seg == "_id")
  }

  /** The exceptions a path translation can raise: never a ValidationError. */
  predicate IsPathError(e: Error)
  {
    e.IndexError? || e.AttributeError? || e.NotRegistered? || e.CantFindField? || e.CantParseField? || e.KeyError?
  }

  /** `prefix.name`, or `name` alone when the prefix is empty (falsy). */
  function Extend(prefix: string, name: string): string
  {
    if prefix == "" then name else prefix + "." + name
  }

  /** The context a list index leads to (lines 383-387): a ListField's element
      field, or the document class its element names. A DictField or an
      ArbitraryField keeps its context; any other context has no `field`
      attribute. */
  function ElementContext(reg: map<string, DocSchema>, ctx: Context): (r: Result<Context>)
    ensures IsFreeForm(ctx) ==> r == Success(ctx)
    ensures ctx.DocCtx? ==> r == Failure(AttributeError)
    ensures IsListField(ctx) && ctx.field.kind.elem.ElemField? ==> r == Success(FieldCtx(ctx.field.kind.elem.field))
    ensures IsListField(ctx) && ctx.field.kind.elem.ElemName? ==>
      (r.Success? <==> ctx.field.kind.elem.name in reg)
      && (ctx.field.kind.elem.name in reg ==> r == Success(DocCtx(reg[ctx.field.kind.elem.name])))
      && (ctx.field.kind.elem.name !in reg ==> r == Failure(NotRegistered(ctx.field.kind.elem.name)))
    ensures IsListField(ctx) && ctx.field.kind.elem.ElemNone? ==> r == Success(ctx)
    ensures ctx.FieldCtx? && !IsListField(ctx) && !IsFreeForm(ctx) ==> r == Failure(AttributeError)
  {
    match ctx
    case DocCtx(_) => Failure(AttributeError)
    case FieldCtx(f) =>
      match f.kind
      case List(ElemName(n)) => if n in reg then Success(DocCtx(reg[n])) else Failure(NotRegistered(n))
      case List(ElemField(e)) => Success(FieldCtx(e))
      case List(ElemNone) => Success(ctx)
      case Dict => Success(ctx)
      case Arbitrary => Success(ctx)
      case _ => Failure(AttributeError)
  }

  /** `context.pk_field()` (line 390). Only a Document class has the method
      (lines 114-116); it reads `_fields[_meta['id_field']]`. */
  function PkContext(ctx: Context): (r: Result<Context>)
    ensures r.Success? <==> ctx.DocCtx? && IsDocumentClass(ctx.doc)
    ensures ctx.DocCtx? && IsDocumentClass(ctx.doc) ==> r == Success(FieldCtx(ctx.doc.fields[ctx.doc.idField.value]))
    ensures ctx.FieldCtx? || (ctx.DocCtx? && ctx.doc.idField.None?) ==> r == Failure(AttributeError)
  {
    match ctx
    case FieldCtx(_) => Failure(AttributeError)
    case DocCtx(d) =>
      if d.idField.None? then Failure(AttributeError)
      else if d.idField.value in d.fields then Success(FieldCtx(d.fields[d.idField.value]))
      else Failure(KeyError(d.idField.value))
  }

  function FieldNamed(d: DocSchema, name: string): (r: Result<Context>)
  {
    if name in d.fields then Success(FieldCtx(d.fields[name])) else Failure(CantFindField(name))
  }

  /** The field a name designates in the current context (lines 415-438). */
  function LookupField(reg: map<string, DocSchema>, name: string, ctx: Context): (r: Result<Context>)
    ensures DocOf(ctx).Some? ==> (r.Success? <==> name in DocOf(ctx).value.fields)
    ensures DocOf(ctx).Some? && name !in DocOf(ctx).value.fields ==> r == Failure(CantFindField(name))
    ensures DocOf(ctx).Some? && name in DocOf(ctx).value.fields ==> r == Success(FieldCtx(DocOf(ctx).value.fields[name]))
    ensures IsListField(ctx) && ctx.field.kind.elem.ElemField? ==> r == Success(FieldCtx(ctx.field.kind.elem.field))
    ensures IsListField(ctx) && ctx.field.kind.elem.ElemName? ==>
      (r.Success? <==> ctx.field.kind.elem.name in reg)
      && (ctx.field.kind.elem.name in reg ==> r == Success(DocCtx(reg[ctx.field.kind.elem.name])))
      && (ctx.field.kind.elem.name !in reg ==> r == Failure(NotRegistered(ctx.field.kind.elem.name)))
    ensures IsListField(ctx) && ctx.field.kind.elem.ElemNone? ==> r == Failure(CantParseField(name))
    ensures IsKind(ctx, Scalar) || IsKind(ctx, ObjectIdKind) ==> r == Failure(CantFindField(name))
    ensures IsKind(ctx, Dict) ==> r == Success(FieldCtx(ArbitraryField))
    ensures IsKind(ctx, Arbitrary) ==> r == Success(ctx)
  {
    match ctx
    case DocCtx(d) => FieldNamed(d, name)
    case FieldCtx(f) =>
      match f.kind
      case Embedded(d) => FieldNamed(d, name)
      case List(ElemName(n)) => if n in reg then Success(DocCtx(reg[n])) else Failure(NotRegistered(n))
      case List(ElemField(e)) => Success(FieldCtx(e))
      case List(ElemNone) => Failure(CantParseField(name))
      case Dict => Success(FieldCtx(ArbitraryField))
      case Arbitrary => Success(ctx)
      case _ => Failure(CantFindField(name))
  }

  /** The stored name of the field found (lines 440-443): the segment itself
      under an ArbitraryField, otherwise the field's db_field. A document
      class has no db_field. */
  function DbName(found: Context, seg: string): (r: Result<string>)
    ensures IsKind(found, Arbitrary) ==> r == Success(seg)
    ensures found.FieldCtx? && !found.field.kind.Arbitrary? ==> r == Success(found.field.dbField)
  {
    match found
    case DocCtx(_) => Failure(AttributeError)
    case FieldCtx(f) => if f.kind.Arbitrary? then Success(seg) else Success(f.dbField)
  }

  /** One segment of the walk (lines 383-448): what it is emitted as and the
      context the next segment is read in. */
  function Step(reg: map<string, DocSchema>, seg: string, ctx: Context): (r: Result<(string, Context)>)
    ensures seg == "" ==> r == Failure(IndexError)
    ensures r.Success? && Verbatim(seg) ==> r.value.0 == seg
    ensures r.Success? && !Verbatim(seg) ==>
      LookupField(reg, seg, ctx) == Success(r.value.1) && DbName(r.value.1, seg) == Success(r.value.0)
    ensures Verbatim(seg) && seg[0] == '$' ==> r == Success((seg, ctx))
    ensures r.Failure? ==> IsPathError(r.error)
  {
    var digitCtx :- if IsDigits(seg) then ElementContext(reg, ctx) else Success(ctx);
    var idCtx :- if seg == "_id" then PkContext(digitCtx) else Success(digitCtx);
    if |seg| == 0 then Failure(IndexError)
    else if seg[0] == '$' || IsDigits(seg) || seg == "_id" then Success((seg, idCtx))
    else
      var found :- LookupField(reg, seg, idCtx);
      var db :- DbName(found, seg);
      Success((db, found))
  }

  /** The reference translation: the segments of a path translated one by
      one, each in the context the previous one led to. */
  function Walk(reg: map<string, DocSchema>, segs: seq<string>, ctx: Context): (r: Result<(seq<string>, Context)>)
    ensures r.Success? ==> |r.value.0| == |segs|
    ensures r.Success? ==> forall i :: 0 <= i < |segs| && Verbatim(segs[i]) ==> r.value.0[i] == segs[i]
  {
    if segs == [] then Success(([], ctx))
    else
      var step :- Step(reg, segs[0], ctx);
      var rest :- Walk(reg, segs[1..], step.1);
      Success(([step.0] + rest.0, rest.1))
  }

  /** The translated segments joined onto a prefix, the way the recursion of
      _transform_key accumulates them. */
  function JoinFrom(prefix: string, segs: seq<string>): string
    decreases segs
  {
    if segs == [] then prefix else JoinFrom(Extend(prefix, segs[0]), segs[1..])
  }

  function Render(prefix: string, w: Result<(seq<string>, Context)>): Result<(string, Context)>
  {
    match w
    case Failure(e) => Failure(e)
    case Success((segs, c)) => Success((JoinFrom(prefix, segs), c))
  }

  /** Document._transform_key(key, context, prefix) (lines 369-453): the
      translated path and the context it ends in. */
  function TransformKey(reg: map<string, DocSchema>, key: string, ctx: Context, prefix: string): (r: Result<(string, Context)>)
    ensures r.Failure? ==> IsPathError(r.error)
    decreases |key|
  {
    var (first, rest) := SplitFirst(key);
    var step :- Step(reg, first, ctx);
    var path := Extend(prefix, step.0);
    if rest.Some? && rest.value != "" then TransformKey(reg, rest.value, step.1, path)
    else Success((path, step.1))
  }

  /** For every path without an empty segment, _transform_key is the
      segment-by-segment reference translation joined with dots onto the
      prefix. */
  lemma {:induction false} TransformKeyWalks(reg: map<string, DocSchema>, key: string, ctx: Context, prefix: string)
    requires NoEmptySegment(key)
    ensures TransformKey(reg, key, ctx, prefix) == Render(prefix, Walk(reg, Split(key), ctx))
    decreases |key|
  {
    var (first, rest) := SplitFirst(key);
    var step := Step(reg, first, ctx);
    if rest.Some? {
      assert Split(key) == [first] + Split(rest.value);
      assert NoEmptySegment(rest.value) && rest.value != "" by {
        forall i | 0 <= i < |Split(rest.value)| ensures Split(rest.value)[i] != "" {
          assert Split(rest.value)[i] == Split(key)[i + 1];
        }
        assert Split(rest.value)[0] != "";
      }
      if step.Success? {
        TransformKeyWalks(reg, rest.value, step.value.1, Extend(prefix, step.value.0));
        assert Split(key)[1..] == Split(rest.value);
        var w := Walk(reg, Split(rest.value), step.value.1);
        if w.Success? {
          assert JoinFrom(prefix, [step.value.0] + w.value.0) == JoinFrom(Extend(prefix, step.value.0), w.value.0) by {
            assert ([step.value.0] + w.value.0)[1..] == w.value.0;
          }
        }
      }
    } else {
      assert Split(key) == [first];
      assert [first][1..] == [];
      if step.Success? {
        assert Walk(reg, [], step.value.1) == Success(([], step.value.1));
        assert [step.value.0] + [] == [step.value.0];
        assert JoinFrom(Extend(prefix, step.value.0), []) == Extend(prefix, step.value.0);
      }
    }
  }

  /** The path a key translates to at the top of a context, or "" when the
      translation fails. */
  function PathOf(reg: map<string, DocSchema>, key: string, ctx: Context): string
  {
    var r := TransformKey(reg, key, ctx, "");
    if r.Success? then r.value.0 else ""
  }

  lemma {:induction false} SplitJoin(segs: seq<string>)
    requires |segs| > 0
    requires forall i :: 0 <= i < |segs| ==> '.' !in segs[i]
    ensures Split(JoinDots(segs)) == segs
  {
    if |segs| == 1 {
      assert SplitFirst(segs[0]).1.None?;
    } else {
      var key := JoinDots(segs);
      var (head, tail) := SplitFirst(key);
      SplitFirstUnique(segs[0], JoinDots(segs[1..]));
      SplitJoin(segs[1..]);
    }
  }

  /** The first dot of `a.b` is the one after `a` when `a` has none. */
  lemma {:induction false} SplitFirstUnique(a: string, b: string)
    requires '.' !in a
    ensures SplitFirst(a + "." + b) == (a, Some(b))
  {
    if a != [] {
      assert a == [a[0]] + a[1..];
      assert (a + "." + b)[1..] == a[1..] + "." + b;
      SplitFirstUnique(a[1..], b);
      assert [a[0]] + a[1..] == a;
    }
  }

  lemma {:induction false} JoinSplit(key: string)
    ensures JoinDots(Split(key)) == key
    decreases |key|
  {
    var (head, tail) := SplitFirst(key);
    if tail.Some? {
      JoinSplit(tail.value);
    }
  }

  /** With an empty prefix, accumulating non-empty segments is joining them. */
  lemma {:induction false} JoinFromEmpty(segs: seq<string>)
    requires |segs| > 0
    requires forall i :: 0 <= i < |segs| ==> segs[i] != ""
    ensures JoinFrom("", segs) == JoinDots(segs)
  {
    JoinFromPrefix(segs[0], segs[1..]);
  }

  lemma {:induction false} JoinFromPrefix(prefix: string, segs: seq<string>)
    requires prefix != ""
    requires forall i :: 0 <= i < |segs| ==> segs[i] != ""
    ensures JoinFrom(prefix, segs) == if segs == [] then prefix else prefix + "." + JoinDots(segs)
    decreases segs
  {
    if segs != [] {
      JoinFromPrefix(prefix + "." + segs[0], segs[1..]);
      if |segs| > 1 {
        assert prefix + "." + segs[0] + "." + JoinDots(segs[1..]) == prefix + "." + (segs[0] + "." + JoinDots(segs[1..]));
      }
    }
  }

  /** A translated path has as many segments as the key, and operators, list
      indexes and `_id` stay where they were, provided no emitted name is
      empty or contains a dot. */
  lemma SegmentsPreserved(reg: map<string, DocSchema>, key: string, ctx: Context)
    requires NoEmptySegment(key)
    requires Walk(reg, Split(key), ctx).Success?
    requires forall i :: 0 <= i < |Walk(reg, Split(key), ctx).value.0| ==>
      Walk(reg, Split(key), ctx).value.0[i] != "" && '.' !in Walk(reg, Split(key), ctx).value.0[i]
    ensures TransformKey(reg, key, ctx, "").Success?
    ensures |Split(TransformKey(reg, key, ctx, "").value.0)| == |Split(key)|
    ensures forall i :: 0 <= i < |Split(key)| && Verbatim(Split(key)[i]) ==>
      Split(TransformKey(reg, key, ctx, "").value.0)[i] == Split(key)[i]
  {
    TransformKeyWalks(reg, key, ctx, "");
    var out := Walk(reg, Split(key), ctx).value.0;
    JoinFromEmpty(out);
    SplitJoin(out);
  }

  /** One segment below a DictField or an ArbitraryField: copied as it is,
      and what follows is still free-form. */
  lemma FreeFormStep(reg: map<string, DocSchema>, seg: string, ctx: Context)
    requires IsFreeForm(ctx)
    requires seg != "" && seg != "_id"
    ensures Step(reg, seg, ctx).Success?
    ensures Step(reg, seg, ctx).value.0 == seg
    ensures IsFreeForm(Step(reg, seg, ctx).value.1)
  {
    assert Step(reg, seg, ctx) == Success((seg, if Verbatim(seg) then ctx else LookupField(reg, seg, ctx).value));
  }

  /** Below a DictField or an ArbitraryField every segment is copied as it
      is, except `_id`, for which a field has no pk_field(). */
  lemma {:induction false} FreeFormVerbatim(reg: map<string, DocSchema>, segs: seq<string>, ctx: Context)
    requires IsFreeForm(ctx)
    requires forall i :: 0 <= i < |segs| ==> segs[i] != "" && segs[i] != "_id"
    ensures Walk(reg, segs, ctx).Success?
    ensures Walk(reg, segs, ctx).value.0 == segs
    ensures IsFreeForm(Walk(reg, segs, ctx).value.1)
  {
    if segs != [] {
      FreeFormStep(reg, segs[0], ctx);
      var step := Step(reg, segs[0], ctx).value;
      FreeFormVerbatim(reg, segs[1..], step.1);
      var rest := Walk(reg, segs[1..], step.1).value;
      assert Walk(reg, segs, ctx) == Success(([segs[0]] + rest.0, rest.1));
      assert [segs[0]] + segs[1..] == segs;
    }
  }

  /** The same for whole keys: a key read below a DictField comes back
      unchanged. */
  lemma FreeFormKeyUnchanged(reg: map<string, DocSchema>, key: string, ctx: Context)
    requires IsFreeForm(ctx)
    requires NoEmptySegment(key)
    requires forall i :: 0 <= i < |Split(key)| ==> Split(key)[i] != "_id"
    ensures TransformKey(reg, key, ctx, "").Success?
    ensures TransformKey(reg, key, ctx, "").value.0 == key
  {
    TransformKeyWalks(reg, key, ctx, "");
    FreeFormVerbatim(reg, Split(key), ctx);
    JoinFromEmpty(Split(key));
    JoinSplit(key);
  }

  /** A name that is not an operator, an index or `_id`, read in a document
      class or an embedded document, is translated exactly when the class
      declares it, and raises "Can't find field" otherwise. */
  lemma DeclaredSegment(reg: map<string, DocSchema>, seg: string, ctx: Context)
    requires seg != "" && !Verbatim(seg)
    requires DocOf(ctx).Some?
    ensures Step(reg, seg, ctx).Success? <==> seg in DocOf(ctx).value.fields
    ensures seg !in DocOf(ctx).value.fields ==> Step(reg, seg, ctx) == Failure(CantFindField(seg))
    ensures seg in DocOf(ctx).value.fields ==> Step(reg, seg, ctx).value.1 == FieldCtx(DocOf(ctx).value.fields[seg])
  {
  }

  /** The walk stops at the first segment that fails, with that segment's
      error. */
  lemma {:induction false} WalkFailsAt(reg: map<string, DocSchema>, segs: seq<string>, ctx: Context, i: nat)
    requires i < |segs|
    requires Walk(reg, segs[..i], ctx).Success?
    requires Step(reg, segs[i], Walk(reg, segs[..i], ctx).value.1).Failure?
    ensures Walk(reg, segs, ctx) == Failure(Step(reg, segs[i], Walk(reg, segs[..i], ctx).value.1).error)
  {
    if i > 0 {
      var step := Step(reg, segs[0], ctx);
      assert segs[..i][0] == segs[0];
      assert segs[..i][1..] == segs[1..][..i - 1];
      WalkFailsAt(reg, segs[1..], step.value.1, i - 1);
    }
  }

  /** A name anywhere in a path that the document class or embedded document
      reached by the segments before it does not declare makes the whole key
      raise "Can't find field" for that name, whatever the prefix. */
  lemma UnknownFieldRejected(reg: map<string, DocSchema>, key: string, ctx: Context, prefix: string, i: nat)
    requires NoEmptySegment(key)
    requires i < |Split(key)| && !Verbatim(Split(key)[i])
    requires Walk(reg, Split(key)[..i], ctx).Success?
    requires DocOf(Walk(reg, Split(key)[..i], ctx).value.1).Some?
    requires Split(key)[i] !in DocOf(Walk(reg, Split(key)[..i], ctx).value.1).value.fields
    ensures TransformKey(reg, key, ctx, prefix) == Failure(CantFindField(Split(key)[i]))
  {
    var segs := Split(key);
    DeclaredSegment(reg, segs[i], Walk(reg, segs[..i], ctx).value.1);
    WalkFailsAt(reg, segs, ctx, i);
    TransformKeyWalks(reg, key, ctx, prefix);
  }

  /** `_id` read in an embedded document class, which has no primary key,
      raises AttributeError rather than translating. */
  lemma EmbeddedIdRejected(reg: map<string, DocSchema>, d: DocSchema)
    requires d.idField.None?
    ensures Step(reg, "_id", DocCtx(d)) == Failure(AttributeError)
  {
  }
}
