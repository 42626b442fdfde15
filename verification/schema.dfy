/** The document schema the query translation walks: document classes with
    their fields, the kinds of field that steer the walk, and the contexts
    (a document class or a field instance) the walk passes through. */
module Schema {
  import opened Values

  /** What a field is, as far as key and value translation care. */
  datatype Kind =
    | Scalar                    // StringField, IntField and every other plain field
    | ObjectIdKind              // ObjectIdField
    | Embedded(doc: DocSchema)  // EmbeddedDocumentField(document_type)
    | List(elem: Elem)          // ListField(field)
    | Dict                      // DictField
    | Arbitrary                 // ArbitraryField, the sentinel for anything under a DictField

  /** A field instance and the name it is stored under. */
  datatype Field = Field(dbField: string, kind: Kind)

  /** The `field` attribute of a ListField: a field instance, the name of a
      document class (resolved with get_document), or anything else. */
  datatype Elem = ElemField(field: Field) | ElemName(name: string) | ElemNone

  /** A document class: its name, its `allow_inheritance` meta flag, its
      fields by attribute name and the attribute name of its primary key
      (`_meta['id_field']`). Only a Document class has a primary key; an
      EmbeddedDocument class has None. */
  datatype DocSchema = DocSchema(
    className: string,
    allowInheritance: bool,
    fields: map<string, Field>,
    idField: Option<string>)

  /** A Document class, whose primary key is one of its declared fields. */
  predicate IsDocumentClass(d: DocSchema)
  {
    d.idField.Some? && d.idField.value in d.fields
  }

  /** Where the translation stands: at a document class or at a field. */
  datatype Context = DocCtx(doc: DocSchema) | FieldCtx(field: Field)

  /** What the translation consults but does not own: the document classes
      get_document() knows, and each field's validate(), which raises
      ValidationError exactly when `validate` answers false. */
  datatype Env = Env(registry: map<string, DocSchema>, validate: (Context, Value) -> bool)

  /** The fresh ArbitraryField() created on reaching a DictField. */
  const ArbitraryField: Field := Field("", Arbitrary)

  predicate IsKind(ctx: Context, k: Kind)
  {
    ctx.FieldCtx? && ctx.field.kind == k
  }

  predicate IsDictField(ctx: Context)
  {
    ctx.FieldCtx? && ctx.field.kind.Dict?
  }

  predicate IsListField(ctx: Context)
  {
    ctx.FieldCtx? && ctx.field.kind.List?
  }

  predicate IsObjectIdField(ctx: Context)
  {
    ctx.FieldCtx? && ctx.field.kind.ObjectIdKind?
  }

  /** The document class whose declared fields a name is looked up in: the
      class itself, or the document type of an EmbeddedDocumentField. */
  function DocOf(ctx: Context): Option<DocSchema>
  {
    match ctx
    case DocCtx(d) => Some(d)
    case FieldCtx(f) => if f.kind.Embedded? then Some(f.kind.doc) else None
  }

  /** A DictField or an ArbitraryField: below it every key is free-form. */
  predicate IsFreeForm(ctx: Context)
  {
    ctx.FieldCtx? && (ctx.field.kind.Dict? || ctx.field.kind.Arbitrary?)
  }
}
