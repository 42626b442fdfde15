# mongoengine document core and connection registry, in Dafny

This project models two parts of a mongoengine fork (Python 2) and proves
properties of the model.

The first part is the query and update translation layer of
`mongoengine/document.py`:

- `_transform_key` turns a dotted attribute path (`author.name`) into the
  database path (`a.n`). It walks the document schema one segment at a
  time. Operators (`$…`), list indexes (digits) and `_id` pass verbatim.
  A name below a DictField or an ArbitraryField is kept as written.
- `_transform_value` walks a query or update dict. It translates every key,
  remembers the operator in force, and treats each leaf value:
  - ObjectIds are encoded.
  - The field validates the value, as the operator class demands.
  - Embedded documents become their SON.
- `update_one` builds the in-memory plan of an atomic update
  (`$set`, `$unset`, `$inc`, `$push`, `$pushAll`, `$addToSet`). It sends
  the translated update, then writes the plan back into the object when
  the server reports exactly one document changed. `set`, `inc`, `push`
  and `add_to_set` are thin wrappers over it.
- `find_raw` shapes a find request before it is sent:
  - the translated spec, with `_types` added for classes that allow
    inheritance
  - the translated field projection
  - the translated sort
  - the read preference chosen by `slave_ok`

The second part is the connection registry of `mongoengine/connection.py`.
It holds three process-wide dictionaries:

- the settings of each connection name
- the client cached per name and per process identity
- the database handle cached the same way

`connect()` replaces a name's settings and then resolves its database.
`_get_connection` and `_get_db` fill the caches lazily.

Modules:

- `values.dfy` (`Values`): the Python values the core handles. It also
  holds the Python operations the core relies on: `in`, iteration, `+`,
  `[:]`, subscripting. SON documents are ordered entry lists.
- `schema.dfy` (`Schema`): field kinds, document schemas, the contexts the
  key walk moves through, and the document registry.
- `key_path.dfy` (`KeyPath`): `_transform_key` and its reference
  definition over the list of path segments.
- `query_values.dfy` (`QueryValues`): `_transform_value`. A recursive
  function specifies it. Methods with loops implement it, in the shape of
  the source's loops.
- `document_update.dfy` (`DocumentUpdate`): `update_one` and its wrappers.
  The document object is a class whose `values` map the methods update.
  Its invariant is that it holds exactly the fields its Document class
  declares.
- `find_request.dfy` (`FindRequest`): the request shaping of `find_raw`.
- `connection.dfy` (`Connection`): the registry, as a class over the three
  dictionaries. Each method is specified by a function of the tables.

## Model

| member | source | states |
|---|---|---|
| Values.Lookup | mongoengine/document.py:322 | reading a SON key finds an entry with that key exactly when the key is present |
| Values.SonSet | mongoengine/document.py:322 | assigning a SON key keeps the order of the existing keys and appends a new key at the end |
| Values.SonSetLookup | mongoengine/document.py:322 | after `son[k] = v`, reading `k` gives `v` and every other key reads as before |
| Values.SonSetKeys | mongoengine/document.py:322 | after `son[k] = v` the keys are the old keys plus `k` |
| Values.SonSetAbsent | mongoengine/document.py:322 | assigning an absent key appends the entry at the end |
| Values.SonSetTwice | mongoengine/document.py:243-260 | assigning the same key twice equals assigning only the second value (last write wins in `ops`) |
| Values.SonSetDistinct | mongoengine/document.py:322 | assignment never duplicates a key |
| Values.Contains | mongoengine/document.py:236 | `x in list` is list membership under structural equality; `in` on None, an int or an ObjectId raises TypeError |
| Values.Iterate | mongoengine/document.py:258 | iterating a list yields its items; iterating a dict yields one item per key |
| Values.Add | mongoengine/document.py:247-251 | `+` adds two ints and concatenates two strs or two lists; any other pair of types raises TypeError |
| Values.Copy | mongoengine/document.py:249 | `[:]` on a list is the same list; it raises on non-sequences |
| Values.Subscript | mongoengine/document.py:254 | `new_val['$each']` reads the dict entry when present |
| KeyPath.SplitFirst | mongoengine/document.py:374-380 | `key.split('.', 1)`: a dot-free first part, and a rest that rebuilds the key when present |
| KeyPath.Split | mongoengine/document.py:374 | a key splits into at least one dot-free segment |
| KeyPath.SplitJoin | mongoengine/document.py:374 | splitting the dotted join of dot-free segments gives the segments back |
| KeyPath.JoinSplit | mongoengine/document.py:374 | joining the segments of a key with dots gives the key back |
| KeyPath.ElementContext | mongoengine/document.py:382-387 | a digit segment moves a ListField to its element field, or to the registered document class its element names (NotRegistered otherwise); a ListField without an element keeps its context; a DictField/ArbitraryField keeps the context; a document class or any other field raises AttributeError |
| KeyPath.PkContext | mongoengine/document.py:389-390 | `_id` succeeds exactly on a Document class, moving to its primary-key field; an embedded document class (no `pk_field`) and any field raise AttributeError |
| KeyPath.LookupField | mongoengine/document.py:415-438 | in a document class or an EmbeddedDocumentField's document, a name succeeds exactly when declared and gives its field, else "Can't find field"; a ListField gives its element field, the registered document class its element names, or "Can't parse field"; a DictField gives ArbitraryField; an ArbitraryField gives itself; scalar and ObjectId fields reject every name |
| KeyPath.DbName | mongoengine/document.py:440-443 | an ArbitraryField keeps the name as written; any other field gives its db_field |
| KeyPath.Step | mongoengine/document.py:382-448 | one segment: "" raises IndexError; operators, digits and `_id` are kept verbatim (operators also keep the context); other names are looked up and renamed; every failure is a path error |
| KeyPath.Walk | mongoengine/document.py:369-453 | the translation over the segment list keeps the number of segments and every verbatim segment |
| KeyPath.TransformKey | mongoengine/document.py:369-453 | `_transform_key` as written (split on the first dot, recurse on the rest with a prefix); every failure is a path error |
| KeyPath.TransformKeyWalks | mongoengine/document.py:369-453 | for keys without empty segments, `_transform_key` equals the segment-by-segment translation joined with dots |
| KeyPath.SegmentsPreserved | mongoengine/document.py:392-402 | a translated key whose translated segments are non-empty and dot-free has as many segments as the key, and its operator, index and `_id` segments are unchanged |
| KeyPath.FreeFormStep | mongoengine/document.py:428-441 | one non-empty segment other than `_id` below a DictField or ArbitraryField is emitted as it is, and what follows stays free-form |
| KeyPath.FreeFormVerbatim | mongoengine/document.py:428-441 | below a DictField or ArbitraryField, every non-empty segment other than `_id` passes through unchanged and the walk stays free-form |
| KeyPath.FreeFormKeyUnchanged | mongoengine/document.py:428-443 | a key without empty or `_id` segments below a DictField or ArbitraryField is translated to itself |
| KeyPath.DeclaredSegment | mongoengine/document.py:415-438 | a name that is not an operator, index or `_id`, read in a document class or an embedded document, translates exactly when declared, to its field, and raises "Can't find field" otherwise |
| KeyPath.WalkFailsAt | mongoengine/document.py:437-451 | the walk stops at the first failing segment with that segment's error |
| KeyPath.UnknownFieldRejected | mongoengine/document.py:437-438 | a name at any position of a key, undeclared in the document class or embedded document the segments before it reach, makes the whole key raise "Can't find field" for that name, whatever the prefix |
| KeyPath.EmbeddedIdRejected | mongoengine/document.py:389-390 | `_id` read in an embedded document class raises AttributeError, since `pk_field` is defined only on Document (lines 114-116) |
| QueryValues.Classify | mongoengine/document.py:301-310 | an operator is validating exactly when it is None or in VALIDATE_OPS, and unknown exactly when it is in none of the four tables |
| QueryValues.EncodeObjectIds | mongoengine/document.py:329-336 | under an ObjectIdField a validating operator sends `ObjectId(value)` and a list operator a list of `ObjectId`s of the elements; any other field or operator leaves the value; only TypeError (iterating a non-list) can arise |
| QueryValues.ValidateEach | mongoengine/document.py:343-348 | every entry is validated by the context, or by the list's element field under a ListField: success exactly when all are valid; failures are Invalid, or AttributeError for a ListField without element field |
| QueryValues.ValidateValue | mongoengine/document.py:338-350 | validating operators succeed exactly when the field validates the value; list operators exactly when the element field exists and validates it; whole-list operators on a list outside a ListField exactly when every entry validates; unchecked operators always succeed; unknown operators raise "Unknown atomic operator" |
| QueryValues.Prepare | mongoengine/document.py:329-350 | a success is the ObjectId encoding of the value; with validation on and a validating operator it fails, with Invalid, exactly when the (encoded) value does not validate; an unknown operator is rejected; with validation off only TypeError arises and a value outside an ObjectIdField passes unchanged |
| QueryValues.AllToMongo | mongoengine/document.py:357-359 | `[d.to_mongo() for d in value]` succeeds exactly when every element is a document, gives each one's SON in order, and raises AttributeError otherwise |
| QueryValues.EncodeDictEntries | mongoengine/document.py:362-365 | a DictField value keeps its keys and order; only document values are replaced by their SON |
| QueryValues.ToMongo | mongoengine/document.py:352-365 | a document becomes its SON; under ListField(EmbeddedDocumentField) a list succeeds exactly when all elements are documents and becomes their SONs; under a DictField a dict keeps its keys with documents replaced by their SON and a non-dict raises AttributeError; anything else is unchanged |
| QueryValues.TransformValue | mongoengine/document.py:296-367 | a walked dict gives a SON; every failure is a path error, a validation error or a TypeError |
| QueryValues.Leaf | mongoengine/document.py:328-367 | with validation on, an unknown operator raises "Unknown atomic operator"; under a validating operator outside an ObjectIdField, the leaf fails with Invalid exactly when the field rejects the value (validation on), and a valid or unvalidated value is what to_mongo makes of it |
| QueryValues.TransformEntries | mongoengine/document.py:316-324 | the walk over a dict's entries always gives a SON and fails only with transform errors |
| QueryValues.ChildContext | mongoengine/document.py:320 | the context a key's value is read in is the one its translation ends in |
| QueryValues.Settled | mongoengine/document.py:313-365 | the caller's value as the transform leaves it: a dict stays a dict with the same keys in the same order; a dict under a DictField has its documents replaced by their SON; any other value is unchanged |
| QueryValues.Transform | mongoengine/document.py:296-367 | the method computes exactly the recursive definition of `_transform_value` |
| QueryValues.TransformDict | mongoengine/document.py:312-326 | the loop over a dict's entries computes the recursive definition from the first entry with an empty SON |
| QueryValues.TransformEntry | mongoengine/document.py:316-324 | one loop pass: a failure is the failure of the whole remaining walk; a success advances the walk by one entry |
| QueryValues.TransformLeaf | mongoengine/document.py:328-367 | the leaf method computes the leaf definition, and a dict under a DictField comes out as the caller's dict with its documents replaced by their SON |
| QueryValues.UncheckedNeverRejects | mongoengine/document.py:338-350 | with `validate=False` no validation error and no unknown-operator error is ever raised |
| QueryValues.UncheckedEntriesNeverReject | mongoengine/document.py:316-326 | the same for every walk over a dict's entries |
| QueryValues.TranslatedKeys | mongoengine/document.py:316-326 | a transformed dict's keys are exactly the translated keys of its entries |
| QueryValues.EntriesKeys | mongoengine/document.py:316-326 | from any entry on, the resulting keys are the SON's keys so far plus the translated keys still to come |
| QueryValues.EntriesKeysTranslate | mongoengine/document.py:320 | a successful walk translated every remaining key |
| QueryValues.UndottedKey | mongoengine/document.py:374-402 | a key without a dot is translated by its single segment |
| QueryValues.UnknownOperatorLeaf | mongoengine/document.py:349-350 | with validation on, every value that is not walked into is rejected under an unknown operator |
| QueryValues.UnknownOperatorRejected | mongoengine/document.py:316-350 | an unknown operator key whose operand's first field translates to a leaf makes the whole dict raise "Unknown atomic operator", in any context and whatever entries follow |
| QueryValues.ObjectIdEncoded | mongoengine/document.py:330-340 | under an ObjectIdField a validating operator sends `ObjectId(value)`, failing with Invalid exactly when that does not validate |
| QueryValues.ObjectIdsEncoded | mongoengine/document.py:334-348 | under an ObjectIdField a list operator sends every element as an ObjectId; with validation, `$push`-like operators raise AttributeError and `$in`-like ones succeed exactly when every ObjectId validates |
| QueryValues.InOperandEncoded | mongoengine/document.py:316-348 | `{'$in': ids}` at an ObjectIdField sends every id as an ObjectId (when validation is on, for ids that validate) |
| QueryValues.InQueryEncodesIds | mongoengine/document.py:316-348 | `{'_id': {'$in': ids}}` on a class whose primary key is an ObjectIdField (`_id` read as the primary key, lines 389-390) sends every id as an ObjectId, under the same keys |
| QueryValues.DictFieldKeepsKeys | mongoengine/document.py:313-365 | a dict under a DictField is not walked: it is only SON-encoded, which is what the caller's dict becomes |
| DocumentUpdate.Get | mongoengine/document.py:247 | `self[field]` reads a present field and raises KeyError otherwise |
| DocumentUpdate.AfterTransform | mongoengine/document.py:243-262 | the value `ops` holds for a field once the transform has run on the same objects: a non-dict is unchanged, and so is any value when the operand is itself bound for a DictField; otherwise it is the value as Settled leaves it |
| DocumentUpdate.ValuesToAddCases | mongoengine/document.py:252-256 | `$addToSet` adds the `$each` list when the dict has one, else `new_val` alone as it is stored (also for a list without a `'$each'` element); None, an int or an ObjectId raises TypeError at the `in` test |
| DocumentUpdate.NewFieldValueCases | mongoengine/document.py:242-251 | `$set` stores the value as the transform leaves it, `$unset` None, `$inc` on ints the sum, `$push` a copy of the list with the stored value appended, `$pushAll` a copy of the list extended; `$inc`/`$push`/`$pushAll` on a missing field raise KeyError; other operators plan nothing here |
| DocumentUpdate.AddEach | mongoengine/document.py:258-260 | the `$addToSet` passes fail only with KeyError for the field or TypeError |
| DocumentUpdate.AddStepOthers | mongoengine/document.py:258-260 | one `$addToSet` pass changes no field but its own |
| DocumentUpdate.AddStepKeys | mongoengine/document.py:258-260 | one `$addToSet` pass plans at most its own field, without duplicates |
| DocumentUpdate.AddEachOthers | mongoengine/document.py:258-260 | the `$addToSet` passes change no field but their own |
| DocumentUpdate.PlanFrom | mongoengine/document.py:231-234 | a successful plan has only non-empty operator keys starting with `$` |
| DocumentUpdate.PlanOps | mongoengine/document.py:229-260 | the same for the whole update document |
| DocumentUpdate.MergeSpec | mongoengine/document.py:265-266 | `query_spec.update(spec)` has exactly the keys of both |
| DocumentUpdate.MergeSpecKeeps | mongoengine/document.py:265-266 | a key that spec does not set keeps its value in query_spec |
| DocumentUpdate.QuerySpec | mongoengine/document.py:263-266 | the update's query selects exactly `_id` and the spec's keys, `_id` being the document's id (line 127) unless the spec overrides it |
| DocumentUpdate.DocumentId | mongoengine/document.py:114-127 | `self.id` is the value of the primary-key field; a class without one raises AttributeError |
| DocumentUpdate.UpdatePlan | mongoengine/document.py:229-268 | a plan that succeeds is the planned `ops`, naming each field at most once and only undotted fields of the update, and sends a translated dict as query and as update document |
| DocumentUpdate.ApplyOpsKeys | mongoengine/document.py:275-276 | the write-back leaves the old fields plus the planned ones |
| DocumentUpdate.FirstUndeclared | mongoengine/document.py:275-276 | the first planned field the class does not declare: every earlier one is declared |
| DocumentUpdate.FirstUndeclaredKeys | mongoengine/document.py:275-276 | there is no undeclared planned field exactly when every planned field is declared |
| DocumentUpdate.UpdateOutcome | mongoengine/document.py:269-278 | nothing changes on an exception or when n is not 1; otherwise the planned fields are written in turn, the call failing with KeyError exactly when one is undeclared; the instance keeps exactly its declared fields |
| DocumentUpdate.UndottedFields | mongoengine/document.py:239-240 | the fields an operand can plan contain no dot |
| DocumentUpdate.UpdateFields | mongoengine/document.py:236-240 | the fields an update can plan contain no dot |
| DocumentUpdate.AddEachKeys | mongoengine/document.py:258-260 | the `$addToSet` passes plan at most their own field, without duplicates |
| DocumentUpdate.PlanFieldKeys | mongoengine/document.py:240-260 | one field of an operand plans at most that field, without duplicates, and leaves every other field's plan alone |
| DocumentUpdate.PlanFieldsKeys | mongoengine/document.py:237-260 | an operand plans only its undotted fields, without duplicates, and leaves every other field's plan alone |
| DocumentUpdate.PlanFromKeys | mongoengine/document.py:231-260 | the remaining operators plan only their undotted fields, without duplicates, and leave every other field's plan alone |
| DocumentUpdate.PlanOpsKeys | mongoengine/document.py:229-260 | the `ops` dict has distinct keys, all fields of the update, none dotted |
| DocumentUpdate.ApplyOpsFrom | mongoengine/document.py:275-276 | writing the plan back from any entry on: planned fields read their planned value, others are unchanged |
| DocumentUpdate.WriteBack | mongoengine/document.py:275-276 | after the write-back exactly the planned fields change, to their planned values |
| DocumentUpdate.DeclaredFieldsWriteBack | mongoengine/document.py:228-278 | a successful update with n = 1 whose fields are all declared keeps exactly the declared fields, sets the planned ones and leaves the others |
| DocumentUpdate.FirstKeyNotAtomic | mongoengine/document.py:233-234 | a first key without `$` raises "All updates should be atomic operators" |
| DocumentUpdate.PlanFieldsAppend | mongoengine/document.py:237-243 | an operand whose fields each plan one value plans them all, in order |
| DocumentUpdate.OperatorContext | mongoengine/document.py:316-320 | an operator key is read in the document class itself |
| DocumentUpdate.SingleOperator | mongoengine/document.py:231-240 | one operator with an undotted operand plans its fields in order, read in the document class |
| DocumentUpdate.PrefixLacksField | mongoengine/document.py:243 | the plan built from distinct fields does not yet hold the next field |
| DocumentUpdate.AppendToPlan | mongoengine/document.py:243 | a field not yet in the plan is appended |
| DocumentUpdate.SetPlansOperand | mongoengine/document.py:242-262 | `$set` plans every field to its value as the transform leaves the caller's object |
| DocumentUpdate.SetDictFieldStoresSon | mongoengine/document.py:242-262 | `$set` of a dict on a DictField stores that dict with its documents replaced by their SON, as the transform of lines 362-365 leaves it |
| DocumentUpdate.UnsetPlansOperand | mongoengine/document.py:244-245 | `$unset` plans every field to None |
| DocumentUpdate.IncField | mongoengine/document.py:246-247 | `$inc` on an int field plans it to its value plus the increment |
| DocumentUpdate.Increments | mongoengine/document.py:246-247 | the plan `$inc` on int fields should give: each field, in order, paired with its value plus the increment |
| DocumentUpdate.IncPlansOperand | mongoengine/document.py:246-247 | `$inc` on int fields plans each field to its value plus the increment |
| DocumentUpdate.IncSteps | mongoengine/document.py:246-247 | each field of an `$inc` operand appends its sum to the plan |
| DocumentUpdate.PushPlansOperand | mongoengine/document.py:248-262 | `$push` on list fields plans each field to a copy of its list with the value, as the transform leaves it, appended |
| DocumentUpdate.PushAllPlansOperand | mongoengine/document.py:250-251 | `$pushAll` plans each field to its list followed by the given list |
| DocumentUpdate.AddToSetSingle | mongoengine/document.py:252-260 | `$addToSet` of a string not containing `$each` plans the list plus the string when absent, and nothing when present |
| DocumentUpdate.AddToSetIntRejected | mongoengine/document.py:253 | `$addToSet` of an int raises TypeError at the `'$each' in new_val` test |
| DocumentUpdate.AddEachLast | mongoengine/document.py:258-260 | the passes test `new_val` (not the pass's value) and rebuild from the original list, so at most the last value is planned |
| DocumentUpdate.AddToSetEach | mongoengine/document.py:252-260 | `{'$each': ys}` on a list field plans the list plus only the last of ys, unless the dict itself is an element |
| DocumentUpdate.DocumentObject.constructor | mongoengine/document.py:23 | a new instance of a Document class holds a value for every declared field and no other name: the keyword argument given for it, else the field's default |
| DocumentUpdate.DocumentObject.CollectOps | mongoengine/document.py:229-260 | the planning loop computes the plan definition |
| DocumentUpdate.DocumentObject.CollectFields | mongoengine/document.py:237-260 | the loop over an operand's fields computes the plan definition |
| DocumentUpdate.DocumentObject.CollectField | mongoengine/document.py:240-260 | one field of an operand computes the plan definition |
| DocumentUpdate.DocumentObject.CollectAdditions | mongoengine/document.py:258-260 | the `$addToSet` loop computes the plan definition |
| DocumentUpdate.DocumentObject.Store | mongoengine/document.py:275-276 | the write-back loop sets the planned fields in turn until one is undeclared, which raises KeyError; the instance keeps exactly its declared fields |
| DocumentUpdate.DocumentObject.UpdateOne | mongoengine/document.py:228-278 | the new fields and the result are UpdateOutcome of the plan: unchanged on an exception or when n is not 1, else the planned fields (values as the transform leaves them) written until an undeclared one raises KeyError; the instance keeps exactly its declared fields |
| DocumentUpdate.DocumentObject.Set | mongoengine/document.py:280-281 | `update_one({'$set': kwargs})`, with UpdateOne's outcome |
| DocumentUpdate.DocumentObject.Inc | mongoengine/document.py:283-284 | `update_one({'$inc': kwargs})`, with UpdateOne's outcome |
| DocumentUpdate.DocumentObject.Push | mongoengine/document.py:286-287 | `update_one({'$push': kwargs})`, with UpdateOne's outcome |
| DocumentUpdate.DocumentObject.AddToSet | mongoengine/document.py:289-290 | `update_one({'$addToSet': kwargs})`, with UpdateOne's outcome |
| FindRequest.TranslateNames | mongoengine/document.py:148-149 | a field list is translated name by name, in order, keeping its length; a success means every item was a string whose key translates; every failure is a path error |
| FindRequest.NamesFailAt | mongoengine/document.py:148-149 | the list comprehension raises the error of the first item that does not translate |
| FindRequest.NonStringFieldRejected | mongoengine/document.py:149 | a non-string name in a field list, after names that translate, raises AttributeError |
| FindRequest.TranslateFieldMap | mongoengine/document.py:150-152 | the dict of translated names fails only with a path error; its keys and values are stated by FieldMapKeys, FieldMapFrame and FieldMapLastWins |
| FindRequest.FieldMapFrame | mongoengine/document.py:151-152 | entries that never translate to a name leave the value held under that name as it was |
| FindRequest.FieldMapLastWins | mongoengine/document.py:151-152 | `fields[f]` is held under f's translated name unless a later entry translates to the same name |
| FindRequest.TranslateProjection | mongoengine/document.py:147-152 | a list (or tuple) becomes the list of its names' translations, in order, and succeeds only when every item is a string that translates; a dict stays a dict; any other value is passed on unchanged; every failure is a path error |
| FindRequest.ProjectionTranslated | mongoengine/document.py:150-152 | a translated dict of fields has exactly the translated names as keys, and each holds the value of the last entry translating to it |
| FindRequest.FieldMapNameTranslates | mongoengine/document.py:150-152 | a projection dict translates only when every one of its names translates |
| FindRequest.FieldMapKeys | mongoengine/document.py:150-152 | a projection dict's keys are exactly the translated field names |
| FindRequest.Unpack2 | mongoengine/document.py:157 | `for f, dir in sort` unpacks a two-element list; a string of other than two characters raises ValueError; None or an int raises TypeError |
| FindRequest.TranslateName | mongoengine/document.py:149-158 | a string field or sort name is translated by `_transform_key`; any other raises AttributeError |
| FindRequest.TranslateSort | mongoengine/document.py:156-159 | the sort keeps its length; every failure is a path error, ValueError or TypeError |
| FindRequest.SortItem | mongoengine/document.py:157-159 | one sort item fails only with a path error, ValueError or TypeError |
| FindRequest.SortItemTranslated | mongoengine/document.py:157-159 | a sort item that translates was a pair whose name is a string that translates; it becomes the translated name with the same direction |
| FindRequest.MapItems | mongoengine/document.py:156-159 | the loop keeps the number of items, and when it fails it fails with the error of one of the items |
| FindRequest.MapItemsAt | mongoengine/document.py:156-159 | every result of a completed loop is the step applied to the item at the same position |
| FindRequest.SortedPair | mongoengine/document.py:156-159 | a pair of a translated sort has its name translated and its direction kept, at the same position |
| FindRequest.SortArgument | mongoengine/document.py:155-161 | a falsy sort is passed on as it is; any other becomes a list as long as its items |
| FindRequest.SortStringRejected | mongoengine/document.py:155-157 | `sort='age'` (any non-empty string) raises ValueError |
| FindRequest.SortBareNameRejected | mongoengine/document.py:155-157 | `sort=['age']` (a first item that is a name of other than two characters) raises ValueError |
| FindRequest.SortTranslated | mongoengine/document.py:155-161 | a non-empty list of pairs stays the same length, with each name translated and each direction kept |
| FindRequest.ReadPreferenceFor | mongoengine/document.py:163-166 | reads go to a secondary exactly when slave_ok is set |
| FindRequest.TagTypes | mongoengine/document.py:144-145 | `spec['_types'] = class name` makes `_types` read the class name, keeps every other key and its value, adds only `_types` to the keys, and appends the pair when `_types` was absent; a non-dict raises TypeError |
| FindRequest.QueryFor | mongoengine/document.py:141-145 | succeeds exactly when the transform succeeds and, with inheritance, gives a dict; with inheritance the query is the transformed spec with `_types` = class name added and every other key as the transform left it; without it the query is the transformed spec |
| FindRequest.FindRequestFor | mongoengine/document.py:137-166 | succeeds exactly when the query, the projection and the sort all translate; the request's query is QueryFor's (tagged `_types`, other keys as transformed), its fields the translated projection, its sort the sort argument, its read preference secondary exactly when slave_ok is set; every failure is a transform or sort error |
| FindRequest.ShapeRequest | mongoengine/document.py:137-166 | the method computes the request definition |
| FindRequest.ShapeQuery | mongoengine/document.py:141-145 | the method computes the tagged query |
| FindRequest.ShapeSort | mongoengine/document.py:155-161 | the method computes the sort argument: unchanged when falsy, translated otherwise |
| FindRequest.TranslatePairs | mongoengine/document.py:156-159 | the loop over the sort items computes the translated sort |
| Connection.GetIdentity | mongoengine/connection.py:66-69 | 0 for an empty identity tuple, else its first element |
| Connection.NewSettings | mongoengine/connection.py:78-85 | defaults, then kwargs; db_name is `db`; db_username is the username when it is truthy, else the kwargs' db_username if given, else absent; db_password is the USERNAME when the password is truthy, else the kwargs' db_password if given, else absent; every other kwarg and every default not overridden is kept; no other key appears |
| Connection.GetConnectionSpec | mongoengine/connection.py:21-37 | no settings: None, nothing touched. Otherwise a client is built iff none is cached or reconnect is set. A failure writes no client (only the empty inner dict). Other names are unchanged |
| Connection.GetConnectionIgnoresDbs | mongoengine/connection.py:21-37 | _get_connection's answer, client cache and client count do not depend on the database cache, which it leaves as it is |
| Connection.GetDbSpec | mongoengine/connection.py:39-64 | no settings: None, nothing touched. A cached database is returned as is, even with reconnect. Otherwise the client cache and client count end as _get_connection leaves them; its ConnectionError is passed on; with a client, a missing db_name raises KeyError, a db_name the driver refuses raises TypeError or InvalidName, both credentials set and refused raise the authentication ConnectionError, and otherwise the result is the database named db_name on that client. A success caches what it returns. A failure caches no database. Other names are unchanged |
| Connection.ConnectSpec | mongoengine/connection.py:71-87 | the name's settings are replaced wholesale and other names' settings are unchanged; a success always returns a database |
| Connection.Registry.constructor | mongoengine/connection.py:12-14 | the three dictionaries start empty |
| Connection.Registry.GetConnection | mongoengine/connection.py:21-37 | the method's new state and result are those of the specification |
| Connection.Registry.GetDb | mongoengine/connection.py:39-64 | the method's new state and result are those of the specification |
| Connection.Registry.Connect | mongoengine/connection.py:71-87 | the method's new state and result are those of the specification |
| Connection.ConnectKeepsConfigured | mongoengine/connection.py:78-80 | after connect every name has a host and a db_name, so connect fails only with ConnectionError or, for a database name the driver refuses (`''`, `'my db'`, a non-string), with that name's TypeError or InvalidName |
| Connection.SecondConnectReturnsCachedDb | mongoengine/connection.py:49-64 | after a successful connect, connecting the same name again (even to another db) returns the first database and builds no client |
| Connection.FirstConnectBuildsClient | mongoengine/connection.py:32-34 | a first connect builds one client for the configured host. A database name the driver refuses fails with its error and caches nothing; otherwise it caches and returns the database `db` unless both credentials are set and rejected |
| Connection.UnreachableCachesNothing | mongoengine/connection.py:33-36 | an unreachable server raises "Cannot connect" and leaves no client, no database and no new build |
| Connection.AuthenticatesOnlyWithBothCredentials | mongoengine/connection.py:56-60 | without both db_username and db_password the answer of authenticate() makes no difference |
| Connection.AuthenticationAcceptedNeverFails | mongoengine/connection.py:56-60 | when authenticate() accepts, get_db never fails with an authentication error |
| Connection.AuthenticationRefusedFails | mongoengine/connection.py:48-60 | a refused authenticate() fails get_db exactly when the database is not cached, the connection succeeds, and the settings hold a db_name the driver accepts and both credentials |


## Left out

- Database I/O: the `update` and `find`/`find_one` calls to pymongo are not modelled. The server's reply to `update_one` is the input `n`. `find_raw` is modelled up to the request it would send.
- The AutoReconnect retry loop of `find_raw` (lines 168-180) is left out. It sleeps and repeats I/O.
- `find`, `find_iter`, `find_one`, `count`, `update`, `_from_son` and `MapReduceDocument` are not part of this model. They are I/O wrappers or result decoding.
- pymongo is not part of this model. `conn[settings['db_name']]` (connection.py line 54) follows pymongo 2's Database constructor: TypeError for a name that is not a string, InvalidName for an empty name or one holding a space, `.`, `$`, `/`, `\` or NUL. Other pymongo versions may refuse a slightly different set of characters.
- pymongo's `Connection(host)`, `db.authenticate` and `multiprocessing.current_process()` are inputs. They are whether the host is reachable, whether authentication succeeds, and the process identity tuple.
- A client is a host plus a build serial. The serial stands for object identity.
- Field validation (`field.validate`) is an opaque predicate of the environment. `fields.py` is not part of this model, so the kind of each field is a schema datum.
- KeyPath.ElementContext: a DictField or ArbitraryField is assumed to carry a `field` attribute that is neither a class name nor a field. A digit segment below one therefore keeps the context. A scalar field has no `field` attribute and raises AttributeError.
- `ObjectId(value)` never fails in the model. bson's parse errors for malformed strings are not modelled.
- `get_document` of an unregistered class name fails with NotRegistered. The model does not reproduce the exact exception type.
- Connection.GetDbSpec: the authentication error carries the message template only. The source passes the username as a second exception argument, which the model drops.
- Python exceptions raised outside the modelled operations (attribute errors on malformed schemas, hashing errors on exotic keys) are not modelled.
- Concurrency: the module-level dictionaries are shared between threads without locks. The model is sequential.
- `mongoengine/base.py` is not part of this model. Three of its behaviours are assumed: `self.id` reads the value of the primary-key field; `self[field] = v` raises KeyError for a name the class does not declare, keeping the writes before it; the constructor accepts only declared names and starts every other declared field at its default; the defaults themselves (a value or a callable on the field) are an input of the model.
- Python 2 dictionaries iterate in hash order. The model iterates every dict in entry order. This decides which operator later siblings inherit (lines 316-318) and which entries `{'_id': id}.update(spec)` keeps.
- Values.Contains: `in` compares with structural equality, not Python's `==`. Two dicts with the same items in another entry order count as different, and documents are compared by their SON rather than by base.py's `__eq__`. This can change whether `$addToSet` (line 259) appends a value.
- The value domain is None, int, str, list, dict, ObjectId and document instance. Floats and bools are not modelled, so `$inc` by 0.5, `$set(flag=True)`, `True + 1` and a bool's truthiness cannot be expressed.
- Tuples are modelled as lists. A sort item `('age', 1)` is the list `['age', 1]`.
- The sort direction is not checked. pymongo's TypeError for a direction other than 1 or -1 (`[('age', 0)]`) happens inside the driver, which is not part of this model.
- Aliasing is modelled only for the operand objects the transform itself mutates (Settled, AfterTransform). Sharing between a passed object and a field's current value is not modelled.
