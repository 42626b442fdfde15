/** Python values as they occur in MongoEngine query and update documents,
    the exceptions the translation code raises, and the handful of Python
    operations (`in`, iteration, `+`, `[:]`, `[key]`) the code applies to them. */
module Values {

  datatype Option<+T> = None | Some(value: T)

  /** Every exception the modelled code can raise, by cause. */
  datatype Error =
    | NotAtomic                        // ValueError("All updates should be atomic operators")
    | CantFindField(name: string)      // ValueError("Can't find field %s")
    | CantParseField(name: string)     // ValueError("Can't parse field %s")
    | UnknownOperator(op: string)      // ValidationError("Unknown atomic operator %s")
    | Invalid                          // ValidationError raised by a field's validate()
    | NotRegistered(name: string)      // get_document() on a name no document class has
    | ConnectionFailed(reason: string) // ConnectionError
    | IndexError                       // indexing an empty string
    | AttributeError                   // an attribute the object does not have
    | TypeError                        // an operation on a value of the wrong type
    | KeyError(key: string)            // a missing dictionary key
    | WrongArity                       // ValueError unpacking a sequence of the wrong length
    | InvalidName                      // pymongo's InvalidName for a bad database name

  datatype Result<+T> = Success(value: T) | Failure(error: Error) {
    predicate IsFailure() { Failure? }
    function PropagateFailure<U>(): Result<U> requires Failure? { Failure(error) }
    function Extract(): T requires Success? { value }
  }

  /** A Python value. A dict (or SON) keeps its entries in iteration order;
      a document instance is represented by the SON its to_mongo() gives. */
  datatype Value =
    | VNone
    | VInt(i: int)
    | VStr(s: string)
    | VList(items: seq<Value>)
    | VDict(entries: seq<(string, Value)>)
    | VDocument(son: seq<(string, Value)>)
    | VObjectId(raw: Value)

  /** Python truthiness: None, 0, empty strings, lists and dicts are false. */
  predicate Truthy(v: Value)
  {
    match v
    case VNone => false
    case VInt(i) => i != 0
    case VStr(s) => s != ""
    case VList(xs) => xs != []
    case VDict(es) => es != []
    case _ => true
  }

  /** The success or failure of a check that produces nothing. */
  function Check(ok: bool, error: Error): Result<()>
  {
    if ok then Success(()) else Failure(error)
  }

  /** str.isdigit() on an ASCII string. */
  predicate IsDigits(s: string)
  {
    |s| > 0 && forall i :: 0 <= i < |s| ==> '0' <= s[i] <= '9'
  }

  predicate HasKey(es: seq<(string, Value)>, k: string)
  {
    exists i :: 0 <= i < |es| && es[i].0 == k
  }

  /** The keys of a dict given by its entries. */
  function KeySet(es: seq<(string, Value)>): set<string>
  {
    if es == [] then {} else {es[0].0} + KeySet(es[1..])
  }

  predicate DistinctKeys(es: seq<(string, Value)>)
  {
    forall i, j :: 0 <= i < j < |es| ==> es[i].0 != es[j].0
  }

  /** d.get(k) on a dict given by its entries. */
  function Lookup(es: seq<(string, Value)>, k: string): (r: Option<Value>)
    ensures r.Some? <==> HasKey(es, k)
    ensures r.Some? ==> exists i :: 0 <= i < |es| && es[i] == (k, r.value)
  {
    if es == [] then None
    else if es[0].0 == k then Some(es[0].1)
    else
      Lookup(es[1..], k)
  }

  /** son[k] = v: an existing key keeps its position and gets the new value;
      a new key is appended. */
  function SonSet(es: seq<(string, Value)>, k: string, v: Value): (r: seq<(string, Value)>)
    ensures |r| == if HasKey(es, k) then |es| else |es| + 1
    ensures forall i :: 0 <= i < |es| ==> r[i].0 == es[i].0
    ensures |r| > |es| ==> r[|es|].0 == k
  {
    if es == [] then [(k, v)]
    else if es[0].0 == k then [(k, v)] + es[1..]
    else [es[0]] + SonSet(es[1..], k, v)
  }

  /** After son[k] = v, son.get(k) is v and every other key reads as before. */
  lemma {:induction false} SonSetLookup(es: seq<(string, Value)>, k: string, v: Value)
    ensures Lookup(SonSet(es, k, v), k) == Some(v)
    ensures forall k' :: k' != k ==> Lookup(SonSet(es, k, v), k') == Lookup(es, k')
  {
    if es != [] && es[0].0 != k {
      SonSetLookup(es[1..], k, v);
      assert ([es[0]] + SonSet(es[1..], k, v))[1..] == SonSet(es[1..], k, v);
    } else if es != [] {
      assert ([(k, v)] + es[1..])[1..] == es[1..];
    }
  }

  lemma {:induction false} SonSetKeys(es: seq<(string, Value)>, k: string, v: Value)
    ensures KeySet(SonSet(es, k, v)) == KeySet(es) + {k}
  {
    if es != [] && es[0].0 != k {
      SonSetKeys(es[1..], k, v);
      assert ([es[0]] + SonSet(es[1..], k, v))[1..] == SonSet(es[1..], k, v);
    } else if es != [] {
      assert ([(k, v)] + es[1..])[1..] == es[1..];
    }
  }

  /** son[k] = v on a SON without k appends the pair. */
  lemma {:induction false} SonSetAbsent(es: seq<(string, Value)>, k: string, v: Value)
    requires !HasKey(es, k)
    ensures SonSet(es, k, v) == es + [(k, v)]
  {
    if es != [] {
      assert !HasKey(es[1..], k) by {
        forall i | 0 <= i < |es[1..]| ensures es[1..][i].0 != k {
          assert es[1..][i] == es[i + 1];
        }
      }
      SonSetAbsent(es[1..], k, v);
      assert [es[0]] + (es[1..] + [(k, v)]) == es + [(k, v)];
    }
  }

  /** Setting the same key twice keeps only the second value. */
  lemma {:induction false} SonSetTwice(es: seq<(string, Value)>, k: string, v: Value, w: Value)
    ensures SonSet(SonSet(es, k, v), k, w) == SonSet(es, k, w)
  {
    if es != [] && es[0].0 != k {
      SonSetTwice(es[1..], k, v, w);
      assert ([es[0]] + SonSet(es[1..], k, v))[1..] == SonSet(es[1..], k, v);
    } else if es != [] {
      assert ([(k, v)] + es[1..])[1..] == es[1..];
    }
  }

  lemma {:induction false} KeySetHasKey(es: seq<(string, Value)>, k: string)
    ensures k in KeySet(es) <==> HasKey(es, k)
  {
    if es != [] {
      KeySetHasKey(es[1..], k);
      if HasKey(es, k) && es[0].0 != k {
        var i :| 0 <= i < |es| && es[i].0 == k;
        assert es[1..][i - 1] == es[i];
      }
      if HasKey(es[1..], k) {
        var i :| 0 <= i < |es[1..]| && es[1..][i].0 == k;
        assert es[i + 1] == es[1..][i];
      }
    }
  }

  /** son[k] = v never makes a key appear twice. */
  lemma SonSetDistinct(es: seq<(string, Value)>, k: string, v: Value)
    requires DistinctKeys(es)
    ensures DistinctKeys(SonSet(es, k, v))
  {
    var r := SonSet(es, k, v);
    if !HasKey(es, k) {
      SonSetAbsent(es, k, v);
    } else {
      assert |r| == |es|;
    }
  }

  /** Python's `item in container`. A dict answers for its keys, a string for
      its substrings, a document through its `__contains__` (a present,
      non-None attribute); an unhashable item asked of a dict, or a container
      that is not iterable, raises TypeError. */
  function Contains(item: Value, container: Value): (r: Result<bool>)
    ensures container.VList? ==> r == Success(item in container.items)
    ensures container.VNone? || container.VInt? || container.VObjectId? ==> r == Failure(TypeError)
  {
    match container
    case VList(xs) => Success(item in xs)
    case VDict(es) =>
      if item.VList? || item.VDict? then Failure(TypeError)
      else Success(item.VStr? && HasKey(es, item.s))
    case VStr(s) =>
      if item.VStr? then Success(IsSubstring(item.s, s)) else Failure(TypeError)
    case VDocument(son) =>
      if item.VStr? then Success(Lookup(son, item.s).Some? && Lookup(son, item.s).value != VNone)
      else Failure(TypeError)
    case _ => Failure(TypeError)
  }

  predicate IsPrefix(t: string, s: string)
  {
    |t| <= |s| && s[..|t|] == t
  }

  predicate IsSubstring(t: string, s: string)
    decreases |s|
  {
    IsPrefix(t, s) || (|s| > 0 && IsSubstring(t, s[1..]))
  }

  /** The items a Python `for` loop visits: a list's elements, a dict's keys,
      a string's characters; anything else raises TypeError. */
  function Iterate(v: Value): (r: Result<seq<Value>>)
    ensures v.VList? ==> r == Success(v.items)
    ensures r.Success? && v.VDict? ==> |r.value| == |v.entries|
  {
    match v
    case VList(xs) => Success(xs)
    case VDict(es) => Success(seq(|es|, i requires 0 <= i < |es| => VStr(es[i].0)))
    case VStr(s) => Success(seq(|s|, i requires 0 <= i < |s| => VStr([s[i]])))
    case _ => Failure(TypeError)
  }

  /** Python's `a + b` on integers, strings and lists. */
  function Add(a: Value, b: Value): (r: Result<Value>)
    ensures a.VInt? && b.VInt? ==> r == Success(VInt(a.i + b.i))
    ensures a.VList? && b.VList? ==> r == Success(VList(a.items + b.items))
    ensures r.Success? ==> (a.VInt? && b.VInt?) || (a.VStr? && b.VStr?) || (a.VList? && b.VList?)
  {
    match (a, b)
    case (VInt(x), VInt(y)) => Success(VInt(x + y))
    case (VStr(x), VStr(y)) => Success(VStr(x + y))
    case (VList(x), VList(y)) => Success(VList(x + y))
    case _ => Failure(TypeError)
  }

  /** Python's `v[:]`, a copy of a list or string. */
  function Copy(v: Value): (r: Result<Value>)
    ensures r.Success? ==> r.value == v && (v.VList? || v.VStr?)
    ensures v.VList? ==> r == Success(v)
  {
    if v.VList? || v.VStr? then Success(v) else Failure(TypeError)
  }

  /** Python's `v[k]` with a string key. */
  function Subscript(v: Value, k: string): (r: Result<Value>)
    ensures v.VDict? && HasKey(v.entries, k) ==> r == Success(Lookup(v.entries, k).value)
  {
    match v
    case VDict(es) => if HasKey(es, k) then Success(Lookup(es, k).value) else Failure(KeyError(k))
    case VDocument(son) => if HasKey(son, k) then Success(Lookup(son, k).value) else Failure(KeyError(k))
    case _ => Failure(TypeError)
  }
}
