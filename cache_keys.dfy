/** Cache keys: the SHA-256 keys of the fault-tolerant cache helpers
    (cache_utils.py) and the `hash()`-based keys of the two memoising
    `persistent_cache` decorators (NewDownloads.py, GA4query3.py).

    The JSON serialiser, the SHA-256 hex digest, `str()` of an argument tuple and
    Python's `hash()` are not modelled; each is a parameter. An `Option` or a
    `Result` from such a parameter says whether that call raised. */
module CacheKeys {
  import opened Base
  import opened Strings
  import Ordering

  /** Keyword arguments in call order; a Python dict, so names are distinct. */
  type Kwargs = seq<(string, Value)>

  /** The object `generate_cache_key` serialises. */
  datatype KeyPayload = KeyPayload(
    funcName: string,
    args: seq<Value>,
    kwargs: Kwargs,
    argTypes: Option<seq<string>>)

  /** An argument with a `__dict__` is replaced by its `str()` text. */
  function Serializable(a: Value): Value
  {
    if a.VObject? then VStr(a.text) else a
  }

  /** `type(arg).__name__`. */
  function TypeName(a: Value): string
  {
    match a
    case VNone => "NoneType"
    case VBool(_) => "bool"
    case VInt(_) => "int"
    case VFloat(_) => "float"
    case VStr(_) => "str"
    case VList(_) => "list"
    case VDict(_) => "dict"
    case VObject(c, _) => c
  }

  function TypeNames(args: seq<Value>): (names: seq<string>)
    ensures |names| == |args|
    ensures forall i :: 0 <= i < |args| ==> names[i] == TypeName(args[i])
  {
    if args == [] then [] else [TypeName(args[0])] + TypeNames(args[1..])
  }

  function SerializableArgs(args: seq<Value>): (out: seq<Value>)
    ensures |out| == |args|
    ensures forall i :: 0 <= i < |args| ==> out[i] == Serializable(args[i])
  {
    if args == [] then [] else [Serializable(args[0])] + SerializableArgs(args[1..])
  }

  function Payload(funcName: string, args: seq<Value>, kwargs: Kwargs, typed: bool): KeyPayload
  {
    KeyPayload(funcName, SerializableArgs(args), Ordering.SortByName(kwargs),
               if typed then Some(TypeNames(args)) else None)
  }

  /** `generate_cache_key`: prefix, function name, ':' and the hex digest of the
      serialised payload; when serialising raises, the digest of the `str()` text of
      the arguments and the sorted keyword arguments; None when that raises too. */
  function GenerateCacheKey(
    prefix: string, funcName: string, args: seq<Value>, kwargs: Kwargs, typed: bool,
    dumps: KeyPayload -> Option<string>,
    fallbackText: (seq<Value>, Kwargs) -> Option<string>,
    hexDigest: string -> string): (key: Option<string>)
    ensures key.Some? ==> StartsWith(key.value, prefix + funcName + ":")
    ensures key.None? <==>
      dumps(Payload(funcName, args, kwargs, typed)).None?
      && fallbackText(args, Ordering.SortByName(kwargs)).None?
  {
    match dumps(Payload(funcName, args, kwargs, typed))
    case Some(text) => Some(prefix + funcName + ":" + hexDigest(text))
    case None =>
      match fallbackText(args, Ordering.SortByName(kwargs))
      case Some(text) => Some(prefix + funcName + ":" + hexDigest(text))
      case None => None
  }

  /** Two calls that pass the same keyword arguments in a different order get
      the same key. */
  lemma KwargsOrderIrrelevant(
    prefix: string, funcName: string, args: seq<Value>, kw1: Kwargs, kw2: Kwargs, typed: bool,
    dumps: KeyPayload -> Option<string>,
    fallbackText: (seq<Value>, Kwargs) -> Option<string>,
    hexDigest: string -> string)
    requires Ordering.DistinctNames(kw1) && Ordering.DistinctNames(kw2)
    requires multiset(kw1) == multiset(kw2)
    ensures GenerateCacheKey(prefix, funcName, args, kw1, typed, dumps, fallbackText, hexDigest)
         == GenerateCacheKey(prefix, funcName, args, kw2, typed, dumps, fallbackText, hexDigest)
  {
    Ordering.SortForgetsOrder(kw1, kw2);
  }

  /** Objects enter the serialised payload only through their `str()` text: two
      untyped argument lists that agree after that replacement get the same key
      whenever serialising succeeds. */
  lemma ObjectsKeyedByText(
    prefix: string, funcName: string, args1: seq<Value>, args2: seq<Value>, kwargs: Kwargs,
    dumps: KeyPayload -> Option<string>,
    fallbackText: (seq<Value>, Kwargs) -> Option<string>,
    hexDigest: string -> string)
    requires |args1| == |args2|
    requires forall i :: 0 <= i < |args1| ==> Serializable(args1[i]) == Serializable(args2[i])
    requires dumps(Payload(funcName, args1, kwargs, false)).Some?
    ensures GenerateCacheKey(prefix, funcName, args1, kwargs, false, dumps, fallbackText, hexDigest)
         == GenerateCacheKey(prefix, funcName, args2, kwargs, false, dumps, fallbackText, hexDigest)
  {
    assert SerializableArgs(args1) == SerializableArgs(args2);
  }

  /** With `typed`, the payload carries one type name per argument, so the type
      names take part in the serialised text; without it they do not. */
  lemma TypedPayloadCarriesTypes(funcName: string, args: seq<Value>, kwargs: Kwargs, typed: bool)
    ensures Payload(funcName, args, kwargs, typed).argTypes.Some? <==> typed
    ensures typed ==> forall i :: 0 <= i < |args| ==>
      Payload(funcName, args, kwargs, typed).argTypes.value[i] == TypeName(args[i])
  {
  }

  /** What `hash()` is applied to: the positional arguments and the keyword
      arguments sorted by name. */
  datatype HashInput = HashInput(args: seq<Value>, kwargs: Kwargs)

  /** Lists and dicts are unhashable; every other value here is hashable. */
  predicate Hashable(v: Value)
  {
    !v.VList? && !v.VDict?
  }

  function FirstUnhashable(vs: seq<Value>): (r: Option<Value>)
    ensures r.None? <==> forall i :: 0 <= i < |vs| ==> Hashable(vs[i])
    ensures r.Some? ==> !Hashable(r.value)
  {
    if vs == [] then None
    else if !Hashable(vs[0]) then Some(vs[0])
    else FirstUnhashable(vs[1..])
  }

  function KwargValues(kw: Kwargs): (vs: seq<Value>)
    ensures |vs| == |kw| && forall i :: 0 <= i < |kw| ==> vs[i] == kw[i].1
  {
    if kw == [] then [] else [kw[0].1] + KwargValues(kw[1..])
  }

  /** The key of the `persistent_cache` wrappers: function name, ':' and the
      `hash()` of the arguments with the sorted keyword arguments, plus ':' and
      the hash of the argument types when typed. Hashing a list or a dict raises
      TypeError, which is not caught. */
  function PersistentKey(
    name: string, args: seq<Value>, kwargs: Kwargs, typed: bool,
    hash: HashInput -> int, typeHash: seq<string> -> int): (key: Result<string>)
    ensures key.Ok? <==> (forall i :: 0 <= i < |args| ==> Hashable(args[i]))
                         && (forall i :: 0 <= i < |kwargs| ==> Hashable(kwargs[i].1))
    ensures key.Ok? ==> StartsWith(key.value, name + ":")
  {
    var sorted := Ordering.SortByName(kwargs);
    AllHashable(args, kwargs);
    var unhashable := FirstUnhashable(args + KwargValues(sorted));
    if unhashable.Some? then
      Err("unhashable type: '" + TypeName(unhashable.value) + "'")
    else
      var base := name + ":" + IntToString(hash(HashInput(args, sorted)));
      Ok(if typed then base + ":" + IntToString(typeHash(TypeNames(args))) else base)
  }

  /** The arguments `hash()` sees are all hashable exactly when the positional
      and keyword arguments are. */
  lemma AllHashable(args: seq<Value>, kwargs: Kwargs)
    ensures FirstUnhashable(args + KwargValues(Ordering.SortByName(kwargs))).None?
        <==> (forall i :: 0 <= i < |args| ==> Hashable(args[i]))
             && (forall i :: 0 <= i < |kwargs| ==> Hashable(kwargs[i].1))
  {
    var sorted := Ordering.SortByName(kwargs);
    var vals := KwargValues(sorted);
    HashableSorted(kwargs);
    HashableConcat(args, vals);
    KwargValuesHashable(sorted);
  }

  lemma KwargValuesHashable(kw: Kwargs)
    ensures (forall i :: 0 <= i < |KwargValues(kw)| ==> Hashable(KwargValues(kw)[i]))
        <==> (forall j :: 0 <= j < |kw| ==> Hashable(kw[j].1))
  {
    var vs := KwargValues(kw);
    if forall i :: 0 <= i < |vs| ==> Hashable(vs[i]) {
      forall j | 0 <= j < |kw| ensures Hashable(kw[j].1) { assert vs[j] == kw[j].1; }
    }
    if forall j :: 0 <= j < |kw| ==> Hashable(kw[j].1) {
      forall i | 0 <= i < |vs| ensures Hashable(vs[i]) { assert vs[i] == kw[i].1 && Hashable(kw[i].1); }
    }
  }

  lemma HashableConcat(a: seq<Value>, b: seq<Value>)
    ensures (forall i :: 0 <= i < |a + b| ==> Hashable((a + b)[i]))
        <==> (forall i :: 0 <= i < |a| ==> Hashable(a[i])) && (forall i :: 0 <= i < |b| ==> Hashable(b[i]))
  {
    var all := a + b;
    if (forall i :: 0 <= i < |a| ==> Hashable(a[i])) && (forall i :: 0 <= i < |b| ==> Hashable(b[i])) {
      forall i | 0 <= i < |all| ensures Hashable(all[i]) {
        if i < |a| { assert all[i] == a[i]; } else { assert all[i] == b[i - |a|]; }
      }
    }
    if forall i :: 0 <= i < |all| ==> Hashable(all[i]) {
      forall i | 0 <= i < |a| ensures Hashable(a[i]) { assert all[i] == a[i]; }
      forall i | 0 <= i < |b| ensures Hashable(b[i]) { assert all[|a| + i] == b[i]; }
    }
  }

  /** Sorting the keyword arguments neither adds nor removes an unhashable value. */
  lemma HashableSorted(kwargs: Kwargs)
    ensures (forall i :: 0 <= i < |kwargs| ==> Hashable(kwargs[i].1))
        <==> (forall j :: 0 <= j < |Ordering.SortByName(kwargs)| ==> Hashable(Ordering.SortByName(kwargs)[j].1))
  {
    var sorted := Ordering.SortByName(kwargs);
    Ordering.SortPermutes(kwargs);
    if forall i :: 0 <= i < |kwargs| ==> Hashable(kwargs[i].1) {
      HashableUnderPermutation(kwargs, sorted);
    }
    if forall j :: 0 <= j < |sorted| ==> Hashable(sorted[j].1) {
      HashableUnderPermutation(sorted, kwargs);
    }
  }

  lemma HashableUnderPermutation(a: Kwargs, b: Kwargs)
    requires multiset(a) == multiset(b)
    requires forall i :: 0 <= i < |a| ==> Hashable(a[i].1)
    ensures forall j :: 0 <= j < |b| ==> Hashable(b[j].1)
  {
    forall j | 0 <= j < |b| ensures Hashable(b[j].1) {
      assert b[j] in multiset(a);
      var i :| 0 <= i < |a| && a[i] == b[j];
    }
  }

  /** Reordering keyword arguments does not change the `persistent_cache` key. */
  lemma PersistentKeyKwargsOrder(
    name: string, args: seq<Value>, kw1: Kwargs, kw2: Kwargs, typed: bool,
    hash: HashInput -> int, typeHash: seq<string> -> int)
    requires Ordering.DistinctNames(kw1) && Ordering.DistinctNames(kw2)
    requires multiset(kw1) == multiset(kw2)
    ensures PersistentKey(name, args, kw1, typed, hash, typeHash)
         == PersistentKey(name, args, kw2, typed, hash, typeHash)
  {
    Ordering.SortForgetsOrder(kw1, kw2);
  }
}
