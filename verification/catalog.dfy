/** MapBasedDataMaster: the data catalog the producers draw names, formats
    and lists from. Loaded YAML mappings are stored in a case-insensitive map
    (CaseInsensitiveMap): keys are lower-cased on write and on read, nested
    mappings are converted recursively, lists are kept as loaded, and a later
    file replaces a whole value rather than merging into it. */
module Catalog {
  import opened Wrappers
  import opened Chars
  import opened Languages
  import opened Random

  const LANGUAGE_TAG: string := "language"

  /** A value as the YAML loader produces it; mapping entries keep file order. */
  datatype Yaml =
    | YStr(s: string)
    | YInt(i: int)
    | YScalar(text: string)              // any other scalar: boolean, float, timestamp
    | YNull
    | YList(items: seq<Yaml>)
    | YMap(entries: seq<(string, Yaml)>)

  /** A value as the catalog stores it. */
  datatype Entry =
    | EStr(s: string)
    | EInt(i: int)
    | EScalar(text: string)
    | ENull
    | EList(items: seq<Yaml>)            // lists are stored as loaded, not converted
    | EMap(m: map<string, Entry>)        // a nested case-insensitive map

  /** The Java class a lookup asks for. */
  datatype Kind = StringKind | ListKind | MapKind

  function KindName(k: Kind): string {
    match k
    case StringKind => "String"
    case ListKind => "List"
    case MapKind => "Map"
  }

  predicate HasKind(e: Entry, k: Kind) {
    match k
    case StringKind => e.EStr?
    case ListKind => e.EList?
    case MapKind => e.EMap?
  }

  /** CaseInsensitiveMap.put's conversion of a value: a mapping becomes a new
      case-insensitive map filled entry by entry; everything else is kept. */
  function Convert(y: Yaml): Entry
    decreases y, 1
  {
    match y
    case YStr(s) => EStr(s)
    case YInt(i) => EInt(i)
    case YScalar(t) => EScalar(t)
    case YNull => ENull
    case YList(items) => EList(items)
    case YMap(es) => EMap(Store(map[], es, y))
  }

  /** CaseInsensitiveMap.putAll: each entry is put in order under its
      lower-cased key, replacing any earlier value there. The ghost `parent`
      is a value all the entries' values are part of; it bounds the recursion. */
  function Store(m: map<string, Entry>, es: seq<(string, Yaml)>, ghost parent: Yaml): map<string, Entry>
    requires forall i :: 0 <= i < |es| ==> es[i].1 < parent
    decreases parent, 0, |es|
  {
    if es == [] then m
    else
      var last := es[|es| - 1];
      Store(m, es[..|es| - 1], parent)[Lower(last.0) := Convert(last.1)]
  }

  /** Putting all entries of a loaded mapping into `m`. */
  function PutAll(m: map<string, Entry>, es: seq<(string, Yaml)>): map<string, Entry> {
    Store(m, es, YMap(es))
  }

  /** CaseInsensitiveMap.get: the key is lower-cased before the lookup. */
  function Lookup(m: map<string, Entry>, key: string): Option<Entry> {
    if Lower(key) in m then Some(m[Lower(key)]) else None
  }

  /** The value of the last entry whose key matches `key` ignoring case. */
  function Latest(es: seq<(string, Yaml)>, key: string): Option<Yaml> {
    if es == [] then None
    else if Lower(es[|es| - 1].0) == Lower(key) then Some(es[|es| - 1].1)
    else Latest(es[..|es| - 1], key)
  }

  /** Every key is stored in lower case. */
  predicate LowerKeys(m: map<string, Entry>) {
    forall k :: k in m ==> Lower(k) == k
  }

  /** A stored value whose nested maps, at every depth, have lower-case keys. */
  predicate Normalized(e: Entry) {
    match e
    case EMap(m) => LowerKeys(m) && forall k :: k in m ==> Normalized(m[k])
    case _ => true
  }

  /** After putting entries, a lookup finds the converted value of the last
      entry whose key matches ignoring case; keys no entry matches keep their
      old value. A later value replaces an earlier one whole: nothing is merged. */
  lemma {:induction false} StoreLookup(m: map<string, Entry>, es: seq<(string, Yaml)>, parent: Yaml, key: string)
    requires forall i :: 0 <= i < |es| ==> es[i].1 < parent
    ensures Lookup(Store(m, es, parent), key) ==
              if Latest(es, key).Some? then Some(Convert(Latest(es, key).value)) else Lookup(m, key)
    decreases |es|
  {
    if es != [] {
      StoreLookup(m, es[..|es| - 1], parent, key);
    }
  }

  /** putAll keeps the keys lower-case and every stored value normalised. */
  lemma {:induction false} StoreNormalized(m: map<string, Entry>, es: seq<(string, Yaml)>, parent: Yaml)
    requires forall i :: 0 <= i < |es| ==> es[i].1 < parent
    requires LowerKeys(m) && forall k :: k in m ==> Normalized(m[k])
    ensures var r := Store(m, es, parent); LowerKeys(r) && forall k :: k in r ==> Normalized(r[k])
    decreases parent, 0, |es|
  {
    if es != [] {
      var last := es[|es| - 1];
      StoreNormalized(m, es[..|es| - 1], parent);
      LowerIdempotent(last.0);
      ConvertNormalized(last.1);
    }
  }

  /** Converting a loaded value yields case-insensitive maps at every depth. */
  lemma {:induction false} ConvertNormalized(y: Yaml)
    ensures Normalized(Convert(y))
    decreases y, 1
  {
    if y.YMap? {
      StoreNormalized(map[], y.entries, y);
    }
  }

  /** Lookups ignore case: the upper-case spelling of a key finds the same value. */
  lemma LookupIgnoresCase(m: map<string, Entry>, key: string)
    ensures Lookup(m, Upper(key)) == Lookup(m, key)
    ensures Lookup(m, Lower(key)) == Lookup(m, key)
  {
    LowerOfUpper(key);
    LowerIdempotent(key);
  }

  /** getData: the key must be present with a non-null value of the requested kind. */
  function GetData(m: map<string, Entry>, key: string, kind: Kind): (r: Result<Entry>)
    ensures r.Success? <==> Lookup(m, key).Some? && HasKind(Lookup(m, key).value, kind)
    ensures r.Success? ==> r.value == Lookup(m, key).value
    ensures Lookup(m, key).None? || Lookup(m, key) == Some(ENull) ==>
              r == Failure(IllegalArgument("No such key: " + key))
  {
    match Lookup(m, key)
    case None => Failure(IllegalArgument("No such key: " + key))
    case Some(e) =>
      if e.ENull? then Failure(IllegalArgument("No such key: " + key))
      else if HasKind(e, kind) then Success(e)
      else Failure(IllegalArgument("Element under desired key has incorrect type - should be " + KindName(kind)))
  }

  /** getStringList: the list stored under `key`. */
  function GetStringList(m: map<string, Entry>, key: string): (r: Result<seq<Yaml>>)
    ensures r.Success? <==> Lookup(m, key).Some? && Lookup(m, key).value.EList?
    ensures r.Success? ==> Lookup(m, key) == Some(EList(r.value))
  {
    var e :- GetData(m, key, ListKind);
    Success(e.items)
  }

  /** getString: the string stored under `key`. */
  function GetString(m: map<string, Entry>, key: string): (r: Result<string>)
    ensures r.Success? <==> Lookup(m, key).Some? && Lookup(m, key).value.EStr?
    ensures r.Success? ==> Lookup(m, key) == Some(EStr(r.value))
  {
    var e :- GetData(m, key, StringKind);
    Success(e.s)
  }

  /** getLanguage: the "language" string, upper-cased, as a language code;
      None when no constant has that name. */
  function GetLanguage(m: map<string, Entry>): (r: Result<Option<LanguageCode>>)
    ensures r.Success? <==> GetString(m, LANGUAGE_TAG).Success?
    ensures r.Success? && r.value.Some? ==> Upper(GetString(m, LANGUAGE_TAG).value) == Name(r.value.value)
  {
    var s :- GetString(m, LANGUAGE_TAG);
    Success(FromName(Upper(s)))
  }

  /** The catalog language is recognised in any capitalisation. */
  lemma LanguageIgnoresCase(m: map<string, Entry>, s: string, l: LanguageCode)
    requires GetString(m, LANGUAGE_TAG) == Success(s)
    requires Lower(s) == Lower(Name(l))
    ensures GetLanguage(m) == Success(Some(l))
  {
    UpperFromLower(s, Name(l));
    assert Upper(Name(l)) == Name(l);
    FromNameOfName(l);
  }

  /** The list getValuesOfType draws from: the nested map under `dataKey`
      looked up (ignoring case) by `typeName`. A missing type is a null list, and
      anything but a list fails the cast. */
  function TypedList(m: map<string, Entry>, dataKey: string, typeName: string): (r: Result<seq<Yaml>>)
    ensures r.Success? ==> exists nested :: Lookup(m, dataKey) == Some(EMap(nested))
                                          && Lookup(nested, typeName) == Some(EList(r.value))
  {
    var data :- GetData(m, dataKey, MapKind);
    match Lookup(data.m, typeName)
    case None => Failure(NullPointer)
    case Some(e) =>
      if e.ENull? then Failure(NullPointer)
      else if e.EList? then Success(e.items)
      else Failure(ClassCast)
  }

  /** `s` is one of the strings listed under `key`. */
  predicate Listed(m: map<string, Entry>, key: string, s: string) {
    GetStringList(m, key).Success? && YStr(s) in GetStringList(m, key).value
  }

  /** `s` is one of the strings listed under `typeName` inside the map
      stored under `dataKey`. */
  predicate TypedListed(m: map<string, Entry>, dataKey: string, typeName: string, s: string) {
    TypedList(m, dataKey, typeName).Success? && YStr(s) in TypedList(m, dataKey, typeName).value
  }

  /** The cast of a drawn catalog element to String. */
  function AsString(y: Yaml): (r: Result<string>)
    ensures r.Success? <==> y.YStr?
    ensures r.Success? ==> y == YStr(r.value)
  {
    match y
    case YStr(s) => Success(s)
    case YNull => Failure(NullPointer)
    case _ => Failure(ClassCast)
  }

  /** MapBasedDataMaster: the stored catalog and the random source it draws with. */
  class DataMaster {
    const rng: RandomSource
    var dataSource: map<string, Entry>

    ghost predicate Valid()
      reads this
    {
      LowerKeys(dataSource) && forall k :: k in dataSource ==> Normalized(dataSource[k])
    }

    constructor(rng: RandomSource)
      ensures this.rng == rng && dataSource == map[] && Valid()
    {
      this.rng := rng;
      dataSource := map[];
    }

    /** CaseInsensitiveMap.put: store the converted value under the lower-cased key. */
    method Put(key: string, value: Yaml)
      modifies this
      ensures dataSource == old(dataSource)[Lower(key) := Convert(value)]
    {
      dataSource := dataSource[Lower(key) := Convert(value)];
    }

    /** appendData: every entry of a loaded mapping is put, in file order. */
    method AppendData(data: seq<(string, Yaml)>)
      modifies this
      ensures dataSource == PutAll(old(dataSource), data)
      ensures old(Valid()) ==> Valid()
    {
      var i := 0;
      while i < |data|
        invariant 0 <= i <= |data|
        invariant dataSource == Store(old(dataSource), data[..i], YMap(data))
      {
        assert data[..i + 1][..i] == data[..i];
        Put(data[i].0, data[i].1);
        i := i + 1;
      }
      assert data[..i] == data;
      if old(Valid()) {
        StoreNormalized(old(dataSource), data, YMap(data));
      }
    }

    /** getValuesOfType: a random element of the list stored under `typeName`
        inside the map stored under `dataKey`. */
    method GetValuesOfType(dataKey: string, typeName: string) returns (r: Result<Yaml>)
      modifies rng
      ensures TypedList(dataSource, dataKey, typeName).Failure? ==>
                r == Failure(TypedList(dataSource, dataKey, typeName).error)
      ensures TypedList(dataSource, dataKey, typeName) == Success([]) ==> r == Failure(BadRange)
      ensures (TypedList(dataSource, dataKey, typeName).Success?
               && TypedList(dataSource, dataKey, typeName).value != []) ==> r.Success?
      ensures r.Success? ==> r.value in TypedList(dataSource, dataKey, typeName).value
    {
      var entries :- TypedList(dataSource, dataKey, typeName);
      r := rng.RandomElement(entries);
    }

    /** getRandomValue: a random element of the string list stored under `key`. */
    method GetRandomValue(key: string) returns (r: Result<string>)
      modifies rng
      ensures GetStringList(dataSource, key).Failure? ==>
                r == Failure(GetStringList(dataSource, key).error)
      ensures GetStringList(dataSource, key) == Success([]) ==> r == Failure(BadRange)
      ensures r.Success? ==> YStr(r.value) in GetStringList(dataSource, key).value
    {
      var items :- GetStringList(dataSource, key);
      var element :- rng.RandomElement(items);
      r := AsString(element);
    }
  }
}
