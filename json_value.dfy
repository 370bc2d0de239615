/** Optional values and results with an error, used by every module. */
module Options {
  datatype Option<+T> = None | Some(value: T)

  datatype Result<+T, +E> = Ok(value: T) | Err(error: E)
}

/** The dynamically typed values the source passes around: what `json.loads`
    returns, what the tool provider hands back (which may also hold objects),
    and Python dictionaries, which keep their insertion order. */
module JsonValue {
  import opened Options
  import Dicts

  /** A Python value. `Object` is an instance with a `__dict__`: `text` and
      `content` are its attributes of those names when it has them, `attrs`
      its instance dictionary. */
  datatype Value =
    | Null
    | Bool(b: bool)
    | Num(n: real)
    | Str(s: string)
    | List(items: seq<Value>)
    | Dict(entries: seq<(string, Value)>)
    | Object(text: Option<Value>, content: Option<Value>, attrs: seq<(string, Value)>)

  type Entries = seq<(string, Value)>

  /** An abstract `json.loads`: `Err(m)` stands for the `JSONDecodeError`
      whose string value is `m`. */
  type Parser = string -> Result<Value, string>

  /** Python truthiness (`if v:`); instances are truthy. */
  predicate Truthy(v: Value)
  {
    match v
    case Null => false
    case Bool(b) => b
    case Num(n) => n != 0.0
    case Str(s) => s != ""
    case List(items) => items != []
    case Dict(entries) => entries != []
    case Object(_, _, _) => true
  }

  /** The keys of a dictionary, in insertion order. */
  function Keys(d: Entries): seq<string>
  {
    Dicts.Names(d)
  }

  /** No key occurs twice, as in every Python dictionary. */
  predicate UniqueKeys(d: Entries)
  {
    Dicts.UniqueNames(d)
  }

  predicate HasKey(d: Entries, k: string)
  {
    k in Keys(d)
  }

  lemma HasKeyAt(d: Entries, k: string)
    ensures HasKey(d, k) <==> exists i :: 0 <= i < |d| && d[i].0 == k
  {
    if HasKey(d, k) {
      var i :| 0 <= i < |d| && Keys(d)[i] == k;
      assert d[i].0 == k;
    }
  }

  /** `d.get(k)`, with `None` for a missing key. */
  function Lookup(d: Entries, k: string): (r: Option<Value>)
    ensures r.Some? <==> HasKey(d, k)
    ensures r.Some? ==> (k, r.value) in d
  {
    if d == [] then None
    else if d[0].0 == k then Some(d[0].1)
    else Lookup(d[1..], k)
  }

  /** `Lookup` answers as the generic dictionary lookup does. */
  lemma {:induction false} LookupIsGet(d: Entries)
    ensures forall k :: Lookup(d, k) == Dicts.Get(d, k)
  {
    if d != [] {
      LookupIsGet(d[1..]);
    }
  }

  /** `d.get(k, default)` */
  function GetOr(d: Entries, k: string, default: Value): Value
  {
    match Lookup(d, k)
    case Some(v) => v
    case None => default
  }

  /** `d[k] = v`: an existing key keeps its position and takes the new value,
      a new key goes at the end. */
  function Put(d: Entries, k: string, v: Value): (r: Entries)
    ensures Lookup(r, k) == Some(v)
    ensures forall k' :: k' != k ==> Lookup(r, k') == Lookup(d, k')
  {
    var r := Dicts.Assign(d, k, v);
    LookupIsGet(d);
    LookupIsGet(r);
    r
  }

  /** Assignment keeps the key order and adds a new key at the end. */
  lemma PutKeys(d: Entries, k: string, v: Value)
    ensures HasKey(d, k) ==> Keys(Put(d, k, v)) == Keys(d)
    ensures !HasKey(d, k) ==> Keys(Put(d, k, v)) == Keys(d) + [k]
  {
    Dicts.AssignNames(d, k, v);
    HasKeyAt(d, k);
  }

  /** A value that holds no instance anywhere, so `json.dumps` accepts it. */
  predicate Plain(v: Value)
  {
    match v
    case Object(_, _, _) => false
    case List(items) => forall i | 0 <= i < |items| :: Plain(items[i])
    case Dict(entries) => forall i | 0 <= i < |entries| :: Plain(entries[i].1)
    case _ => true
  }
}
