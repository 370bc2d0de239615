/** The utility functions of `src/utils/helpers.py`: address and coordinate
    validation, formatting of map-service replies, dotted-path lookup and the
    retry combinator. */
module Helpers {
  import opened Options
  import opened JsonValue
  import opened Text
  import opened Errors

  // ---------------------------------------------------------------------------
  // validate_address

  /** The keywords the source looks for in an address. */
  const AddressKeywords: seq<string> :=
    ["省", "市", "区", "县", "镇", "街道", "路", "号", "栋", "楼", "室"]

  /** A character of the CJK Unified Ideographs block, U+4E00 to U+9FFF. */
  predicate IsCjk(c: char)
  {
    '\U{4e00}' <= c <= '\U{9fff}'
  }

  predicate HasCjk(s: string)
  {
    exists i | 0 <= i < |s| :: IsCjk(s[i])
  }

  predicate HasAddressKeyword(s: string)
  {
    exists k | 0 <= k < |AddressKeywords| :: Contains(s, AddressKeywords[k])
  }

  /** Every keyword starts with a CJK ideograph, so an address holding a
      keyword already holds a CJK character: the keyword test never changes
      the verdict. */
  lemma KeywordImpliesCjk(s: string)
    requires HasAddressKeyword(s)
    ensures HasCjk(s)
  {
    var k :| 0 <= k < |AddressKeywords| && Contains(s, AddressKeywords[k]);
    var i: nat :| i <= |s| && OccursAt(s, AddressKeywords[k], i);
    assert AddressKeywords[k][0] == s[i..i + |AddressKeywords[k]|][0];
    assert IsCjk(AddressKeywords[k][0]);
  }

  /** `validate_address(address)` */
  function ValidateAddress(address: Value): (ok: bool)
    ensures ok <==> address.Str? && 2 <= |Strip(address.s)| <= 200 && HasCjk(Strip(address.s))
  {
    if !Truthy(address) || !address.Str? then false
    else
      var a := Strip(address.s);
      if |a| < 2 || |a| > 200 then false
      else
        var hasChinese := HasCjk(a);
        var hasKeyword := HasAddressKeyword(a);
        assert hasKeyword ==> hasChinese by {
          if hasKeyword { KeywordImpliesCjk(a); }
        }
        hasChinese || hasKeyword
  }

  // ---------------------------------------------------------------------------
  // parse_coordinates

  /** An abstract `float(s)`: `None` stands for the `ValueError` it raises. */
  type FloatParser = string -> Option<real>

  /** `coord_str.strip().replace(' ', '')` */
  function CleanCoordinates(s: string): string
  {
    RemoveAll(Strip(s), ' ')
  }

  predicate InWorldRange(lng: real, lat: real)
  {
    -180.0 <= lng <= 180.0 && -90.0 <= lat <= 90.0
  }

  /** `parse_coordinates(coord_str)`: `None` models the pair `(None, None)`. */
  function ParseCoordinates(coord: Value, parseFloat: FloatParser): (r: Option<(real, real)>)
    ensures r.Some? <==>
      && coord.Str? && coord.s != ""
      && |Split(CleanCoordinates(coord.s), ',')| == 2
      && parseFloat(Split(CleanCoordinates(coord.s), ',')[0]).Some?
      && parseFloat(Split(CleanCoordinates(coord.s), ',')[1]).Some?
      && InWorldRange(parseFloat(Split(CleanCoordinates(coord.s), ',')[0]).value,
                      parseFloat(Split(CleanCoordinates(coord.s), ',')[1]).value)
    ensures r.Some? ==>
      var parts := Split(CleanCoordinates(coord.s), ',');
      parseFloat(parts[0]) == Some(r.value.0) && parseFloat(parts[1]) == Some(r.value.1)
  {
    if !coord.Str? || coord.s == "" then None
    else
      var cleaned := CleanCoordinates(coord.s);
      var parts := Split(cleaned, ',');
      if |parts| != 2 then None
      else
        match parseFloat(parts[0])
        case None => None
        case Some(longitude) =>
          match parseFloat(parts[1])
          case None => None
          case Some(latitude) =>
            if !InWorldRange(longitude, latitude) then None
            else Some((longitude, latitude))
  }

  /** Whatever the number parser does, a string without exactly one comma
      (after spaces are removed) is rejected, e.g. "invalid" and "116.397428". */
  lemma ParseCoordinatesNeedsOneComma(s: string, parseFloat: FloatParser)
    requires Count(CleanCoordinates(s), ',') != 1
    ensures ParseCoordinates(Str(s), parseFloat) == None
  {
    SplitLength(CleanCoordinates(s), ',');
  }

  // ---------------------------------------------------------------------------
  // validate_coordinates

  /** `validate_coordinates(longitude, latitude)`: the world-range test is
      implied by the mainland-China box, so the verdict is the box alone. */
  function ValidateCoordinates(longitude: real, latitude: real): (ok: bool)
    ensures ok <==> 73.0 <= longitude <= 135.0 && 18.0 <= latitude <= 54.0
  {
    if !InWorldRange(longitude, latitude) then false
    else 73.0 <= longitude <= 135.0 && 18.0 <= latitude <= 54.0
  }

  // ---------------------------------------------------------------------------
  // format_amap_response

  /** An `AttributeError` or similar raised by a `.get` or `[0]` on a value of
      the wrong type; the text of the message is not modelled. */
  function TypeFault(name: string): Exc
  {
    Builtin(name, "")
  }

  function Field(d: Entries, k: string): (string, Value)
  {
    (k, GetOr(d, k, Str("")))
  }

  /** The `data` of a geocoding reply, from its first geocode. */
  function GeocodeData(g: Entries): Entries
  {
    [Field(g, "formatted_address"), Field(g, "province"), Field(g, "city"),
     Field(g, "district"), Field(g, "township"), Field(g, "street"),
     Field(g, "number"), Field(g, "location"), Field(g, "level"),
     Field(g, "confidence")]
  }

  /** The `data` of a reverse-geocoding reply. */
  function RegeocodeData(g: Entries): Entries
  {
    [Field(g, "formatted_address"),
     ("addressComponent", GetOr(g, "addressComponent", Dict([]))),
     ("pois", GetOr(g, "pois", List([]))),
     ("roads", GetOr(g, "roads", List([]))),
     ("roadinters", GetOr(g, "roadinters", List([]))),
     ("aois", GetOr(g, "aois", List([])))]
  }

  /** The reply is an error report: it has neither geocodes nor a regeocode,
      has an `info` key and its `status` is not the string "1". */
  predicate IsErrorReply(d: Entries)
  {
    !HasKey(d, "geocodes") && !HasKey(d, "regeocode") &&
    HasKey(d, "info") && Lookup(d, "status") != Some(Str("1"))
  }

  /** The dictionary `format_amap_response` builds: `success`, `data` and
      `raw_response`, in that order. */
  function Envelope(success: bool, data: Entries, response: Value): (e: Entries)
    ensures |e| == 3 && e[0].0 == "success" && e[1].0 == "data" && e[2].0 == "raw_response"
    ensures Lookup(e, "success") == Some(Bool(success))
    ensures Lookup(e, "data") == Some(Dict(data))
    ensures Lookup(e, "raw_response") == Some(response)
    ensures !HasKey(e, "error")
  {
    [("success", Bool(success)), ("data", Dict(data)), ("raw_response", response)]
  }

  /** The envelope of an error reply: failed, with no data, and `error`
      added last. */
  function ErrorEnvelope(response: Value, error: Value): (e: Entries)
    ensures e == Put(Envelope(false, [], response), "error", error)
    ensures Lookup(e, "success") == Some(Bool(false))
    ensures Lookup(e, "data") == Some(Dict([]))
    ensures Lookup(e, "raw_response") == Some(response)
    ensures Lookup(e, "error") == Some(error)
  {
    Put(Envelope(false, [], response), "error", error)
  }

  /** The first geocode of a truthy `geocodes` value (`geocodes[0]`), or the
      exception indexing it raises. */
  function FirstGeocode(geocodes: Value): Result<Value, Exc>
    requires Truthy(geocodes)
  {
    match geocodes
    case List(items) => Ok(items[0])
    case Str(s) => Ok(Str([s[0]]))
    case Dict(_) => Err(TypeFault("KeyError"))
    case _ => Err(TypeFault("TypeError"))
  }

  /** `format_amap_response(response)`: `Err` is an exception raised by
      indexing or `.get` on a reply of an unexpected shape. */
  function FormatAmapResponse(response: Value): (r: Result<Value, Exc>)
    ensures !response.Dict? ==> r == Ok(Dict([("error", Str("无效的响应格式"))]))
    ensures response.Dict? && r.Ok? ==>
      && r.value.Dict?
      && Lookup(r.value.entries, "raw_response") == Some(response)
      && (Lookup(r.value.entries, "success") == Some(Bool(false)) <==> IsErrorReply(response.entries))
      && (HasKey(r.value.entries, "error") <==> IsErrorReply(response.entries))
    ensures r.Err? ==> response.Dict? && (HasKey(response.entries, "geocodes") || HasKey(response.entries, "regeocode"))
  {
    if !response.Dict? then Ok(Dict([("error", Str("无效的响应格式"))]))
    else
      var d := response.entries;
      if HasKey(d, "geocodes") then
        var geocodes := GetOr(d, "geocodes", List([]));
        if !Truthy(geocodes) then Ok(Dict(Envelope(true, [], response)))
        else
          match FirstGeocode(geocodes)
          case Ok(Dict(g)) => Ok(Dict(Envelope(true, GeocodeData(g), response)))
          case Ok(_) => Err(TypeFault("AttributeError"))
          case Err(e) => Err(e)
      else if HasKey(d, "regeocode") then
        match GetOr(d, "regeocode", Dict([]))
        case Dict(g) => Ok(Dict(Envelope(true, RegeocodeData(g), response)))
        case _ => Err(TypeFault("AttributeError"))
      else if HasKey(d, "info") && Lookup(d, "status") != Some(Str("1")) then
        var error := Dict([("code", GetOr(d, "infocode", Str(""))), ("message", GetOr(d, "info", Str("未知错误")))]);
        Ok(Dict(ErrorEnvelope(response, error)))
      else Ok(Dict(Envelope(true, [], response)))
  }

  /** The `data` of the formatted reply: empty for a falsy `geocodes`, the
      fields of the first geocode, the fields of a `regeocode` dictionary, and
      empty for an error reply or any other dictionary. A first geocode or a
      `regeocode` that is not a dictionary makes the call raise. */
  lemma FormatAmapResponseData(d: Entries)
    ensures var r := FormatAmapResponse(Dict(d));
      HasKey(d, "geocodes") ==>
        var geocodes := GetOr(d, "geocodes", List([]));
        && (!Truthy(geocodes) ==> r.Ok? && Lookup(r.value.entries, "data") == Some(Dict([])))
        && (Truthy(geocodes) ==>
              (r.Ok? <==> FirstGeocode(geocodes).Ok? && FirstGeocode(geocodes).value.Dict?)
              && (r.Ok? ==> Lookup(r.value.entries, "data") == Some(Dict(GeocodeData(FirstGeocode(geocodes).value.entries)))))
    ensures var r := FormatAmapResponse(Dict(d));
      !HasKey(d, "geocodes") && HasKey(d, "regeocode") ==>
        var regeocode := GetOr(d, "regeocode", Dict([]));
        && (r.Ok? <==> regeocode.Dict?)
        && (r.Ok? ==> Lookup(r.value.entries, "data") == Some(Dict(RegeocodeData(regeocode.entries))))
    ensures var r := FormatAmapResponse(Dict(d));
      !HasKey(d, "geocodes") && !HasKey(d, "regeocode") ==>
        r.Ok? && Lookup(r.value.entries, "data") == Some(Dict([]))
  {
  }

  /** An error reply reports its `infocode` and `info` under `error`. */
  lemma ErrorReplyReportsCode(d: Entries, code: Value, info: Value)
    requires IsErrorReply(d)
    requires Lookup(d, "infocode") == Some(code) && Lookup(d, "info") == Some(info)
    ensures FormatAmapResponse(Dict(d)) ==
      Ok(Dict(Put(Envelope(false, [], Dict(d)), "error", Dict([("code", code), ("message", info)]))))
  {
  }

  /** A geocoding reply whose first geocode is a dictionary yields that
      geocode's fields as `data` and succeeds, whatever its `status`. */
  lemma GeocodeReplyUsesFirst(d: Entries, rest: seq<Value>, g: Entries)
    requires Lookup(d, "geocodes") == Some(List([Dict(g)] + rest))
    ensures FormatAmapResponse(Dict(d)) == Ok(Dict(Envelope(true, GeocodeData(g), Dict(d))))
  {
    var geocodes := List([Dict(g)] + rest);
    assert HasKey(d, "geocodes");
    assert GetOr(d, "geocodes", List([])) == geocodes;
    assert Truthy(geocodes);
    assert FirstGeocode(geocodes) == Ok(Dict(g));
  }

  // ---------------------------------------------------------------------------
  // safe_get

  /** Follows `keys` from `current` through nested dictionaries; `None` when a
      key is missing or a step meets a value that is not a dictionary (the
      `KeyError` or `TypeError` the source catches). */
  function Walk(current: Value, keys: seq<string>): Option<Value>
  {
    if keys == [] then Some(current)
    else
      match current
      case Dict(d) =>
        (match Lookup(d, keys[0])
         case Some(v) => Walk(v, keys[1..])
         case None => None)
      case _ => None
  }

  /** Walking a concatenated path is walking the first part, then the rest. */
  lemma {:induction false} WalkAppend(v: Value, a: seq<string>, b: seq<string>)
    ensures Walk(v, a + b) == match Walk(v, a) case Some(u) => Walk(u, b) case None => None
  {
    if a != [] {
      assert (a + b)[0] == a[0] && (a + b)[1..] == a[1..] + b;
      if v.Dict? && Lookup(v.entries, a[0]).Some? {
        WalkAppend(Lookup(v.entries, a[0]).value, a[1..], b);
      }
    } else {
      assert a + b == b;
    }
  }

  /** One step of the walk from position `i` of the path. */
  lemma WalkStep(current: Value, keys: seq<string>, i: nat)
    requires i < |keys|
    ensures Walk(current, keys[i..]) ==
      if current.Dict? && Lookup(current.entries, keys[i]).Some? then
        Walk(Lookup(current.entries, keys[i]).value, keys[i + 1..])
      else None
  {
    var rest := keys[i..];
    assert rest[0] == keys[i] && rest[1..] == keys[i + 1..];
  }

  /** `safe_get(data, key_path, default)` */
  method SafeGet(data: Value, keyPath: string, default: Value) returns (r: Value)
    ensures !data.Dict? ==> r == default
    ensures data.Dict? ==> r == match Walk(data, Split(keyPath, '.')) case Some(v) => v case None => default
  {
    if !data.Dict? {
      return default;
    }
    r := Follow(data, Split(keyPath, '.'), default);
  }

  /** The loop of `safe_get` over the path's keys. */
  method Follow(data: Value, keys: seq<string>, default: Value) returns (r: Value)
    ensures r == match Walk(data, keys) case Some(v) => v case None => default
  {
    var current := data;
    var i := 0;
    while i < |keys|
      invariant 0 <= i <= |keys|
      invariant Walk(data, keys) == Walk(current, keys[i..])
      decreases |keys| - i
    {
      WalkStep(current, keys, i);
      if !current.Dict? || Lookup(current.entries, keys[i]).None? {
        return default;
      }
      current := Lookup(current.entries, keys[i]).value;
      i := i + 1;
    }
    assert keys[i..] == [];
    return current;
  }

  /** A dotted path first looks up the part before the first dot, then
      follows the rest of the path from there. */
  lemma DottedPath(v: Value, head: string, tail: string)
    requires '.' !in head
    ensures Walk(v, Split(head + "." + tail, '.')) ==
      match Walk(v, [head]) case Some(u) => Walk(u, Split(tail, '.')) case None => None
  {
    var s := head + "." + tail;
    assert IndexOf(s, '.') == |head| by {
      assert s[|head|] == '.';
      forall j | 0 <= j < |head| ensures s[j] != '.' {
        assert s[j] == head[j];
      }
      IndexOfIs(s, '.', |head|);
    }
    assert s[..|head|] == head && s[|head| + 1..] == tail;
    assert Split(s, '.') == [head] + Split(tail, '.');
    WalkAppend(v, [head], Split(tail, '.'));
  }

  /** The first occurrence of `c` is at `k` when `s[k]` is `c` and no earlier
      character is. */
  lemma {:induction false} IndexOfIs(s: string, c: char, k: nat)
    requires k < |s| && s[k] == c
    requires forall j :: 0 <= j < k ==> s[j] != c
    ensures IndexOf(s, c) == k
  {
    if k > 0 {
      IndexOfIs(s[1..], c, k - 1);
    }
  }

  // ---------------------------------------------------------------------------
  // retry_async

  /** The outcome of one call of the wrapped coroutine. */
  datatype Attempt<T> = Returned(value: T) | Raised(exc: Exc)

  /** `delay * backoff ** k`: the delay after `k` multiplications by the
      backoff factor. */
  function Backoff(delay: real, backoff: real, k: nat): real
  {
    if k == 0 then delay else Backoff(delay, backoff, k - 1) * backoff
  }

  /** What `raise None` raises when `range(max_retries + 1)` is empty. */
  const RaiseNone: Exc := Builtin("TypeError", "exceptions must derive from BaseException")

  /** `retry_async(max_retries, delay, backoff_factor, exceptions)(func)()`:
      `attempt(k)` is the outcome of the k-th call of `func`, `retryable` says
      whether an exception is an instance of `exceptions`, and `sleeps` lists
      the delays slept, in order. */
  method Retry<T>(maxRetries: int, delay: real, backoff: real, retryable: Exc -> bool, attempt: nat -> Attempt<T>)
    returns (r: Result<T, Exc>, calls: nat, sleeps: seq<real>)
    ensures calls <= if maxRetries >= 0 then maxRetries + 1 else 0
    ensures calls == 0 <==> maxRetries < 0
    ensures maxRetries < 0 ==> r == Err(RaiseNone) && sleeps == []
    ensures forall k :: 0 <= k < calls - 1 ==> attempt(k).Raised? && retryable(attempt(k).exc)
    ensures r.Ok? ==> calls >= 1 && attempt(calls - 1) == Returned(r.value)
    ensures r.Err? && calls >= 1 ==>
      && attempt(calls - 1) == Raised(r.error)
      && (calls == maxRetries + 1 || !retryable(r.error))
    ensures calls >= 1 ==> |sleeps| == calls - 1
    ensures forall k :: 0 <= k < |sleeps| ==> sleeps[k] == Backoff(delay, backoff, k)
  {
    var last: Option<Exc> := None;
    var current := delay;
    var stopped := false;
    sleeps := [];
    calls := 0;
    while calls < maxRetries + 1
      invariant 0 <= calls <= if maxRetries >= 0 then maxRetries + 1 else 0
      invariant |sleeps| == calls
      invariant maxRetries >= 0 ==> calls <= maxRetries
      invariant current == Backoff(delay, backoff, |sleeps|)
      invariant forall k :: 0 <= k < |sleeps| ==> sleeps[k] == Backoff(delay, backoff, k)
      invariant forall k :: 0 <= k < calls ==> attempt(k).Raised? && retryable(attempt(k).exc)
      invariant calls == 0 ==> last == None
    {
      var a := attempt(calls);
      calls := calls + 1;
      if a.Returned? {
        r, stopped := Ok(a.value), true;
        break;
      }
      if !retryable(a.exc) || calls == maxRetries + 1 {
        r, stopped := Err(a.exc), true;
        break;
      }
      last := Some(a.exc);
      sleeps := sleeps + [current];
      current := current * backoff;
    }
    if !stopped {
      r := match last case Some(e) => Err(e) case None => Err(RaiseNone);
    }
  }
}
