/** `scripts/process_data/processor.py`: pulling the first JSON object with
    the three required fields out of a model reply, the fallback chain of
    `DataProcessor.process_item`, and the batching of `process_batch`. */
module Processor {
  import opened Options
  import opened JsonValue
  import opened Errors

  const StandardizedAddress := "standardized_address"
  const Latitude := "latitude"
  const Longitude := "longitude"

  /** `all(field in obj for field in required_fields)` */
  predicate HasRequired(d: Entries)
  {
    HasKey(d, StandardizedAddress) && HasKey(d, Latitude) && HasKey(d, Longitude)
  }

  // ---------------------------------------------------------------------------
  // Brace matching

  function Delta(c: char): int
  {
    if c == '{' then 1 else if c == '}' then -1 else 0
  }

  /** Opening minus closing braces in `s`. */
  function Depth(s: string): int
  {
    if s == [] then 0 else Depth(s[..|s| - 1]) + Delta(s[|s| - 1])
  }

  /** `text[start:end]` is the brace group opened at `start`: its depth is 0
      and every shorter non-empty prefix is still open. */
  predicate ClosesAt(text: string, start: nat, end: nat)
  {
    start < end <= |text| && Depth(text[start..end]) == 0 &&
    forall k | start < k < end :: Depth(text[start..k]) > 0
  }

  /** The inner `while` of `extract_valid_json` from position `end` with
      `count` braces open: the end of the group, or `None` when the text
      runs out first. */
  function Scan(text: string, end: nat, count: int): (r: Option<nat>)
    requires end <= |text|
    ensures r.Some? ==> end <= r.value <= |text|
    decreases |text| - end
  {
    if end < |text| && count > 0 then Scan(text, end + 1, count + Delta(text[end]))
    else if count == 0 then Some(end)
    else None
  }

  lemma DepthSnoc(text: string, start: nat, end: nat)
    requires start <= end < |text|
    ensures Depth(text[start..end + 1]) == Depth(text[start..end]) + Delta(text[end])
  {
    assert text[start..end + 1][..end - start] == text[start..end];
  }

  /** From a state reached inside the group opened at `start`, the scan ends
      exactly where the group closes. */
  lemma {:induction false} ScanCloses(text: string, start: nat, end: nat, count: int, e: nat)
    requires start < end <= |text|
    requires count == Depth(text[start..end])
    requires forall k | start < k < end :: Depth(text[start..k]) > 0
    ensures Scan(text, end, count) == Some(e) <==> ClosesAt(text, start, e)
    decreases |text| - end
  {
    if end < |text| && count > 0 {
      DepthSnoc(text, start, end);
      ScanCloses(text, start, end + 1, count + Delta(text[end]), e);
    }
  }

  /** The text of the brace group opened at `start`, if it closes. */
  function Candidate(text: string, start: nat): Option<string>
    requires start < |text|
  {
    match Scan(text, start + 1, 1)
    case Some(e) => Some(text[start..e])
    case None => None
  }

  /** A candidate ends just past the first point where the depth returns to
      0; an unbalanced tail gives none. */
  lemma CandidateCloses(text: string, start: nat, e: nat)
    requires start < |text| && text[start] == '{'
    ensures Scan(text, start + 1, 1) == Some(e) <==> ClosesAt(text, start, e)
  {
    assert text[start..start + 1][..0] == [];
    ScanCloses(text, start, start + 1, 1, e);
  }

  // ---------------------------------------------------------------------------
  // extract_valid_json

  /** `text.find('{', i)` */
  function FindBrace(text: string, i: nat): (k: int)
    requires i <= |text|
    ensures k == -1 || (i <= k < |text| && text[k] == '{')
    ensures k == -1 ==> forall j | i <= j < |text| :: text[j] != '{'
    ensures k != -1 ==> forall j | i <= j < k :: text[j] != '{'
    decreases |text| - i
  {
    if i == |text| then -1 else if text[i] == '{' then i else FindBrace(text, i + 1)
  }

  /** The dictionary read from the group opened at `start`, when there is
      one, it parses to a dictionary, and that has the required fields. */
  function Qualifies(text: string, start: nat, parse: Parser): (r: Option<Entries>)
    requires start < |text|
    ensures r.Some? ==> HasRequired(r.value)
  {
    match Candidate(text, start)
    case None => None
    case Some(s) =>
      match parse(s)
      case Ok(Dict(d)) => if HasRequired(d) then Some(d) else None
      case _ => None
  }

  /** The outer `while` of `extract_valid_json` from position `i`. */
  function Extract(text: string, i: nat, parse: Parser): (r: Option<Entries>)
    requires i <= |text|
    ensures r.Some? ==> HasRequired(r.value)
    decreases |text| - i
  {
    if i >= |text| then None
    else
      var start := FindBrace(text, i);
      if start == -1 then None
      else
        match Qualifies(text, start, parse)
        case Some(d) => Some(d)
        case None => Extract(text, start + 1, parse)
  }

  /** No `{` in `text[lo..hi]` qualifies. */
  predicate NoneQualifies(text: string, lo: nat, hi: nat, parse: Parser)
    requires hi <= |text|
  {
    forall s {:trigger Qualifies(text, s, parse)} | lo <= s < hi && text[s] == '{' :: Qualifies(text, s, parse).None?
  }

  lemma NoneQualifiesJoin(text: string, lo: nat, mid: nat, hi: nat, parse: Parser)
    requires lo <= mid <= hi <= |text|
    requires NoneQualifies(text, lo, mid, parse) && NoneQualifies(text, mid, hi, parse)
    ensures NoneQualifies(text, lo, hi, parse)
  {
  }

  /** What one round of the outer loop establishes: the `{` positions
      between `i` and the next `{` at `start` do not qualify. */
  lemma NoneBeforeBrace(text: string, i: nat, start: int, parse: Parser)
    requires i <= |text| && start == FindBrace(text, i)
    ensures start == -1 ==> NoneQualifies(text, i, |text|, parse)
    ensures start != -1 ==> NoneQualifies(text, i, start, parse)
  {
  }

  /** The `{` at `s` is the first one from `i` on that yields `r`: none
      before it qualifies. */
  predicate FirstFrom(text: string, i: nat, s: nat, r: Option<Entries>, parse: Parser)
  {
    i <= s < |text| && text[s] == '{' && Qualifies(text, s, parse) == r && NoneQualifies(text, i, s, parse)
  }

  /** The result is what the first qualifying `{` at or after `i` yields;
      `None` when no `{` there qualifies. */
  lemma ExtractFirst(text: string, i: nat, parse: Parser)
    requires i <= |text|
    ensures Extract(text, i, parse).None? ==> NoneQualifies(text, i, |text|, parse)
    ensures Extract(text, i, parse).Some? ==> exists s :: FirstFrom(text, i, s, Extract(text, i, parse), parse)
  {
    if Extract(text, i, parse).None? {
      ExtractNoneFirst(text, i, parse);
    } else {
      var s := ExtractSomeFirst(text, i, parse);
    }
  }

  lemma {:induction false} ExtractNoneFirst(text: string, i: nat, parse: Parser)
    requires i <= |text| && Extract(text, i, parse).None?
    ensures NoneQualifies(text, i, |text|, parse)
    decreases |text| - i
  {
    if i < |text| {
      var start := FindBrace(text, i);
      ExtractStep(text, i, start, parse);
      if start != -1 {
        ExtractNoneFirst(text, start + 1, parse);
        SkipBrace(text, i, start, parse);
      }
    }
  }

  lemma {:induction false} ExtractSomeFirst(text: string, i: nat, parse: Parser) returns (s: nat)
    requires i <= |text| && Extract(text, i, parse).Some?
    ensures FirstFrom(text, i, s, Extract(text, i, parse), parse)
    decreases |text| - i
  {
    var start := FindBrace(text, i);
    ExtractStep(text, i, start, parse);
    if Qualifies(text, start, parse).Some? {
      s := start;
    } else {
      var rest := Extract(text, start + 1, parse);
      var t := ExtractSomeFirst(text, start + 1, parse);
      s := SkipToFirst(text, i, start, t, rest, parse);
    }
  }

  /** One round of the outer loop: no `{` before `start` qualifies, and the
      result is the one at `start` or the search from just past it. */
  lemma ExtractStep(text: string, i: nat, start: int, parse: Parser)
    requires i < |text| && start == FindBrace(text, i)
    ensures start == -1 ==> Extract(text, i, parse) == None && NoneQualifies(text, i, |text|, parse)
    ensures start != -1 ==> NoneQualifies(text, i, start, parse)
    ensures start != -1 && Qualifies(text, start, parse).Some? ==>
      Extract(text, i, parse) == Qualifies(text, start, parse) &&
      FirstFrom(text, i, start, Extract(text, i, parse), parse)
    ensures start != -1 && Qualifies(text, start, parse).None? ==>
      Extract(text, i, parse) == Extract(text, start + 1, parse)
  {
    NoneBeforeBrace(text, i, start, parse);
  }

  /** A `{` that does not qualify, followed by no qualifying `{`, leaves
      none from `i` on. */
  lemma SkipBrace(text: string, i: nat, start: nat, parse: Parser)
    requires i <= start < |text| && text[start] == '{'
    requires NoneQualifies(text, i, start, parse) && Qualifies(text, start, parse).None?
    requires NoneQualifies(text, start + 1, |text|, parse)
    ensures NoneQualifies(text, i, |text|, parse)
  {
    assert NoneQualifies(text, start, start + 1, parse) by {
      forall p | start <= p < start + 1 && text[p] == '{' ensures Qualifies(text, p, parse).None? {
        assert p == start;
      }
    }
    NoneQualifiesJoin(text, i, start, start + 1, parse);
    NoneQualifiesJoin(text, i, start + 1, |text|, parse);
  }

  /** The first qualifying `{` from just past a `{` that does not qualify
      is also the first one from `i`. */
  lemma SkipToFirst(text: string, i: nat, start: nat, t: nat, rest: Option<Entries>, parse: Parser) returns (s: nat)
    requires i <= start < |text| && text[start] == '{'
    requires NoneQualifies(text, i, start, parse) && Qualifies(text, start, parse).None?
    requires FirstFrom(text, start + 1, t, rest, parse)
    ensures s == t && FirstFrom(text, i, s, rest, parse)
  {
    assert NoneQualifies(text, start, start + 1, parse) by {
      forall p | start <= p < start + 1 && text[p] == '{' ensures Qualifies(text, p, parse).None? {
        assert p == start;
      }
    }
    NoneQualifiesJoin(text, i, start, start + 1, parse);
    NoneQualifiesJoin(text, i, start + 1, t, parse);
    s := t;
  }

  /** A text without `{` yields nothing. */
  lemma {:induction false} ExtractNoBrace(text: string, parse: Parser)
    requires '{' !in text
    ensures Extract(text, 0, parse) == None
  {
    if text != [] {
      assert FindBrace(text, 0) == -1;
    }
  }

  /** `extract_valid_json(text)` */
  method ExtractValidJson(text: string, parse: Parser) returns (r: Option<Entries>)
    ensures r == Extract(text, 0, parse)
  {
    var i := 0;
    while i < |text|
      invariant 0 <= i <= |text|
      invariant Extract(text, 0, parse) == Extract(text, i, parse)
      decreases |text| - i
    {
      var start := FindBrace(text, i);
      if start == -1 {
        return None;
      }
      var end, count := MatchBrace(text, start);
      if count == 0 {
        var candidate := text[start..end];
        match parse(candidate)
        case Ok(Dict(d)) =>
          if HasRequired(d) {
            return Some(d);
          }
        case _ =>
      }
      i := start + 1;
    }
    return None;
  }

  /** The inner loop of `extract_valid_json`: from the `{` at `start`,
      count braces until they balance or the text runs out. */
  method MatchBrace(text: string, start: nat) returns (end: nat, count: int)
    requires start < |text|
    ensures start + 1 <= end <= |text|
    ensures Candidate(text, start) == if count == 0 then Some(text[start..end]) else None
  {
    count := 1;
    end := start + 1;
    while end < |text| && count > 0
      invariant start + 1 <= end <= |text|
      invariant Scan(text, start + 1, 1) == Scan(text, end, count)
      decreases |text| - end
    {
      if text[end] == '{' {
        count := count + 1;
      } else if text[end] == '}' {
        count := count - 1;
      }
      end := end + 1;
    }
  }

  // ---------------------------------------------------------------------------
  // DataProcessor

  /** A dictionary holding the three required fields. */
  predicate QualifyingDict(v: Value)
  {
    v.Dict? && HasRequired(v.entries)
  }

  /** `result["data"]` when it is a dictionary with the required fields. */
  function DataField(result: Entries): Option<Value>
  {
    match Lookup(result, "data")
    case Some(Dict(d)) => if HasRequired(d) then Some(Dict(d)) else None
    case _ => None
  }

  /** `DataProcessor.process_item(item)`, where `reply` is what
      `process_query` returned or raised. The reply text is
      `result.get("response", "")`; a reply text that is not a string makes
      `extract_valid_json` raise unless it is an empty list or dictionary
      (for which the scan loop does not run), and `json.loads` on it raises
      a `TypeError`; every exception falls back to `item`. */
  function ProcessItem(item: Value, reply: Result<Entries, Exc>, parse: Parser): (r: Value)
    ensures reply.Err? ==> r == item
    ensures r == item || (r.Dict? && HasRequired(r.entries))
    ensures reply.Ok? && GetOr(reply.value, "response", Str("")).Str? ==>
      var text := GetOr(reply.value, "response", Str("")).s;
      Extract(text, 0, parse).Some? ==> r == Dict(Extract(text, 0, parse).value)
  {
    match reply
    case Err(_) => item
    case Ok(result) =>
      var response := GetOr(result, "response", Str(""));
      if response.Str? then
        match Extract(response.s, 0, parse)
        case Some(d) => Dict(d)
        case None =>
          if DataField(result).Some? then DataField(result).value
          else
            match parse(response.s)
            case Ok(Dict(d)) => if HasRequired(d) then Dict(d) else item
            case _ => item
      else if response == List([]) || response == Dict([]) then
        if DataField(result).Some? then DataField(result).value else item
      else item
  }

  /** The rest of the fallback chain for a reply whose text holds no
      qualifying object: a qualifying `data` field, else the whole text when
      it parses to a qualifying dictionary, else the item. A reply text that
      is not a string leaves only the `data` field, and only when the text
      is an empty list or dictionary. */
  lemma ProcessItemFallbacks(item: Value, result: Entries, parse: Parser)
    ensures GetOr(result, "response", Str("")).Str? ==>
      var text := GetOr(result, "response", Str("")).s;
      Extract(text, 0, parse).None? && DataField(result).None? ==>
        ProcessItem(item, Ok(result), parse) ==
          if parse(text).Ok? && QualifyingDict(parse(text).value) then parse(text).value else item
    ensures !GetOr(result, "response", Str("")).Str? ==>
      var response := GetOr(result, "response", Str(""));
      ProcessItem(item, Ok(result), parse) ==
        if (response == List([]) || response == Dict([])) && DataField(result).Some? then DataField(result).value
        else item
  {
  }

  /** The fallback order: a reply that carries no qualifying object in its
      text but a qualifying `data` field yields that field. */
  lemma DataFieldSecond(item: Value, result: Entries, text: string, parse: Parser)
    requires GetOr(result, "response", Str("")) == Str(text)
    requires Extract(text, 0, parse).None? && DataField(result).Some?
    ensures ProcessItem(item, Ok(result), parse) == DataField(result).value
  {
  }

  function Min(a: int, b: int): int
  {
    if a < b then a else b
  }

  /** `range(0, len(items), batch_size)` with a zero step. */
  const ZeroStep: Exc := Builtin("ValueError", "range() arg 3 must not be zero")

  /** The results `asyncio.gather` collects for one batch starting at
      position `offset` of the items. */
  function BatchResults(batch: seq<Value>, offset: nat, replies: nat -> Result<Entries, Exc>, parse: Parser): (rs: seq<Value>)
    ensures |rs| == |batch|
    ensures forall j | 0 <= j < |batch| :: rs[j] == ProcessItem(batch[j], replies(offset + j), parse)
  {
    seq(|batch|, j requires 0 <= j < |batch| => ProcessItem(batch[j], replies(offset + j), parse))
  }

  /** The results so far are those of `items[..|results|]`, in order. */
  predicate ResultsOf(results: seq<Value>, items: seq<Value>, replies: nat -> Result<Entries, Exc>, parse: Parser)
  {
    |results| <= |items| &&
    forall k | 0 <= k < |results| :: results[k] == ProcessItem(items[k], replies(k), parse)
  }

  /** Appending the results of the next batch keeps the results in step
      with the items. */
  lemma AppendBatch(results: seq<Value>, items: seq<Value>, end: nat, replies: nat -> Result<Entries, Exc>, parse: Parser)
    requires |results| <= end <= |items| && ResultsOf(results, items, replies, parse)
    ensures ResultsOf(results + BatchResults(items[|results|..end], |results|, replies, parse), items, replies, parse)
  {
    var start := |results|;
    var batch := items[start..end];
    var more := BatchResults(batch, start, replies, parse);
    var rs := results + more;
    forall k | 0 <= k < end ensures rs[k] == ProcessItem(items[k], replies(k), parse) {
      if k < start {
        assert rs[k] == results[k];
      } else {
        assert rs[k] == more[k - start];
        assert batch[k - start] == items[k] && start + (k - start) == k;
      }
    }
  }

  /** `DataProcessor.process_batch(items, batch_size)`: `replies(k)` is what
      the model call for the k-th item returns or raises. */
  method ProcessBatch(items: seq<Value>, batchSize: int, replies: nat -> Result<Entries, Exc>, parse: Parser)
    returns (r: Result<seq<Value>, Exc>)
    ensures batchSize == 0 ==> r == Err(ZeroStep)
    ensures batchSize < 0 ==> r == Ok([])
    ensures batchSize > 0 ==> r.Ok? && |r.value| == |items|
    ensures batchSize > 0 ==>
      forall k | 0 <= k < |items| :: r.value[k] == ProcessItem(items[k], replies(k), parse)
  {
    if batchSize == 0 {
      return Err(ZeroStep);
    }
    var results: seq<Value> := [];
    if batchSize < 0 {
      return Ok(results);
    }
    var start := 0;
    while start < |items|
      invariant |results| == Min(start, |items|)
      invariant ResultsOf(results, items, replies, parse)
      decreases |items| - start
    {
      var end := Min(start + batchSize, |items|);
      var batch := items[start..end];
      AppendBatch(results, items, end, replies, parse);
      results := results + BatchResults(batch, start, replies, parse);
      start := start + batchSize;
    }
    return Ok(results);
  }
}
