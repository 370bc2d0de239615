/** The pure part of `Settings` in `src/core/config.py`: the server
    argument list and the field validators. A validator either returns the
    stored value or raises `ValueError`, modelled as `Err` with the message. */
module Config {
  import opened Options
  import opened Text

  const ServerFlag := "-y"
  const ServerPackage := "@amap/amap-maps-mcp-server"
  /** The default of `amap_server_args`. */
  const DefaultAmapServerArgs := ServerFlag + "," + ServerPackage

  /** `get_amap_server_args_list()` */
  function AmapServerArgsList(args: string): (r: seq<string>)
    ensures |r| == |Split(args, ',')|
    ensures forall i :: 0 <= i < |r| ==> r[i] == Strip(Split(args, ',')[i]) && ',' !in r[i]
  {
    var parts := Split(args, ',');
    seq(|parts|, i requires 0 <= i < |parts| => Strip(parts[i]))
  }

  /** One argument per comma-separated piece: one more than there are
      commas. */
  lemma ArgsCount(args: string)
    ensures |AmapServerArgsList(args)| == Count(args, ',') + 1
  {
    SplitLength(args, ',');
  }

  /** Two comma-free arguments without surrounding whitespace, joined by a
      comma, come back as they are. */
  lemma {:induction false} TwoArgs(a: string, b: string)
    requires ',' !in a && ',' !in b
    requires a != [] && !IsSpace(a[0]) && !IsSpace(a[|a| - 1])
    requires b != [] && !IsSpace(b[0]) && !IsSpace(b[|b| - 1])
    ensures AmapServerArgsList(a + "," + b) == [a, b]
  {
    var s := a + "," + b;
    assert IndexOf(s, ',') == |a| by {
      assert s[|a|] == ',';
      assert forall j :: 0 <= j < |a| ==> s[j] == a[j];
    }
    assert s[..|a|] == a && s[|a| + 1..] == b;
    assert Split(s, ',') == [a] + Split(b, ',');
    assert IndexOf(b, ',') == |b|;
    StripNoSpace(a);
    StripNoSpace(b);
  }

  /** The default setting yields the `npx` arguments of the map server. */
  lemma DefaultArgs()
    ensures AmapServerArgsList(DefaultAmapServerArgs) == [ServerFlag, ServerPackage]
  {
    assert ServerPackage[0] == '@' && ServerPackage[|ServerPackage| - 1] == 'r';
    assert forall i | 0 <= i < |ServerPackage| :: ServerPackage[i] != ',';
    TwoArgs(ServerFlag, ServerPackage);
  }

  /** `validate_llm_provider`: only the two built-in providers pass, and
      come back lower-cased (which leaves them unchanged). */
  function ValidateLlmProvider(v: string): (r: Result<string, string>)
    ensures r.Ok? <==> v == "claude" || v == "openai"
    ensures r.Ok? ==> r.value == v
    ensures r.Err? ==> r.error == "LLM提供商必须是 'claude' 或 'openai'"
  {
    if v != "claude" && v != "openai" then Err("LLM提供商必须是 'claude' 或 'openai'")
    else
      assert Lower(v) == v;
      Ok(Lower(v))
  }

  /** `validate_openai_api_key`: `provider` is the already validated
      `llm_provider` (absent when it failed); an empty or missing key is
      refused only for `openai`. */
  function ValidateOpenAIApiKey(key: Option<string>, provider: Option<string>): (r: Result<Option<string>, string>)
    ensures r.Err? <==> provider == Some("openai") && (key.None? || key.value == "")
    ensures r.Ok? ==> r.value == key
  {
    if provider == Some("openai") && (key.None? || key.value == "") then
      Err("使用OpenAI提供商时，OPENAI_API_KEY是必需的")
    else Ok(key)
  }

  /** `validate_anthropic_api_key`: an empty key is refused only for
      `claude`. */
  function ValidateAnthropicApiKey(key: string, provider: Option<string>): (r: Result<string, string>)
    ensures r.Err? <==> provider == Some("claude") && key == ""
    ensures r.Ok? ==> r.value == key
  {
    if provider == Some("claude") && key == "" then Err("使用Claude提供商时，ANTHROPIC_API_KEY是必需的")
    else Ok(key)
  }

  const ValidLevels: seq<string> := ["DEBUG", "INFO", "WARNING", "ERROR", "CRITICAL"]

  /** `str.upper()` as far as it can produce a log level: ASCII letters, and
      the two other characters whose upper case is an ASCII letter on its
      own, U+0131 (dotless i) and U+017F (long s). Every other character
      maps to a non-ASCII character or to a pair of letters that occurs in
      no level, so it is kept as is (which is no level either). */
  function LevelUpper(s: string): (r: string)
    ensures |r| == |s|
  {
    seq(|s|, i requires 0 <= i < |s| =>
      if IsAsciiLower(s[i]) then (s[i] as int - 32) as char
      else if s[i] == 'ı' then 'I'
      else if s[i] == 'ſ' then 'S'
      else s[i])
  }

  /** `validate_log_level` */
  function ValidateLogLevel(v: string): (r: Result<string, string>)
    ensures r.Ok? <==> LevelUpper(v) in ValidLevels
    ensures r.Ok? ==> r.value in ValidLevels && LevelUpper(r.value) == r.value
  {
    var upper := LevelUpper(v);
    if upper !in ValidLevels then
      Err("日志级别必须是 ['DEBUG', 'INFO', 'WARNING', 'ERROR', 'CRITICAL'] 中的一个")
    else
      assert LevelUpper(upper) == upper;
      Ok(upper)
  }

  /** Any spelling of a level in upper, lower or mixed ASCII case passes. */
  lemma LogLevelAnyCase(v: string, level: string)
    requires level in ValidLevels && |v| == |level|
    requires forall i :: 0 <= i < |v| ==> v[i] == level[i] || v[i] == (level[i] as int + 32) as char
    ensures ValidateLogLevel(v) == Ok(level)
  {
    assert LevelUpper(v) == level by {
      forall i | 0 <= i < |v| ensures LevelUpper(v)[i] == level[i] {
        assert IsAsciiUpper(level[i]);
      }
    }
  }
}
