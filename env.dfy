/**
 * The configuration read from the environment (src/config/env.ts): each
 * setting falls back to its default when unset or empty, ADMIN_IDS is a
 * comma-separated list, and three credentials are required.
 */
module Env {
  import opened Wrappers
  import opened Strings

  datatype Config = Config(
    nodeEnv: string,
    botToken: string,
    clientId: string,
    guildId: string,
    openaiKey: string,
    model: string,
    redisUrl: string,
    redisPassword: Option<string>,
    adminIds: seq<string>,
    adminRoleId: string,
    timezone: string)

  /** `process.env[name] || fallback` */
  function Setting(vars: map<string, string>, name: string, fallback: string): (r: string)
    ensures name !in vars || vars[name] == "" ==> r == fallback
    ensures name in vars && vars[name] != "" ==> r == vars[name]
  {
    if name in vars && vars[name] != "" then vars[name] else fallback
  }

  /** `.filter(Boolean)` on strings: drop the empty ones, keeping the order. */
  function NonEmpty(items: seq<string>): (r: seq<string>)
    ensures forall i :: 0 <= i < |r| ==> r[i] != ""
    ensures forall x :: x in r <==> x in items && x != ""
  {
    if items == [] then []
    else (if items[0] == "" then [] else [items[0]]) + NonEmpty(items[1..])
  }

  /** Filtering a list in two pieces gives the filtered pieces in the same order. */
  lemma {:induction false} NonEmptyConcat(a: seq<string>, b: seq<string>)
    ensures NonEmpty(a + b) == NonEmpty(a) + NonEmpty(b)
  {
    if a != [] {
      assert (a + b)[1..] == a[1..] + b;
      NonEmptyConcat(a[1..], b);
    } else {
      assert a + b == b;
    }
  }

  function TrimAll(items: seq<string>): (r: seq<string>)
    ensures |r| == |items| && forall i :: 0 <= i < |r| ==> r[i] == Trim(items[i])
  {
    if items == [] then [] else [Trim(items[0])] + TrimAll(items[1..])
  }

  /** ADMIN_IDS: the comma-separated entries, trimmed, with empty ones removed. */
  function AdminIds(raw: string): seq<string> {
    NonEmpty(TrimAll(Split(raw, ",")))
  }

  /**
   * An id is listed exactly when it is a non-empty trimmed entry of the
   * variable, and listed ids have no surrounding whitespace. (The entries
   * keep their order: NonEmpty distributes over concatenation.)
   */
  lemma AdminIdsSpec(raw: string, x: string)
    ensures x in AdminIds(raw) <==> x != "" && exists i :: 0 <= i < |Split(raw, ",")| && Trim(Split(raw, ",")[i]) == x
    ensures x in AdminIds(raw) ==> !IsSpace(x[0]) && !IsSpace(x[|x| - 1])
  {
    var pieces := Split(raw, ",");
    var trimmed := TrimAll(pieces);
    if x in AdminIds(raw) {
      var i :| 0 <= i < |trimmed| && trimmed[i] == x;
      TrimSpec(pieces[i]);
      assert x != "" && Trim(Split(raw, ",")[i]) == x;
    }
    if x != "" && exists i :: 0 <= i < |pieces| && Trim(pieces[i]) == x {
      var i :| 0 <= i < |pieces| && Trim(pieces[i]) == x;
      assert trimmed[i] == x;
    }
  }

  /** An unset ADMIN_IDS lists nobody. */
  lemma NoAdminIds()
    ensures AdminIds("") == []
  {
    assert Split("", ",") == [""];
    assert Trim("") == "";
  }

  const TOKEN_MISSING := "DISCORD_BOT_TOKEN is required"
  const OPENAI_MISSING := "OPENAI_API_KEY is required"
  const REDIS_MISSING := "REDIS_URL is required"

  /** The settings with their defaults, before the required-credential checks. */
  function ConfigOf(vars: map<string, string>): (r: Config)
    ensures r.nodeEnv == Setting(vars, "NODE_ENV", "development")
    ensures r.model == Setting(vars, "OPENAI_MODEL", "gpt-4.1-mini")
    ensures r.timezone == Setting(vars, "TIMEZONE", "America/Chicago")
    ensures r.adminIds == AdminIds(Setting(vars, "ADMIN_IDS", ""))
    ensures r.redisPassword == (if "REDIS_PASSWORD" in vars then Some(vars["REDIS_PASSWORD"]) else None)
  {
    Config(
      Setting(vars, "NODE_ENV", "development"),
      Setting(vars, "DISCORD_BOT_TOKEN", ""),
      Setting(vars, "DISCORD_CLIENT_ID", ""),
      Setting(vars, "DISCORD_GUILD_ID", ""),
      Setting(vars, "OPENAI_API_KEY", ""),
      Setting(vars, "OPENAI_MODEL", "gpt-4.1-mini"),
      Setting(vars, "REDIS_URL", ""),
      if "REDIS_PASSWORD" in vars then Some(vars["REDIS_PASSWORD"]) else None,
      AdminIds(Setting(vars, "ADMIN_IDS", "")),
      Setting(vars, "ADMIN_ROLE_ID", ""),
      Setting(vars, "TIMEZONE", "America/Chicago"))
  }

  /**
   * Loading the module: the configuration, or the error for the first
   * missing credential in the order bot token, OpenAI key, Redis URL.
   */
  function LoadEnv(vars: map<string, string>): (r: Result<Config>)
    ensures r.Success? <==> ConfigOf(vars).botToken != "" && ConfigOf(vars).openaiKey != "" && ConfigOf(vars).redisUrl != ""
    ensures r.Success? ==> r.value == ConfigOf(vars)
    ensures ConfigOf(vars).botToken == "" ==> r == Failure(TOKEN_MISSING)
    ensures ConfigOf(vars).botToken != "" && ConfigOf(vars).openaiKey == "" ==> r == Failure(OPENAI_MISSING)
    ensures ConfigOf(vars).botToken != "" && ConfigOf(vars).openaiKey != "" && ConfigOf(vars).redisUrl == "" ==> r == Failure(REDIS_MISSING)
  {
    var c := ConfigOf(vars);
    if c.botToken == "" then Failure(TOKEN_MISSING)
    else if c.openaiKey == "" then Failure(OPENAI_MISSING)
    else if c.redisUrl == "" then Failure(REDIS_MISSING)
    else Success(c)
  }

  /** A loaded configuration holds the three credentials as given. */
  lemma LoadedHasCredentials(vars: map<string, string>)
    requires LoadEnv(vars).Success?
    ensures var c := LoadEnv(vars).value;
      && "DISCORD_BOT_TOKEN" in vars && c.botToken == vars["DISCORD_BOT_TOKEN"]
      && "OPENAI_API_KEY" in vars && c.openaiKey == vars["OPENAI_API_KEY"]
      && "REDIS_URL" in vars && c.redisUrl == vars["REDIS_URL"]
  {
  }
}
