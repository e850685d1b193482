/** Configuration loaded from the environment (internal/config/config.go):
    a pure function from environment variables to the settings every
    component is built from. */
module Config {
  import Decimal

  /** The process environment; a variable that is not set reads as "". */
  type Env = map<string, string>

  function Getenv(env: Env, name: string): string {
    if name in env then env[name] else ""
  }

  datatype RateLimitConfig = RateLimitConfig(enabled: bool, capacity: int, rate: real)

  datatype Config = Config(
    serverPort: string,
    dbUrl: string,
    redisAddr: string,
    kafkaBrokers: seq<string>,
    kafkaTopic: string,
    esAddress: string,
    rateLimit: RateLimitConfig)

  const DefaultCapacity: int := 100
  const DefaultRate: real := 50.0
  const DsnOptions := "?charset=utf8mb4&parseTime=True&loc=Local"

  /** Number of occurrences of `c` in `s`. */
  function Count(s: string, c: char): nat {
    if s == [] then 0 else (if s[0] == c then 1 else 0) + Count(s[1..], c)
  }

  /** The pieces joined back together with `sep` between them. */
  function Join(parts: seq<string>, sep: char): string {
    if parts == [] then ""
    else if |parts| == 1 then parts[0]
    else parts[0] + [sep] + Join(parts[1..], sep)
  }

  /** `strings.Split(s, string(sep))`: the pieces between separators, so one
      more piece than there are separators, none containing one, and joining
      them back gives `s`. */
  function Split(s: string, sep: char): (parts: seq<string>)
    ensures |parts| == Count(s, sep) + 1
    ensures Join(parts, sep) == s
    ensures forall i :: 0 <= i < |parts| ==> sep !in parts[i]
  {
    if s == [] then [[]]
    else
      var rest := Split(s[1..], sep);
      if s[0] == sep then
        assert Join([[]] + rest, sep) == [sep] + Join(rest, sep);
        [[]] + rest
      else
        var parts := [[s[0]] + rest[0]] + rest[1..];
        assert |rest| > 1 ==> Join(rest, sep) == rest[0] + [sep] + Join(rest[1..], sep);
        assert |rest| > 1 ==> Join(parts, sep) == parts[0] + [sep] + Join(rest[1..], sep) by {
          assert parts[1..] == rest[1..];
        }
        assert s == [s[0]] + s[1..];
        parts
  }

  /** The MySQL data source name, built by plain concatenation. */
  function Dsn(user: string, pass: string, host: string, port: string, name: string): string {
    user + ":" + pass + "@tcp(" + host + ":" + port + ")/" + name + DsnOptions
  }

  /** `LoadConfig`. `parseFloat` stands for `strconv.ParseFloat(_, 64)` with its
      error discarded (0 on a syntax error); the optional .env file is not read. */
  function LoadConfig(env: Env, parseFloat: string -> real): (c: Config)
    ensures c.kafkaBrokers == [] <==> Getenv(env, "KAFKA_BROKERS") == ""
    ensures c.kafkaBrokers != [] ==>
      && Join(c.kafkaBrokers, ',') == Getenv(env, "KAFKA_BROKERS")
      && |c.kafkaBrokers| == Count(Getenv(env, "KAFKA_BROKERS"), ',') + 1
      && forall i :: 0 <= i < |c.kafkaBrokers| ==> ',' !in c.kafkaBrokers[i]
    ensures c.dbUrl == Dsn(Getenv(env, "DB_USER"), Getenv(env, "DB_PASSWORD"),
                           Getenv(env, "DB_HOST"), Getenv(env, "DB_PORT"), Getenv(env, "DB_NAME"))
    ensures c.rateLimit.enabled <==> Getenv(env, "RATE_LIMIT_ENABLED") == "true"
    ensures var parsed := Decimal.Returned(Decimal.ParseInt64(Getenv(env, "RATE_LIMIT_CAPACITY")));
      c.rateLimit.capacity == if parsed == 0 then DefaultCapacity else parsed
    ensures var parsed := parseFloat(Getenv(env, "RATE_LIMIT_RATE"));
      c.rateLimit.rate == if parsed == 0.0 then DefaultRate else parsed
    ensures c.rateLimit.capacity != 0 && c.rateLimit.rate != 0.0
    ensures Decimal.MinInt64 <= c.rateLimit.capacity <= Decimal.MaxInt64
    ensures c.serverPort == Getenv(env, "SERVER_PORT")
    ensures c.redisAddr == Getenv(env, "REDIS_ADDR")
    ensures c.kafkaTopic == Getenv(env, "KAFKA_TOPIC")
    ensures c.esAddress == Getenv(env, "ELASTICSEARCH_ADDRESS")
  {
    var brokers := Getenv(env, "KAFKA_BROKERS");
    var brokerList := if brokers != "" then Split(brokers, ',') else [];
    var dsn := Dsn(Getenv(env, "DB_USER"), Getenv(env, "DB_PASSWORD"),
                   Getenv(env, "DB_HOST"), Getenv(env, "DB_PORT"), Getenv(env, "DB_NAME"));
    var enabled := Getenv(env, "RATE_LIMIT_ENABLED") == "true";
    var capacity := Decimal.Returned(Decimal.ParseInt64(Getenv(env, "RATE_LIMIT_CAPACITY")));
    var capacity' := if capacity == 0 then DefaultCapacity else capacity;
    var rate := parseFloat(Getenv(env, "RATE_LIMIT_RATE"));
    var rate' := if rate == 0.0 then DefaultRate else rate;
    Config(
      Getenv(env, "SERVER_PORT"), dsn, Getenv(env, "REDIS_ADDR"), brokerList,
      Getenv(env, "KAFKA_TOPIC"), Getenv(env, "ELASTICSEARCH_ADDRESS"),
      RateLimitConfig(enabled, capacity', rate'))
  }

  /** A capacity written as a plain positive decimal number is taken as it is;
      one that is unset, zero or not a number falls back to the default. */
  lemma CapacitySetting(env: Env, parseFloat: string -> real, n: nat)
    ensures 0 < n <= Decimal.MaxInt64 && Getenv(env, "RATE_LIMIT_CAPACITY") == Decimal.Format(n) ==>
      LoadConfig(env, parseFloat).rateLimit.capacity == n
    ensures Decimal.ParseInt64(Getenv(env, "RATE_LIMIT_CAPACITY")).SyntaxError? ==>
      LoadConfig(env, parseFloat).rateLimit.capacity == DefaultCapacity
  {
    if 0 < n <= Decimal.MaxInt64 {
      Decimal.ParseInt64Format(n);
    }
  }

  /** A capacity whose magnitude is past the int64 range is clamped, not
      refused, whatever text follows the digits. */
  lemma CapacityClamped(env: Env, parseFloat: string -> real)
    requires Decimal.ParseInt64(Getenv(env, "RATE_LIMIT_CAPACITY")).RangeError?
    ensures LoadConfig(env, parseFloat).rateLimit.capacity ==
      if Decimal.Negative(Getenv(env, "RATE_LIMIT_CAPACITY")) then Decimal.MinInt64 else Decimal.MaxInt64
  {
  }

  /** With a float parser that reads "" as 0 (as `strconv.ParseFloat` does,
      its syntax error ignored), an unset rate falls back to the default,
      and so does an unset capacity. */
  lemma UnsetRateLimitDefaults(env: Env, parseFloat: string -> real)
    requires parseFloat("") == 0.0
    requires "RATE_LIMIT_RATE" !in env && "RATE_LIMIT_CAPACITY" !in env
    ensures LoadConfig(env, parseFloat).rateLimit.rate == DefaultRate
    ensures LoadConfig(env, parseFloat).rateLimit.capacity == DefaultCapacity
  {
  }
}
