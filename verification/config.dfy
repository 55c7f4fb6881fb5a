/** The `config` package: constants of the service (config/base.go), the
    CORS settings (config/cors.go), the MongoDB settings and their validation
    (config/mongo.go) and the readiness check over them (config/config.go).
    Loading the records from the environment is not modelled: each loaded
    record is an input, and its fields are the package's accessors
    (`MongoDBHost()` is `MongoEnvs.host`, and so on). */
module Config {
  import opened Wrappers
  import opened Strings

  newtype int64 = x: int | -0x8000_0000_0000_0000 <= x < 0x8000_0000_0000_0000
  newtype uint64 = x: int | 0 <= x < 0x1_0000_0000_0000_0000

  /** Go's `time.Duration`: a signed 64-bit count of nanoseconds. */
  type Duration = int64

  /** `time.Second` in nanoseconds. */
  const Second: int := 1_000_000_000

  /** Go's wrap-around of an integer into `int64` (two's complement). */
  function WrapInt64(x: int): (r: int64)
    ensures -0x8000_0000_0000_0000 <= x < 0x8000_0000_0000_0000 ==> r as int == x
    ensures (x - r as int) % 0x1_0000_0000_0000_0000 == 0
  {
    ((x + 0x8000_0000_0000_0000) % 0x1_0000_0000_0000_0000 - 0x8000_0000_0000_0000) as int64
  }

  // ---------------------------------------------------------------- base.go

  const ApplicationName := "Goauth"
  const ApiBasePath := "/api"
  const ApiVersionPath := "/v1"

  function AppName(): (name: string)
    ensures name == "Goauth"
  {
    ApplicationName
  }

  /** The prefix under which every route of the API is served. */
  function APIPath(): (path: string)
    ensures path == "/api/v1"
    ensures path[..|ApiBasePath|] == ApiBasePath && path[|ApiBasePath|..] == ApiVersionPath
  {
    ApiBasePath + ApiVersionPath
  }

  function InitializationTimeout(): (d: Duration)
    ensures d as int == 60 * Second
  {
    60_000_000_000
  }

  /** The connection timeout is ten seconds, strictly below the
      initialization timeout. */
  function ConnectionTimeout(): (d: Duration)
    ensures d as int == 10 * Second
    ensures d < InitializationTimeout()
  {
    10_000_000_000
  }

  // ---------------------------------------------------------------- cors.go

  /** The environment record `cors`. */
  datatype CorsEnvs = CorsEnvs(allowedOrigins: string, maxAge: int64)

  /** The value `maxAge` takes when the variable is not set. */
  const DefaultCorsMaxAge: int64 := 3600

  /** One origin as the parser keeps it. */
  function NormalizeOrigin(piece: string): string
  {
    ToLower(TrimSpace(piece))
  }

  /** Each piece normalised, in order. */
  function NormalizeAll(pieces: seq<string>): (origins: seq<string>)
    ensures |origins| == |pieces|
  {
    if |pieces| == 0 then []
    else NormalizeAll(pieces[..|pieces| - 1]) + [NormalizeOrigin(pieces[|pieces| - 1])]
  }

  /** The i-th origin is the i-th piece, normalised. */
  lemma {:induction false} NormalizeAllAt(pieces: seq<string>, i: nat)
    requires i < |pieces|
    ensures NormalizeAll(pieces)[i] == NormalizeOrigin(pieces[i])
  {
    if i < |pieces| - 1 {
      NormalizeAllAt(pieces[..|pieces| - 1], i);
    }
  }

  /** What `CorsAllowedOrigins` returns for a setting: nil for an empty
      setting; otherwise the setting trimmed at both ends, split at every
      comma, and each piece trimmed and lower-cased, in order. */
  function AllowedOrigins(setting: string): Option<seq<string>>
  {
    if setting == "" then None else Some(NormalizeAll(Split(TrimSpace(setting), ',')))
  }

  /** `CorsAllowedOrigins`, filling a preallocated slice index by index. */
  method CorsAllowedOrigins(cors: CorsEnvs) returns (origins: Option<seq<string>>)
    ensures origins == AllowedOrigins(cors.allowedOrigins)
  {
    var corsAllowedOrigins := cors.allowedOrigins;
    if corsAllowedOrigins == "" {
      return None;
    }
    var allowedOriginsJoined := TrimSpace(corsAllowedOrigins);
    var allowedOriginsSplit := Split(allowedOriginsJoined, ',');
    var allowedOriginsSlice := new string[|allowedOriginsSplit|];
    for i := 0 to |allowedOriginsSplit|
      invariant allowedOriginsSlice[..i] == NormalizeAll(allowedOriginsSplit[..i])
    {
      var trimmed := TrimSpace(allowedOriginsSplit[i]);
      var lowered := ToLower(trimmed);
      allowedOriginsSlice[i] := lowered;
      assert allowedOriginsSplit[..i + 1][..i] == allowedOriginsSplit[..i];
      assert allowedOriginsSlice[..i + 1] == allowedOriginsSlice[..i] + [lowered];
    }
    assert allowedOriginsSlice[..] == allowedOriginsSlice[..|allowedOriginsSplit|];
    assert allowedOriginsSplit[..|allowedOriginsSplit|] == allowedOriginsSplit;
    return Some(allowedOriginsSlice[..]);
  }

  /** The parsed origins: nil exactly for an empty setting; otherwise one
      origin more than the trimmed setting has commas (so a setting of only
      white space gives one empty origin), each trimmed, lower-case and free
      of commas, and joining the raw pieces back gives the trimmed setting. */
  lemma AllowedOriginsShape(setting: string)
    ensures AllowedOrigins(setting).None? <==> setting == ""
    ensures setting != "" ==>
      var joined := TrimSpace(setting);
      var origins := AllowedOrigins(setting).value;
      && |origins| == CountChar(joined, ',') + 1
      && Join(Split(joined, ','), ',') == joined
      && (forall i :: 0 <= i < |origins| ==>
            IsTrimmed(origins[i]) && IsLower(origins[i]) && ',' !in origins[i])
  {
    if setting != "" {
      var joined := TrimSpace(setting);
      var pieces := Split(joined, ',');
      JoinSplit(joined, ',');
      forall i | 0 <= i < |pieces|
        ensures var o := NormalizeAll(pieces)[i]; IsTrimmed(o) && IsLower(o) && ',' !in o
      {
        NormalizeAllAt(pieces, i);
        NormalizeKeepsShape(pieces[i]);
      }
    }
  }

  /** A piece without commas normalises to a trimmed, lower-case origin
      without commas. */
  lemma NormalizeKeepsShape(piece: string)
    requires ',' !in piece
    ensures var o := NormalizeOrigin(piece);
      IsTrimmed(o) && IsLower(o) && ',' !in o
  {
    var t := TrimSpace(piece);
    var o := ToLower(t);
    TrimSpaceInfix(piece);
    var i := |piece| - |TrimLeft(piece)|;
    forall k | 0 <= k < |o| ensures o[k] != ',' {
      assert t[k] == piece[i + k];
    }
    assert IsTrimmed(o) by {
      if o != [] {
        assert o[0] == LowerChar(t[0]) && o[|o| - 1] == LowerChar(t[|t| - 1]);
      }
    }
  }

  /** `CorsMaxAge`: `maxAge` seconds as a duration, with Go's 64-bit
      wrap-around when the product does not fit. */
  function CorsMaxAge(cors: CorsEnvs): (d: Duration)
    ensures -9_223_372_036 <= cors.maxAge <= 9_223_372_036 ==>
      d as int == cors.maxAge as int * Second && d as int / Second == cors.maxAge as int
    ensures cors.maxAge == DefaultCorsMaxAge ==> d as int == 3600 * Second
  {
    WrapInt64(cors.maxAge as int * 1_000_000_000)
  }

  // --------------------------------------------------------------- mongo.go

  /** The environment record `mongoDB`. */
  datatype MongoEnvs = MongoEnvs(
    host: string,
    port: uint64,
    name: string,
    useAtlas: bool,
    useCompression: bool)

  /** The values the optional fields take when their variables are not set. */
  const DefaultMongoName := "goauth"
  const DefaultUseAtlas := false
  const DefaultUseCompression := false

  /** The record loaded when only the two required variables are set: the
      optional fields take their declared defaults. */
  function MongoEnvsWithDefaults(host: string, port: uint64): (m: MongoEnvs)
    ensures m.host == host && m.port == port
    ensures m.name == "goauth" && !m.useAtlas && !m.useCompression
    ensures host != "" && port != 0 ==> MongoEnvErrors(m) == []
  {
    MongoEnvs(host, port, DefaultMongoName, DefaultUseAtlas, DefaultUseCompression)
  }

  const HostNotSet := Error.Other("the MongoDB host is not set")
  const PortNotSet := Error.Other("the MongoDB port number is not set")

  /** What `checkMongoEnvs` reports: one error per missing mandatory
      setting, the host's first. */
  function MongoEnvErrors(m: MongoEnvs): (errs: seq<Error>)
    ensures |errs| <= 2
    ensures |errs| == (if m.host == "" then 1 else 0) + (if m.port == 0 then 1 else 0)
    ensures errs == [] <==> m.host != "" && m.port != 0
    ensures HostNotSet in errs <==> m.host == ""
    ensures PortNotSet in errs <==> m.port == 0
    ensures m.host == "" ==> errs[0] == HostNotSet
    ensures m.port == 0 ==> errs[|errs| - 1] == PortNotSet
  {
    (if m.host == "" then [HostNotSet] else []) + (if m.port == 0 then [PortNotSet] else [])
  }

  /** `checkMongoEnvs`, appending one error per failed condition. */
  method CheckMongoEnvs(m: MongoEnvs) returns (errs: seq<Error>)
    ensures errs == MongoEnvErrors(m)
  {
    errs := [];
    if m.host == "" {
      errs := errs + [HostNotSet];
    }
    if m.port == 0 {
      errs := errs + [PortNotSet];
    }
  }

  // -------------------------------------------------------------- config.go

  /** `config.Check`: exactly the errors of `checkMongoEnvs`, in order. */
  method Check(m: MongoEnvs) returns (errs: seq<Error>)
    ensures errs == MongoEnvErrors(m)
  {
    errs := [];
    var mongoErrs := CheckMongoEnvs(m);
    errs := errs + mongoErrs;
  }
}
