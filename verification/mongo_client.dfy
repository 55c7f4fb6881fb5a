/** The process-wide MongoDB client (mongo/client.go): the connection URI
    built from the configuration, the run-once initialization that stores
    the client, `DB` and the readiness `Check`.

    The driver's `Connect` is a parameter mapping the client options to a
    client or an error, and each `Ping` is given by its outcome. The
    package-level variables `singleExecution` (a `sync.Once`) and
    `clientInstance` are the fields of one `Connection` object. */
module MongoClient {
  import opened Wrappers
  import opened Strings
  import Config

  const AtlasOptions := "retryWrites=true&w=majority"

  /** The connection URI: the hosted-cluster template when Atlas is on,
      otherwise host, decimal port and database name. The scheme is
      "mongodb+srv" exactly when Atlas is on. */
  function MongoUri(env: Config.MongoEnvs): (uri: string)
    ensures |uri| > 10 && uri[..7] == "mongodb"
    ensures env.useAtlas <==> uri[7] == '+'
    ensures env.useAtlas ==> |uri| > |AtlasOptions| && uri[|uri| - |AtlasOptions|..] == AtlasOptions
    ensures env.useAtlas ==> uri[..14] == "mongodb+srv://"
    ensures !env.useAtlas ==> uri[..10] == "mongodb://"
  {
    if env.useAtlas then
      "mongodb+srv://" + env.host + "/" + env.name + "?" + AtlasOptions
    else
      "mongodb://" + env.host + ":" + Decimal(env.port as nat) + "/" + env.name
  }

  /** With Atlas on, the port plays no part in the URI. */
  lemma AtlasUriIgnoresPort(env: Config.MongoEnvs, port: Config.uint64)
    requires env.useAtlas
    ensures MongoUri(env.(port := port)) == MongoUri(env)
  {
  }

  /** With Atlas off, host, port and name can be read back from the URI:
      it starts with "mongodb://host:", ends with "/name", and the text
      between them is the port's decimal form. */
  lemma UriCarriesPort(env: Config.MongoEnvs)
    requires !env.useAtlas
    ensures var uri := MongoUri(env);
      var start := |"mongodb://" + env.host + ":"|;
      var end := |uri| - |"/" + env.name|;
      && start <= end
      && uri[..start] == "mongodb://" + env.host + ":"
      && uri[end..] == "/" + env.name
      && (forall k :: start <= k < end ==> IsDigit(uri[k]))
      && ParseDecimal(uri[start..end]) == env.port as nat
  {
    var uri := MongoUri(env);
    var prefix := "mongodb://" + env.host + ":";
    var digits := Decimal(env.port as nat);
    assert uri == prefix + digits + ("/" + env.name);
    assert uri[|prefix|..|uri| - |"/" + env.name|] == digits;
    DecimalRoundTrip(env.port as nat);
  }

  /** With Atlas on, host and name can be read back from the URI: after
      "mongodb+srv://" comes the host, then '/', then the name, then the
      query of Atlas options. */
  lemma AtlasUriCarriesHostAndName(env: Config.MongoEnvs)
    requires env.useAtlas
    ensures var uri := MongoUri(env);
      var start := |"mongodb+srv://"|;
      var end := |uri| - |"?" + AtlasOptions|;
      && start + |env.host| < end
      && uri[start..start + |env.host|] == env.host
      && uri[start + |env.host|] == '/'
      && uri[start + |env.host| + 1..end] == env.name
      && uri[end..] == "?" + AtlasOptions
  {
    var uri := MongoUri(env);
    assert uri == "mongodb+srv://" + env.host + ("/" + env.name) + ("?" + AtlasOptions);
  }

  /** With Atlas off, two different ports never give the same URI. */
  lemma UriDistinguishesPorts(env: Config.MongoEnvs, port: Config.uint64)
    requires !env.useAtlas && port != env.port
    ensures MongoUri(env.(port := port)) != MongoUri(env)
  {
    UriCarriesPort(env);
    UriCarriesPort(env.(port := port));
  }

  /** With the optional settings at their defaults, the client connects
      without Atlas or compression to the database "goauth" on the given
      host and port. */
  lemma DefaultsGiveLocalUri(host: string, port: Config.uint64)
    ensures var env := Config.MongoEnvsWithDefaults(host, port);
      && MongoUri(env) == "mongodb://" + host + ":" + Decimal(port as nat) + "/goauth"
      && ClientOptionsFor(env).compressors.None?
  {
  }

  /** The client options `initialize` applies. */
  datatype ClientOptions = ClientOptions(uri: string, compressors: Option<seq<string>>)

  /** The options for a configuration: its URI, and the compressor list
      exactly ["zstd"] when compression is on, unset otherwise. */
  function ClientOptionsFor(env: Config.MongoEnvs): (o: ClientOptions)
    ensures o.uri == MongoUri(env)
    ensures env.useCompression <==> o.compressors.Some?
    ensures o.compressors.Some? ==> o.compressors.value == ["zstd"]
  {
    ClientOptions(MongoUri(env), if env.useCompression then Some(["zstd"]) else None)
  }

  /** A connected driver client, by identity. */
  datatype Client = Client(id: nat)

  /** `*mongo.Database`: a client and a database name. */
  datatype Database = Database(client: Client, name: string)

  /** What the body run under `sync.Once` ends with: the client when both
      `Connect` and the first `Ping` succeed, otherwise the first error. */
  function InitOutcome(env: Config.MongoEnvs, connect: ClientOptions -> Result<Client, Error>,
                       ping: Option<Error>): Result<Client, Error>
  {
    var client := connect(ClientOptionsFor(env));
    if client.Failure? then client
    else if ping.Some? then Result.Failure(ping.value)
    else client
  }

  const NotInitialized := Error.Other("mongo client was not initialized")
  const ClientIsNil := Error.Other("the mongo client is nil")

  /** The error `Check` wraps a failed ping into. */
  function CheckFailed(e: Error): Error
  {
    Error.Other("the mongo check has failed: " + e.Text())
  }

  /** The package-level state of mongo/client.go. */
  class Connection {
    /** Whether `singleExecution.Do` has run its body. */
    var singleExecutionDone: bool
    var clientInstance: Option<Client>

    /** No client can exist before the body has run. */
    ghost predicate Valid()
      reads this
    {
      !singleExecutionDone ==> clientInstance.None?
    }

    /** The state at process start. */
    constructor ()
      ensures Valid() && !singleExecutionDone && clientInstance.None?
    {
      singleExecutionDone := false;
      clientInstance := None;
    }

    /** `initialize`: the first call connects and pings, stores the client
        only if both succeed, and returns their error; every later call
        runs nothing, returns nil and leaves the client as it was. The error
        lives in a local variable, so only the first caller ever sees it. */
    method Initialize(env: Config.MongoEnvs, connect: ClientOptions -> Result<Client, Error>,
                      ping: Option<Error>) returns (err: Option<Error>)
      requires Valid()
      modifies this
      ensures Valid() && singleExecutionDone
      ensures old(singleExecutionDone) ==> err.None? && clientInstance == old(clientInstance)
      ensures !old(singleExecutionDone) ==>
        var outcome := InitOutcome(env, connect, ping);
        && (outcome.Failure? ==> err == Some(outcome.error) && clientInstance.None?)
        && (outcome.Success? ==> err.None? && clientInstance == Some(outcome.value))
    {
      var clientInstanceError: Option<Error> := None;
      if !singleExecutionDone {
        singleExecutionDone := true;
        var clientOptions := ClientOptionsFor(env);
        var client := connect(clientOptions);
        if client.Failure? {
          clientInstanceError := Some(client.error);
        } else if ping.Some? {
          clientInstanceError := ping;
        } else {
          clientInstance := Some(client.value);
        }
      }
      err := clientInstanceError;
    }

    /** `DB`: the error of `initialize` if it returned one; otherwise "mongo
        client was not initialized" when there is no client, which is what
        every call after a failed first initialization gets; otherwise the
        database named by the configuration. */
    method DB(env: Config.MongoEnvs, connect: ClientOptions -> Result<Client, Error>,
              ping: Option<Error>) returns (db: Option<Database>, err: Option<Error>)
      requires Valid()
      modifies this
      ensures Valid() && singleExecutionDone
      ensures db.Some? <==> err.None?
      ensures db.Some? ==> clientInstance == Some(db.value.client) && db.value.name == env.name
      ensures clientInstance.Some? ==> err.None? && db == Some(Database(clientInstance.value, env.name))
      ensures !old(singleExecutionDone) ==>
        var outcome := InitOutcome(env, connect, ping);
        && (outcome.Failure? ==> err == Some(outcome.error) && clientInstance.None?)
        && (outcome.Success? ==> clientInstance == Some(outcome.value))
      ensures old(singleExecutionDone) ==> clientInstance == old(clientInstance)
      ensures old(singleExecutionDone) && clientInstance.None? ==> err == Some(NotInitialized)
    {
      var initErr := Initialize(env, connect, ping);
      if initErr.Some? {
        return None, initErr;
      }
      if clientInstance.None? {
        return None, Some(NotInitialized);
      }
      return Some(Database(clientInstance.value, env.name)), None;
    }

    /** `Check`: exactly one error, "the mongo client is nil", without a
        client; with one, no error when the ping succeeds and exactly one
        wrapped error when it fails. It changes nothing. */
    method Check(ping: Option<Error>) returns (errs: seq<Error>)
      ensures clientInstance.None? ==> errs == [ClientIsNil]
      ensures clientInstance.Some? && ping.None? ==> errs == []
      ensures clientInstance.Some? && ping.Some? ==> errs == [CheckFailed(ping.value)]
    {
      errs := [];
      if clientInstance.None? {
        errs := errs + [ClientIsNil];
        return errs;
      }
      if ping.Some? {
        errs := errs + [CheckFailed(ping.value)];
      }
    }
  }

  /** Two calls of `initialize` in one process: the body runs once, only the
      first call can return an error, and the client is decided by the first
      call's connection and ping alone. */
  method InitializeTwice(env1: Config.MongoEnvs, connect1: ClientOptions -> Result<Client, Error>,
                         ping1: Option<Error>, env2: Config.MongoEnvs,
                         connect2: ClientOptions -> Result<Client, Error>, ping2: Option<Error>)
    returns (first: Option<Error>, second: Option<Error>, client: Option<Client>)
    ensures second.None?
    ensures first.Some? <==> InitOutcome(env1, connect1, ping1).Failure?
    ensures first.Some? ==> first.value == InitOutcome(env1, connect1, ping1).error && client.None?
    ensures first.None? ==> client == Some(InitOutcome(env1, connect1, ping1).value)
  {
    var c := new Connection();
    first := c.Initialize(env1, connect1, ping1);
    second := c.Initialize(env2, connect2, ping2);
    client := c.clientInstance;
  }

  /** After a failed first initialization, `DB` reports that failure once
      and "mongo client was not initialized" on every later call, whatever
      the later connection would do. */
  method DBAfterFailedInitialize(env: Config.MongoEnvs, connect: ClientOptions -> Result<Client, Error>,
                                 ping: Option<Error>, laterConnect: ClientOptions -> Result<Client, Error>,
                                 laterPing: Option<Error>)
    returns (first: Option<Error>, later: Option<Error>)
    requires InitOutcome(env, connect, ping).Failure?
    ensures first == Some(InitOutcome(env, connect, ping).error)
    ensures later == Some(NotInitialized)
  {
    var c := new Connection();
    var db1, db2;
    db1, first := c.DB(env, connect, ping);
    db2, later := c.DB(env, laterConnect, laterPing);
  }

  /** After a successful first initialization every `DB` call returns the
      stored client's database with no error; a later call never connects
      again and takes only the database name from the configuration. */
  method DBAfterSuccessfulInitialize(env: Config.MongoEnvs, connect: ClientOptions -> Result<Client, Error>,
                                     ping: Option<Error>, laterEnv: Config.MongoEnvs,
                                     laterConnect: ClientOptions -> Result<Client, Error>,
                                     laterPing: Option<Error>)
    returns (first: Option<Database>, later: Option<Database>, firstErr: Option<Error>, laterErr: Option<Error>)
    requires InitOutcome(env, connect, ping).Success?
    ensures firstErr.None? && first == Some(Database(InitOutcome(env, connect, ping).value, env.name))
    ensures laterErr.None? && later == Some(Database(InitOutcome(env, connect, ping).value, laterEnv.name))
  {
    var c := new Connection();
    first, firstErr := c.DB(env, connect, ping);
    later, laterErr := c.DB(laterEnv, laterConnect, laterPing);
  }

  /** The readiness check reflects the state: one error before any
      initialization; after it, no error exactly when a client was stored
      and the check's own ping succeeds. */
  method CheckAroundInitialize(env: Config.MongoEnvs, connect: ClientOptions -> Result<Client, Error>,
                               ping: Option<Error>, checkPing: Option<Error>)
    returns (before: seq<Error>, after: seq<Error>)
    ensures before == [ClientIsNil]
    ensures |after| == 1
         || (after == [] && InitOutcome(env, connect, ping).Success? && checkPing.None?)
    ensures after == [] <==> InitOutcome(env, connect, ping).Success? && checkPing.None?
  {
    var c := new Connection();
    before := c.Check(checkPing);
    var err := c.Initialize(env, connect, ping);
    after := c.Check(checkPing);
  }
}
