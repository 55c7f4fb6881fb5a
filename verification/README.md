# goauth data layer and configuration, modelled in Dafny

This project models the core of goauth, a Go service skeleton. That core has three parts:

- **The generic data-access object** (`mongo/crud_dao.go`). Each operation sends one request to the MongoDB driver and translates the driver's outcome into the object's own result with a fixed table. Duplicate keys and "no documents" become normal results, not errors. Reads of many documents go through an ordered decode that numbers the records from 0 and rebuilds the slice from an index-keyed map.
- **The process-wide client** (`mongo/client.go`, `mongo/helpers.go`). This covers the connection URI templates, the client options, the run-once initialization that stores the client, `DB`, the readiness `Check`, and the credential masking applied before the URI is logged.
- **The configuration package and the response envelope** (`config/*.go`, `model/api_response.go`). This covers the CORS origin parser, the CORS max age, the MongoDB settings validator, `config.Check`, the service constants, and the two `APIResponse` constructors.

Files and modules:

- `wrappers.dfy` (`Wrappers`): `Option`, `Result`, the `Error` values the code distinguishes (duplicate key, no documents, anything else), and `Return`, a Go `(value, err)` pair.
- `strings.dfy` (`Strings`): ASCII `strings.TrimSpace`, `strings.ToLower`, `strings.Split` on one character, and `%d`. Also their inverses `Join` and `ParseDecimal`, which are used to state round trips.
- `config.dfy` (`Config`): config/base.go, config/cors.go, config/mongo.go and config/config.go.
- `api_response.dfy` (`ApiModel`): model/api_response.go.
- `mongo_helpers.dfy` (`MongoHelpers`): mongo/helpers.go.
- `mongo_client.dfy` (`MongoClient`): mongo/client.go. The package variables `singleExecution` and `clientInstance` are the two fields of the class `Connection`.
- `crud_dao.dfy` (`Crud`): mongo/crud_dao.go. `NewCrudDAO` is the constructor of the class `CrudDao`. The outcome translators are functions of the driver's outcome. `concurrentDecode` is a method with the Go code's counter, map and slice-filling loop, proved equal to the in-order decode `DecodeAll`.

Inputs that stand in for the outside world:

- Driver calls are given by their outcome: `Option<Error>` for `InsertOne`, and `Result<…, Error>` for `UpdateOne`, `CountDocuments`, `FindOne`, `DeleteOne` and `DeleteMany`.
- A cursor is the records `Next` yields plus the errors `Err` and `Close` report.
- BSON decoding is a function from a raw record to a document or an error.
- `mongo.Connect` is a function from client options to a client or an error.
- Each `Ping` is given by its outcome.
- The loaded environment records are arguments. `MongoDBHost()` and the other MongoDB accessors are the fields of `MongoEnvs`. The declared defaults are the constants `DefaultMongoName` ("goauth"), `DefaultUseAtlas` (false), `DefaultUseCompression` (false) and `DefaultCorsMaxAge` (3600). `MongoEnvsWithDefaults` is the record loaded when only the required variables are set.

Where the doc comments of the `CrudDAO` interface (mongo/crud_dao.go:24-36) and the code differ, the model follows the code:

- `Create` and `Update` never set a `CreatedAt` or `UpdatedAt` field, although their doc comments say they do. The document goes to the driver as given, so the model has no stamping.
- The doc comment of `Update` also calls "no document was updated" not found. The code looks only at `!withUpsert && MatchedCount == 0`; `ModifiedCount` is never read.

Two further facts about the code that the model keeps:

- The cursor of `FindMany` and `Aggregate` is closed only on the success path. A decode error or a cursor error returns before `Close`. The methods' `closed` output records whether `Close` was called.
- A failed initialization is seen only by the first caller. The error lives in a local variable of `initialize`, so later callers get nil from `initialize` and then "mongo client was not initialized" from `DB`.

## Model

| member | source | states |
|---|---|---|
| Strings.TrimSpace | config/cors.go:31 | the result has no white space at either end and is no longer than the input |
| Strings.TrimSpaceInfix | config/cors.go:37 | what `TrimSpace` keeps is the infix of the input between its leading and trailing white space, and everything removed is white space |
| Strings.TrimLeftDropsSpace | config/cors.go:37 | trimming the front keeps a suffix and drops only white space |
| Strings.TrimRightDropsSpace | config/cors.go:37 | trimming the back drops only white space |
| Strings.ToLower | config/cors.go:38 | same length; every character is lowered, and none is upper case afterwards |
| Strings.Split | config/cors.go:32 | one piece more than there are separators; no piece contains the separator |
| Strings.JoinSplit | config/cors.go:32 | joining the pieces of a split with the separator gives back the input |
| Strings.Decimal | mongo/client.go:39 | `%d` of a port is a non-empty run of digits with no leading zero (only 0 prints as "0", and a longer run never starts with '0') |
| Strings.DecimalRoundTrip | mongo/client.go:39 | the digits `%d` prints read back as the same number |
| Config.AppName | config/base.go:33-35 | the application name is "Goauth" |
| Config.APIPath | config/base.go:41-43 | the API path is "/api/v1", the base path followed by the version path |
| Config.InitializationTimeout | config/base.go:49-51 | the initialization timeout is 60 seconds |
| Config.ConnectionTimeout | config/base.go:45-47 | the connection timeout is 10 seconds, strictly below the initialization timeout |
| Config.CorsAllowedOrigins | config/cors.go:25-43 | the preallocated slice, filled index by index, equals `AllowedOrigins`: nil for an empty setting, otherwise the normalised comma-separated pieces of the trimmed setting, in order |
| Config.NormalizeAllAt | config/cors.go:36-40 | order is kept: origin i is piece i, trimmed and lower-cased |
| Config.NormalizeKeepsShape | config/cors.go:37-39 | a piece without commas becomes a trimmed, lower-case origin without commas |
| Config.AllowedOriginsShape | config/cors.go:27-40 | nil exactly for an empty setting; otherwise one origin more than the trimmed setting has commas (so white space alone gives one empty origin), each trimmed, lower case and comma-free, and the pieces join back to the trimmed setting |
| Config.CorsMaxAge | config/cors.go:45-47 | the duration is `MaxAge` seconds in nanoseconds whenever that fits in 64 bits, and dividing it by a second gives `MaxAge` back; the default 3600 gives one hour |
| Config.WrapInt64 | config/cors.go:46 | Go's int64 product: the exact value when it fits, otherwise a value congruent to it modulo 2^64 |
| Config.MongoEnvsWithDefaults | config/mongo.go:12-18 | with only host and port set, the name is "goauth" and Atlas and compression are off; a non-empty host and non-zero port then pass the settings check |
| Config.MongoEnvErrors | config/mongo.go:27-40 | exactly one error per missing mandatory setting, so at most two; none exactly when the host is set and the port is non-zero; "host is not set" present iff the host is empty, and then first; "port number is not set" present iff the port is 0, and then last |
| Config.CheckMongoEnvs | config/mongo.go:27-41 | the errors appended one condition at a time are exactly `MongoEnvErrors` |
| Config.Check | config/config.go:9-15 | returns exactly the list `checkMongoEnvs` gives, in the same order, and changes nothing |
| ApiModel.NewAPIResponseError | model/api_response.go:21-27 | the status code passed in is what `HTTPStatus` returns; the status is "error", the message is kept and there is no data |
| ApiModel.NewAPIResponseSuccess | model/api_response.go:29-35 | the status code passed in is what `HTTPStatus` returns; the status is "success", the data is kept and the message is empty |
| ApiModel.ConstructorsDiffer | model/api_response.go:5-8 | the two status values are distinct strings, so an error and a success envelope never share a status |
| MongoHelpers.MaskCredentials | mongo/helpers.go:28-32 | user info, when present, keeps its user name and gets the password "xxxx", even if it had none; none is added when absent; scheme, host, path and query are unchanged |
| MongoHelpers.UriForLog | mongo/helpers.go:22-35 | "" when the URI does not parse; otherwise the parsed URL with its user info masked in place, printed |
| MongoHelpers.MaskedOutputIgnoresPassword | mongo/helpers.go:28-34 | two URLs that differ only in their passwords print the same once masked, so the logged text does not depend on the password |
| MongoHelpers.MaskIdempotent | mongo/helpers.go:28-32 | masking twice is the same as masking once |
| MongoClient.MongoUri | mongo/client.go:35-40 | the URI starts with "mongodb+srv://" when Atlas is on and with "mongodb://" otherwise (the '+' at index 7 tells them apart), and the Atlas URI ends with "retryWrites=true&w=majority" |
| MongoClient.AtlasUriIgnoresPort | mongo/client.go:36-37 | with Atlas on, changing the port does not change the URI |
| MongoClient.AtlasUriCarriesHostAndName | mongo/client.go:36-37 | with Atlas on, the URI reads back as its parts: after "mongodb+srv://" come the host, '/', the name, and then "?retryWrites=true&w=majority" |
| MongoClient.UriCarriesPort | mongo/client.go:38-40 | with Atlas off, the URI reads back as its parts: it starts with "mongodb://" followed by the host and ':', ends with '/' followed by the name, and the text between them is all digits and parses back to the port |
| MongoClient.UriDistinguishesPorts | mongo/client.go:38-40 | with Atlas off, two different ports never give the same URI |
| MongoClient.DefaultsGiveLocalUri | mongo/client.go:35-47 | with the optional settings at their defaults, the URI is "mongodb://host:port/goauth" and no compressor is set |
| MongoClient.ClientOptionsFor | mongo/client.go:42-47 | the options carry the URI; compressors are exactly ["zstd"] when compression is on, and unset otherwise |
| MongoClient.Connection.constructor | mongo/client.go:20-23 | at process start the body has not run and there is no client |
| MongoClient.Connection.Initialize | mongo/client.go:25-74 | the first call marks the body as run and follows `InitOutcome` (connect with `ClientOptionsFor`, then ping): it stores the client only when both `Connect` and `Ping` succeed, and otherwise returns the first of their errors; every later call returns nil and leaves the client unchanged |
| MongoClient.Connection.DB | mongo/client.go:76-86 | on the first call, returns the error of `InitOutcome` if it failed; otherwise "mongo client was not initialized" when there is no client; whenever a client is stored, the stored client's database with the configured name and no error |
| MongoClient.Connection.Check | mongo/client.go:88-106 | without a client exactly one error, "the mongo client is nil"; with one, no error on a successful ping and exactly one wrapped error on a failed one; nothing changes |
| MongoClient.InitializeTwice | mongo/client.go:25-74 | of two `initialize` calls only the first can return an error, and the client is decided by the first call's connect and ping alone |
| MongoClient.DBAfterFailedInitialize | mongo/client.go:76-83 | after a failed first initialization, `DB` reports that failure once and then "mongo client was not initialized", whatever a later connection would do |
| MongoClient.DBAfterSuccessfulInitialize | mongo/client.go:76-86 | after a successful first initialization, every `DB` call returns the first call's client with the database name configured at that call, and no error |
| MongoClient.CheckAroundInitialize | mongo/client.go:88-105 | one error before initialization; afterwards no error exactly when a client was stored and the check's ping succeeds, otherwise exactly one |
| Crud.CrudDao.constructor | mongo/crud_dao.go:404-415 | binds the collection named by the document type, and starts index creation exactly when the type declares indexes |
| Crud.CrudDao.GetCollection | mongo/crud_dao.go:75-77 | returns the bound collection, which is the one the document type names |
| Crud.Create | mongo/crud_dao.go:90-111 | `true` exactly on success; a duplicate key gives `(false, nil)`; any other error is returned unchanged with `false` |
| Crud.Update | mongo/crud_dao.go:113-147 | a duplicate key gives `UniqueError` with no error; any other error gives the zero result and that error; `NotFound` exactly when upsert is off and nothing matched; `Inserted` exactly when the update succeeded, was not "not found", and upserted one document; at most one flag is ever set |
| Crud.UpsertDecidesNotFound | mongo/crud_dao.go:134-146 | for a filter that matches nothing, not-found is reported exactly when upsert is off, and with upsert on the insertion is reported instead |
| Crud.Exists | mongo/crud_dao.go:149-167 | `true` exactly when the count succeeds and is positive; "no documents" gives `(false, nil)`; any other error is returned with `false` |
| Crud.Count | mongo/crud_dao.go:169-181 | -1 exactly on an error; on success exactly the driver's count |
| Crud.FindOne | mongo/crud_dao.go:183-215 | `(document, nil)` whenever the query and the decode succeed, and a document only then; `(nil, nil)` exactly for "no documents"; other query errors and decode errors are returned with nil |
| Crud.Delete | mongo/crud_dao.go:305-331 | `true` exactly when a document was removed; "no documents" and a zero count give `(false, nil)`; any other error is returned with `false` |
| Crud.DeleteMany | mongo/crud_dao.go:333-345 | `(0, err)` exactly on an error, otherwise the number removed |
| Crud.DecodeAll | mongo/crud_dao.go:389-399 | a successful decode has one document per record |
| Crud.DecodeAllOrdered | mongo/crud_dao.go:393-399 | ordering: after a successful decode, document j is the decoding of record j |
| Crud.DecodeAllSucceedsIffEach | mongo/crud_dao.go:372-391 | all or nothing: the decode succeeds exactly when every record decodes |
| Crud.DecodeAllFirstFailure | mongo/crud_dao.go:357-391 | if record k fails and every earlier record decodes, the whole decode fails with record k's error and returns no documents |
| Crud.DecodeAllPrefixFailure | mongo/crud_dao.go:357-360 | once a prefix of the records has failed, the records after it cannot change the outcome, which is why fetching may stop there |
| Crud.ConcurrentDecode | mongo/crud_dao.go:347-402 | the counter from -1, the index-keyed map and the rebuilt slice give exactly the in-order decode: all documents in cursor order, or nil and the first decode error (an empty cursor gives an empty slice) |
| Crud.ReadManySucceedsIffAllSteps | mongo/crud_dao.go:217-258 | documents come back only when the query, every decode, the cursor check and the close all succeed, and then one per record, in order |
| Crud.DecodeCursor | mongo/crud_dao.go:228-258 | the result is `ReadMany` of the cursor: the decode, cursor-error and close steps in order, with the first error returned; `Close` is called exactly when decoding and the cursor check succeed |
| Crud.FindMany | mongo/crud_dao.go:217-259 | the result is `ReadMany` of the query's outcome: nil and the first error among the query, the decode, the cursor check and the close; otherwise the documents in cursor order; the cursor is closed only on the success path |
| Crud.Aggregate | mongo/crud_dao.go:261-303 | the result is `ReadMany` of the aggregation's outcome, the same translation as `FindMany`; the cursor is closed only on the success path |

## Left out

- Concurrency in `concurrentDecode`: the goroutine per record, `sync.WaitGroup`, `sync.Mutex` and the unsynchronised write to `err` are not modelled. The model is the sequential equivalent, in which "the" error is the first failing record's. With real goroutines, which failing record's error wins is a race.
- Concurrency of `sync.Once`: callers blocking while the body runs is not modelled. The once-guard is a single "already ran" flag.
- The background goroutine that `NewCrudDAO` starts for `CreateIndexes` is recorded only as the flag `indexCreationLaunched`. `CreateIndexes` itself is left out: it calls the driver and then only logs, and it returns nothing.
- Logging: all zerolog calls are side effects only.
- Contexts, timeouts and cancellation: `context.WithTimeout` and the deadlines it sets are not modelled.
- Loading the environment: `Initialize`, `initBaseVariables`, `initCORSVariables` and `initMongoVariables` are left out. The loaded records are inputs.
- `GinMode`: it only returns the loaded `GIN_MODE` variable, which nothing in this core reads.
- The driver: `InsertOne`, `UpdateOne`, `CountDocuments`, `FindOne`, `Find`, `Aggregate`, `DeleteOne`, `DeleteMany`, `Indexes().CreateMany`, `Connect`, `Ping`, the cursor methods and BSON encoding and decoding are abstract outcomes and functions. The filters, update documents, pipelines and options sent to the driver are not modelled.
- `url.Parse` and `URL.String`: parsing is an input. Printing covers scheme, user info, host, path and query, with no percent-escaping, port splitting or fragment.
- `strings.TrimSpace` and `strings.ToLower` are restricted to ASCII. Unicode white space and case mapping are not modelled.
- Crud.Count, Crud.DeleteMany, Crud.Exists, Crud.Delete, Crud.Update: driver counts (the count, the deleted count, and the matched, modified and upserted counts of `UpdateCounts`) are unbounded naturals rather than `int64`. A count of 2^63 or more cannot come from the driver.
- `APIResponseStatus` is an enumeration of its two declared values rather than an open string type. JSON serialisation of `APIResponse` is not modelled.
