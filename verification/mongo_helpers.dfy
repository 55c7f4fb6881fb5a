/** Declarations shared by the data-access layer (mongo/helpers.go): what a
    stored document type declares, the outcome of an update, and the
    credential masking applied to a connection URI before it is logged. */
module MongoHelpers {
  import opened Wrappers

  /** An index declaration, as far as this layer looks at it. */
  datatype IndexModel = IndexModel(keys: seq<string>, unique: bool)

  /** The `Document` interface: the values a document type's four methods
      return (its index declarations, its display names and its collection). */
  datatype Document = Document(
    indexes: seq<IndexModel>,
    nameSingular: string,
    namePlural: string,
    collectionName: string)

  /** `UpdateResult`: the flags an update reports. */
  datatype UpdateResult = UpdateResult(notFound: bool, uniqueError: bool, inserted: bool)
  {
    /** The outcome invariant: at most one flag is set. */
    predicate AtMostOneFlag()
    {
      (notFound ==> !uniqueError && !inserted) && (uniqueError ==> !inserted)
    }
  }

  /** The zero value `UpdateResult{}`. */
  const NoFlags := UpdateResult(false, false, false)

  /** `url.Userinfo`: a user name and an optional password. */
  datatype UserInfo = UserInfo(username: string, password: Option<string>)

  /** The parts of a parsed `url.URL` that a connection URI uses. */
  datatype Url = Url(
    scheme: string,
    user: Option<UserInfo>,
    host: string,
    path: string,
    rawQuery: string)

  function UserInfoString(u: UserInfo): string
  {
    u.username + (if u.password.Some? then ":" + u.password.value else "")
  }

  /** `URL.String()` for the URLs above, without percent-escaping. */
  function UrlString(u: Url): string
  {
    u.scheme + "://"
    + (if u.user.Some? then UserInfoString(u.user.value) + "@" else "")
    + u.host + u.path
    + (if u.rawQuery != "" then "?" + u.rawQuery else "")
  }

  const HiddenPassword := "xxxx"

  /** The URL `uriForLog` prints: user info, when present, keeps its user
      name and gets the password "xxxx" (even if it had none); no user info
      is added when there was none; every other part is kept. */
  function MaskCredentials(u: Url): (m: Url)
    ensures m.user.Some? <==> u.user.Some?
    ensures m.user.Some? ==> m.user.value.username == u.user.value.username
    ensures m.user.Some? ==> m.user.value.password == Some("xxxx")
    ensures m.scheme == u.scheme && m.host == u.host && m.path == u.path && m.rawQuery == u.rawQuery
  {
    if u.user.Some? then u.(user := Some(UserInfo(u.user.value.username, Some(HiddenPassword)))) else u
  }

  /** `uriForLog`: "" when the URI does not parse; otherwise the parsed URL
      with its `User` replaced in place by the masked one, printed. */
  method UriForLog(parsed: Result<Url, Error>) returns (s: string)
    ensures parsed.Failure? ==> s == ""
    ensures parsed.Success? ==> s == UrlString(MaskCredentials(parsed.value))
  {
    if parsed.Failure? {
      return "";
    }
    var parsedURL := parsed.value;
    var hiddenPassword := HiddenPassword;
    if parsedURL.user.Some? {
      parsedURL := parsedURL.(user := Some(UserInfo(parsedURL.user.value.username, Some(hiddenPassword))));
    }
    s := UrlString(parsedURL);
  }

  /** What is logged does not depend on the password: two URLs that differ
      at most in their passwords print the same once masked. */
  lemma MaskedOutputIgnoresPassword(u: Url, v: Url)
    requires u.scheme == v.scheme && u.host == v.host && u.path == v.path && u.rawQuery == v.rawQuery
    requires u.user.Some? <==> v.user.Some?
    requires u.user.Some? ==> u.user.value.username == v.user.value.username
    ensures UrlString(MaskCredentials(u)) == UrlString(MaskCredentials(v))
  {
  }

  /** Masking an already masked URL changes nothing. */
  lemma MaskIdempotent(u: Url)
    ensures MaskCredentials(MaskCredentials(u)) == MaskCredentials(u)
  {
  }
}
