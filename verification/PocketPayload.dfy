/**
 The contents of an Arkode Pocket snapshot and its strict validator (pocket-shared, format.ts and
 types.ts): only listed fields, at every level but the open-ended `custom` bag of a secret.
 */
module PocketPayload {
  import opened Common
  import opened JsonValues

  const SNAPSHOT_VERSION: real := 1.0

  const KINDS: set<string> := {"ssh", "sftp", "ftp", "postgres", "mysql", "mariadb", "smtp", "http_basic", "web_panel",
                               "api", "oauth_client", "generic_login", "generic_secret", "ssh_key", "custom"}

  /** String-valued secret fields, in the order they are copied. */
  const TEXT_KEYS: seq<string> := ["password", "token", "clientSecret", "privateKey", "privateKeyPassphrase", "notes"]
  const SECRET_KEYS: set<string> := {"password", "token", "clientSecret", "privateKey", "privateKeyPassphrase",
                                     "custom", "notes"}

  /** The field names of the fixed-schema objects: snapshot, envelope, and pairing code. */
  datatype Field =
    | Id | ClientId | Name | Kind | Environment | Tags | Host
    | Port | Username | DatabaseName | Link | Favorite | Description | Hidden
    | FormatVersion | Clients | Credentials | Urls
    | Magic | PocketId | Revision | GeneratedAt | Payload
    | PairingVersion | Dek | Drive | FileId | RemotePath | FileName

  function Text(f: Field): string {
    match f
    case Id => "id"
    case ClientId => "clientId"
    case Name => "name"
    case Kind => "kind"
    case Environment => "environment"
    case Tags => "tags"
    case Host => "host"
    case Port => "port"
    case Username => "username"
    case DatabaseName => "databaseName"
    case Link => "url"
    case Favorite => "favorite"
    case Description => "description"
    case Hidden => "secret"
    case FormatVersion => "formatVersion"
    case Clients => "clients"
    case Credentials => "credentials"
    case Urls => "urls"
    case Magic => "magic"
    case PocketId => "pocketId"
    case Revision => "revision"
    case GeneratedAt => "generatedAt"
    case Payload => "payload"
    case PairingVersion => "v"
    case Dek => "dek"
    case Drive => "drive"
    case FileId => "fileId"
    case RemotePath => "remotePath"
    case FileName => "fileName"
  }

  const CLIENT_FIELDS: set<Field> := {Id, Name}
  const URL_FIELDS: set<Field> := {Id, ClientId, Name, Link, Environment, Tags, Favorite, Description}
  const CREDENTIAL_FIELDS: set<Field> :=
    {Id, ClientId, Name, Kind, Environment, Tags, Host, Port, Username, DatabaseName, Link, Favorite, Description,
     Hidden}
  const PAYLOAD_FIELDS: set<Field> := {FormatVersion, Clients, Credentials, Urls}

  function Names(fields: set<Field>): set<string> {
    set f | f in fields :: Text(f)
  }

  lemma FirstTextsDiffer(f: Field, g: Field)
    requires f.Id? || f.ClientId? || f.Name? || f.Kind? || f.Environment? || f.Tags? || f.Host?
    ensures Text(f) == Text(g) ==> f == g
  {
  }

  lemma SecondTextsDiffer(f: Field, g: Field)
    requires f.Port? || f.Username? || f.DatabaseName? || f.Link? || f.Favorite? || f.Description? || f.Hidden?
    ensures Text(f) == Text(g) ==> f == g
  {
  }

  lemma ThirdTextsDiffer(f: Field, g: Field)
    requires f.FormatVersion? || f.Clients? || f.Credentials? || f.Urls? || f.Magic? || f.PocketId? || f.Revision?
    ensures Text(f) == Text(g) ==> f == g
  {
  }

  lemma LastTextsDiffer(f: Field, g: Field)
    requires f.GeneratedAt? || f.Payload? || f.PairingVersion? || f.Dek? || f.Drive? || f.FileId? || f.RemotePath?
          || f.FileName?
    ensures Text(f) == Text(g) ==> f == g
  {
  }

  lemma TextIsInjective(f: Field, g: Field)
    requires Text(f) == Text(g)
    ensures f == g
  {
    hide Text;
    if f.Id? || f.ClientId? || f.Name? || f.Kind? || f.Environment? || f.Tags? || f.Host? {
      FirstTextsDiffer(f, g);
    } else if f.Port? || f.Username? || f.DatabaseName? || f.Link? || f.Favorite? || f.Description? || f.Hidden? {
      SecondTextsDiffer(f, g);
    } else if f.GeneratedAt? || f.Payload? || f.PairingVersion? || f.Dek? || f.Drive? || f.FileId? || f.RemotePath?
           || f.FileName? {
      LastTextsDiffer(f, g);
    } else {
      ThirdTextsDiffer(f, g);
    }
  }

  datatype Secret = Secret(fields: map<string, string>, custom: map<string, string>)

  datatype Client = Client(id: string, name: string)

  datatype Credential = Credential(id: string, clientId: string, name: string, kind: string,
                                   environment: Option<string>, tags: seq<string>, host: Option<string>,
                                     port: Option<real>, username: Option<string>, databaseName: Option<string>,
                                       url: Option<string>, favorite: bool, description: Option<string>, secret: Secret)

  datatype Url = Url(id: string, clientId: string, name: string, url: string, environment: Option<string>,
                     tags: seq<string>, favorite: bool, description: Option<string>)

  datatype Snapshot = Snapshot(clients: seq<Client>, credentials: seq<Credential>, urls: seq<Url>)

  datatype FormatError =
    | NotAnObject | UnexpectedField | UnsupportedVersion | MissingArrays | MissingFields | UnknownKind
    | BadJson | BadMagic | MalformedKey

  type Fields = map<string, Json>

  /** An object with exactly these fields. */
  function Object(fields: set<Field>, value: Field -> Json): Fields {
    assert forall f, g :: Text(f) == Text(g) ==> f == g by {
      forall f, g | Text(f) == Text(g) ensures f == g { TextIsInjective(f, g); }
    }
    map f | f in fields :: Text(f) := value(f)
  }

  lemma ObjectNames(fields: set<Field>, value: Field -> Json)
    ensures Object(fields, value).Keys == Names(fields)
  {
    hide Text;
  }

  lemma ObjectAt(fields: set<Field>, value: Field -> Json, f: Field)
    requires f in fields
    ensures Text(f) in Object(fields, value) && Object(fields, value)[Text(f)] == value(f)
  {
    forall g | Text(f) == Text(g) ensures f == g { TextIsInjective(f, g); }
    hide Text;
  }

  function TextAt(o: Fields, f: Field): Option<string> {
    if Text(f) in o && o[Text(f)].Str? then Some(o[Text(f)].s) else None
  }

  function NumberAt(o: Fields, f: Field): Option<real> {
    if Text(f) in o && o[Text(f)].Num? then Some(o[Text(f)].n) else None
  }

  /** `validateTags`: the strings of an array, anything else dropped. */
  function Texts(items: seq<Json>): seq<string> {
    if items == [] then [] else (if items[0].Str? then [items[0].s] else []) + Texts(items[1..])
  }

  function TagsAt(o: Fields, f: Field): seq<string> {
    if Text(f) in o && o[Text(f)].Arr? then Texts(o[Text(f)].items) else []
  }

  function TrueAt(o: Fields, f: Field): bool {
    Text(f) in o && o[Text(f)] == Bool(true)
  }

  function StringsOf(o: Fields): map<string, string> {
    map k | k in o && k != PROTO && o[k].Str? :: o[k].s
  }

  // The validator.

  function ValidateClient(v: Json): Result<Client, FormatError> {
    if !v.Obj? then Err(NotAnObject)
    else if !(v.fields.Keys <= Names(CLIENT_FIELDS)) then Err(UnexpectedField)
    else if TextAt(v.fields, Id).None? || TextAt(v.fields, Name).None? then Err(MissingFields)
    else Ok(Client(TextAt(v.fields, Id).value, TextAt(v.fields, Name).value))
  }

  /** The secret field, which may be absent or null. */
  function ValidSecret(v: Option<Json>): Result<Secret, FormatError> {
    if v.None? || v.value.Null? then Ok(Secret(map[], map[]))
    else if !v.value.Obj? then Err(NotAnObject)
    else
      var o := v.value.fields;
      if !(o.Keys <= SECRET_KEYS) then Err(UnexpectedField)
      else
        Ok(Secret(map k | k in o && k in TEXT_KEYS && o[k].Str? :: o[k].s,
                  if "custom" in o && o["custom"].Obj? then StringsOf(o["custom"].fields) else map[]))
  }

  method ValidateSecret(v: Option<Json>) returns (r: Result<Secret, FormatError>)
    ensures r == ValidSecret(v)
  {
    if v.None? || v.value.Null? { return Ok(Secret(map[], map[])); }
    if !v.value.Obj? { return Err(NotAnObject); }
    var o := v.value.fields;
    if !(o.Keys <= SECRET_KEYS) { return Err(UnexpectedField); }
    var out: map<string, string> := map[];
    for i := 0 to |TEXT_KEYS|
      invariant out == map k | k in o && k in TEXT_KEYS[..i] && o[k].Str? :: o[k].s
    {
      var key := TEXT_KEYS[i];
      assert TEXT_KEYS[..i + 1] == TEXT_KEYS[..i] + [key];
      if key in o && o[key].Str? { out := out[key := o[key].s]; }
    }
    assert TEXT_KEYS[..|TEXT_KEYS|] == TEXT_KEYS;
    var custom: map<string, string> := map[];
    if "custom" in o && o["custom"].Obj? {
      var bag := o["custom"].fields;
      var todo := bag.Keys;
      while todo != {}
        invariant todo <= bag.Keys
        invariant custom == map k | k in bag && k !in todo && k != PROTO && bag[k].Str? :: bag[k].s
        decreases |todo|
      {
        var k :| k in todo;
        todo := todo - {k};
        if bag[k].Str? && k != PROTO { custom := custom[k := bag[k].s]; }
      }
    }
    assert "custom" in o && o["custom"].Obj? ==> custom == StringsOf(o["custom"].fields);
    return Ok(Secret(out, custom));
  }

  function ValidateCredential(v: Json): Result<Credential, FormatError> {
    if !v.Obj? then Err(NotAnObject)
    else
      var o := v.fields;
      if !(o.Keys <= Names(CREDENTIAL_FIELDS)) then Err(UnexpectedField)
      else if TextAt(o, Id).None? || TextAt(o, ClientId).None? || TextAt(o, Name).None? then Err(MissingFields)
      else if TextAt(o, Kind).None? || TextAt(o, Kind).value !in KINDS then Err(UnknownKind)
      else
        match ValidSecret(if Text(Hidden) in o then Some(o[Text(Hidden)]) else None)
        case Err(e) => Err(e)
        case Ok(secret) =>
          Ok(Credential(TextAt(o, Id).value, TextAt(o, ClientId).value, TextAt(o, Name).value, TextAt(o, Kind).value,
                        TextAt(o, Environment), TagsAt(o, Tags), TextAt(o, Host), NumberAt(o, Port),
                          TextAt(o, Username), TextAt(o, DatabaseName), TextAt(o, Link), TrueAt(o, Favorite),
                            TextAt(o, Description), secret))
  }

  function ValidateUrl(v: Json): Result<Url, FormatError> {
    if !v.Obj? then Err(NotAnObject)
    else
      var o := v.fields;
      if !(o.Keys <= Names(URL_FIELDS)) then Err(UnexpectedField)
      else if TextAt(o, Id).None? || TextAt(o, ClientId).None? || TextAt(o, Name).None? || TextAt(o, Link).None?
          then Err(MissingFields)
      else
        Ok(Url(TextAt(o, Id).value, TextAt(o, ClientId).value, TextAt(o, Name).value, TextAt(o, Link).value,
               TextAt(o, Environment), TagsAt(o, Tags), TrueAt(o, Favorite), TextAt(o, Description)))
  }

  /** `items.map(f)`, where the first exception ends it. */
  function MapAll<T>(items: seq<Json>, f: Json -> Result<T, FormatError>): Result<seq<T>, FormatError> {
    if items == [] then Ok([])
    else match f(items[0])
      case Err(e) => Err(e)
      case Ok(x) =>
        match MapAll(items[1..], f)
        case Err(e) => Err(e)
        case Ok(xs) => Ok([x] + xs)
  }

  function ItemsAt(o: Fields, f: Field): Option<seq<Json>> {
    if Text(f) in o && o[Text(f)].Arr? then Some(o[Text(f)].items) else None
  }

  /** `validatePocketSnapshotPayload`. */
  function Validate(v: Json): Result<Snapshot, FormatError> {
    if !v.Obj? then Err(NotAnObject)
    else
      var o := v.fields;
      if !(o.Keys <= Names(PAYLOAD_FIELDS)) then Err(UnexpectedField)
      else if NumberAt(o, FormatVersion) != Some(SNAPSHOT_VERSION) then Err(UnsupportedVersion)
      else if ItemsAt(o, Clients).None? || ItemsAt(o, Credentials).None? || ItemsAt(o, Urls).None?
          then Err(MissingArrays)
      else
        match MapAll(ItemsAt(o, Clients).value, ValidateClient)
        case Err(e) => Err(e)
        case Ok(clients) =>
          match MapAll(ItemsAt(o, Credentials).value, ValidateCredential)
          case Err(e) => Err(e)
          case Ok(credentials) =>
            match MapAll(ItemsAt(o, Urls).value, ValidateUrl)
            case Err(e) => Err(e)
            case Ok(urls) => Ok(Snapshot(clients, credentials, urls))
  }

  // Printing a snapshot as JSON.

  function OptText(v: Option<string>): Json {
    if v.Some? then Str(v.value) else Null
  }

  function TextsJson(v: seq<string>): Json {
    Arr(seq(|v|, i requires 0 <= i < |v| => Str(v[i])))
  }

  function ClientJson(c: Client): Json {
    Obj(Object(CLIENT_FIELDS, (f: Field) => if f.Id? then Str(c.id) else Str(c.name)))
  }

  function SecretJson(s: Secret): Json {
    var fields := map k | k in s.fields :: Str(s.fields[k]);
    Obj(if s.custom == map[] then fields else fields["custom" := Obj(map k | k in s.custom :: Str(s.custom[k]))])
  }

  function CredentialField(c: Credential, f: Field): Json {
    match f
    case Id => Str(c.id)
    case ClientId => Str(c.clientId)
    case Name => Str(c.name)
    case Kind => Str(c.kind)
    case Environment => OptText(c.environment)
    case Tags => TextsJson(c.tags)
    case Host => OptText(c.host)
    case Port => if c.port.Some? then Num(c.port.value) else Null
    case Username => OptText(c.username)
    case DatabaseName => OptText(c.databaseName)
    case Link => OptText(c.url)
    case Favorite => Bool(c.favorite)
    case Description => OptText(c.description)
    case _ => SecretJson(c.secret)
  }

  function CredentialJson(c: Credential): Json {
    Obj(Object(CREDENTIAL_FIELDS, FieldsOf(c)))
  }

  function UrlField(u: Url, f: Field): Json {
    match f
    case Id => Str(u.id)
    case ClientId => Str(u.clientId)
    case Name => Str(u.name)
    case Link => Str(u.url)
    case Environment => OptText(u.environment)
    case Tags => TextsJson(u.tags)
    case Favorite => Bool(u.favorite)
    case _ => OptText(u.description)
  }

  function UrlJson(u: Url): Json {
    Obj(Object(URL_FIELDS, UrlFieldsOf(u)))
  }

  function All<T>(xs: seq<T>, print_: T -> Json): Json {
    Arr(seq(|xs|, i requires 0 <= i < |xs| => print_(xs[i])))
  }

  function SnapshotField(s: Snapshot, f: Field): Json {
    match f
    case FormatVersion => Num(SNAPSHOT_VERSION)
    case Clients => All(s.clients, ClientJson)
    case Credentials => All(s.credentials, CredentialJson)
    case _ => All(s.urls, UrlJson)
  }

  function SnapshotJson(s: Snapshot): Json {
    Obj(Object(PAYLOAD_FIELDS, SnapshotFieldsOf(s)))
  }

  /** Known fields only, and no custom entry that a copy would lose. */
  predicate NormalSecret(s: Secret) {
    PROTO !in s.custom && forall k :: k in s.fields ==> k in TEXT_KEYS
  }

  /** What the types promise: known kinds, known secret fields. */
  predicate NormalCredential(c: Credential) {
    c.kind in KINDS && NormalSecret(c.secret)
  }

  predicate Normal(s: Snapshot) {
    forall i :: 0 <= i < |s.credentials| ==> NormalCredential(s.credentials[i])
  }

  lemma {:induction false} TextsRoundTrip(v: seq<string>)
    ensures Texts(TextsJson(v).items) == v
  {
    if v != [] {
      assert TextsJson(v).items[1..] == TextsJson(v[1..]).items;
      TextsRoundTrip(v[1..]);
    }
  }

  lemma SecretRoundTrip(s: Secret)
    requires NormalSecret(s)
    ensures ValidSecret(Some(SecretJson(s))) == Ok(s)
  {
    var o := SecretJson(s).fields;
    assert "custom" !in TEXT_KEYS;
    assert forall k :: k in TEXT_KEYS ==> k in SECRET_KEYS;
    assert o.Keys <= SECRET_KEYS;
    assert (map k | k in o && k in TEXT_KEYS && o[k].Str? :: o[k].s) == s.fields;
    if s.custom != map[] { assert StringsOf(o["custom"].fields) == s.custom; }
  }

  /** The one entry that a copy loses is what stands in the way of a round trip. */
  lemma SecretRoundTripExactly(s: Secret)
    requires forall k :: k in s.fields ==> k in TEXT_KEYS
    ensures ValidSecret(Some(SecretJson(s))) == Ok(s) <==> PROTO !in s.custom
  {
    if PROTO !in s.custom { SecretRoundTrip(s); }
  }

  lemma ReadsText(fields: set<Field>, value: Field -> Json, f: Field, v: Option<string>)
    requires f in fields && value(f) == OptText(v)
    ensures TextAt(Object(fields, value), f) == v
  {
    ObjectAt(fields, value, f);
    hide Text, Object;
  }

  lemma ReadsTags(fields: set<Field>, value: Field -> Json, f: Field, v: seq<string>)
    requires f in fields && value(f) == TextsJson(v)
    ensures TagsAt(Object(fields, value), f) == v
  {
    TextsRoundTrip(v);
    ObjectAt(fields, value, f);
    hide Text, Object, Texts;
  }

  lemma ClientRoundTrip(c: Client)
    ensures ValidateClient(ClientJson(c)) == Ok(c)
  {
    var value := (f: Field) => if f.Id? then Str(c.id) else Str(c.name);
    ObjectNames(CLIENT_FIELDS, value);
    ReadsText(CLIENT_FIELDS, value, Id, Some(c.id));
    ReadsText(CLIENT_FIELDS, value, Name, Some(c.name));
    hide Text, Object, TextAt, Names;
    assert ClientJson(c) == Obj(Object(CLIENT_FIELDS, value));
  }

  function FieldsOf(c: Credential): Field -> Json { (f: Field) => CredentialField(c, f) }

  lemma CredentialReads(c: Credential)
    ensures var o := Object(CREDENTIAL_FIELDS, FieldsOf(c));
            && TextAt(o, Id) == Some(c.id) && TextAt(o, ClientId) == Some(c.clientId) && TextAt(o, Name) == Some(c.name)
            && TextAt(o, Kind) == Some(c.kind) && TextAt(o, Environment) == c.environment && TextAt(o, Host) == c.host
            && TextAt(o, Username) == c.username && TextAt(o, DatabaseName) == c.databaseName
              && TextAt(o, Link) == c.url
            && TextAt(o, Description) == c.description
  {
    hide Object, Text, TextAt, SecretJson, TextsJson;
    var value := FieldsOf(c);
    ReadsText(CREDENTIAL_FIELDS, value, Id, Some(c.id));
    ReadsText(CREDENTIAL_FIELDS, value, ClientId, Some(c.clientId));
    ReadsText(CREDENTIAL_FIELDS, value, Name, Some(c.name));
    ReadsText(CREDENTIAL_FIELDS, value, Kind, Some(c.kind));
    ReadsText(CREDENTIAL_FIELDS, value, Environment, c.environment);
    ReadsText(CREDENTIAL_FIELDS, value, Host, c.host);
    ReadsText(CREDENTIAL_FIELDS, value, Username, c.username);
    ReadsText(CREDENTIAL_FIELDS, value, DatabaseName, c.databaseName);
    ReadsText(CREDENTIAL_FIELDS, value, Link, c.url);
    ReadsText(CREDENTIAL_FIELDS, value, Description, c.description);
  }

  lemma CredentialReadsOther(c: Credential)
    ensures var o := Object(CREDENTIAL_FIELDS, FieldsOf(c));
            && TagsAt(o, Tags) == c.tags && NumberAt(o, Port) == c.port && TrueAt(o, Favorite) == c.favorite
            && Text(Hidden) in o && o[Text(Hidden)] == SecretJson(c.secret)
  {
    var value := FieldsOf(c);
    hide Object, Text, Texts, TextsJson, SecretJson, TagsAt;
    ReadsTags(CREDENTIAL_FIELDS, value, Tags, c.tags);
    ObjectAt(CREDENTIAL_FIELDS, value, Port);
    ObjectAt(CREDENTIAL_FIELDS, value, Favorite);
    ObjectAt(CREDENTIAL_FIELDS, value, Hidden);
  }

  lemma CredentialRoundTrip(c: Credential)
    requires NormalCredential(c)
    ensures ValidateCredential(CredentialJson(c)) == Ok(c)
  {
    hide TextAt, TagsAt, NumberAt, TrueAt, ValidSecret, SecretJson, Text, Object, Names;
    CredentialReads(c);
    CredentialReadsOther(c);
    SecretRoundTrip(c.secret);
    ObjectNames(CREDENTIAL_FIELDS, FieldsOf(c));
  }

  function UrlFieldsOf(u: Url): Field -> Json { (f: Field) => UrlField(u, f) }

  lemma UrlRoundTrip(u: Url)
    ensures ValidateUrl(UrlJson(u)) == Ok(u)
  {
    var value := UrlFieldsOf(u);
    hide Texts, TextsJson, Text, Object, Names, TextAt, TagsAt;
    ReadsTags(URL_FIELDS, value, Tags, u.tags);
    ObjectAt(URL_FIELDS, value, Favorite);
    assert TrueAt(Object(URL_FIELDS, value), Favorite) == u.favorite;
    hide TrueAt;
    ReadsText(URL_FIELDS, value, Id, Some(u.id));
    ReadsText(URL_FIELDS, value, ClientId, Some(u.clientId));
    ReadsText(URL_FIELDS, value, Name, Some(u.name));
    ReadsText(URL_FIELDS, value, Link, Some(u.url));
    ReadsText(URL_FIELDS, value, Environment, u.environment);
    ReadsText(URL_FIELDS, value, Description, u.description);
    ObjectNames(URL_FIELDS, value);
  }

  // Whole snapshots.

  lemma {:induction false} MapAllRoundTrip<T(!new)>(xs: seq<T>, print_: T -> Json, f: Json -> Result<T, FormatError>)
    requires forall i :: 0 <= i < |xs| ==> f(print_(xs[i])) == Ok(xs[i])
    ensures MapAll(All(xs, print_).items, f) == Ok(xs)
  {
    if xs != [] {
      assert All(xs, print_).items[1..] == All(xs[1..], print_).items;
      MapAllRoundTrip(xs[1..], print_, f);
      assert [xs[0]] + xs[1..] == xs;
    }
  }

  lemma {:induction false} MapAllExact<T(!new)>(items: seq<Json>, f: Json -> Result<T, FormatError>)
    ensures MapAll(items, f).Ok? <==> forall i :: 0 <= i < |items| ==> f(items[i]).Ok?
    ensures MapAll(items, f).Ok? ==>
      |MapAll(items, f).value| == |items| && forall i :: 0 <= i < |items| ==>
        f(items[i]) == Ok(MapAll(items, f).value[i])
  {
    if items != [] {
      MapAllExact(items[1..], f);
      if MapAll(items, f).Ok? {
        forall i | 0 <= i < |items| ensures f(items[i]) == Ok(MapAll(items, f).value[i]) {
          if i > 0 { assert items[i] == items[1..][i - 1]; }
        }
      } else if f(items[0]).Ok? {
        var i :| 0 <= i < |items[1..]| && !f(items[1..][i]).Ok?;
        assert items[i + 1] == items[1..][i];
      }
    }
  }

  function SnapshotFieldsOf(s: Snapshot): Field -> Json { (f: Field) => SnapshotField(s, f) }

  lemma ListsReadBack(s: Snapshot)
    requires Normal(s)
    ensures MapAll(All(s.clients, ClientJson).items, ValidateClient) == Ok(s.clients)
    ensures MapAll(All(s.credentials, CredentialJson).items, ValidateCredential) == Ok(s.credentials)
    ensures MapAll(All(s.urls, UrlJson).items, ValidateUrl) == Ok(s.urls)
  {
    hide NormalCredential, All, MapAll, ClientJson, CredentialJson, UrlJson, ValidateClient, ValidateCredential,
         ValidateUrl;
    forall i | 0 <= i < |s.clients| ensures ValidateClient(ClientJson(s.clients[i])) == Ok(s.clients[i]) {
      ClientRoundTrip(s.clients[i]);
    }
    forall i | 0 <= i < |s.credentials|
      ensures ValidateCredential(CredentialJson(s.credentials[i])) == Ok(s.credentials[i])
    {
      CredentialRoundTrip(s.credentials[i]);
    }
    forall i | 0 <= i < |s.urls| ensures ValidateUrl(UrlJson(s.urls[i])) == Ok(s.urls[i]) { UrlRoundTrip(s.urls[i]); }
    MapAllRoundTrip(s.clients, ClientJson, ValidateClient);
    MapAllRoundTrip(s.credentials, CredentialJson, ValidateCredential);
    MapAllRoundTrip(s.urls, UrlJson, ValidateUrl);
  }

  lemma SnapshotReads(s: Snapshot)
    ensures var o := Object(PAYLOAD_FIELDS, SnapshotFieldsOf(s));
            && o.Keys == Names(PAYLOAD_FIELDS) && NumberAt(o, FormatVersion) == Some(SNAPSHOT_VERSION)
            && ItemsAt(o, Clients) == Some(All(s.clients, ClientJson).items)
            && ItemsAt(o, Credentials) == Some(All(s.credentials, CredentialJson).items)
            && ItemsAt(o, Urls) == Some(All(s.urls, UrlJson).items)
  {
    var value := SnapshotFieldsOf(s);
    hide Text, Object, Names, ClientJson, CredentialJson, UrlJson;
    ObjectNames(PAYLOAD_FIELDS, value);
    ObjectAt(PAYLOAD_FIELDS, value, FormatVersion);
    ObjectAt(PAYLOAD_FIELDS, value, Clients);
    ObjectAt(PAYLOAD_FIELDS, value, Credentials);
    ObjectAt(PAYLOAD_FIELDS, value, Urls);
  }

  /** Every normal snapshot is read back as it was printed. */
  lemma ValidateInvertsPrint(s: Snapshot)
    requires Normal(s)
    ensures Validate(SnapshotJson(s)) == Ok(s)
  {
    hide Normal, Text, Object, Names, All, MapAll, ClientJson, CredentialJson, UrlJson, ValidateClient,
         ValidateCredential, ValidateUrl, NumberAt, ItemsAt, SnapshotFieldsOf;
    ListsReadBack(s);
    SnapshotReads(s);
  }

  lemma ValidCredentialIsNormal(v: Json)
    requires ValidateCredential(v).Ok?
    ensures NormalCredential(ValidateCredential(v).value)
  {
    hide Texts, Text, Names;
  }

  lemma ValidIsNormal(v: Json)
    requires Validate(v).Ok?
    ensures Normal(Validate(v).value)
  {
    hide MapAll, ValidateCredential, ValidateClient, ValidateUrl, Text, Names, NormalCredential;
    var items := ItemsAt(v.fields, Credentials).value;
    MapAllExact(items, ValidateCredential);
    forall i | 0 <= i < |items| ensures NormalCredential(Validate(v).value.credentials[i]) {
      ValidCredentialIsNormal(items[i]);
    }
  }

  /** A printed snapshot is accepted only if it is normal, so it is never altered. */
  lemma AcceptedPrintIsNormal(s: Snapshot)
    requires forall i :: 0 <= i < |s.credentials| ==> NormalSecret(s.credentials[i].secret)
    ensures Validate(SnapshotJson(s)).Ok? <==> Normal(s)
  {
    hide Text, Names, Object, MapAll, ClientJson, CredentialJson, UrlJson, ValidateCredential, ValidateClient,
         ValidateUrl, NormalSecret, NumberAt, ItemsAt;
    if Normal(s) { ValidateInvertsPrint(s); }
    if Validate(SnapshotJson(s)).Ok? {
      SnapshotReads(s);
      var items := All(s.credentials, CredentialJson).items;
      MapAllExact(items, ValidateCredential);
      forall i | 0 <= i < |s.credentials| ensures NormalCredential(s.credentials[i]) {
        assert ValidateCredential(items[i]).Ok? && items[i] == CredentialJson(s.credentials[i]);
        if s.credentials[i].kind !in KINDS { UnknownKindIsRejected(s.credentials[i]); }
      }
    }
  }

  lemma UnknownKindIsRejected(c: Credential)
    requires c.kind !in KINDS
    ensures ValidateCredential(CredentialJson(c)) == Err(UnknownKind)
  {
    hide KINDS, Text, TextAt, Names, Object;
    ObjectNames(CREDENTIAL_FIELDS, FieldsOf(c));
    ReadsText(CREDENTIAL_FIELDS, FieldsOf(c), Id, Some(c.id));
    ReadsText(CREDENTIAL_FIELDS, FieldsOf(c), ClientId, Some(c.clientId));
    ReadsText(CREDENTIAL_FIELDS, FieldsOf(c), Name, Some(c.name));
    ReadsText(CREDENTIAL_FIELDS, FieldsOf(c), Kind, Some(c.kind));
  }

  /** The validator is idempotent: what it accepts is normal, and validates to itself. */
  lemma ValidateIsIdempotent(v: Json)
    requires Validate(v).Ok?
    ensures Normal(Validate(v).value) && Validate(SnapshotJson(Validate(v).value)) == Validate(v)
  {
    ValidIsNormal(v);
    ValidateInvertsPrint(Validate(v).value);
  }

  // No field that is not listed gets through, at any level of the fixed schema.

  ghost predicate HasExtra(v: Json, allowed: set<string>) {
    v.Obj? && !(v.fields.Keys <= allowed)
  }

  /** Some object of the payload holds a field that is not listed for it. */
  ghost predicate ExtraSomewhere(v: Json) {
    || HasExtra(v, Names(PAYLOAD_FIELDS))
    || ExtraIn(v, Clients, Names(CLIENT_FIELDS)) || ExtraIn(v, Credentials, Names(CREDENTIAL_FIELDS))
      || ExtraIn(v, Urls, Names(URL_FIELDS))
    || (v.Obj? && ItemsAt(v.fields, Credentials).Some? && exists c ::
        c in ItemsAt(v.fields, Credentials).value && ExtraInSecret(c))
  }

  ghost predicate ExtraIn(v: Json, f: Field, allowed: set<string>) {
    v.Obj? && ItemsAt(v.fields, f).Some? && exists x :: x in ItemsAt(v.fields, f).value && HasExtra(x, allowed)
  }

  ghost predicate ExtraInSecret(c: Json) {
    c.Obj? && Text(Hidden) in c.fields && HasExtra(c.fields[Text(Hidden)], SECRET_KEYS)
  }

  /** An accepted payload has no field that is not listed. */
  lemma AcceptedHasNoExtra(v: Json)
    requires Validate(v).Ok?
    ensures !ExtraSomewhere(v)
  {
    hide Text, Names, Texts, StringsOf;
    var o := v.fields;
    MapAllExact(ItemsAt(o, Clients).value, ValidateClient);
    MapAllExact(ItemsAt(o, Credentials).value, ValidateCredential);
    MapAllExact(ItemsAt(o, Urls).value, ValidateUrl);
    forall c | c in ItemsAt(o, Clients).value ensures !HasExtra(c, Names(CLIENT_FIELDS)) {
      assert ValidateClient(c).Ok?;
    }
    forall c | c in ItemsAt(o, Credentials).value
      ensures !HasExtra(c, Names(CREDENTIAL_FIELDS)) && !ExtraInSecret(c)
    {
      assert ValidateCredential(c).Ok?;
    }
    forall c | c in ItemsAt(o, Urls).value ensures !HasExtra(c, Names(URL_FIELDS)) { assert ValidateUrl(c).Ok?; }
  }

  lemma ExtraFieldsAreRejected(v: Json)
    requires ExtraSomewhere(v)
    ensures Validate(v).Err?
  {
    hide Validate, ExtraSomewhere;
    if Validate(v).Ok? { AcceptedHasNoExtra(v); }
  }

  // What the validator accepts, field by field.

  predicate ClientName(k: string) { k == "id" || k == "name" }

  predicate UrlName(k: string) {
    || k == "id" || k == "clientId" || k == "name" || k == "url" || k == "environment" || k == "tags"
    || k == "favorite" || k == "description"
  }

  predicate CredentialName(k: string) {
    UrlName(k) || k == "kind" || k == "host" || k == "port" || k == "username" || k == "databaseName" || k == "secret"
  }

  predicate SecretName(k: string) {
    || k == "password" || k == "token" || k == "clientSecret" || k == "privateKey" || k == "privateKeyPassphrase"
    || k == "custom" || k == "notes"
  }

  predicate PayloadName(k: string) {
    k == "formatVersion" || k == "clients" || k == "credentials" || k == "urls"
  }

  /** An object with no other fields than these. */
  predicate Only(v: Json, name: string -> bool) {
    v.Obj? && forall k :: k in v.fields ==> name(k)
  }

  predicate IsText(v: Json, name: string)
    requires v.Obj?
  {
    name in v.fields && v.fields[name].Str?
  }

  predicate IsList(v: Json, name: string, fits: Json -> bool)
    requires v.Obj?
  {
    name in v.fields && v.fields[name].Arr? && forall x :: x in v.fields[name].items ==> fits(x)
  }

  predicate ClientFits(v: Json) {
    Only(v, ClientName) && IsText(v, "id") && IsText(v, "name")
  }

  predicate UrlFits(v: Json) {
    Only(v, UrlName) && IsText(v, "id") && IsText(v, "clientId") && IsText(v, "name") && IsText(v, "url")
  }

  predicate CredentialFits(v: Json) {
    && Only(v, CredentialName) && IsText(v, "id") && IsText(v, "clientId") && IsText(v, "name")
    && IsText(v, "kind") && v.fields["kind"].s in KINDS
    && ("secret" in v.fields ==> v.fields["secret"] == Null || Only(v.fields["secret"], SecretName))
  }

  predicate PayloadFits(v: Json) {
    && Only(v, PayloadName) && "formatVersion" in v.fields && v.fields["formatVersion"] == Num(1.0)
    && IsList(v, "clients", ClientFits) && IsList(v, "credentials", CredentialFits) && IsList(v, "urls", UrlFits)
  }

  lemma ClientNames(k: string)
    ensures k in Names(CLIENT_FIELDS) <==> ClientName(k)
  {
    if k == "id" { assert k == Text(Id); } else if k == "name" { assert k == Text(Name); }
  }

  lemma PayloadNames(k: string)
    ensures k in Names(PAYLOAD_FIELDS) <==> PayloadName(k)
  {
    if k == "formatVersion" {
      assert k == Text(FormatVersion);
    } else if k == "clients" {
      assert k == Text(Clients);
    } else if k == "credentials" {
      assert k == Text(Credentials);
    } else if k == "urls" {
      assert k == Text(Urls);
    }
  }

  lemma UrlNames(k: string)
    ensures k in Names(URL_FIELDS) <==> UrlName(k)
  {
    if k == "id" {
      assert k == Text(Id);
    } else if k == "clientId" {
      assert k == Text(ClientId);
    } else if k == "name" {
      assert k == Text(Name);
    } else if k == "url" {
      assert k == Text(Link);
    } else if k == "environment" {
      assert k == Text(Environment);
    } else if k == "tags" {
      assert k == Text(Tags);
    } else if k == "favorite" {
      assert k == Text(Favorite);
    } else if k == "description" {
      assert k == Text(Description);
    }
  }

  /** The fields that only a credential has. */
  const OWN_FIELDS: set<Field> := {Kind, Host, Port, Username, DatabaseName, Hidden}

  lemma OwnNames(k: string)
    ensures k in Names(OWN_FIELDS) <==>
            k == "kind" || k == "host" || k == "port" || k == "username" || k == "databaseName" || k == "secret"
  {
    if k == "kind" {
      assert k == Text(Kind);
    } else if k == "host" {
      assert k == Text(Host);
    } else if k == "port" {
      assert k == Text(Port);
    } else if k == "username" {
      assert k == Text(Username);
    } else if k == "databaseName" {
      assert k == Text(DatabaseName);
    } else if k == "secret" {
      assert k == Text(Hidden);
    }
  }

  lemma CredentialNames(k: string)
    ensures k in Names(CREDENTIAL_FIELDS) <==> CredentialName(k)
  {
    hide Text, UrlName;
    UrlNames(k);
    OwnNames(k);
    assert CREDENTIAL_FIELDS == URL_FIELDS + OWN_FIELDS;
    assert k in Names(URL_FIELDS + OWN_FIELDS) <==> k in Names(URL_FIELDS) || k in Names(OWN_FIELDS);
  }

  lemma ClientFitsExactly(v: Json)
    ensures ValidateClient(v).Ok? <==> ClientFits(v)
  {
    hide Names, ClientName;
    forall k ensures k in Names(CLIENT_FIELDS) <==> ClientName(k) { ClientNames(k); }
    hide CLIENT_FIELDS;
  }

  lemma UrlFitsExactly(v: Json)
    ensures ValidateUrl(v).Ok? <==> UrlFits(v)
  {
    hide Names, Texts, UrlName;
    forall k ensures k in Names(URL_FIELDS) <==> UrlName(k) { UrlNames(k); }
    hide URL_FIELDS;
  }

  lemma CredentialFitsExactly(v: Json)
    ensures ValidateCredential(v).Ok? <==> CredentialFits(v)
  {
    hide Names, Texts, KINDS, CredentialName, SecretName, ValidSecret;
    forall k ensures k in Names(CREDENTIAL_FIELDS) <==> CredentialName(k) { CredentialNames(k); }
    assert Text(Id) == "id" && Text(ClientId) == "clientId" && Text(Name) == "name" && Text(Kind) == "kind"
        && Text(Hidden) == "secret";
    hide CREDENTIAL_FIELDS, Text;
    if v.Obj? { SecretFits(if "secret" in v.fields then Some(v.fields["secret"]) else None); }
  }

  lemma SecretFits(v: Option<Json>)
    ensures ValidSecret(v).Ok? <==> v.None? || v.value == Null || Only(v.value, SecretName)
  {
    hide StringsOf, TEXT_KEYS;
    assert forall k :: k in SECRET_KEYS <==> SecretName(k);
    hide SECRET_KEYS, SecretName;
  }

  lemma ListFits<T(!new)>(items: seq<Json>, f: Json -> Result<T, FormatError>, fits: Json -> bool)
    requires forall x :: f(x).Ok? <==> fits(x)
    ensures MapAll(items, f).Ok? <==> forall x :: x in items ==> fits(x)
  {
    MapAllExact(items, f);
    if MapAll(items, f).Ok? {
      forall x | x in items ensures fits(x) {
        var i :| 0 <= i < |items| && items[i] == x;
        assert f(items[i]).Ok?;
      }
    }
  }

  /** The validator accepts exactly the payloads of this shape: no other field, version, kind or type of value. */
  lemma AcceptedExactly(v: Json)
    ensures Validate(v).Ok? <==> PayloadFits(v)
  {
    hide Names, MapAll, PayloadName, ValidateClient, ValidateCredential, ValidateUrl, ClientFits, CredentialFits,
         UrlFits;
    forall k ensures k in Names(PAYLOAD_FIELDS) <==> PayloadName(k) { PayloadNames(k); }
    assert Text(FormatVersion) == "formatVersion" && Text(Clients) == "clients" && Text(Credentials) == "credentials"
        && Text(Urls) == "urls";
    hide PAYLOAD_FIELDS, Text;
    forall x ensures ValidateClient(x).Ok? <==> ClientFits(x) { ClientFitsExactly(x); }
    forall x ensures ValidateUrl(x).Ok? <==> UrlFits(x) { UrlFitsExactly(x); }
    forall x ensures ValidateCredential(x).Ok? <==> CredentialFits(x) { CredentialFitsExactly(x); }
    if v.Obj? {
      var o := v.fields;
      if ItemsAt(o, Clients).Some? { ListFits(ItemsAt(o, Clients).value, ValidateClient, ClientFits); }
      if ItemsAt(o, Credentials).Some? {
        ListFits(ItemsAt(o, Credentials).value, ValidateCredential, CredentialFits);
      }
      if ItemsAt(o, Urls).Some? { ListFits(ItemsAt(o, Urls).value, ValidateUrl, UrlFits); }
    }
  }
}
