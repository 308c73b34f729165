/** The secret payload of a vault credential (credentialBlob.ts), stored as one JSON object. */
module CredentialBlob {
  import opened Common
  import opened JsonValues

  /** The string-valued keys, in the order they are copied; `custom` is handled apart. */
  const TEXT_KEYS: seq<string> := ["password", "token", "clientSecret", "privateKey", "privateKeyPassphrase", "notes"]
  const CUSTOM: string := "custom"

  datatype Secret = Secret(fields: map<string, string>, custom: map<string, string>)

  const NO_SECRET := Secret(map[], map[])

  /** A non-empty string, the only kind of value that is kept. */
  predicate Text(v: Json) {
    v.Str? && v.s != ""
  }

  predicate TextAt(fields: map<string, Json>, k: string) {
    k in fields && Text(fields[k])
  }

  /** What normalization keeps of a parsed value: known keys, and any custom name but one, with non-empty strings. */
  function Kept(input: Json): Secret {
    if !input.Obj? then NO_SECRET
    else
      var custom := if CUSTOM in input.fields && input.fields[CUSTOM].Obj? then input.fields[CUSTOM].fields else map[];
      Secret(map k | k in input.fields && k in TEXT_KEYS && TextAt(input.fields, k) :: input.fields[k].s,
             map k | k in custom && k != PROTO && TextAt(custom, k) :: custom[k].s)
  }

  /** `normalizeCredentialSecret`: undefined when nothing is left. */
  function Normalized(input: Json): Option<Secret> {
    if Kept(input) == NO_SECRET then None else Some(Kept(input))
  }

  method CopyTexts(source: map<string, Json>) returns (out: map<string, string>)
    ensures out == map k | k in source && k != PROTO && TextAt(source, k) :: source[k].s
  {
    out := map[];
    var todo := source.Keys;
    while todo != {}
      invariant todo <= source.Keys
      invariant out == map k | k in source && k !in todo && k != PROTO && TextAt(source, k) :: source[k].s
      decreases |todo|
    {
      var k :| k in todo;
      if Text(source[k]) && k != PROTO { out := out[k := source[k].s]; }
      todo := todo - {k};
    }
  }

  method NormalizeCredentialSecret(input: Json) returns (r: Option<Secret>)
    ensures r == Normalized(input)
  {
    if !input.Obj? { return None; }
    var src := input.fields;
    var out: map<string, string> := map[];
    for i := 0 to |TEXT_KEYS|
      invariant out == map k | k in src && k in TEXT_KEYS[..i] && TextAt(src, k) :: src[k].s
    {
      var key := TEXT_KEYS[i];
      assert TEXT_KEYS[..i + 1] == TEXT_KEYS[..i] + [key];
      if key in src && Text(src[key]) { out := out[key := src[key].s]; }
    }
    assert TEXT_KEYS[..|TEXT_KEYS|] == TEXT_KEYS;
    var custom: map<string, string> := map[];
    if CUSTOM in src && src[CUSTOM].Obj? { custom := CopyTexts(src[CUSTOM].fields); }
    assert Secret(out, custom) == Kept(input);
    if out == map[] && custom == map[] { return None; }
    return Some(Secret(out, custom));
  }

  /** The object `writeCredentialSecret` prints; an absent `custom` is left out. */
  function ToJson(s: Secret): Json {
    var fields := map k | k in s.fields :: Str(s.fields[k]);
    Obj(if s.custom == map[] then fields else fields[CUSTOM := Obj(map k | k in s.custom :: Str(s.custom[k]))])
  }

  /** `readCredentialSecret`: nothing for an absent blob. */
  function Read(blob: Option<Json>): Secret {
    match blob
    case None => NO_SECRET
    case Some(j) => Normalized(j).GetOr(NO_SECRET)
  }

  /**
   What a stored object answers under a name: its text, if that is not empty and the name is one of six, or is custom.
   */
  lemma KeptExactly(o: map<string, Json>, k: string)
    ensures k in Kept(Obj(o)).fields <==>
            && k in o && o[k].Str? && |o[k].s| > 0
            && (k == "password" || k == "token" || k == "clientSecret" || k == "privateKey"
                || k == "privateKeyPassphrase" || k == "notes")
    ensures k in Kept(Obj(o)).fields ==> Kept(Obj(o)).fields[k] == o[k].s
    ensures k in Kept(Obj(o)).custom <==>
            && "custom" in o && o["custom"].Obj? && k in o["custom"].fields && k != "__proto__"
            && o["custom"].fields[k].Str? && |o["custom"].fields[k].s| > 0
    ensures k in Kept(Obj(o)).custom ==> Kept(Obj(o)).custom[k] == o["custom"].fields[k].s
  {
    assert k in TEXT_KEYS <==> k == "password" || k == "token" || k == "clientSecret" || k == "privateKey"
                               || k == "privateKeyPassphrase" || k == "notes";
  }

  /** Copying the listed texts out of an object that holds exactly these gives them back. */
  lemma TextsBack(keys: seq<string>, texts: map<string, string>, o: map<string, Json>)
    requires forall k :: k in texts ==> k in keys && texts[k] != ""
    requires forall k :: k in keys ==> (k in o <==> k in texts) && (k in o ==> o[k] == Str(texts[k]))
    ensures (map k | k in o && k in keys && TextAt(o, k) :: o[k].s) == texts
  {
  }

  /** `custom` is not one of the copied keys, so the object holds the fields as they are. */
  lemma FieldsPrinted(s: Secret, keys: seq<string>)
    requires CUSTOM !in keys && forall k :: k in s.fields ==> k in keys
    ensures ToJson(s).Obj?
    ensures forall k :: k in keys ==>
            (k in ToJson(s).fields <==> k in s.fields) && (k in s.fields ==> ToJson(s).fields[k] == Str(s.fields[k]))
  {
  }

  lemma FieldsBack(s: Secret)
    requires forall k :: k in s.fields ==> k in TEXT_KEYS && s.fields[k] != ""
    ensures Kept(ToJson(s)).fields == s.fields
  {
    assert CUSTOM !in TEXT_KEYS;
    FieldsPrinted(s, TEXT_KEYS);
    hide ToJson;
    TextsBack(TEXT_KEYS, s.fields, ToJson(s).fields);
  }

  lemma CustomBack(s: Secret)
    requires forall k :: k in s.fields ==> k in TEXT_KEYS
    requires forall k :: k in s.custom ==> k != PROTO && s.custom[k] != ""
    ensures Kept(ToJson(s)).custom == s.custom
  {
    assert CUSTOM !in TEXT_KEYS;
    var fields := ToJson(s).fields;
    if s.custom == map[] {
      assert CUSTOM !in fields;
    } else {
      assert fields[CUSTOM] == Obj(map k | k in s.custom :: Str(s.custom[k]));
    }
  }

  /** Reading back what was written gives what normalization keeps of it, and nothing more is lost later. */
  lemma ReadAfterWrite(j: Json)
    ensures Read(Some(ToJson(Kept(j)))) == Kept(j)
  {
    var s := Kept(j);
    FieldsBack(s);
    CustomBack(s);
    hide ToJson, Kept;
    assert Kept(ToJson(s)) == s;
  }

  /** A restored credential reads like the original one, whatever that blob was. */
  lemma ReadTwice(blob: Option<Json>)
    ensures Read(Some(ToJson(Read(blob)))) == Read(blob)
  {
    match blob
    case None => ReadAfterWrite(Null);
    case Some(j) => ReadAfterWrite(j);
  }
}
