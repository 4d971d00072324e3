/**
 * The administrator key file the tools keep after a login: its location,
 * its file mode and the checks applied when it is read back.
 */
module AdminKeys {
  import opened Wrappers
  import opened ToolText

  /** Every administrator key is exactly this long. */
  const AdminKeyLength := 256

  /** Owner read and write only (octal 600). */
  const AdminKeyFileMode := 0x180

  datatype AdminKeyFile = AdminKeyFile(adminKey: Json)

  /** The AdminKeyFile constructor: the key must be truthy. */
  function NewAdminKeyFile(adminKey: Json): (r: Result<AdminKeyFile>)
    ensures r.Ok? <==> Truthy(adminKey)
    ensures r.Ok? ==> r.value.adminKey == adminKey
    ensures r.Err? ==> r.error == Falsy("adminKey")
  {
    if Truthy(adminKey) then Ok(AdminKeyFile(adminKey)) else Err(Falsy("adminKey"))
  }

  /** Where the key file lives, relative to the home directory. */
  const KeyFileRelative := ".config/stacklessjs/warp-admin-key.json"

  /** getKeyFilePath: `<home>/.config/stacklessjs/warp-admin-key.json`. */
  function KeyFilePath(home: string): (p: string)
    ensures home != "" && home[|home| - 1] != '/' ==> p == home + "/" + KeyFileRelative
    ensures EndsWith(p, KeyFileRelative)
  {
    Join(home, KeyFileRelative)
  }

  /** The value JavaScript reads as `j.length`, when there is one. */
  function LengthOf(j: Json): Option<Json>
  {
    match j
    case JStr(s) => Some(JNum(Utf16Length(s)))
    case JArr(items) => Some(JNum(|items|))
    case JObj(fields) => if "length" in fields then Some(fields["length"]) else None
    case _ => None
  }

  /** `key.length !== ADMIN_KEY_LENGTH` is false. */
  predicate StrictKeyLength(key: Json)
  {
    LengthOf(key) == Some(JNum(AdminKeyLength))
  }

  /**
   * `key.length != ADMIN_KEY_LENGTH` is false: a number equal to the
   * length, or the text of that number.
   */
  predicate LooseKeyLength(key: Json)
  {
    LengthOf(key) == Some(JNum(AdminKeyLength)) || LengthOf(key) == Some(JStr("256"))
  }

  /** The checks fromJsonObject applies, in order. */
  predicate ValidKeyObject(obj: Json)
  {
    Truthy(obj) && HasOwn(obj, "adminKey")
    && Truthy(obj.fields["adminKey"]) && StrictKeyLength(obj.fields["adminKey"])
  }

  /**
   * AdminKeyFile.fromJsonObject: an empty object, a missing key and an
   * invalid key each fail with their own reason.
   */
  function FromJsonObject(obj: Json): (r: Result<AdminKeyFile>)
    ensures r.Ok? <==> ValidKeyObject(obj)
    ensures r.Ok? ==> r.value.adminKey == obj.fields["adminKey"]
    ensures !Truthy(obj) ==> r == Err(InvalidKeyFile("empty"))
    ensures Truthy(obj) && !HasOwn(obj, "adminKey") ==> r == Err(InvalidKeyFile("missing"))
    ensures HasOwn(obj, "adminKey") && r.Err? ==> r == Err(InvalidKeyFile("invalid"))
  {
    if !Truthy(obj) then Err(InvalidKeyFile("empty"))
    else if !HasOwn(obj, "adminKey") then Err(InvalidKeyFile("missing"))
    else
      var key := obj.fields["adminKey"];
      if !Truthy(key) || !StrictKeyLength(key) then Err(InvalidKeyFile("invalid"))
      else NewAdminKeyFile(key)
  }

  /** For a string key, the object is accepted exactly when the key has 256 UTF-16 code units. */
  lemma StringKeyAccepted(key: string)
    ensures FromJsonObject(JObj(map["adminKey" := JStr(key)])).Ok? <==> Utf16Length(key) == AdminKeyLength
  {
  }

  /**
   * AdminKeyFile.tryFromKeyFile: a missing file, empty contents, an
   * object without a key and a key of the wrong length give no key file;
   * text that is not JSON makes the parse throw.
   */
  function TryFromKeyFile(contents: Option<string>, parse: string -> Option<Json>): (r: Result<Option<AdminKeyFile>>)
    ensures contents.None? ==> r == Ok(None)
    ensures contents == Some("") ==> r == Ok(None)
    ensures r.Err? <==> contents.Some? && contents.value != "" && parse(contents.value).None?
    ensures r.Err? ==> r.error == InvalidJson
    ensures r.Ok? && r.value.Some? ==>
              contents.Some? && parse(contents.value).Some?
              && var obj := parse(contents.value).value;
                 HasOwn(obj, "adminKey") && Truthy(obj.fields["adminKey"])
                 && LooseKeyLength(obj.fields["adminKey"])
                 && r.value.value.adminKey == obj.fields["adminKey"]
  {
    if contents.None? then Ok(None)
    else if contents.value == "" then Ok(None)
    else match parse(contents.value)
      case None => Err(InvalidJson)
      case Some(obj) =>
        if !Truthy(obj) || !HasOwn(obj, "adminKey") then Ok(None)
        else
          var key := obj.fields["adminKey"];
          if !Truthy(key) || !LooseKeyLength(key) then Ok(None)
          else Ok(Some(AdminKeyFile(key)))
  }

  /**
   * Reading a key file agrees with fromJsonObject whenever the key's
   * length is not itself a string.
   */
  lemma TryAgreesWithFromJson(contents: string, parse: string -> Option<Json>)
    requires contents != "" && parse(contents).Some?
    requires var obj := parse(contents).value;
             HasOwn(obj, "adminKey") ==> LengthOf(obj.fields["adminKey"]) != Some(JStr("256"))
    ensures TryFromKeyFile(Some(contents), parse).Ok?
    ensures TryFromKeyFile(Some(contents), parse).value.Some? <==> FromJsonObject(parse(contents).value).Ok?
    ensures TryFromKeyFile(Some(contents), parse).value.Some? ==>
              TryFromKeyFile(Some(contents), parse).value.value == FromJsonObject(parse(contents).value).value
  {
  }

  /**
   * AdminKeyFile.tryOpen: no key file at the default path means no key
   * file; otherwise the file is read as tryFromKeyFile reads it. `files`
   * maps each existing path to its contents.
   */
  function TryOpen(files: map<string, string>, home: string, parse: string -> Option<Json>): (r: Result<Option<AdminKeyFile>>)
    ensures KeyFilePath(home) !in files ==> r == Ok(None)
    ensures KeyFilePath(home) in files ==> r == TryFromKeyFile(Some(files[KeyFilePath(home)]), parse)
  {
    var path := KeyFilePath(home);
    if path !in files then Ok(None)
    else TryFromKeyFile(Some(files[path]), parse)
  }
}
