/**
 * The warp configuration a project keeps next to its sources: the warp
 * identity and its invariant, the configuration record, the file form in
 * which the identity is stored as base64 of its JSON text, and the checks
 * applied when the file is opened.
 */
module WarpConfigs {
  import opened Wrappers
  import opened ToolText
  import Validators
  import Base64

  /** An optional constructor argument is given when it is present and truthy. */
  predicate Given(v: Option<Json>)
  {
    v.Some? && Truthy(v.value)
  }

  datatype WarpIdentity = WarpIdentity(
    adminKey: Json,
    checksum: Option<Json>,
    warpId: Option<Json>,
    warpVersion: Option<Json>,
    identityClassMappings: Option<Json>,
    lastClassId: Option<Json>)

  /**
   * The identity invariant: an admin key, and once any of checksum, warp
   * id or warp version is given, all five booted fields are given.
   */
  predicate IdentityValid(i: WarpIdentity)
  {
    Truthy(i.adminKey)
    && ((Given(i.checksum) || Given(i.warpId) || Given(i.warpVersion)) ==>
          Given(i.checksum) && Given(i.warpId) && Given(i.warpVersion)
          && Given(i.identityClassMappings) && Given(i.lastClassId))
  }

  /** The WarpIdentity constructor. */
  function NewWarpIdentity(adminKey: Json, checksum: Option<Json>, warpId: Option<Json>,
                           warpVersion: Option<Json>, mappings: Option<Json>,
                           lastClassId: Option<Json>): (r: Result<WarpIdentity>)
    ensures r.Ok? <==> IdentityValid(WarpIdentity(adminKey, checksum, warpId, warpVersion, mappings, lastClassId))
    ensures r.Ok? ==> r.value == WarpIdentity(adminKey, checksum, warpId, warpVersion, mappings, lastClassId)
    ensures !Truthy(adminKey) ==> r == Err(Falsy("adminKey"))
    ensures r.Err? ==> r.error.Falsy?
  {
    if !Truthy(adminKey) then Err(Falsy("adminKey"))
    else if Given(checksum) || Given(warpId) || Given(warpVersion) then
      if !Given(checksum) then Err(Falsy("checksum"))
      else if !Given(warpId) then Err(Falsy("warpId"))
      else if !Given(warpVersion) then Err(Falsy("warpVersion"))
      else if !Given(mappings) then Err(Falsy("identityClassMappings"))
      else if !Given(lastClassId) then Err(Falsy("lastClassId"))
      else Ok(WarpIdentity(adminKey, checksum, warpId, warpVersion, mappings, lastClassId))
    else Ok(WarpIdentity(adminKey, checksum, warpId, warpVersion, mappings, lastClassId))
  }

  /** A booted identity whose last class id is 0 is refused, because 0 is falsy. */
  lemma ZeroLastClassIdRejected(adminKey: Json, checksum: Json, warpId: Json, warpVersion: Json, mappings: Json)
    requires Truthy(adminKey) && Truthy(checksum) && Truthy(warpId) && Truthy(warpVersion) && Truthy(mappings)
    ensures NewWarpIdentity(adminKey, Some(checksum), Some(warpId), Some(warpVersion), Some(mappings), Some(JNum(0)))
            == Err(Falsy("lastClassId"))
  {
  }

  /** An identity that was never booted needs only its admin key. */
  lemma UnbootedIdentity(adminKey: Json)
    requires Truthy(adminKey)
    ensures NewWarpIdentity(adminKey, None, None, None, None, None).Ok?
  {
  }

  /** A warp configuration; `identity` is the identity's JSON form. */
  datatype WarpConfig = WarpConfig(warp: Json, types: Json, identity: Json, onBootModule: Json)

  /** The WarpConfig constructor: warp, identity and onBootModule must be truthy, in that order. */
  function NewWarpConfig(warp: Json, types: Json, identity: Json, onBootModule: Json): (r: Result<WarpConfig>)
    ensures r.Ok? <==> Truthy(warp) && Truthy(identity) && Truthy(onBootModule)
    ensures r.Ok? ==> r.value == WarpConfig(warp, types, identity, onBootModule)
    ensures r.Err? ==> r.error == Falsy(if !Truthy(warp) then "warp"
                                         else if !Truthy(identity) then "identity"
                                         else "onBootModule")
  {
    if !Truthy(warp) then Err(Falsy("warp"))
    else if !Truthy(identity) then Err(Falsy("identity"))
    else if !Truthy(onBootModule) then Err(Falsy("onBootModule"))
    else Ok(WarpConfig(warp, types, identity, onBootModule))
  }

  /** The path without its trailing '/' characters. */
  function TrimSlashes(p: string): (t: string)
    ensures |t| <= |p| && t == p[..|t|]
    ensures |t| == 0 || t[|t| - 1] != '/'
  {
    if |p| > 0 && p[|p| - 1] == '/' then TrimSlashes(p[..|p| - 1]) else p
  }

  /** The index of the last `c` in `s`, or -1. */
  function LastIndex(s: string, c: char): (k: int)
    ensures -1 <= k < |s|
    ensures k >= 0 ==> s[k] == c
    ensures forall j :: k < j < |s| ==> s[j] != c
  {
    if |s| == 0 then -1
    else if s[|s| - 1] == c then |s| - 1
    else LastIndex(s[..|s| - 1], c)
  }

  /** The last component of a path, ignoring trailing '/'. */
  function BaseName(p: string): (b: string)
    ensures forall i :: 0 <= i < |b| ==> b[i] != '/'
  {
    var t := TrimSlashes(p);
    t[LastIndex(t, '/') + 1..]
  }

  /**
   * `path.extname`: from the last '.' of the base name to its end; empty
   * when there is no '.', when the only '.' starts the name, and for "..".
   */
  function ExtName(p: string): (e: string)
    ensures e == "" || e[0] == '.'
    ensures forall i :: 1 <= i < |e| ==> e[i] != '.' && e[i] != '/'
  {
    var b := BaseName(p);
    var e := ExtOfBase(b);
    assert forall i :: 0 <= i < |e| ==> e[i] == b[|b| - |e| + i];
    e
  }

  /** The extension of a base name: from its last '.' on, unless that '.' starts it or it is "..". */
  function ExtOfBase(b: string): (e: string)
    ensures |e| <= |b| && e == b[|b| - |e|..]
    ensures e == "" || e[0] == '.'
    ensures forall i :: 1 <= i < |e| ==> e[i] != '.'
  {
    var d := LastIndex(b, '.');
    if d <= 0 || b == ".." then "" else b[d..]
  }

  /** Characters appended after the last `c` do not move it when they are not `c`. */
  lemma {:induction false} LastIndexAppend(a: string, b: string, c: char)
    requires forall i :: 0 <= i < |b| ==> b[i] != c
    ensures LastIndex(a + b, c) == LastIndex(a, c)
  {
    if |b| > 0 {
      assert (a + b)[..|a + b| - 1] == a + b[..|b| - 1];
      LastIndexAppend(a, b[..|b| - 1], c);
    } else {
      assert a + b == a;
    }
  }

  /** Below a directory that ends in '/', a name without '/' is the base name. */
  lemma BaseNameBelow(dir: string, b: string)
    requires dir == "" || dir[|dir| - 1] == '/'
    requires |b| > 0 && forall i :: 0 <= i < |b| ==> b[i] != '/'
    ensures BaseName(dir + b) == b
  {
    var p := dir + b;
    assert TrimSlashes(p) == p by {
      assert p[|p| - 1] == b[|b| - 1];
    }
    LastIndexAppend(dir, b, '/');
    assert LastIndex(p, '/') + 1 == |dir| by {
      if dir != "" {
        assert dir[..|dir| - 1] + "/" == dir;
      }
    }
    assert p[|dir|..] == b;
  }

  /** The last '.' of a name without '.' followed by "." and an extension is the added one. */
  lemma LastDot(name: string, ext: string)
    requires forall i :: 0 <= i < |name| ==> name[i] != '.'
    requires forall i :: 0 <= i < |ext| ==> ext[i] != '.'
    ensures LastIndex(name + "." + ext, '.') == |name|
  {
    LastIndexAppend(name + ".", ext, '.');
  }

  /** The start of `name + "." + ext`, for a name without '.'. */
  lemma NamedHead(name: string, ext: string)
    requires |name| > 0 && name[0] != '.'
    ensures (name + "." + ext)[0] != '.'
  {
    assert (name + "." + ext)[0] == name[0];
  }

  /** Below a directory, `name + "." + ext` is its own base name when neither part has a '/'. */
  lemma BaseOfNamed(dir: string, name: string, ext: string)
    requires dir == "" || dir[|dir| - 1] == '/'
    requires |name| > 0 && forall i :: 0 <= i < |name| ==> name[i] != '/'
    requires forall i :: 0 <= i < |ext| ==> ext[i] != '/'
    ensures BaseName(dir + (name + "." + ext)) == name + "." + ext
  {
    var b := name + "." + ext;
    forall i | 0 <= i < |b| ensures b[i] != '/' {
      if i >= |name| + 1 {
        assert b[i] == ext[i - |name| - 1];
      }
    }
    BaseNameBelow(dir, b);
  }

  /**
   * A base name `name + "." + ext` that does not start with '.' and whose
   * last '.' is the added one has the extension "." + ext.
   */
  lemma ExtOfNamedBase(name: string, ext: string)
    requires LastIndex(name + "." + ext, '.') == |name| > 0 && (name + "." + ext)[0] != '.'
    ensures ExtOfBase(name + "." + ext) == "." + ext
  {
    var b := name + "." + ext;
    assert b != ".." by {
      assert ".."[0] == '.';
    }
    SuffixAfter(name, ext);
  }

  /** What follows `name` in `name + "." + ext`. */
  lemma SuffixAfter(name: string, ext: string)
    ensures (name + "." + ext)[|name|..] == "." + ext
  {
    var b, e := name + "." + ext, "." + ext;
    forall i | 0 <= i < |e| ensures b[|name| + i] == e[i] {
      if i > 0 {
        assert b[|name| + i] == ext[i - 1];
      }
    }
  }

  /** A base name without '.' has no extension. */
  lemma NoDotNoExt(p: string)
    requires forall i :: 0 <= i < |BaseName(p)| ==> BaseName(p)[i] != '.'
    ensures ExtName(p) == ""
  {
  }

  /** The checks open applies to the parsed file object, in order. */
  predicate FileObjectValid(obj: Json)
  {
    Truthy(obj) && HasOwn(obj, "warp") && HasOwn(obj, "identity") && HasOwn(obj, "types")
    && HasOwn(obj, "onBootModule")
    && Truthy(obj.fields["warp"]) && Validators.WarpNameValid(obj.fields["warp"])
    && Truthy(obj.fields["identity"]) && Truthy(obj.fields["types"])
    && Truthy(obj.fields["onBootModule"]) && obj.fields["onBootModule"].JStr?
    && ExtName(obj.fields["onBootModule"].s) == ""
  }

  /**
   * The validation half of WarpConfig.open, from the parsed file object:
   * the four fields must be present, the warp name valid, identity, types
   * and onBootModule truthy and onBootModule without an extension; the
   * identity is then decoded from base64 and parsed as JSON. `parse` is
   * JSON.parse applied to UTF-8 bytes.
   */
  function FromFileObject(obj: Json, parse: seq<Base64.Byte> -> Option<Json>): (r: Result<WarpConfig>)
    ensures r.Ok? ==> FileObjectValid(obj)
    ensures r.Ok? ==> r.value.warp == obj.fields["warp"] && r.value.types == obj.fields["types"]
                      && r.value.onBootModule == obj.fields["onBootModule"]
                      && obj.fields["identity"].JStr?
                      && Base64.Decode(obj.fields["identity"].s).Some?
                      && parse(Base64.Decode(obj.fields["identity"].s).value) == Some(r.value.identity)
    ensures (!Truthy(obj) || !HasOwn(obj, "warp") || !HasOwn(obj, "identity") || !HasOwn(obj, "types")
             || !HasOwn(obj, "onBootModule")) ==> r == Err(InvalidConfig("corrupt"))
  {
    if !Truthy(obj) || !HasOwn(obj, "warp") || !HasOwn(obj, "identity") || !HasOwn(obj, "types")
       || !HasOwn(obj, "onBootModule") then Err(InvalidConfig("corrupt"))
    else
      var warp, identity, types, onBoot :=
        obj.fields["warp"], obj.fields["identity"], obj.fields["types"], obj.fields["onBootModule"];
      if !Truthy(warp) || !Validators.WarpNameValid(warp) then Err(InvalidConfig("warp name"))
      else if !Truthy(identity) then Err(InvalidConfig("identity"))
      else if !Truthy(types) then Err(InvalidConfig("types"))
      else if !Truthy(onBoot) then Err(InvalidConfig("onBootModule"))
      else if !onBoot.JStr? then Err(TypeError("onBootModule"))
      else if ExtName(onBoot.s) != "" then Err(InvalidConfig("extension"))
      else if !identity.JStr? then Err(TypeError("identity"))
      else
        match Base64.Decode(identity.s)
        case None => Err(InvalidJson)
        case Some(bytes) =>
          match parse(bytes)
          case None => Err(InvalidJson)
          case Some(decoded) => NewWarpConfig(warp, types, decoded, onBoot)
  }

  /**
   * WarpConfig.open: a missing file and an empty file are refused before
   * the contents are parsed.
   */
  function Open(contents: Option<seq<Base64.Byte>>, parse: seq<Base64.Byte> -> Option<Json>): (r: Result<WarpConfig>)
    ensures contents.None? ==> r == Err(InvalidConfig("missing"))
    ensures contents == Some([]) ==> r == Err(InvalidConfig("corrupt"))
    ensures r.Ok? ==> contents.Some? && parse(contents.value).Some?
                      && FromFileObject(parse(contents.value).value, parse) == r
  {
    if contents.None? then Err(InvalidConfig("missing"))
    else if |contents.value| == 0 then Err(InvalidConfig("corrupt"))
    else
      match parse(contents.value)
      case None => Err(InvalidJson)
      case Some(obj) => FromFileObject(obj, parse)
  }

  /**
   * The object writeToDir hands to the file writer: the identity becomes
   * base64 of its JSON text. `stringify` is JSON.stringify to UTF-8 bytes.
   */
  function Record(c: WarpConfig, stringify: Json -> seq<Base64.Byte>): Json
  {
    JObj(map[
      "warp" := c.warp,
      "types" := c.types,
      "identity" := JStr(Base64.Encode(stringify(c.identity))),
      "onBootModule" := c.onBootModule])
  }

  /** writeToDir: the directory must exist; the record goes to `<dir>/<fileName>`. */
  function WriteToDir(existing: set<string>, dir: string, fileName: string, c: WarpConfig,
                      stringify: Json -> seq<Base64.Byte>): (r: Result<(string, Json)>)
    ensures r.Ok? <==> dir in existing
    ensures r.Ok? ==> r.value.0 == Join(dir, fileName) && r.value.1 == Record(c, stringify)
  {
    if dir !in existing then Err(InvalidConfig("directory")) else Ok((Join(dir, fileName), Record(c, stringify)))
  }

  /** An object that passes every check is handed to the constructor with its decoded identity. */
  lemma AcceptsValidObject(obj: Json, parse: seq<Base64.Byte> -> Option<Json>)
    requires FileObjectValid(obj) && obj.fields["identity"].JStr?
    requires Base64.Decode(obj.fields["identity"].s).Some?
    requires parse(Base64.Decode(obj.fields["identity"].s).value).Some?
    ensures FromFileObject(obj, parse)
            == NewWarpConfig(obj.fields["warp"], obj.fields["types"],
                             parse(Base64.Decode(obj.fields["identity"].s).value).value,
                             obj.fields["onBootModule"])
  {
  }

  /** The configurations open accepts back. */
  predicate Storable(c: WarpConfig)
  {
    Truthy(c.warp) && Validators.WarpNameValid(c.warp) && Truthy(c.identity) && Truthy(c.types)
    && c.onBootModule.JStr? && c.onBootModule.s != "" && ExtName(c.onBootModule.s) == ""
  }

  /**
   * What writeToDir records, open reads back unchanged, provided the
   * identity survives its own JSON round trip.
   */
  lemma {:induction false} RecordRoundTrip(c: WarpConfig, stringify: Json -> seq<Base64.Byte>,
                                           parse: seq<Base64.Byte> -> Option<Json>)
    requires Storable(c)
    requires |stringify(c.identity)| > 0 && parse(stringify(c.identity)) == Some(c.identity)
    ensures FromFileObject(Record(c, stringify), parse) == Ok(c)
  {
    var obj := Record(c, stringify);
    Base64.DecodeEncode(stringify(c.identity));
    assert obj.fields["warp"] == c.warp && obj.fields["types"] == c.types;
    assert obj.fields["onBootModule"] == c.onBootModule;
    assert obj.fields["identity"] == JStr(Base64.Encode(stringify(c.identity)));
    AcceptsValidObject(obj, parse);
  }

  /** The same round trip through the file's bytes. */
  lemma FileRoundTrip(c: WarpConfig, text: seq<Base64.Byte>, stringify: Json -> seq<Base64.Byte>,
                      parse: seq<Base64.Byte> -> Option<Json>)
    requires Storable(c)
    requires |stringify(c.identity)| > 0 && parse(stringify(c.identity)) == Some(c.identity)
    requires |text| > 0 && parse(text) == Some(Record(c, stringify))
    ensures Open(Some(text), parse) == Ok(c)
  {
    RecordRoundTrip(c, stringify, parse);
  }
}
