/** `SecureConfigManager`: the administrator's settings file. Passwords are
    stored hashed and API keys encrypted; reading the file back shows every
    key decrypted and masked. The hash, the cipher and the file itself are
    outside the model: hashing and encryption are function parameters, and
    the file is a field holding what it contains. */
module SecureConfig {
  import opened Common
  import Dict

  /** A top-level entry of the settings file: a section (a JSON object) or
      any other JSON value. */
  datatype Section = Object(entries: Dict.Table<Value>) | Plain(v: Value)

  type Config = Dict.Table<Section>

  /** The settings file: absent, not readable as JSON, or holding a
      configuration. */
  datatype FileState = Missing | Corrupt | Stored(config: Config)

  const DecryptErrorText: string := "***復号エラー***"

  // ---------------------------------------------------------------------------
  // Masking
  // ---------------------------------------------------------------------------

  function Stars(n: nat): (r: string)
    ensures |r| == n && forall i :: 0 <= i < n ==> r[i] == '*'
  {
    seq(n, _ => '*')
  }

  /** `_mask_api_key(api_key)`: a key of up to eight characters is hidden
      completely; a longer one shows its first and last four characters, with
      one `*` for each character in between. */
  function MaskApiKey(key: string): (r: string)
    ensures |r| == |key|
    ensures forall i :: 0 <= i < |r| ==>
      r[i] == if |key| > 8 && (i < 4 || i >= |key| - 4) then key[i] else '*'
  {
    if |key| <= 8 then Stars(|key|)
    else key[..4] + Stars(|key| - 8) + key[|key| - 4..]
  }

  /** Masking a masked key changes nothing, and a masked key shows at most
      eight of the original characters. */
  lemma MaskIdempotent(key: string)
    ensures MaskApiKey(MaskApiKey(key)) == MaskApiKey(key)
    ensures forall i :: 0 <= i < |key| && MaskApiKey(key)[i] != '*' ==> i < 4 || i >= |key| - 4
  {
    var once := MaskApiKey(key);
    var twice := MaskApiKey(once);
    forall i | 0 <= i < |key|
      ensures twice[i] == once[i]
    {
    }
  }

  // ---------------------------------------------------------------------------
  // The default settings
  // ---------------------------------------------------------------------------

  const DefaultFeatures: Dict.Table<Value> := [
    Dict.Entry("ENABLE_AI_FEATURES", Flag(true)),
    Dict.Entry("ENABLE_IMAGE_PROCESSING", Flag(true)),
    Dict.Entry("ENABLE_OBS_INTEGRATION", Flag(false)),
    Dict.Entry("ENABLE_STREAMING_FEATURES", Flag(false))]

  /** `_get_default_config()`. */
  function DefaultConfig(): Config
  {
    [Dict.Entry("passwords", Object([Dict.Entry("OWNER_PASSWORD", Str(""))])),
     Dict.Entry("api_keys", Object([
       Dict.Entry("OPENAI_API_KEY", Str("")),
       Dict.Entry("YOUTUBE_API_KEY", Str("")),
       Dict.Entry("TWITCH_CLIENT_SECRET", Str(""))])),
     Dict.Entry("features", Object(DefaultFeatures)),
     Dict.Entry("app_settings", Object([
       Dict.Entry("DEFAULT_USER_LEVEL", Str("PUBLIC")),
       Dict.Entry("DEBUG_MODE", Flag(false)),
       Dict.Entry("SHOW_TECHNICAL_DETAILS", Flag(false))]))]
  }

  /** `config[section][name]` when `section` is an object holding `name`. */
  function SectionEntry(c: Config, section: string, name: string): Option<Value>
  {
    match Dict.Get<Section>(c, section)
    case Some(Object(e)) => Dict.Get(e, name)
    case _ => None
  }

  /** By default the owner password and every API key are empty. */
  lemma DefaultSecretsEmpty()
    ensures SectionEntry(DefaultConfig(), "passwords", "OWNER_PASSWORD") == Some(Str(""))
    ensures forall i :: 0 <= i < |DefaultConfig()[1].value.entries| ==>
      DefaultConfig()[1].value.entries[i].value == Str("")
  {
    Dict.GetFirst(DefaultConfig(), 0);
    Dict.GetFirst(DefaultConfig()[0].value.entries, 0);
  }

  /** The `features` section of the default configuration. */
  lemma DefaultFeaturesSection()
    ensures forall k :: SectionEntry(DefaultConfig(), "features", k) == Dict.Get(DefaultFeatures, k)
  {
    Dict.GetFirst(DefaultConfig(), 2);
  }

  /** By default AI features are on and OBS and streaming are off. */
  lemma DefaultFeatureFlags()
    ensures SectionEntry(DefaultConfig(), "features", "ENABLE_AI_FEATURES") == Some(Flag(true))
    ensures SectionEntry(DefaultConfig(), "features", "ENABLE_OBS_INTEGRATION") == Some(Flag(false))
    ensures SectionEntry(DefaultConfig(), "features", "ENABLE_STREAMING_FEATURES") == Some(Flag(false))
  {
    DefaultFeaturesSection();
    DefaultFeatureAt(0);
    DefaultFeatureAt(2);
    DefaultFeatureAt(3);
  }

  /** The four feature names differ, so each is found at its own place. */
  lemma DefaultFeatureAt(i: nat)
    requires i < 4
    ensures Dict.Get(DefaultFeatures, DefaultFeatures[i].key) == Some(DefaultFeatures[i].value)
  {
    forall j | 0 <= j < i ensures DefaultFeatures[j].key != DefaultFeatures[i].key {
      assert DefaultFeatures[j].key[7] != DefaultFeatures[i].key[7];
    }
    Dict.GetFirst(DefaultFeatures, i);
  }

  /** Nothing in the default configuration is hashed or encrypted: saving it
      stores it unchanged. */
  lemma DefaultSavedUnchanged(hash: string -> string, encrypt: string -> string)
    ensures SaveTransform(DefaultConfig(), hash, encrypt) == Some(DefaultConfig())
  {
    var d := DefaultConfig();
    SealUnchanged(d, 0, hash);
    SealUnchanged(d, 1, encrypt);
  }

  /** A section found first at position `i`, none of whose values is truthy,
      is stored as it is. */
  lemma SealUnchanged(c: Config, i: nat, f: string -> string)
    requires i < |c| && c[i].value.Object?
    requires forall j :: 0 <= j < i ==> c[j].key != c[i].key
    requires forall j :: 0 <= j < |c[i].value.entries| ==> !Truthy(c[i].value.entries[j].value)
    ensures SealSection(c, c[i].key, f) == Some(c)
  {
    Dict.GetFirst(c, i);
    UnchangedWhenEmpty(c[i].value.entries, f);
    PutSame(c, i);
  }

  /** Assigning an entry the value it already has (the first with its key). */
  lemma {:induction false} PutSame(d: Config, i: nat)
    requires i < |d| && forall j :: 0 <= j < i ==> d[j].key != d[i].key
    ensures Dict.Put(d, d[i].key, d[i].value) == d
  {
    if i > 0 {
      PutSame(d[1..], i - 1);
      assert d == [d[0]] + d[1..];
    }
  }

  /** A section with no truthy value is stored as it is. */
  lemma UnchangedWhenEmpty(entries: Dict.Table<Value>, f: string -> string)
    requires forall i :: 0 <= i < |entries| ==> !Truthy(entries[i].value)
    ensures Sealed(entries, f) == Some(entries)
  {
    var g := v => SealValue(v, f);
    var m := Dict.MapValues(entries, g);
    forall i | 0 <= i < |entries|
      ensures m[i] == entries[i]
    {
      assert Dict.Keys(m)[i] == Dict.Keys(entries)[i];
      assert m[i].value == g(entries[i].value) == entries[i].value;
    }
    assert m == entries;
  }

  // ---------------------------------------------------------------------------
  // Saving
  // ---------------------------------------------------------------------------

  /** A value `save_secure_config` can pass through: a falsy value is left
      alone, a truthy one must be a string (hashing and encryption call
      `.encode()` on it). */
  predicate Sealable(v: Value)
  {
    !Truthy(v) || v.Str?
  }

  /** One password or key as it is stored: empty stays empty, a non-empty
      string is replaced by `f` of it. */
  function SealValue(v: Value, f: string -> string): (r: Value)
    ensures !Truthy(v) ==> r == v
    ensures v.Str? && v.s != "" ==> r == Str(f(v.s))
  {
    if Truthy(v) && v.Str? then Str(f(v.s)) else v
  }

  /** The loop over one section: every value sealed, or `None` when one of
      them raises. */
  function Sealed(entries: Dict.Table<Value>, f: string -> string): Option<Dict.Table<Value>>
  {
    if forall i :: 0 <= i < |entries| ==> Sealable(entries[i].value)
    then Some(Dict.MapValues(entries, v => SealValue(v, f)))
    else None
  }

  /** The section `name`, if present, sealed in place; a present value that
      is not an object makes `.items()` raise. */
  function SealSection(c: Config, name: string, f: string -> string): Option<Config>
  {
    match Dict.Get<Section>(c, name)
    case None => Some(c)
    case Some(Plain(_)) => None
    case Some(Object(entries)) =>
      match Sealed(entries, f)
      case None => None
      case Some(e) => Some(Dict.Put(c, name, Object(e)))
  }

  /** What `save_secure_config(config_data)` writes, or `None` when it
      returns `False`: passwords hashed, then API keys encrypted. */
  function SaveTransform(c: Config, hash: string -> string, encrypt: string -> string): Option<Config>
  {
    match SealSection(c, "passwords", hash)
    case None => None
    case Some(c1) => SealSection(c1, "api_keys", encrypt)
  }

  /** A section the save loop gets through. */
  predicate SectionSealable(c: Config, name: string)
  {
    match Dict.Get<Section>(c, name)
    case None => true
    case Some(Plain(_)) => false
    case Some(Object(e)) => forall i :: 0 <= i < |e| ==> Sealable(e[i].value)
  }

  /** The sealed section: same entries, each value passed through `SealValue`. */
  function SealedEntry(c: Config, section: string, name: string, f: string -> string): Option<Value>
  {
    SealedOpt(SectionEntry(c, section, name), f)
  }

  function SealedOpt(e: Option<Value>, f: string -> string): Option<Value>
  {
    match e
    case None => None
    case Some(v) => Some(SealValue(v, f))
  }

  /** The section `name` is absent or an object. */
  predicate NotPlain(c: Config, name: string)
  {
    !Dict.Get<Section>(c, name).Some? || Dict.Get<Section>(c, name).value.Object?
  }

  /** Sealing one section succeeds exactly when its values are sealable, and
      keeps the keys; the section stays an object. */
  lemma SealSectionOk(c: Config, name: string, f: string -> string)
    ensures SealSection(c, name, f).Some? <==> SectionSealable(c, name)
    ensures SealSection(c, name, f).Some? ==>
      Dict.Keys(SealSection(c, name, f).value) == Dict.Keys(c) && NotPlain(SealSection(c, name, f).value, name)
  {
    match Dict.Get<Section>(c, name)
    case None =>
    case Some(Plain(_)) =>
    case Some(Object(e)) =>
      if SealSection(c, name, f).Some? {
        var m := Dict.MapValues(e, v => SealValue(v, f));
        Dict.PutGet(c, name, Object(m), name);
      }
  }

  /** What sealing one section does to one key: another section is untouched,
      and the entry `k` of the sealed section is the old one sealed. */
  lemma SealSectionAt(c: Config, name: string, f: string -> string, k: string)
    requires SealSection(c, name, f).Some?
    ensures k != name ==> Dict.Get(SealSection(c, name, f).value, k) == Dict.Get(c, k)
    ensures SectionEntry(SealSection(c, name, f).value, name, k) == SealedEntry(c, name, k, f)
  {
    match Dict.Get<Section>(c, name)
    case None =>
    case Some(Object(e)) =>
      var m := Dict.MapValues(e, v => SealValue(v, f));
      Dict.PutGet(c, name, Object(m), k);
      Dict.PutGet(c, name, Object(m), name);
      Dict.MapValuesGet(e, v => SealValue(v, f), k);
  }

  /** Sealing one section changes that section's values and nothing else. */
  lemma SealSectionShape(c: Config, name: string, f: string -> string)
    ensures SealSection(c, name, f).Some? <==> SectionSealable(c, name)
    ensures SealSection(c, name, f).Some? ==>
      var r := SealSection(c, name, f).value;
      Dict.Keys(r) == Dict.Keys(c)
      && (forall k :: k != name ==> Dict.Get(r, k) == Dict.Get(c, k))
      && (forall k :: SectionEntry(r, name, k) == SealedEntry(c, name, k, f))
      && NotPlain(r, name)
  {
    SealSectionOk(c, name, f);
    if SealSection(c, name, f).Some? {
      forall k
        ensures k != name ==> Dict.Get(SealSection(c, name, f).value, k) == Dict.Get(c, k)
        ensures SectionEntry(SealSection(c, name, f).value, name, k) == SealedEntry(c, name, k, f)
      {
        SealSectionAt(c, name, f, k);
      }
    }
  }

  /** Saving succeeds exactly when both sections can be sealed; it keeps the
      keys, hashes the passwords, encrypts the API keys (empty ones stay
      empty) and leaves every other section as it was. */
  lemma SaveTransformShape(c: Config, hash: string -> string, encrypt: string -> string)
    ensures SaveTransform(c, hash, encrypt).Some? <==> SectionSealable(c, "passwords") && SectionSealable(c, "api_keys")
    ensures SaveTransform(c, hash, encrypt).Some? ==>
      var r := SaveTransform(c, hash, encrypt).value;
      Dict.Keys(r) == Dict.Keys(c)
      && (forall k :: k != "passwords" && k != "api_keys" ==> Dict.Get(r, k) == Dict.Get(c, k))
      && (forall k :: SectionEntry(r, "passwords", k) == SealedEntry(c, "passwords", k, hash))
      && (forall k :: SectionEntry(r, "api_keys", k) == SealedEntry(c, "api_keys", k, encrypt))
      && NotPlain(r, "api_keys")
  {
    SealSectionOk(c, "passwords", hash);
    if SealSection(c, "passwords", hash).Some? {
      var c1 := SealSection(c, "passwords", hash).value;
      SealSectionAt(c, "passwords", hash, "api_keys");
      SealSectionOk(c1, "api_keys", encrypt);
      if SealSection(c1, "api_keys", encrypt).Some? {
        forall k
          ensures k != "passwords" && k != "api_keys" ==> Dict.Get(SaveTransform(c, hash, encrypt).value, k) == Dict.Get(c, k)
          ensures SectionEntry(SaveTransform(c, hash, encrypt).value, "passwords", k) == SealedEntry(c, "passwords", k, hash)
          ensures SectionEntry(SaveTransform(c, hash, encrypt).value, "api_keys", k) == SealedEntry(c, "api_keys", k, encrypt)
        {
          SaveTransformAt(c, hash, encrypt, k);
        }
      }
    }
  }

  /** What saving does to one key, given that it succeeds. */
  lemma SaveTransformAt(c: Config, hash: string -> string, encrypt: string -> string, k: string)
    requires SaveTransform(c, hash, encrypt).Some?
    ensures k != "passwords" && k != "api_keys" ==> Dict.Get(SaveTransform(c, hash, encrypt).value, k) == Dict.Get(c, k)
    ensures SectionEntry(SaveTransform(c, hash, encrypt).value, "passwords", k) == SealedEntry(c, "passwords", k, hash)
    ensures SectionEntry(SaveTransform(c, hash, encrypt).value, "api_keys", k) == SealedEntry(c, "api_keys", k, encrypt)
    ensures NotPlain(SaveTransform(c, hash, encrypt).value, "api_keys")
  {
    var c1 := SealSection(c, "passwords", hash).value;
    SealSectionOk(c1, "api_keys", encrypt);
    SealSectionAt(c, "passwords", hash, k);
    SealSectionAt(c, "passwords", hash, "api_keys");
    SealSectionAt(c1, "api_keys", encrypt, k);
    SealSectionAt(c1, "api_keys", encrypt, "passwords");
  }

  // ---------------------------------------------------------------------------
  // Loading
  // ---------------------------------------------------------------------------

  /** One API key as `load_secure_config` shows it: empty stays empty, a key
      that decrypts is shown masked, anything else as the error text. */
  function OpenValue(v: Value, decrypt: string -> Option<string>): (r: Value)
    ensures !Truthy(v) ==> r == v
    ensures Truthy(v) ==> r.Str? && (r.s == DecryptErrorText <==> !v.Str? || decrypt(v.s).None?)
  {
    if !Truthy(v) then v
    else if v.Str? && decrypt(v.s).Some? then
      var shown := MaskApiKey(decrypt(v.s).value);
      assert shown != DecryptErrorText by {
        assert |shown| != |DecryptErrorText| || shown[4] != DecryptErrorText[4];
      }
      Str(shown)
    else Str(DecryptErrorText)
  }

  /** What `load_secure_config()` returns for the file's content: the default
      configuration when the file is missing, unreadable, or its `api_keys` is
      not an object; otherwise the file with every API key opened. */
  function LoadView(file: FileState, decrypt: string -> Option<string>): Config
  {
    match file
    case Missing => DefaultConfig()
    case Corrupt => DefaultConfig()
    case Stored(c) =>
      match Dict.Get<Section>(c, "api_keys")
      case None => c
      case Some(Plain(_)) => DefaultConfig()
      case Some(Object(e)) => Dict.Put(c, "api_keys", Object(Dict.MapValues(e, v => OpenValue(v, decrypt))))
  }

  /** The string under `api_keys` in a configuration, `""` when there is none. */
  function PlainKey(c: Config, name: string): string
  {
    TextOf(SectionEntry(c, "api_keys", name))
  }

  /** The string held, `""` when there is none. */
  function TextOf(e: Option<Value>): string
  {
    match e
    case Some(Str(s)) => s
    case _ => ""
  }

  /** A stored key decrypted, `""` when it is absent, empty, not a string or
      does not decrypt. */
  function OpenedKey(e: Option<Value>, decrypt: string -> Option<string>): string
  {
    match e
    case Some(Str(t)) => if t != "" && decrypt(t).Some? then decrypt(t).value else ""
    case _ => ""
  }

  /** With a cipher whose tokens are never empty and decrypt back to the plain
      text, a sealed key opens to the text it held. */
  lemma SealedKeyOpens(e: Option<Value>, encrypt: string -> string, decrypt: string -> Option<string>)
    requires forall s :: encrypt(s) != "" && decrypt(encrypt(s)) == Some(s)
    ensures OpenedKey(SealedOpt(e, encrypt), decrypt) == TextOf(e)
  {
    if e.Some? && e.value.Str? && e.value.s != "" {
      assert decrypt(encrypt(e.value.s)) == Some(e.value.s);
    }
  }

  /** `get_raw_api_key(key_name)`: the decrypted key, `""` when the file is
      missing or unreadable, the key is absent or empty, or decryption fails.
      A present `api_keys` that is not an object gives `""` as well (its `.get`
      raises, and the exception is swallowed). */
  function RawApiKey(file: FileState, name: string, decrypt: string -> Option<string>): (r: string)
    ensures file.Missing? || file.Corrupt? ==> r == ""
    ensures r != "" ==> file.Stored? && exists t :: SectionEntry(file.config, "api_keys", name) == Some(Str(t)) && decrypt(t) == Some(r)
  {
    match file
    case Stored(c) => OpenedKey(SectionEntry(c, "api_keys", name), decrypt)
    case _ => ""
  }

  /** `get_raw_password(level)`: the stored entry as it is, which after a save
      is the hash and not the password; `""` when there is none. */
  function RawPassword(file: FileState, level: string): (r: Value)
    ensures file.Stored? && SectionEntry(file.config, "passwords", level).Some? ==>
      r == SectionEntry(file.config, "passwords", level).value
    ensures !file.Stored? ==> r == Str("")
  {
    match file
    case Stored(c) =>
      (match SectionEntry(c, "passwords", level)
       case Some(v) => v
       case None => Str(""))
    case _ => Str("")
  }

  /** The `api_keys` entries `load_secure_config` shows for a stored file
      whose `api_keys` is absent or an object. */
  lemma LoadViewEntry(c: Config, decrypt: string -> Option<string>, name: string)
    requires NotPlain(c, "api_keys")
    ensures SectionEntry(LoadView(Stored(c), decrypt), "api_keys", name) ==
      if SectionEntry(c, "api_keys", name).Some? then Some(OpenValue(SectionEntry(c, "api_keys", name).value, decrypt)) else None
  {
    match Dict.Get<Section>(c, "api_keys")
    case None =>
    case Some(Object(e)) =>
      var g := v => OpenValue(v, decrypt);
      Dict.PutGet(c, "api_keys", Object(Dict.MapValues(e, g)), "api_keys");
      Dict.MapValuesGet(e, g, name);
  }

  /** Save then read: with a cipher whose tokens are never empty and decrypt
      back to the plain text, every saved API key reads back as itself. */
  lemma SaveThenRawApiKey(c: Config, hash: string -> string, encrypt: string -> string,
                          decrypt: string -> Option<string>, name: string)
    requires forall s :: encrypt(s) != "" && decrypt(encrypt(s)) == Some(s)
    requires SaveTransform(c, hash, encrypt).Some?
    ensures RawApiKey(Stored(SaveTransform(c, hash, encrypt).value), name, decrypt) == PlainKey(c, name)
  {
    SaveTransformAt(c, hash, encrypt, name);
    SealedKeyOpens(SectionEntry(c, "api_keys", name), encrypt, decrypt);
  }

  /** Save then load: every non-empty saved API key is shown as its mask. */
  lemma SaveThenShownKey(c: Config, hash: string -> string, encrypt: string -> string,
                         decrypt: string -> Option<string>, name: string)
    requires forall s :: encrypt(s) != "" && decrypt(encrypt(s)) == Some(s)
    requires SaveTransform(c, hash, encrypt).Some?
    ensures PlainKey(c, name) != "" ==>
      SectionEntry(LoadView(Stored(SaveTransform(c, hash, encrypt).value), decrypt), "api_keys", name)
        == Some(Str(MaskApiKey(PlainKey(c, name))))
  {
    SaveTransformAt(c, hash, encrypt, name);
    var r := SaveTransform(c, hash, encrypt).value;
    var e := SectionEntry(c, "api_keys", name);
    if e.Some? && e.value.Str? && e.value.s != "" {
      var t := encrypt(e.value.s);
      assert SectionEntry(r, "api_keys", name) == Some(Str(t));
      assert t != "" && decrypt(t) == Some(e.value.s);
      assert OpenValue(Str(t), decrypt) == Str(MaskApiKey(e.value.s));
      LoadViewEntry(r, decrypt, name);
    }
  }

  /** Save then read a password: what comes back is the hash, not the
      password (`get_raw_password` does not undo the hashing). */
  lemma SaveThenRawPassword(c: Config, hash: string -> string, encrypt: string -> string, level: string)
    requires SaveTransform(c, hash, encrypt).Some?
    ensures var p := SectionEntry(c, "passwords", level);
      RawPassword(Stored(SaveTransform(c, hash, encrypt).value), level) ==
        if p.Some? then SealValue(p.value, hash) else Str("")
    ensures SectionEntry(c, "passwords", level) == Some(Str("")) ==>
      RawPassword(Stored(SaveTransform(c, hash, encrypt).value), level) == Str("")
  {
    SaveTransformAt(c, hash, encrypt, level);
  }

  // ---------------------------------------------------------------------------
  // The manager
  // ---------------------------------------------------------------------------

  class SecureConfigManager {
    /** What `config/secure_settings.json` holds. */
    var file: FileState

    constructor (file: FileState)
      ensures this.file == file
    {
      this.file := file;
    }

    /** The save loop over one section, rewriting each entry. */
    static method SealEntries(entries: Dict.Table<Value>, f: string -> string) returns (r: Option<Dict.Table<Value>>)
      ensures r == Sealed(entries, f)
    {
      var out: Dict.Table<Value> := [];
      var i := 0;
      while i < |entries|
        invariant 0 <= i <= |entries| && |out| == i
        invariant forall j :: 0 <= j < i ==>
          Sealable(entries[j].value) && out[j] == Dict.Entry(entries[j].key, SealValue(entries[j].value, f))
      {
        var v := entries[i].value;
        if Truthy(v) {
          if !v.Str? {
            assert !Sealable(entries[i].value);
            return None;
          }
          out := out + [Dict.Entry(entries[i].key, Str(f(v.s)))];
        } else {
          out := out + [entries[i]];
        }
        i := i + 1;
      }
      var g := v => SealValue(v, f);
      var m := Dict.MapValues(entries, g);
      forall j | 0 <= j < |entries|
        ensures out[j] == m[j]
      {
        assert Dict.Keys(m)[j] == Dict.Keys(entries)[j];
        assert m[j].value == g(entries[j].value);
      }
      assert out == m;
      r := Some(out);
    }

    /** The load loop over the `api_keys` section, opening each entry. */
    static method OpenEntries(entries: Dict.Table<Value>, decrypt: string -> Option<string>) returns (r: Dict.Table<Value>)
      ensures r == Dict.MapValues(entries, v => OpenValue(v, decrypt))
    {
      r := [];
      var i := 0;
      while i < |entries|
        invariant 0 <= i <= |entries| && |r| == i
        invariant forall j :: 0 <= j < i ==> r[j] == Dict.Entry(entries[j].key, OpenValue(entries[j].value, decrypt))
      {
        var v := entries[i].value;
        var shown := v;
        if Truthy(v) {
          if v.Str? && decrypt(v.s).Some? {
            shown := Str(MaskApiKey(decrypt(v.s).value));
          } else {
            shown := Str(DecryptErrorText);
          }
        }
        r := r + [Dict.Entry(entries[i].key, shown)];
        i := i + 1;
      }
      var g := v => OpenValue(v, decrypt);
      var m := Dict.MapValues(entries, g);
      forall j | 0 <= j < |entries|
        ensures r[j] == m[j]
      {
        assert Dict.Keys(m)[j] == Dict.Keys(entries)[j];
        assert m[j].value == g(entries[j].value);
      }
      assert r == m;
    }

    /** One `if '<name>' in config_data` block of the save. */
    static method SealSectionIn(c: Config, name: string, f: string -> string) returns (r: Option<Config>)
      ensures r == SealSection(c, name, f)
    {
      match Dict.Get<Section>(c, name) {
        case None =>
          r := Some(c);
        case Some(Plain(_)) =>
          r := None;
        case Some(Object(entries)) =>
          var sealed := SealEntries(entries, f);
          if sealed.None? {
            r := None;
          } else {
            r := Some(Dict.Put(c, name, Object(sealed.value)));
          }
      }
    }

    /** `save_secure_config(config_data)`: on success the file holds the
        sealed configuration; on failure the file is untouched. */
    method SaveSecureConfig(c: Config, hash: string -> string, encrypt: string -> string) returns (ok: bool)
      modifies this
      ensures ok <==> SaveTransform(c, hash, encrypt).Some?
      ensures file == if ok then Stored(SaveTransform(c, hash, encrypt).value) else old(file)
    {
      var hashed := SealSectionIn(c, "passwords", hash);
      if hashed.None? {
        return false;
      }
      var sealed := SealSectionIn(hashed.value, "api_keys", encrypt);
      if sealed.None? {
        return false;
      }
      file := Stored(sealed.value);
      ok := true;
    }

    /** `load_secure_config()`. */
    method LoadSecureConfig(decrypt: string -> Option<string>) returns (c: Config)
      ensures c == LoadView(file, decrypt)
    {
      if !file.Stored? {
        return DefaultConfig();
      }
      c := file.config;
      match Dict.Get<Section>(c, "api_keys") {
        case None =>
        case Some(Plain(_)) =>
          c := DefaultConfig();
        case Some(Object(entries)) =>
          var opened_ := OpenEntries(entries, decrypt);
          c := Dict.Put(c, "api_keys", Object(opened_));
      }
    }

    /** `get_raw_api_key(key_name)`. */
    function GetRawApiKey(name: string, decrypt: string -> Option<string>): string
      reads this
    {
      RawApiKey(file, name, decrypt)
    }

    /** `get_raw_password(level)`. */
    function GetRawPassword(level: string): Value
      reads this
    {
      RawPassword(file, level)
    }
  }
}
