// The credential manager: one shared instance per process, which reads `secrets.json`
// once and answers lookups by service and key, with defined errors for what is missing.

module Credentials {
  import opened Common

  /** `secrets.json` as the manager finds it: absent, present but not loadable, or a
      loaded object mapping service names to their settings. */
  datatype SecretsFile = Absent | Unloadable | Loaded(services: map<string, Json>)

  /** `_load_secrets`: the loaded object, or an empty map when the file is absent or does
      not load. */
  function LoadSecrets(f: SecretsFile): (r: map<string, Json>)
    ensures f.Loaded? ==> r == f.services
    ensures !f.Loaded? ==> r == map[]
  {
    if f.Loaded? then f.services else map[]
  }

  /** The outcome of `get`: a value, or the exception it raises. */
  datatype Lookup = Found(value: Json) | RuntimeErr | KeyErr | TypeErr

  /** `t` occurs in `s` as a substring (Python `t in s` on strings). */
  predicate Contains(s: string, t: string) {
    StartsWith(s, t) || (|s| > 0 && Contains(s[1..], t))
  }

  /** `key in data` followed by `data[key]` on a service's settings of any JSON shape: an
      object is looked up by key; a list or string that contains the key raises on the
      indexing (TypeError), one that does not raises KeyError; any other value cannot be
      searched (TypeError). */
  function Member(data: Json, key: string): Lookup {
    match data
    case JObj(m) => if key in m then Found(m[key]) else KeyErr
    case JArr(items) => if JStr(key) in items then TypeErr else KeyErr
    case JStr(s) => if Contains(s, key) then TypeErr else KeyErr
    case _ => TypeErr
  }

  /** `get(service, key)` over the loaded secrets. */
  function Get(secrets: map<string, Json>, service: string, key: Option<string>): Lookup {
    if secrets == map[] then RuntimeErr
    else if service !in secrets then KeyErr
    else if key.None? then Found(secrets[service])
    else Member(secrets[service], key.value)
  }

  /** Empty secrets raise RuntimeError for every lookup; an unknown service raises KeyError;
      without a key the whole service entry is returned; with a key, an object entry gives
      the key's value, or KeyError when it lacks the key; a value is found only where it
      is stored. */
  lemma GetSpec(secrets: map<string, Json>, service: string, key: Option<string>)
    ensures secrets == map[] <==> Get(secrets, service, key) == RuntimeErr
    ensures secrets != map[] && service !in secrets ==> Get(secrets, service, key) == KeyErr
    ensures secrets != map[] && service in secrets && key.None? ==> Get(secrets, service, key) == Found(secrets[service])
    ensures secrets != map[] && service in secrets && key.Some? && secrets[service].JObj? ==>
              var m := secrets[service].fields;
              Get(secrets, service, key) == if key.value in m then Found(m[key.value]) else KeyErr
    ensures Get(secrets, service, key).Found? ==>
              service in secrets &&
              (key.None? ==> Get(secrets, service, key).value == secrets[service]) &&
              (key.Some? ==> secrets[service].JObj? && key.value in secrets[service].fields &&
                             Get(secrets, service, key).value == secrets[service].fields[key.value])
  {
  }

  /** With no secrets file, or one that does not load, every lookup raises RuntimeError. */
  lemma MissingFileFailsEveryLookup(f: SecretsFile, service: string, key: Option<string>)
    requires !f.Loaded?
    ensures Get(LoadSecrets(f), service, key) == RuntimeErr
  {
  }

  /** One `CredentialManager` object: whether it has run its initialisation, and the
      secrets it holds. */
  class CredentialManager {
    var initialized: bool
    var secrets: map<string, Json>

    /** `__new__` on first use: not yet initialised and holding nothing. */
    constructor ()
      ensures !initialized && secrets == map[]
    {
      initialized := false;
      secrets := map[];
    }

    /** `__init__`: loads the secrets the first time only. */
    method Init(f: SecretsFile)
      modifies this
      ensures initialized
      ensures old(initialized) ==> secrets == old(secrets)
      ensures !old(initialized) ==> secrets == LoadSecrets(f)
    {
      if initialized {
        return;
      }
      secrets := LoadSecrets(f);
      initialized := true;
    }

    /** `get`. */
    function GetCredential(service: string, key: Option<string>): (r: Lookup)
      reads this
      ensures r.Found? ==> service in secrets
      ensures secrets == map[] ==> r == RuntimeErr
    {
      Get(secrets, service, key)
    }

    /** The convenience getters: the whole entry of `imap`, `smtp`, `llm` or `postgresql`. */
    function ImapCredentials(): (r: Lookup)
      reads this
      ensures r.Found? <==> "imap" in secrets
      ensures r.Found? ==> r.value == secrets["imap"]
    {
      GetCredential("imap", None)
    }

    function SmtpCredentials(): (r: Lookup)
      reads this
      ensures r.Found? <==> "smtp" in secrets
      ensures r.Found? ==> r.value == secrets["smtp"]
    {
      GetCredential("smtp", None)
    }

    function LlmConfig(): (r: Lookup)
      reads this
      ensures r.Found? <==> "llm" in secrets
      ensures r.Found? ==> r.value == secrets["llm"]
    {
      GetCredential("llm", None)
    }

    function DbCredentials(): (r: Lookup)
      reads this
      ensures r.Found? <==> "postgresql" in secrets
      ensures r.Found? ==> r.value == secrets["postgresql"]
    {
      GetCredential("postgresql", None)
    }
  }

  /** The process-wide state: the class attribute `_instance` and the module global
      `_credentials`. */
  class Process {
    var instance: CredentialManager?
    var credentials: CredentialManager?

    constructor ()
      ensures instance == null && credentials == null
    {
      instance := null;
      credentials := null;
    }

    /** Once it exists, the shared instance is initialised; `get_credentials` only ever
        holds the shared instance. */
    predicate Valid()
      reads this, instance
    {
      && (instance != null ==> instance.initialized)
      && (credentials != null ==> credentials == instance)
    }

    /** `CredentialManager()`: every call returns the same object; the first creates it and
        loads the secrets, later ones leave the secrets as they are, whatever the file now
        holds. */
    method NewCredentialManager(f: SecretsFile) returns (m: CredentialManager)
      requires Valid()
      modifies this`instance, instance
      ensures Valid()
      ensures instance == m
      ensures old(instance) != null ==> m == old(instance) && m.secrets == old(instance.secrets)
      ensures old(instance) == null ==> fresh(m) && m.secrets == LoadSecrets(f)
    {
      if instance == null {
        m := new CredentialManager();
        instance := m;
      } else {
        m := instance;
      }
      m.Init(f);
    }

    /** `get_credentials`: the memoised global, created on first use. */
    method GetCredentials(f: SecretsFile) returns (m: CredentialManager)
      requires Valid()
      modifies this, instance
      ensures Valid()
      ensures credentials == m && instance == m
      ensures old(credentials) != null ==> m == old(credentials) && m.secrets == old(credentials.secrets)
      ensures old(instance) != null ==> m == old(instance) && m.secrets == old(instance.secrets)
      ensures old(instance) == null ==> m.secrets == LoadSecrets(f)
    {
      if credentials == null {
        credentials := NewCredentialManager(f);
      }
      m := credentials;
    }
  }
}
