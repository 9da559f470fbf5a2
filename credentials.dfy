/**
 * Stored credentials: `CREATE CREDENTIALS` planning (`plan_create_credentials`),
 * looking up a named credentials object (`get_credentials_opts`) and merging
 * credentials into object-store options (`storage_options_with_credentials`).
 */
module Credentials {
  import opened Wrappers
  import opened Errors
  import Ast
  import opened Options

  /** The provider-specific contents of a credentials object. */
  datatype CredentialsOptions =
    | Debug(tableType: string)
    | Gcp(serviceAccountKey: string)
    | Aws(accessKeyId: string, secretAccessKey: string)
    | Azure(accountName: string, accessKey: string)
    | OpenAI(apiKey: string, apiBase: Option<string>, orgId: Option<string>)
  {
    /** The provider name this variant is created under. */
    function AsStr(): string {
      match this
      case Debug(_) => CREDS_DEBUG
      case Gcp(_) => CREDS_GCP
      case Aws(_, _) => CREDS_AWS
      case Azure(_, _) => CREDS_AZURE
      case OpenAI(_, _, _) => CREDS_OPENAI
    }
  }

  // Provider names, as spelled by the credentials catalog crate.
  const CREDS_DEBUG := "debug"
  const CREDS_GCP := "gcp"
  const CREDS_AWS := "aws"
  const CREDS_AZURE := "azure"
  const CREDS_OPENAI := "openai"

  const PROVIDERS: set<string> := {CREDS_DEBUG, CREDS_GCP, CREDS_AWS, CREDS_AZURE, CREDS_OPENAI}

  /** The options a provider cannot do without. */
  function RequiredKeys(provider: string): set<string> {
    if provider == CREDS_DEBUG then {"table_type"}
    else if provider == CREDS_GCP then {"service_account_key"}
    else if provider == CREDS_AWS then {"access_key_id", "secret_access_key"}
    else if provider == CREDS_AZURE then {"account_name", "access_key"}
    else if provider == CREDS_OPENAI then {"api_key"}
    else {}
  }

  /** Every option a provider reads (and so consumes). */
  function ProviderKeys(provider: string): set<string> {
    if provider == CREDS_OPENAI then {"api_key", "api_base", "org_id"} else RequiredKeys(provider)
  }

  function UnsupportedProvider(provider: string): PlanError {
    Internal("unsupported credentials provider: " + provider)
  }

  /**
   * The credentials options built from the options bag for a (normalized)
   * provider name. `parseTableType` parses a debug table type and renders it
   * back with its `to_string`.
   */
  function CredentialsFor(provider: string, m: map<string, string>, parseTableType: string -> Option<string>): (r: Result<CredentialsOptions, PlanError>)
    ensures provider !in PROVIDERS ==> r == Failure(UnsupportedProvider(provider))
    ensures r.Success? ==> r.value.AsStr() == provider && RequiredKeys(provider) <= m.Keys
    ensures provider in PROVIDERS && provider != CREDS_DEBUG ==> (r.Success? <==> RequiredKeys(provider) <= m.Keys)
    ensures provider == CREDS_DEBUG ==>
      (r.Success? <==> "table_type" in m && parseTableType(m["table_type"]).Some?)
    ensures r.Success? && r.value.Debug? ==> Some(r.value.tableType) == parseTableType(m["table_type"])
    ensures r.Success? && r.value.Gcp? ==> r.value.serviceAccountKey == m["service_account_key"]
    ensures r.Success? && r.value.Aws? ==>
      r.value.accessKeyId == m["access_key_id"] && r.value.secretAccessKey == m["secret_access_key"]
    ensures r.Success? && r.value.Azure? ==>
      r.value.accountName == m["account_name"] && r.value.accessKey == m["access_key"]
    ensures r.Success? && r.value.OpenAI? ==>
      r.value.apiKey == m["api_key"]
      && r.value.apiBase == (if "api_base" in m then Some(m["api_base"]) else None)
      && r.value.orgId == (if "org_id" in m then Some(m["org_id"]) else None)
  {
    if provider == CREDS_DEBUG then
      var tableType :- RequiredValue(m, "table_type", parseTableType);
      Success(Debug(tableType))
    else if provider == CREDS_GCP then
      var key :- RequiredValue(m, "service_account_key", AsString);
      Success(Gcp(key))
    else if provider == CREDS_AWS then
      var id :- RequiredValue(m, "access_key_id", AsString);
      var secret :- RequiredValue(m, "secret_access_key", AsString);
      Success(Aws(id, secret))
    else if provider == CREDS_AZURE then
      var account :- RequiredValue(m, "account_name", AsString);
      var key :- RequiredValue(m, "access_key", AsString);
      Success(Azure(account, key))
    else if provider == CREDS_OPENAI then
      var apiKey :- RequiredValue(m, "api_key", AsString);
      var apiBase := OptionalValue(m, "api_base", AsString).value;
      var orgId := OptionalValue(m, "org_id", AsString).value;
      Success(OpenAI(apiKey, apiBase, orgId))
    else
      Failure(UnsupportedProvider(provider))
  }

  /** The `CREATE CREDENTIALS` plan. */
  datatype CreateCredentials = CreateCredentials(name: string, options: CredentialsOptions, comment: string, orReplace: bool)

  /** The parsed `CREATE CREDENTIALS` statement; the options bag is passed separately. */
  datatype PlanCredentialArgs = PlanCredentialArgs(name: Ast.Ident, provider: Ast.Ident, comment: string, orReplace: bool)

  /**
   * `plan_create_credentials`: normalize the provider name, read the
   * provider's options from the bag, then normalize the credentials name.
   * On success exactly the provider's keys are consumed; on failure some of
   * them may be, and every other entry is left as it was.
   */
  method PlanCreateCredentials(
    stmt: PlanCredentialArgs, m: StatementOptions,
    normalize: Ast.Ident -> string, parseTableType: string -> Option<string>)
    returns (r: Result<CreateCredentials, PlanError>)
    modifies m
    ensures r.Success? <==> CredentialsFor(normalize(stmt.provider), old(m.inner), parseTableType).Success?
    ensures r.Failure? ==> r.error == CredentialsFor(normalize(stmt.provider), old(m.inner), parseTableType).error
    ensures r.Success? ==> r.value == CreateCredentials(
      normalize(stmt.name), CredentialsFor(normalize(stmt.provider), old(m.inner), parseTableType).value,
      stmt.comment, stmt.orReplace)
    ensures r.Success? ==> m.inner == old(m.inner) - ProviderKeys(normalize(stmt.provider))
    ensures m.inner.Keys <= old(m.inner.Keys)
    ensures forall k :: k in m.inner ==> k in old(m.inner) && m.inner[k] == old(m.inner)[k]
    ensures forall k :: k in old(m.inner) && k !in ProviderKeys(normalize(stmt.provider)) ==> k in m.inner
  {
    var provider := normalize(stmt.provider);
    var options: CredentialsOptions;
    if provider == CREDS_DEBUG {
      var tableType := m.RemoveRequired("table_type", parseTableType);
      if tableType.Failure? { return Failure(tableType.error); }
      options := Debug(tableType.value);
    } else if provider == CREDS_GCP {
      var key := m.RemoveRequired("service_account_key", AsString);
      if key.Failure? { return Failure(key.error); }
      options := Gcp(key.value);
    } else if provider == CREDS_AWS {
      var id := m.RemoveRequired("access_key_id", AsString);
      if id.Failure? { return Failure(id.error); }
      var secret := m.RemoveRequired("secret_access_key", AsString);
      if secret.Failure? { return Failure(secret.error); }
      options := Aws(id.value, secret.value);
    } else if provider == CREDS_AZURE {
      var account := m.RemoveRequired("account_name", AsString);
      if account.Failure? { return Failure(account.error); }
      var key := m.RemoveRequired("access_key", AsString);
      if key.Failure? { return Failure(key.error); }
      options := Azure(account.value, key.value);
    } else if provider == CREDS_OPENAI {
      var apiKey := m.RemoveRequired("api_key", AsString);
      if apiKey.Failure? { return Failure(apiKey.error); }
      // A string option always parses, so these two cannot fail.
      var apiBase := m.RemoveOptional("api_base", AsString);
      var orgId := m.RemoveOptional("org_id", AsString);
      options := OpenAI(apiKey.value, apiBase.value, orgId.value);
    } else {
      return Failure(UnsupportedProvider(provider));
    }
    r := Success(CreateCredentials(normalize(stmt.name), options, stmt.comment, stmt.orReplace));
  }

  /**
   * `get_credentials_opts`: no name means no credentials; a name the catalog
   * does not resolve is an error; otherwise the stored options.
   */
  function GetCredentialsOpts(credentials: Option<string>, resolve: string -> Option<CredentialsOptions>): (r: Result<Option<CredentialsOptions>, PlanError>)
    ensures credentials.None? ==> r == Success(None)
    ensures credentials.Some? ==>
      (r.Success? <==> resolve(credentials.value).Some?)
      && (r.Success? ==> r.value == resolve(credentials.value))
      && (r.Failure? ==> r.error == InvalidCredentials(credentials.value, "does not exist"))
  {
    match credentials
    case None => Success(None)
    case Some(name) =>
      match resolve(name)
      case None => Failure(InvalidCredentials(name, "does not exist"))
      case Some(opts) => Success(Some(opts))
  }

  // Object-store configuration keys the credentials are stored under.
  const GOOGLE_SERVICE_ACCOUNT_KEY := "google_service_account_key"
  const AWS_ACCESS_KEY_ID := "aws_access_key_id"
  const AWS_SECRET_ACCESS_KEY := "aws_secret_access_key"
  const AZURE_STORAGE_ACCOUNT_NAME := "azure_storage_account_name"
  const AZURE_STORAGE_ACCOUNT_KEY := "azure_storage_account_key"

  /** The object-store entries a credentials object contributes. */
  function CredentialEntries(creds: CredentialsOptions): map<string, string> {
    match creds
    case Debug(_) => map[]
    case OpenAI(_, _, _) => map[]
    case Gcp(key) => map[GOOGLE_SERVICE_ACCOUNT_KEY := key]
    case Aws(id, secret) => map[AWS_ACCESS_KEY_ID := id, AWS_SECRET_ACCESS_KEY := secret]
    case Azure(account, key) => map[AZURE_STORAGE_ACCOUNT_NAME := account, AZURE_STORAGE_ACCOUNT_KEY := key]
  }

  /** Debug and OpenAI add nothing, GCP one key, AWS and Azure two each. */
  lemma CredentialEntriesCount(creds: CredentialsOptions)
    ensures |CredentialEntries(creds).Keys| == match creds
      case Debug(_) => 0
      case OpenAI(_, _, _) => 0
      case Gcp(_) => 1
      case Aws(_, _) => 2
      case Azure(_, _) => 2
  {
    match creds
    case Aws(id, secret) =>
      assert CredentialEntries(creds).Keys == {AWS_ACCESS_KEY_ID} + {AWS_SECRET_ACCESS_KEY};
    case Azure(account, key) =>
      assert CredentialEntries(creds).Keys == {AZURE_STORAGE_ACCOUNT_NAME} + {AZURE_STORAGE_ACCOUNT_KEY};
    case Gcp(key) =>
      assert CredentialEntries(creds).Keys == {GOOGLE_SERVICE_ACCOUNT_KEY};
    case _ =>
  }

  /** Object-store options handed to the object store builder. */
  class StorageOptions {
    var inner: map<string, string>

    constructor (entries: map<string, string>)
      ensures inner == entries
    {
      inner := entries;
    }
  }

  /**
   * `storage_options_with_credentials`: insert the credentials' entries,
   * overwriting those keys and keeping every other key's value.
   */
  method StorageOptionsWithCredentials(storageOptions: StorageOptions, creds: CredentialsOptions)
    modifies storageOptions
    ensures storageOptions.inner == old(storageOptions.inner) + CredentialEntries(creds)
    ensures storageOptions.inner.Keys == old(storageOptions.inner.Keys) + CredentialEntries(creds).Keys
    ensures forall k :: k in old(storageOptions.inner) && k !in CredentialEntries(creds) ==>
      storageOptions.inner[k] == old(storageOptions.inner)[k]
    ensures (creds.Debug? || creds.OpenAI?) ==> storageOptions.inner == old(storageOptions.inner)
  {
    match creds
    case Debug(_) =>
    case OpenAI(_, _, _) =>
    case Gcp(key) =>
      storageOptions.inner := storageOptions.inner[GOOGLE_SERVICE_ACCOUNT_KEY := key];
    case Aws(id, secret) =>
      storageOptions.inner := storageOptions.inner[AWS_ACCESS_KEY_ID := id];
      storageOptions.inner := storageOptions.inner[AWS_SECRET_ACCESS_KEY := secret];
    case Azure(account, key) =>
      storageOptions.inner := storageOptions.inner[AZURE_STORAGE_ACCOUNT_NAME := account];
      storageOptions.inner := storageOptions.inner[AZURE_STORAGE_ACCOUNT_KEY := key];
  }
}
