/** Service configuration: the named provider presets, applying one to the global settings, the
    per-service validation rules and the total-cost rule of the cost estimate. */
module ServiceConfig {
  import opened Results
  import opened Text

  /** `ServiceProvider`. */
  datatype Provider =
    | Chroma | Pinecone | Zilliz | Weaviate | Qdrant
    | Local | S3 | Azure | Gcs
    | Sqlite | Postgresql | Mongodb
  {
    function Value(): string {
      match this
      case Chroma => "chroma"
      case Pinecone => "pinecone"
      case Zilliz => "zilliz"
      case Weaviate => "weaviate"
      case Qdrant => "qdrant"
      case Local => "local"
      case S3 => "s3"
      case Azure => "azure"
      case Gcs => "gcs"
      case Sqlite => "sqlite"
      case Postgresql => "postgresql"
      case Mongodb => "mongodb"
    }
  }

  datatype Preset = Preset(vectorStore: Provider, storage: Provider, database: Provider, description: string)

  const Development := Preset(Chroma, Local, Sqlite, "Local development setup - no cloud costs")
  const Budget := Preset(Zilliz, Azure, Mongodb, "Ultra-budget cloud setup - ~$7-17/month")
  const Standard := Preset(Pinecone, S3, Postgresql, "Standard production setup - ~$70-100/month")
  const Enterprise := Preset(Weaviate, Gcs, Postgresql, "Enterprise-grade setup - ~$100-200/month")

  /** `CONFIGURATIONS`, in its declaration order. */
  const Configurations: seq<(string, Preset)> :=
    [("development", Development), ("budget", Budget), ("standard", Standard), ("enterprise", Enterprise)]

  function Names(configs: seq<(string, Preset)>): (r: seq<string>)
    ensures |r| == |configs| && forall i :: 0 <= i < |configs| ==> r[i] == configs[i].0
  {
    if configs == [] then [] else [configs[0].0] + Names(configs[1..])
  }

  /** The first preset registered under `name`. */
  function Lookup(configs: seq<(string, Preset)>, name: string): (r: Option<Preset>)
    ensures r.Some? <==> name in Names(configs)
    ensures r.Some? ==> exists i :: 0 <= i < |configs| && configs[i] == (name, r.value)
  {
    if configs == [] then None
    else if configs[0].0 == name then Some(configs[0].1)
    else Lookup(configs[1..], name)
  }

  /** `get_configuration`: the preset of that name, or a `ValueError` naming the available presets. */
  function GetConfiguration(name: string): (r: Result<Preset>)
    ensures r.Success? <==> name in {"development", "budget", "standard", "enterprise"}
    ensures r.Failure? ==> r.error == "Unknown configuration '" + name + "'. Available: " + Join(Names(Configurations), ", ")
    ensures r.Success? ==> exists i :: 0 <= i < |Configurations| && Configurations[i] == (name, r.value)
  {
    ConfigurationNames();
    var p := Lookup(Configurations, name);
    if p.None? then
      Failure("Unknown configuration '" + name + "'. Available: " + Join(Names(Configurations), ", "))
    else Success(p.value)
  }

  lemma ConfigurationNames()
    ensures Names(Configurations) == ["development", "budget", "standard", "enterprise"]
  {
  }

  /** Each name finds its own preset. */
  lemma PresetsByName()
    ensures GetConfiguration("development") == Success(Development)
    ensures GetConfiguration("budget") == Success(Budget)
    ensures GetConfiguration("standard") == Success(Standard)
    ensures GetConfiguration("enterprise") == Success(Enterprise)
  {
    ConfigurationNames();
  }

  /** The preset names spelled out in the error message. */
  lemma AvailableNames()
    ensures Join(Names(Configurations), ", ") == "development, budget, standard, enterprise"
  {
    ConfigurationNames();
    JoinLastThree();
    var names := ["development", "budget", "standard", "enterprise"];
    assert names[1..] == ["budget", "standard", "enterprise"];
  }

  lemma JoinLastThree()
    ensures Join(["budget", "standard", "enterprise"], ", ") == "budget, standard, enterprise"
  {
    JoinLastTwo();
    assert ["budget", "standard", "enterprise"][1..] == ["standard", "enterprise"];
  }

  lemma JoinLastTwo()
    ensures Join(["standard", "enterprise"], ", ") == "standard, enterprise"
  {
    assert ["standard", "enterprise"][1..] == ["enterprise"];
  }

  /** `list_configurations`: exactly the preset names, each with its description. */
  function ListConfigurations(): (r: map<string, string>)
    ensures r.Keys == {"development", "budget", "standard", "enterprise"}
    ensures forall name :: name in r ==> GetConfiguration(name).Success? && r[name] == GetConfiguration(name).value.description
  {
    map name | name in {"development", "budget", "standard", "enterprise"} :: GetConfiguration(name).value.description
  }

  // ---------------------------------------------------------------------------------------------
  // Settings

  /** The credential settings the validators consult; `None` and `""` are both missing. */
  datatype Credentials = Credentials(
    pineconeApiKey: Option<string>,
    zillizApiKey: Option<string>,
    awsAccessKeyId: Option<string>,
    awsSecretAccessKey: Option<string>,
    s3BucketName: Option<string>,
    azureStorageAccount: Option<string>,
    azureStorageKey: Option<string>,
    databaseUrl: Option<string>,
    postgresHost: Option<string>,
    postgresUser: Option<string>,
    postgresPassword: Option<string>,
    postgresDb: Option<string>,
    mongodbConnectionString: Option<string>)

  datatype ServiceSettings = ServiceSettings(
    vectorStoreType: string, storageType: string, databaseType: string, credentials: Credentials)

  /** The global `settings` object, as far as service selection goes. */
  class Settings {
    var vectorStoreType: string
    var storageType: string
    var databaseType: string
    const credentials: Credentials

    constructor (vectorStoreType: string, storageType: string, databaseType: string, credentials: Credentials)
      ensures Snapshot() == ServiceSettings(vectorStoreType, storageType, databaseType, credentials)
    {
      this.vectorStoreType := vectorStoreType;
      this.storageType := storageType;
      this.databaseType := databaseType;
      this.credentials := credentials;
    }

    function Snapshot(): ServiceSettings
      reads this
    {
      ServiceSettings(vectorStoreType, storageType, databaseType, credentials)
    }
  }

  /** `apply_configuration`: an unknown name raises before any field changes; otherwise exactly the
      three provider fields take the preset's values. */
  method ApplyConfiguration(settings: Settings, name: string) returns (r: Result<()>)
    modifies settings
    ensures r.Failure? <==> GetConfiguration(name).Failure?
    ensures r.Failure? ==> settings.Snapshot() == old(settings.Snapshot())
    ensures r.Success? ==>
      var p := GetConfiguration(name).value;
      settings.Snapshot() == old(settings.Snapshot()).(
        vectorStoreType := p.vectorStore.Value(), storageType := p.storage.Value(), databaseType := p.database.Value())
  {
    var config := GetConfiguration(name);
    if config.Failure? {
      return Failure(config.error);
    }
    settings.vectorStoreType := config.value.vectorStore.Value();
    settings.storageType := config.value.storage.Value();
    settings.databaseType := config.value.database.Value();
    r := Success(());
  }

  // ---------------------------------------------------------------------------------------------
  // Validation

  datatype Status = Status(valid: bool, errors: seq<string>, warnings: seq<string>)

  /** A status is invalid exactly when it carries an error. */
  predicate Consistent(st: Status) {
    st.valid <==> st.errors == []
  }

  const PineconeKeyError := "Pinecone API key is required"
  const ZillizKeyError := "Zilliz API key is required"
  const ChromaWarning := "ChromaDB is not suitable for production deployment"
  const AwsCredentialsError := "AWS credentials are required for S3"
  const S3BucketError := "S3 bucket name is required"
  const AzureCredentialsError := "Azure Storage credentials are required"
  const LocalStorageWarning := "Local storage is not suitable for production deployment"
  const PostgresError := "PostgreSQL connection details are required"
  const MongoError := "MongoDB connection string is required"
  const SqliteWarning := "SQLite is not suitable for production deployment"

  /** `_validate_vector_store`: the type is compared lowercased; a cloud store without its key is
      invalid, Chroma is valid with a warning, any other type is valid without messages. */
  function ValidateVectorStore(s: ServiceSettings): (st: Status)
    ensures Consistent(st) && |st.errors| <= 1 && |st.warnings| <= 1
    ensures var t := Lower(s.vectorStoreType);
      (t == "pinecone" ==> (st.valid <==> Truthy(s.credentials.pineconeApiKey)) && st.warnings == []) &&
      (t == "zilliz" ==> (st.valid <==> Truthy(s.credentials.zillizApiKey)) && st.warnings == []) &&
      (t == "chroma" ==> st.valid && st.warnings == [ChromaWarning]) &&
      (t !in {"pinecone", "zilliz", "chroma"} ==> st == Status(true, [], []))
  {
    var t := Lower(s.vectorStoreType);
    if t == "pinecone" then
      if !Truthy(s.credentials.pineconeApiKey) then Status(false, [PineconeKeyError], []) else Status(true, [], [])
    else if t == "zilliz" then
      if !Truthy(s.credentials.zillizApiKey) then Status(false, [ZillizKeyError], []) else Status(true, [], [])
    else if t == "chroma" then Status(true, [], [ChromaWarning])
    else Status(true, [], [])
  }

  /** `_validate_storage`: S3 checks its credentials and its bucket separately (up to two errors,
      in that order), Azure its credentials, local storage warns. */
  function ValidateStorage(s: ServiceSettings): (st: Status)
    ensures Consistent(st) && |st.errors| <= 2 && |st.warnings| <= 1
    ensures var t := Lower(s.storageType); var c := s.credentials;
      (t == "s3" ==>
        st.warnings == [] &&
        st.errors ==
          (if Truthy(c.awsAccessKeyId) && Truthy(c.awsSecretAccessKey) then [] else [AwsCredentialsError]) +
          (if Truthy(c.s3BucketName) then [] else [S3BucketError])) &&
      (t == "azure" ==>
        (st.valid <==> Truthy(c.azureStorageAccount) && Truthy(c.azureStorageKey)) && st.warnings == []) &&
      (t == "local" ==> st.valid && st.warnings == [LocalStorageWarning]) &&
      (t !in {"s3", "azure", "local"} ==> st == Status(true, [], []))
  {
    var t := Lower(s.storageType);
    var c := s.credentials;
    if t == "s3" then
      var e1 := if !Truthy(c.awsAccessKeyId) || !Truthy(c.awsSecretAccessKey) then [AwsCredentialsError] else [];
      var e2 := if !Truthy(c.s3BucketName) then [S3BucketError] else [];
      Status(e1 + e2 == [], e1 + e2, [])
    else if t == "azure" then
      if !Truthy(c.azureStorageAccount) || !Truthy(c.azureStorageKey) then Status(false, [AzureCredentialsError], [])
      else Status(true, [], [])
    else if t == "local" then Status(true, [], [LocalStorageWarning])
    else Status(true, [], [])
  }

  /** The four separate PostgreSQL settings are all present. */
  predicate PostgresDetails(c: Credentials) {
    Truthy(c.postgresHost) && Truthy(c.postgresUser) && Truthy(c.postgresPassword) && Truthy(c.postgresDb)
  }

  /** `_validate_database`: PostgreSQL needs a database URL or all four separate details, MongoDB a
      connection string; SQLite warns. */
  function ValidateDatabase(s: ServiceSettings): (st: Status)
    ensures Consistent(st) && |st.errors| <= 1 && |st.warnings| <= 1
    ensures var t := Lower(s.databaseType); var c := s.credentials;
      (t == "postgresql" ==> (st.valid <==> Truthy(c.databaseUrl) || PostgresDetails(c)) && st.warnings == []) &&
      (t == "mongodb" ==> (st.valid <==> Truthy(c.mongodbConnectionString)) && st.warnings == []) &&
      (t == "sqlite" ==> st.valid && st.warnings == [SqliteWarning]) &&
      (t !in {"postgresql", "mongodb", "sqlite"} ==> st == Status(true, [], []))
  {
    var t := Lower(s.databaseType);
    var c := s.credentials;
    if t == "postgresql" then
      if !Truthy(c.databaseUrl) && !PostgresDetails(c) then Status(false, [PostgresError], [])
      else Status(true, [], [])
    else if t == "mongodb" then
      if !Truthy(c.mongodbConnectionString) then Status(false, [MongoError], []) else Status(true, [], [])
    else if t == "sqlite" then Status(true, [], [SqliteWarning])
    else Status(true, [], [])
  }

  /** The per-service statuses, in the order `validate_configuration` records them. */
  function Statuses(s: ServiceSettings): seq<(string, Status)> {
    [("vector_store", ValidateVectorStore(s)), ("storage", ValidateStorage(s)), ("database", ValidateDatabase(s))]
  }

  datatype Validation = Validation(valid: bool, errors: seq<string>, warnings: seq<string>, services: seq<(string, Status)>)

  /** The errors of the invalid statuses and the warnings of all, in order. */
  function InvalidErrors(sts: seq<(string, Status)>): seq<string> {
    if sts == [] then []
    else InvalidErrors(sts[..|sts| - 1]) + (if sts[|sts| - 1].1.valid then [] else sts[|sts| - 1].1.errors)
  }

  function AllWarnings(sts: seq<(string, Status)>): seq<string> {
    if sts == [] then [] else AllWarnings(sts[..|sts| - 1]) + sts[|sts| - 1].1.warnings
  }

  function AllValid(sts: seq<(string, Status)>): bool {
    if sts == [] then true else AllValid(sts[..|sts| - 1]) && sts[|sts| - 1].1.valid
  }

  /** `validate_configuration`: validate the three services in order, then go through the statuses,
      marking the whole invalid and collecting the errors of each invalid one, and collecting every
      warning. */
  method ValidateConfiguration(settings: Settings) returns (result: Validation)
    ensures var s := settings.Snapshot();
      var vs, st, db := ValidateVectorStore(s), ValidateStorage(s), ValidateDatabase(s);
      result.services == Statuses(s) &&
      (result.valid <==> vs.valid && st.valid && db.valid) &&
      (result.valid <==> result.errors == []) &&
      result.errors == vs.errors + st.errors + db.errors &&
      result.warnings == vs.warnings + st.warnings + db.warnings
  {
    var s := settings.Snapshot();
    var services := Statuses(s);
    var valid, errors, warnings := CollectStatuses(services);
    StatusesCombine(s);
    result := Validation(valid, errors, warnings, services);
  }

  /** The loop of `validate_configuration` over the recorded statuses: an invalid status makes the
      whole invalid and contributes its errors; every status contributes its warnings. */
  method CollectStatuses(services: seq<(string, Status)>) returns (valid: bool, errors: seq<string>, warnings: seq<string>)
    ensures valid == AllValid(services) && errors == InvalidErrors(services) && warnings == AllWarnings(services)
  {
    valid := true;
    errors := [];
    warnings := [];
    var i := 0;
    while i < |services|
      invariant 0 <= i <= |services|
      invariant valid == AllValid(services[..i])
      invariant errors == InvalidErrors(services[..i])
      invariant warnings == AllWarnings(services[..i])
    {
      assert services[..i + 1][..i] == services[..i];
      var status := services[i].1;
      if !status.valid {
        valid := false;
        errors := errors + status.errors;
      }
      warnings := warnings + status.warnings;
      i := i + 1;
    }
    assert services[..i] == services;
  }

  /** Because a status is invalid exactly when it has errors, collecting only the invalid ones'
      errors is the same as concatenating all three error lists. */
  lemma StatusesCombine(s: ServiceSettings)
    ensures var sts := Statuses(s);
      var vs, st, db := ValidateVectorStore(s), ValidateStorage(s), ValidateDatabase(s);
      (AllValid(sts) <==> vs.valid && st.valid && db.valid) &&
      InvalidErrors(sts) == vs.errors + st.errors + db.errors &&
      AllWarnings(sts) == vs.warnings + st.warnings + db.warnings
  {
    var sts := Statuses(s);
    var vs, st, db := ValidateVectorStore(s), ValidateStorage(s), ValidateDatabase(s);
    assert sts[..1][..0] == [] && sts[..2][..1] == sts[..1] && sts[..3][..2] == sts[..2] && sts[..3] == sts;
    assert AllValid(sts[..1]) == vs.valid && InvalidErrors(sts[..1]) == vs.errors && AllWarnings(sts[..1]) == vs.warnings;
    assert AllValid(sts[..2]) == (vs.valid && st.valid) && InvalidErrors(sts[..2]) == vs.errors + st.errors;
    assert AllWarnings(sts[..2]) == vs.warnings + st.warnings;
  }

  /** The settings after applying a preset. */
  function Applied(s: ServiceSettings, p: Preset): ServiceSettings {
    s.(vectorStoreType := p.vectorStore.Value(), storageType := p.storage.Value(), databaseType := p.database.Value())
  }

  /** Provider values are already lower case, so the validators see them unchanged. */
  lemma LowerValue(p: Provider)
    ensures Lower(p.Value()) == p.Value()
  {
    var v := p.Value();
    assert forall k :: 0 <= k < |v| ==> !('A' <= v[k] <= 'Z');
  }

  /** The development preset needs no credentials: it always validates, with the three local-setup
      warnings in service order. */
  lemma DevelopmentAlwaysValid(s: ServiceSettings)
    ensures var d := Applied(s, Development);
      ValidateVectorStore(d).valid && ValidateStorage(d).valid && ValidateDatabase(d).valid &&
      ValidateVectorStore(d).warnings + ValidateStorage(d).warnings + ValidateDatabase(d).warnings ==
        [ChromaWarning, LocalStorageWarning, SqliteWarning]
  {
    LowerValue(Chroma);
    LowerValue(Local);
    LowerValue(Sqlite);
  }

  /** The standard preset validates iff the Pinecone key, both AWS credentials, the bucket, and a
      PostgreSQL URL or all four details are set. */
  lemma StandardNeedsCredentials(s: ServiceSettings)
    ensures var d := Applied(s, Standard); var c := s.credentials;
      (ValidateVectorStore(d).valid && ValidateStorage(d).valid && ValidateDatabase(d).valid) <==>
        Truthy(c.pineconeApiKey) && Truthy(c.awsAccessKeyId) && Truthy(c.awsSecretAccessKey) &&
        Truthy(c.s3BucketName) && (Truthy(c.databaseUrl) || PostgresDetails(c))
  {
    LowerValue(Pinecone);
    LowerValue(S3);
    LowerValue(Postgresql);
  }

  // ---------------------------------------------------------------------------------------------
  // Cost estimate

  const VectorStoreCosts: map<string, string> :=
    map["chroma" := "$0", "zilliz" := "$0-50", "pinecone" := "$70", "weaviate" := "$25-100", "qdrant" := "$25-75"]
  const StorageCosts: map<string, string> :=
    map["local" := "$0", "azure" := "$0-10", "s3" := "$5-20", "gcs" := "$5-20"]
  const DatabaseCosts: map<string, string> :=
    map["sqlite" := "$0", "mongodb" := "$0-25", "postgresql" := "$15-50"]

  const FreeTier := "Free tier available"

  /** The `total_cost` rule of `get_cost_estimate`, over the configured types as they are (not
      lowercased). An unknown vector store gives `Unknown`; otherwise an unknown storage or
      database type raises `KeyError`. */
  function TotalCost(s: ServiceSettings): (r: Result<string>)
    ensures s.vectorStoreType !in VectorStoreCosts ==> r == Success("Unknown")
    ensures s.vectorStoreType in VectorStoreCosts ==>
      (r.Success? <==> s.storageType in StorageCosts && s.databaseType in DatabaseCosts)
  {
    if s.vectorStoreType !in VectorStoreCosts then Success("Unknown")
    else if s.storageType !in StorageCosts then Failure("'" + s.storageType + "'")
    else if s.databaseType !in DatabaseCosts then Failure("'" + s.databaseType + "'")
    else
      var v, st, db := VectorStoreCosts[s.vectorStoreType], StorageCosts[s.storageType], DatabaseCosts[s.databaseType];
      if "$0" in [v, st, db] then Success(FreeTier)
      else Success("~$" + v + "-" + st + "-" + db + "/month")
  }

  /** With all three types known, the estimate is `Free tier available` iff some component costs
      exactly `$0`: a range such as `$0-50` does not count. */
  lemma FreeTierIff(s: ServiceSettings)
    requires s.vectorStoreType in VectorStoreCosts && s.storageType in StorageCosts && s.databaseType in DatabaseCosts
    ensures TotalCost(s) == Success(FreeTier) <==>
      VectorStoreCosts[s.vectorStoreType] == "$0" || StorageCosts[s.storageType] == "$0" ||
      DatabaseCosts[s.databaseType] == "$0"
  {
    var v, st, db := VectorStoreCosts[s.vectorStoreType], StorageCosts[s.storageType], DatabaseCosts[s.databaseType];
    if !("$0" in [v, st, db]) {
      var t := "~$" + v + "-" + st + "-" + db + "/month";
      assert t[0] == '~' && FreeTier[0] == 'F';
    }
  }

  /** The development preset, whose three services all cost `$0`, is on the free tier. */
  lemma DevelopmentIsFree(s: ServiceSettings)
    ensures TotalCost(Applied(s, Development)) == Success(FreeTier)
  {
  }

  /** The budget preset, all of whose costs start at `$0`, is not on the free tier, and its
      estimate repeats the dollar sign of the first cost. */
  lemma BudgetIsNotFree(s: ServiceSettings)
    ensures TotalCost(Applied(s, Budget)) == Success("~$$0-50-$0-10-$0-25/month")
  {
    var d := Applied(s, Budget);
    assert d.vectorStoreType == "zilliz" && d.storageType == "azure" && d.databaseType == "mongodb";
    assert VectorStoreCosts[d.vectorStoreType] == "$0-50" && StorageCosts[d.storageType] == "$0-10";
    assert DatabaseCosts[d.databaseType] == "$0-25";
    assert !("$0" in ["$0-50", "$0-10", "$0-25"]);
    assert "~$" + "$0-50" + "-" + "$0-10" + "-" + "$0-25" + "/month" == "~$$0-50-$0-10-$0-25/month";
  }

  lemma StandardEstimate(s: ServiceSettings)
    ensures TotalCost(Applied(s, Standard)) == Success("~$$70-$5-20-$15-50/month")
  {
    var d := Applied(s, Standard);
    assert d.vectorStoreType == "pinecone" && d.storageType == "s3" && d.databaseType == "postgresql";
    assert VectorStoreCosts[d.vectorStoreType] == "$70" && StorageCosts[d.storageType] == "$5-20";
    assert DatabaseCosts[d.databaseType] == "$15-50";
    assert !("$0" in ["$70", "$5-20", "$15-50"]);
    assert "~$" + "$70" + "-" + "$5-20" + "-" + "$15-50" + "/month" == "~$$70-$5-20-$15-50/month";
  }

  lemma EnterpriseEstimate(s: ServiceSettings)
    ensures TotalCost(Applied(s, Enterprise)) == Success("~$$25-100-$5-20-$15-50/month")
  {
    var d := Applied(s, Enterprise);
    assert d.vectorStoreType == "weaviate" && d.storageType == "gcs" && d.databaseType == "postgresql";
    assert VectorStoreCosts[d.vectorStoreType] == "$25-100" && StorageCosts[d.storageType] == "$5-20";
    assert DatabaseCosts[d.databaseType] == "$15-50";
    assert !("$0" in ["$25-100", "$5-20", "$15-50"]);
    assert "~$" + "$25-100" + "-" + "$5-20" + "-" + "$15-50" + "/month" == "~$$25-100-$5-20-$15-50/month";
  }

  /** Of the four presets, only the development one is on the free tier. */
  lemma OnlyDevelopmentIsFree(s: ServiceSettings, i: nat)
    requires i < |Configurations|
    ensures TotalCost(Applied(s, Configurations[i].1)) == Success(FreeTier) <==> Configurations[i].0 == "development"
  {
    DevelopmentIsFree(s);
    BudgetIsNotFree(s);
    StandardEstimate(s);
    EnterpriseEstimate(s);
    assert FreeTier[0] == 'F';
    assert "~$$0-50-$0-10-$0-25/month"[0] == '~' && "~$$70-$5-20-$15-50/month"[0] == '~';
    assert "~$$25-100-$5-20-$15-50/month"[0] == '~';
    assert "budget"[0] != 'd' && "standard"[0] != 'd' && "enterprise"[0] != 'd';
  }
}
