/**
 * The piped's configuration: the repositories, cloud providers and analysis
 * providers it is given, the lookups over them, the default Kubernetes
 * provider that is added when none is named, the decision whether an SSH
 * configuration must be written, and how one cloud provider entry is decoded
 * from its generic JSON form. JSON decoding itself is a parameter.
 */
module PipedConfig {
  import opened Wrappers

  type byte = bv8

  // ---------------------------------------------------------------------
  // Git
  // ---------------------------------------------------------------------

  datatype PipedGit = PipedGit(
    username: string,
    email: string,
    sshConfigFilePath: string,
    host: string,
    hostName: string,
    sshKeyFile: string,
    accessTokenFile: string)
  {
    /** An SSH configuration is needed as soon as any of its four SSH settings is given. */
    function ShouldConfigureSSHConfig(): (b: bool)
      ensures b <==> sshConfigFilePath != "" || host != "" || hostName != "" || sshKeyFile != ""
    {
      if sshConfigFilePath != "" then true
      else if host != "" then true
      else if hostName != "" then true
      else if sshKeyFile != "" then true
      else false
    }
  }

  /** The user name, e-mail and access-token file play no part in that decision. */
  lemma SSHConfigIgnoresIdentity(g: PipedGit, username: string, email: string, accessTokenFile: string)
    ensures g.(username := username, email := email, accessTokenFile := accessTokenFile).ShouldConfigureSSHConfig()
            == g.ShouldConfigureSSHConfig()
  {
  }

  // ---------------------------------------------------------------------
  // Repositories
  // ---------------------------------------------------------------------

  datatype PipedRepository = PipedRepository(repoId: string, remote: string, branch: string)

  /** The zero value a missed repository lookup returns. */
  const EmptyRepository := PipedRepository("", "", "")

  /** The map built by inserting the repositories in list order, each under its id. */
  function RepositoryMap(repos: seq<PipedRepository>): map<string, PipedRepository>
  {
    if repos == [] then map[]
    else RepositoryMap(repos[..|repos| - 1])[repos[|repos| - 1].repoId := repos[|repos| - 1]]
  }

  function RepoIds(repos: seq<PipedRepository>): set<string>
  {
    set r | r in repos :: r.repoId
  }

  /** The keys of the repository map are exactly the configured ids. */
  lemma {:induction false} RepositoryMapKeys(repos: seq<PipedRepository>)
    ensures RepositoryMap(repos).Keys == RepoIds(repos)
  {
    if repos != [] {
      var init := repos[..|repos| - 1];
      var last := repos[|repos| - 1];
      RepositoryMapKeys(init);
      assert repos == init + [last];
      assert RepoIds(repos) == RepoIds(init) + {last.repoId};
    }
  }

  /** Under each id the map holds the last repository in the list with that id. */
  lemma {:induction false} RepositoryMapLastWins(repos: seq<PipedRepository>, i: int)
    requires 0 <= i < |repos|
    requires forall j :: i < j < |repos| ==> repos[j].repoId != repos[i].repoId
    ensures repos[i].repoId in RepositoryMap(repos)
    ensures RepositoryMap(repos)[repos[i].repoId] == repos[i]
  {
    if i < |repos| - 1 {
      RepositoryMapLastWins(repos[..|repos| - 1], i);
    }
  }

  /** With unique ids every repository is found under its own id. */
  lemma RepositoryMapUniqueIds(repos: seq<PipedRepository>)
    requires forall i, j :: 0 <= i < j < |repos| ==> repos[i].repoId != repos[j].repoId
    ensures forall i :: 0 <= i < |repos| ==> repos[i].repoId in RepositoryMap(repos) &&
                                              RepositoryMap(repos)[repos[i].repoId] == repos[i]
  {
    forall i | 0 <= i < |repos|
      ensures repos[i].repoId in RepositoryMap(repos) && RepositoryMap(repos)[repos[i].repoId] == repos[i]
    {
      RepositoryMapLastWins(repos, i);
    }
  }

  // ---------------------------------------------------------------------
  // Cloud providers
  // ---------------------------------------------------------------------

  /** The cloud provider types the piped knows; any other string is kept as read. */
  datatype CloudProviderType = Kubernetes | Terraform | CloudRun | Lambda | UnknownType(raw: string)

  datatype KubernetesConfig = KubernetesConfig(masterURL: string, kubeConfigPath: string)
  datatype TerraformGCP = TerraformGCP(project: string, region: string, credentialsFile: string)
  datatype TerraformAWS = TerraformAWS(region: string)
  datatype TerraformConfig = TerraformConfig(gcp: Option<TerraformGCP>, aws: Option<TerraformAWS>)
  datatype CloudRunConfig = CloudRunConfig(project: string, region: string, platform: string, credentialsFile: string)
  datatype LambdaConfig = LambdaConfig(region: string)

  /** One cloud provider: a name, a type, and the configuration of that type. */
  datatype PipedCloudProvider = PipedCloudProvider(
    name: string,
    providerType: CloudProviderType,
    kubernetesConfig: Option<KubernetesConfig>,
    terraformConfig: Option<TerraformConfig>,
    cloudRunConfig: Option<CloudRunConfig>,
    lambdaConfig: Option<LambdaConfig>)

  const EmptyCloudProvider := PipedCloudProvider("", UnknownType(""), None, None, None, None)

  /** The provider added when the configuration names none called "kubernetes-default". */
  const DefaultKubernetesCloudProvider :=
    PipedCloudProvider("kubernetes-default", Kubernetes, Some(KubernetesConfig("", "")), None, None, None)

  predicate HasProviderNamed(cps: seq<PipedCloudProvider>, name: string)
  {
    exists i :: 0 <= i < |cps| && cps[i].name == name
  }

  /** The provider list once the default Kubernetes provider is enabled. */
  function WithDefaultKubernetes(cps: seq<PipedCloudProvider>): (r: seq<PipedCloudProvider>)
    ensures cps <= r
    ensures HasProviderNamed(r, DefaultKubernetesCloudProvider.name)
    ensures HasProviderNamed(cps, DefaultKubernetesCloudProvider.name) ==> r == cps
    ensures !HasProviderNamed(cps, DefaultKubernetesCloudProvider.name) ==> r == cps + [DefaultKubernetesCloudProvider]
  {
    if HasProviderNamed(cps, DefaultKubernetesCloudProvider.name) then cps
    else
      var r := cps + [DefaultKubernetesCloudProvider];
      assert r[|cps|].name == DefaultKubernetesCloudProvider.name;
      r
  }

  /** Enabling the default twice is enabling it once. */
  lemma WithDefaultKubernetesIdempotent(cps: seq<PipedCloudProvider>)
    ensures WithDefaultKubernetes(WithDefaultKubernetes(cps)) == WithDefaultKubernetes(cps)
  {
  }

  // ---------------------------------------------------------------------
  // Decoding a cloud provider
  // ---------------------------------------------------------------------

  /** The generic form of a provider entry: its config stays raw. */
  datatype GenericPipedCloudProvider = GenericPipedCloudProvider(name: string, providerType: CloudProviderType, config: seq<byte>)

  /** A decoded value together with the error the decoder reported, if any. */
  datatype Decoded<+T> = Decoded(value: T, err: Option<string>)

  /** The JSON decoder, one entry point per target type; each typed decoder
      starts from the empty configuration of its type. */
  datatype JsonDecoder = JsonDecoder(
    generic: seq<byte> -> Result<GenericPipedCloudProvider>,
    kubernetes: seq<byte> -> Decoded<KubernetesConfig>,
    terraform: seq<byte> -> Decoded<TerraformConfig>,
    cloudRun: seq<byte> -> Decoded<CloudRunConfig>,
    lambda: seq<byte> -> Decoded<LambdaConfig>)

  /** The receiver after decoding, and the error returned. */
  datatype Unmarshalled = Unmarshalled(provider: PipedCloudProvider, err: Option<string>)

  /** The configuration an entry of type t gets: the empty one when no raw
      config is given, otherwise what the decoder makes of it. */
  function DecodeConfig<T>(raw: seq<byte>, empty: T, decode: seq<byte> -> Decoded<T>): Decoded<T>
  {
    if |raw| > 0 then decode(raw) else Decoded(empty, None)
  }

  function UnsupportedTypeError(name: string): string
  {
    "unsupported cloud provider type: " + name
  }

  /** Decoding one cloud provider into the receiver p. When the generic form
      does not decode, p is left as it was. Otherwise name and type are taken
      from it and exactly the configuration of that type is (re)assigned; an
      unknown type is an error that names the provider. */
  function UnmarshalJson(p: PipedCloudProvider, data: seq<byte>, json: JsonDecoder): (u: Unmarshalled)
    ensures json.generic(data).Failure? ==> u == Unmarshalled(p, Some(json.generic(data).error))
    ensures json.generic(data).Success? ==>
              u.provider.name == json.generic(data).value.name &&
              u.provider.providerType == json.generic(data).value.providerType
    ensures u.provider.kubernetesConfig != p.kubernetesConfig ==> u.provider.providerType == Kubernetes
    ensures u.provider.terraformConfig != p.terraformConfig ==> u.provider.providerType == Terraform
    ensures u.provider.cloudRunConfig != p.cloudRunConfig ==> u.provider.providerType == CloudRun
    ensures u.provider.lambdaConfig != p.lambdaConfig ==> u.provider.providerType == Lambda
    ensures json.generic(data).Success? && json.generic(data).value.providerType == Kubernetes ==>
              var d := DecodeConfig(json.generic(data).value.config, KubernetesConfig("", ""), json.kubernetes);
              u.provider.kubernetesConfig == Some(d.value) && u.err == d.err
    ensures json.generic(data).Success? && json.generic(data).value.providerType == Terraform ==>
              var d := DecodeConfig(json.generic(data).value.config, TerraformConfig(None, None), json.terraform);
              u.provider.terraformConfig == Some(d.value) && u.err == d.err
    ensures json.generic(data).Success? && json.generic(data).value.providerType == CloudRun ==>
              var d := DecodeConfig(json.generic(data).value.config, CloudRunConfig("", "", "", ""), json.cloudRun);
              u.provider.cloudRunConfig == Some(d.value) && u.err == d.err
    ensures json.generic(data).Success? && json.generic(data).value.providerType == Lambda ==>
              var d := DecodeConfig(json.generic(data).value.config, LambdaConfig(""), json.lambda);
              u.provider.lambdaConfig == Some(d.value) && u.err == d.err
    ensures json.generic(data).Success? && json.generic(data).value.providerType.UnknownType? ==>
              u.err == Some(UnsupportedTypeError(json.generic(data).value.name))
  {
    match json.generic(data)
    case Failure(e) => Unmarshalled(p, Some(e))
    case Success(gp) =>
      var q := p.(name := gp.name, providerType := gp.providerType);
      match gp.providerType
      case Kubernetes =>
        var d := DecodeConfig(gp.config, KubernetesConfig("", ""), json.kubernetes);
        Unmarshalled(q.(kubernetesConfig := Some(d.value)), d.err)
      case Terraform =>
        var d := DecodeConfig(gp.config, TerraformConfig(None, None), json.terraform);
        Unmarshalled(q.(terraformConfig := Some(d.value)), d.err)
      case CloudRun =>
        var d := DecodeConfig(gp.config, CloudRunConfig("", "", "", ""), json.cloudRun);
        Unmarshalled(q.(cloudRunConfig := Some(d.value)), d.err)
      case Lambda =>
        var d := DecodeConfig(gp.config, LambdaConfig(""), json.lambda);
        Unmarshalled(q.(lambdaConfig := Some(d.value)), d.err)
      case UnknownType(_) =>
        Unmarshalled(q, Some(UnsupportedTypeError(q.name)))
  }

  function ConfigCount(p: PipedCloudProvider): nat
  {
    (if p.kubernetesConfig.Some? then 1 else 0) + (if p.terraformConfig.Some? then 1 else 0) +
    (if p.cloudRunConfig.Some? then 1 else 0) + (if p.lambdaConfig.Some? then 1 else 0)
  }

  /** Whether p carries the configuration its own type calls for. */
  predicate HasConfigOfItsType(p: PipedCloudProvider)
  {
    match p.providerType
    case Kubernetes => p.kubernetesConfig.Some?
    case Terraform => p.terraformConfig.Some?
    case CloudRun => p.cloudRunConfig.Some?
    case Lambda => p.lambdaConfig.Some?
    case UnknownType(_) => false
  }

  /** Decoding into a fresh provider sets exactly the configuration of the decoded
      type; an unknown type sets none and fails with the provider's name. */
  lemma UnmarshalFreshProvider(data: seq<byte>, json: JsonDecoder)
    requires json.generic(data).Success?
    ensures var u := UnmarshalJson(EmptyCloudProvider, data, json);
            && (u.provider.providerType.UnknownType? ==>
                  ConfigCount(u.provider) == 0 && u.err == Some(UnsupportedTypeError(json.generic(data).value.name)))
            && (!u.provider.providerType.UnknownType? ==> ConfigCount(u.provider) == 1 && HasConfigOfItsType(u.provider))
  {
  }

  /** An entry without a raw config decodes without error to the empty
      configuration of a known type. */
  lemma UnmarshalEmptyConfig(p: PipedCloudProvider, data: seq<byte>, json: JsonDecoder)
    requires json.generic(data).Success? && |json.generic(data).value.config| == 0
    requires !json.generic(data).value.providerType.UnknownType?
    ensures UnmarshalJson(p, data, json).err.None?
    ensures HasConfigOfItsType(UnmarshalJson(p, data, json).provider)
    ensures var q := UnmarshalJson(p, data, json).provider;
            && (q.providerType == Kubernetes ==> q.kubernetesConfig == Some(KubernetesConfig("", "")))
            && (q.providerType == Terraform ==> q.terraformConfig == Some(TerraformConfig(None, None)))
            && (q.providerType == CloudRun ==> q.cloudRunConfig == Some(CloudRunConfig("", "", "", "")))
            && (q.providerType == Lambda ==> q.lambdaConfig == Some(LambdaConfig("")))
  {
  }

  /** The error returned: the generic decode's, the typed decode's, or the
      unknown-type error; none otherwise. */
  lemma UnmarshalErrors(p: PipedCloudProvider, data: seq<byte>, json: JsonDecoder)
    ensures var u := UnmarshalJson(p, data, json);
            u.err.None? <==>
              && json.generic(data).Success?
              && var gp := json.generic(data).value;
                 match gp.providerType
                 case Kubernetes => DecodeConfig(gp.config, KubernetesConfig("", ""), json.kubernetes).err.None?
                 case Terraform => DecodeConfig(gp.config, TerraformConfig(None, None), json.terraform).err.None?
                 case CloudRun => DecodeConfig(gp.config, CloudRunConfig("", "", "", ""), json.cloudRun).err.None?
                 case Lambda => DecodeConfig(gp.config, LambdaConfig(""), json.lambda).err.None?
                 case UnknownType(_) => false
  {
  }

  // ---------------------------------------------------------------------
  // Analysis providers
  // ---------------------------------------------------------------------

  datatype AnalysisProviderPrometheus = AnalysisProviderPrometheus(address: string, usernameFile: string, passwordFile: string)
  datatype AnalysisProviderDatadog = AnalysisProviderDatadog(address: string, apiKeyFile: string, applicationKeyFile: string)
  datatype AnalysisProviderStackdriver = AnalysisProviderStackdriver(serviceAccountFile: string)

  datatype AnalysisProvider = AnalysisProvider(
    name: string,
    prometheus: Option<AnalysisProviderPrometheus>,
    datadog: Option<AnalysisProviderDatadog>,
    stackdriver: Option<AnalysisProviderStackdriver>)

  /** The zero value a missed provider lookup returns. */
  const EmptyAnalysisProvider := AnalysisProvider("", None, None, None)

  // ---------------------------------------------------------------------
  // The piped specification
  // ---------------------------------------------------------------------

  class PipedSpec {
    /** The period between two sync checks of the applications, in nanoseconds. */
    var syncInterval: int
    var git: PipedGit
    var repositories: seq<PipedRepository>
    var cloudProviders: seq<PipedCloudProvider>
    var analysisProviders: seq<AnalysisProvider>

    constructor (syncInterval: int, git: PipedGit, repositories: seq<PipedRepository>,
                 cloudProviders: seq<PipedCloudProvider>, analysisProviders: seq<AnalysisProvider>)
      ensures this.syncInterval == syncInterval && this.git == git && this.repositories == repositories
      ensures this.cloudProviders == cloudProviders && this.analysisProviders == analysisProviders
    {
      this.syncInterval := syncInterval;
      this.git := git;
      this.repositories := repositories;
      this.cloudProviders := cloudProviders;
      this.analysisProviders := analysisProviders;
    }

    /** Every configuration is accepted. */
    function Validate(): (err: Option<string>)
      ensures err.None?
    {
      None
    }

    /** Appends the default Kubernetes provider unless one of that name is configured. */
    method EnableDefaultKubernetesCloudProvider()
      modifies this`cloudProviders
      ensures cloudProviders == WithDefaultKubernetes(old(cloudProviders))
    {
      for i := 0 to |cloudProviders|
        invariant forall j :: 0 <= j < i ==> cloudProviders[j].name != DefaultKubernetesCloudProvider.name
      {
        if cloudProviders[i].name == DefaultKubernetesCloudProvider.name {
          return;
        }
      }
      cloudProviders := cloudProviders + [DefaultKubernetesCloudProvider];
    }

    /** The repositories keyed by id; a later repository replaces an earlier one of the same id. */
    method GetRepositoryMap() returns (m: map<string, PipedRepository>)
      ensures m == RepositoryMap(repositories)
      ensures m.Keys == RepoIds(repositories)
    {
      m := map[];
      for i := 0 to |repositories|
        invariant m == RepositoryMap(repositories[..i])
      {
        assert repositories[..i + 1][..i] == repositories[..i];
        m := m[repositories[i].repoId := repositories[i]];
      }
      assert repositories[..|repositories|] == repositories;
      RepositoryMapKeys(repositories);
    }

    /** The first repository with the given id, or the empty repository and false. */
    method GetRepository(id: string) returns (r: PipedRepository, found: bool)
      ensures found <==> exists i :: 0 <= i < |repositories| && repositories[i].repoId == id
      ensures found ==> exists i :: && 0 <= i < |repositories| && repositories[i] == r && r.repoId == id
                                    && forall j :: 0 <= j < i ==> repositories[j].repoId != id
      ensures !found ==> r == EmptyRepository
    {
      for i := 0 to |repositories|
        invariant forall j :: 0 <= j < i ==> repositories[j].repoId != id
      {
        if repositories[i].repoId == id {
          return repositories[i], true;
        }
      }
      return EmptyRepository, false;
    }

    /** The first analysis provider with the given name, or the empty provider and false. */
    method GetProvider(name: string) returns (p: AnalysisProvider, found: bool)
      ensures found <==> exists i :: 0 <= i < |analysisProviders| && analysisProviders[i].name == name
      ensures found ==> exists i :: && 0 <= i < |analysisProviders| && analysisProviders[i] == p && p.name == name
                                    && forall j :: 0 <= j < i ==> analysisProviders[j].name != name
      ensures !found ==> p == EmptyAnalysisProvider
    {
      for i := 0 to |analysisProviders|
        invariant forall j :: 0 <= j < i ==> analysisProviders[j].name != name
      {
        if analysisProviders[i].name == name {
          return analysisProviders[i], true;
        }
      }
      return EmptyAnalysisProvider, false;
    }
  }
}
