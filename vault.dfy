/**
  The metrics side of the Vault Prometheus exporter (app/metrics/vault.py):
  building a Vault client from one of three credential sources, computing the
  remaining validity of a certificate, and refreshing the gauge
  `vault_issuer_validity_seconds` from the PKI engines mounted in Vault.

  Vault itself, the Kubernetes login exchange, the PEM parser and the clock
  are inputs: `AuthBackend` says how the authentication calls behave, and
  `Cycle` says what every backend call of one refresh answers.
 */
module Vault {
  import opened Wrappers

  // ---------------------------------------------------------------------------
  // Credential selection (create_client)
  // ---------------------------------------------------------------------------

  /** The process configuration create_client reads: the environment
      variables and the contents of the two well-known token files
      (None when the file does not exist). */
  datatype Config = Config(
    vaultToken: Option<string>,     // VAULT_TOKEN
    userTokenFile: Option<string>,  // ~/.vault-token
    saTokenFile: Option<string>,    // the Kubernetes service-account token
    addr: Option<string>,           // VAULT_ADDR
    role: Option<string>,           // VAULT_ROLE
    mountPoint: Option<string>)     // VAULT_MOUNT_POINT

  /** A constructed client: either built with a token, or built without one
      and then logged in through the Kubernetes auth method. */
  datatype Client =
    | TokenClient(addr: Option<string>, token: string)
    | K8sLogin(addr: Option<string>, role: Option<string>, jwt: string, mountPoint: Option<string>)

  /** Why create_client raised: no credential source at all, or a call to
      Vault (the login, or the authentication probe) raised. */
  datatype ClientError = ConfigError | BackendError

  datatype Call = Returns | Raises

  /** What `client.is_authenticated()` does: answer a boolean, or raise. */
  datatype Probe = Answers(authenticated: bool) | ProbeRaises

  /** How Vault's authentication endpoints behave for this call. */
  datatype AuthBackend = AuthBackend(login: Call, isAuthenticated: Probe)

  predicate NoCredentialSource(cfg: Config)
  {
    cfg.vaultToken.None? && cfg.userTokenFile.None? && cfg.saTokenFile.None?
  }

  /** The service-account branch is the one taken. */
  predicate UsesServiceAccount(cfg: Config)
  {
    cfg.vaultToken.None? && cfg.userTokenFile.None? && cfg.saTokenFile.Some?
  }

  /** create_client: the first credential source present wins; the answer of
      `is_authenticated()` is discarded, only its raising matters. */
  function CreateClient(cfg: Config, auth: AuthBackend): (r: Result<Client, ClientError>)
    ensures r == Err(ConfigError) <==> NoCredentialSource(cfg)
    ensures r.Ok? <==>
      && !NoCredentialSource(cfg)
      && !auth.isAuthenticated.ProbeRaises?
      && (UsesServiceAccount(cfg) ==> auth.login.Returns?)
    ensures r.Ok? ==> r.value.addr == cfg.addr
    ensures r.Ok? ==> (r.value.K8sLogin? <==> UsesServiceAccount(cfg))
  {
    var built: Result<Client, ClientError> :=
      if cfg.vaultToken.Some? then
        Ok(TokenClient(cfg.addr, cfg.vaultToken.value))
      else if cfg.userTokenFile.Some? then
        Ok(TokenClient(cfg.addr, cfg.userTokenFile.value))
      else if cfg.saTokenFile.Some? then
        match auth.login
        case Raises => Err(BackendError)
        case Returns => Ok(K8sLogin(cfg.addr, cfg.role, cfg.saTokenFile.value, cfg.mountPoint))
      else
        Err(ConfigError);
    if built.Err? then built
    else
      match auth.isAuthenticated
      case ProbeRaises => Err(BackendError)
      case Answers(_) => built
  }

  /** A set VAULT_TOKEN (any value, the empty string included) is used
      verbatim, and neither token file is consulted. */
  lemma EnvTokenWins(cfg: Config, auth: AuthBackend, user: Option<string>, sa: Option<string>)
    requires cfg.vaultToken.Some?
    ensures CreateClient(cfg, auth) == CreateClient(cfg.(userTokenFile := user, saTokenFile := sa), auth)
    ensures !auth.isAuthenticated.ProbeRaises? ==>
      CreateClient(cfg, auth) == Ok(TokenClient(cfg.addr, cfg.vaultToken.value))
  {
  }

  /** Without VAULT_TOKEN, an existing user token file supplies the token
      verbatim, and the service-account file is not consulted. */
  lemma UserTokenFileVerbatim(cfg: Config, auth: AuthBackend, sa: Option<string>)
    requires cfg.vaultToken.None? && cfg.userTokenFile.Some?
    ensures CreateClient(cfg, auth) == CreateClient(cfg.(saTokenFile := sa), auth)
    ensures !auth.isAuthenticated.ProbeRaises? ==>
      CreateClient(cfg, auth) == Ok(TokenClient(cfg.addr, cfg.userTokenFile.value))
  {
  }

  /** Otherwise an existing service-account file leads to a Kubernetes login
      with VAULT_ROLE, the file's contents as JWT and VAULT_MOUNT_POINT. */
  lemma ServiceAccountLogin(cfg: Config, auth: AuthBackend)
    requires UsesServiceAccount(cfg)
    ensures auth.login.Raises? ==> CreateClient(cfg, auth) == Err(BackendError)
    ensures auth.login.Returns? && !auth.isAuthenticated.ProbeRaises? ==>
      CreateClient(cfg, auth) == Ok(K8sLogin(cfg.addr, cfg.role, cfg.saTokenFile.value, cfg.mountPoint))
  {
  }

  /** With no credential source the answer is VaultClientConfigError,
      whatever the address, role, mount point or backend. */
  lemma NoSourceIsConfigError(cfg: Config, auth: AuthBackend)
    requires NoCredentialSource(cfg)
    ensures CreateClient(cfg, auth) == Err(ConfigError)
  {
  }

  /** The boolean `is_authenticated()` answers does not change the outcome:
      a client that reports itself unauthenticated is still returned. */
  lemma AuthenticatedAnswerIgnored(cfg: Config, login: Call, a: bool, b: bool)
    ensures CreateClient(cfg, AuthBackend(login, Answers(a)))
         == CreateClient(cfg, AuthBackend(login, Answers(b)))
  {
  }

  // ---------------------------------------------------------------------------
  // Remaining validity (get_certificate_validity)
  // ---------------------------------------------------------------------------

  const SecondsPerDay: int := 24 * 3600

  /** Seconds from `now` until the certificate's notAfter instant; positive
      while the certificate is valid, negative once it has expired. */
  function CertificateValidity(notValidAfter: int, now: int): (r: int)
    ensures r > 0 <==> now < notValidAfter
    ensures r < 0 <==> notValidAfter < now
    ensures now + r == notValidAfter
  {
    notValidAfter - now
  }

  /** A certificate issued for `days` days and inspected less than a day
      after issue has between days - 1 and days days left. */
  lemma ValidForDays(days: int, issued: int, now: int)
    requires issued <= now < issued + SecondsPerDay
    ensures (days - 1) * SecondsPerDay < CertificateValidity(issued + days * SecondsPerDay, now) <= days * SecondsPerDay
  {
  }

  /** A 30-day certificate inspected within its first 20 days has more than
      10 days of validity left. */
  lemma ThirtyDayCertificate(issued: int, now: int)
    requires issued <= now < issued + 20 * SecondsPerDay
    ensures CertificateValidity(issued + 30 * SecondsPerDay, now) > 10 * SecondsPerDay
  {
  }

  // ---------------------------------------------------------------------------
  // The gauge vault_issuer_validity_seconds
  // ---------------------------------------------------------------------------

  /** The label set of one gauge sample: engine, issuer and url. */
  datatype Labels = Labels(engine: string, issuer: string, url: Option<string>)

  function Lookup(samples: map<Labels, int>, k: Labels): Option<int>
  {
    if k in samples then Some(samples[k]) else None
  }

  /** The labelled gauge; re-setting a label set overwrites its value. */
  class Gauge {
    var samples: map<Labels, int>

    constructor ()
      ensures samples == map[]
    {
      samples := map[];
    }

    /** `certificate_expiry.labels(...).set(value)` */
    method Set(labels: Labels, value: int)
      modifies this
      ensures samples == old(samples)[labels := value]
    {
      samples := samples[labels := value];
    }
  }

  // ---------------------------------------------------------------------------
  // What one refresh cycle observes
  // ---------------------------------------------------------------------------

  /** One entry of `response['data']`: mount path and engine type. */
  datatype MountEntry = MountEntry(path: string, engineType: string)

  /** `sys.list_mounted_secrets_engines()`: raises, answers without a
      'data' key, or lists the mounts in order. */
  datatype MountsResponse = MountsRaise | MountsNoData | MountsData(entries: seq<MountEntry>)

  /** `secrets.pki.list_issuers(mount_point=engine)`: raises InvalidPath,
      raises anything else, answers without 'data', or answers 'data' with
      or without 'keys'. */
  datatype IssuerListing = InvalidPath | ListingRaise | ListingNoData | ListingData(keys: Option<seq<string>>)

  /** `secrets.pki.read_issuer(issuer, mount_point=engine)`: raises, answers
      without 'data', or answers 'data' with or without 'certificate'. */
  datatype IssuerDetails = DetailsRaise | DetailsNoData | DetailsData(certificate: Option<string>)

  /** The per-engine and per-issuer backend calls, the PEM parser (None
      when the text is not a certificate, which raises) and the clock, as
      seen by one refresh. */
  datatype Cycle = Cycle(
    listIssuers: string -> IssuerListing,
    readIssuer: (string, string) -> IssuerDetails,
    notValidAfter: string -> Option<int>,
    now: int)

  /** Where a refresh stands: still running, or stopped by an exception
      after having set some samples (which stay set). */
  datatype Progress = Running(samples: map<Labels, int>) | Stopped(samples: map<Labels, int>)

  /** How update_metrics ended. */
  datatype Outcome = Completed | ClientUnavailable | NoMountData | Aborted

  datatype RefreshResult = RefreshResult(samples: map<Labels, int>, outcome: Outcome)

  // ---------------------------------------------------------------------------
  // Specification of update_metrics
  // ---------------------------------------------------------------------------

  /** The paths of the mounts whose type is exactly "pki", in mount order. */
  function PkiEngines(entries: seq<MountEntry>): seq<string>
    decreases |entries|
  {
    if |entries| == 0 then []
    else
      var rest := PkiEngines(entries[..|entries| - 1]);
      var last := entries[|entries| - 1];
      if last.engineType == "pki" then rest + [last.path] else rest
  }

  /** The issuer ids a listing yields: its 'keys', or none. */
  function IssuersOf(listing: IssuerListing): seq<string>
  {
    match listing
    case ListingData(Some(keys)) => keys
    case _ => []
  }

  /** The value update_metrics sets for (engine, issuer), when it sets one. */
  function Expected(c: Cycle, engine: string, issuer: string): Option<int>
  {
    match c.readIssuer(engine, issuer)
    case DetailsData(Some(pem)) => GetCertificateValidity(c, pem)
    case _ => None
  }

  /** One pass of the inner loop, for one issuer. */
  function IssuerStep(p: Progress, c: Cycle, url: Option<string>, engine: string, issuer: string): Progress
  {
    if p.Stopped? then p
    else
      match c.readIssuer(engine, issuer)
      case DetailsRaise => Stopped(p.samples)
      case DetailsNoData => p
      case DetailsData(None) => p
      case DetailsData(Some(pem)) =>
        match GetCertificateValidity(c, pem)
        case None => Stopped(p.samples)
        case Some(v) => Running(p.samples[Labels(engine, issuer, url) := v])
  }

  /** The inner loop over the issuers of one engine. */
  function FoldIssuers(p: Progress, c: Cycle, url: Option<string>, engine: string, issuers: seq<string>): Progress
    decreases |issuers|
  {
    if |issuers| == 0 then p
    else IssuerStep(FoldIssuers(p, c, url, engine, issuers[..|issuers| - 1]), c, url, engine, issuers[|issuers| - 1])
  }

  /** One pass of the outer loop, for one PKI engine. */
  function EngineStep(p: Progress, c: Cycle, url: Option<string>, engine: string): Progress
  {
    if p.Stopped? then p
    else
      match c.listIssuers(engine)
      case InvalidPath => p
      case ListingRaise => Stopped(p.samples)
      case _ => FoldIssuers(p, c, url, engine, IssuersOf(c.listIssuers(engine)))
  }

  /** The outer loop over the PKI engines. */
  function FoldEngines(p: Progress, c: Cycle, url: Option<string>, engines: seq<string>): Progress
    decreases |engines|
  {
    if |engines| == 0 then p
    else EngineStep(FoldEngines(p, c, url, engines[..|engines| - 1]), c, url, engines[|engines| - 1])
  }

  /** update_metrics as a function of the gauge before the call. */
  function Refresh(samples: map<Labels, int>, cfg: Config, auth: AuthBackend, mounts: MountsResponse, c: Cycle): RefreshResult
  {
    match CreateClient(cfg, auth)
    case Err(_) => RefreshResult(samples, ClientUnavailable)
    case Ok(_) =>
      match mounts
      case MountsRaise => RefreshResult(samples, Aborted)
      case MountsNoData => RefreshResult(samples, NoMountData)
      case MountsData(entries) =>
        var p := FoldEngines(Running(samples), c, cfg.addr, PkiEngines(entries));
        RefreshResult(p.samples, if p.Running? then Completed else Aborted)
  }

  /** The engines a refresh visits. */
  function Visited(mounts: MountsResponse): seq<string>
  {
    if mounts.MountsData? then PkiEngines(mounts.entries) else []
  }

  /** Whether the refresh sets the sample `k`: its url is VAULT_ADDR, its
      engine is visited, its issuer is listed there and has a readable
      certificate. */
  predicate Written(c: Cycle, url: Option<string>, engines: seq<string>, k: Labels)
  {
    && k.url == url
    && k.engine in engines
    && k.issuer in IssuersOf(c.listIssuers(k.engine))
    && Expected(c, k.engine, k.issuer).Some?
  }

  predicate WrittenBy(c: Cycle, url: Option<string>, engine: string, issuers: seq<string>, k: Labels)
  {
    k.engine == engine && k.url == url && k.issuer in issuers && Expected(c, engine, k.issuer).Some?
  }

  // ---------------------------------------------------------------------------
  // Lemmas about the specification
  // ---------------------------------------------------------------------------

  /** The filter keeps mount order: it distributes over concatenation. */
  lemma {:induction false} PkiEnginesAppend(a: seq<MountEntry>, b: seq<MountEntry>)
    ensures PkiEngines(a + b) == PkiEngines(a) + PkiEngines(b)
    decreases |b|
  {
    if |b| == 0 {
      assert a + b == a;
    } else {
      var b' := b[..|b| - 1];
      assert (a + b)[..|a + b| - 1] == a + b';
      assert (a + b)[|a + b| - 1] == b[|b| - 1];
      PkiEnginesAppend(a, b');
    }
  }

  /** An engine is visited exactly when some mount has that path and type "pki". */
  lemma {:induction false} PkiEnginesMember(entries: seq<MountEntry>, e: string)
    ensures e in PkiEngines(entries) <==> exists j :: 0 <= j < |entries| && entries[j] == MountEntry(e, "pki")
    decreases |entries|
  {
    if |entries| > 0 {
      var init := entries[..|entries| - 1];
      PkiEnginesMember(init, e);
      if exists j :: 0 <= j < |init| && init[j] == MountEntry(e, "pki") {
        var j :| 0 <= j < |init| && init[j] == MountEntry(e, "pki");
        assert entries[j] == MountEntry(e, "pki");
      }
      if exists j :: 0 <= j < |entries| && entries[j] == MountEntry(e, "pki") {
        var j :| 0 <= j < |entries| && entries[j] == MountEntry(e, "pki");
        if j < |init| {
          assert init[j] == MountEntry(e, "pki");
        }
      }
    }
  }

  /** A mount of any type other than "pki" (a kv engine, say) is not visited. */
  lemma NonPkiMountNotVisited(a: seq<MountEntry>, x: MountEntry, b: seq<MountEntry>)
    requires x.engineType != "pki"
    ensures PkiEngines(a + [x] + b) == PkiEngines(a + b)
  {
    PkiEnginesAppend(a + [x], b);
    PkiEnginesAppend(a, [x]);
    PkiEnginesAppend(a, b);
    assert [x][..0] == [];
  }

  /** Once stopped, the issuer loop sets nothing more. */
  lemma {:induction false} FoldIssuersStopped(m: map<Labels, int>, c: Cycle, url: Option<string>, engine: string, issuers: seq<string>)
    ensures FoldIssuers(Stopped(m), c, url, engine, issuers) == Stopped(m)
    decreases |issuers|
  {
    if |issuers| > 0 {
      FoldIssuersStopped(m, c, url, engine, issuers[..|issuers| - 1]);
    }
  }

  /** Running the issuer loop over a + b is running it over a, then over b. */
  lemma {:induction false} FoldIssuersAppend(p: Progress, c: Cycle, url: Option<string>, engine: string, a: seq<string>, b: seq<string>)
    ensures FoldIssuers(p, c, url, engine, a + b) == FoldIssuers(FoldIssuers(p, c, url, engine, a), c, url, engine, b)
    decreases |b|
  {
    if |b| == 0 {
      assert a + b == a;
    } else {
      assert (a + b)[..|a + b| - 1] == a + b[..|b| - 1];
      assert (a + b)[|a + b| - 1] == b[|b| - 1];
      FoldIssuersAppend(p, c, url, engine, a, b[..|b| - 1]);
    }
  }

  /** Once stopped, the engine loop sets nothing more. */
  lemma {:induction false} FoldEnginesStopped(m: map<Labels, int>, c: Cycle, url: Option<string>, engines: seq<string>)
    ensures FoldEngines(Stopped(m), c, url, engines) == Stopped(m)
    decreases |engines|
  {
    if |engines| > 0 {
      FoldEnginesStopped(m, c, url, engines[..|engines| - 1]);
    }
  }

  /** Running the engine loop over a + b is running it over a, then over b. */
  lemma {:induction false} FoldEnginesAppend(p: Progress, c: Cycle, url: Option<string>, a: seq<string>, b: seq<string>)
    ensures FoldEngines(p, c, url, a + b) == FoldEngines(FoldEngines(p, c, url, a), c, url, b)
    decreases |b|
  {
    if |b| == 0 {
      assert a + b == a;
    } else {
      assert (a + b)[..|a + b| - 1] == a + b[..|b| - 1];
      assert (a + b)[|a + b| - 1] == b[|b| - 1];
      FoldEnginesAppend(p, c, url, a, b[..|b| - 1]);
    }
  }

  /** An engine whose issuer listing raises InvalidPath is skipped, and
      only it: the engines after it are processed as if it were absent. */
  lemma InvalidPathSkipsOnlyThatEngine(p: Progress, c: Cycle, url: Option<string>, a: seq<string>, e: string, b: seq<string>)
    requires c.listIssuers(e) == InvalidPath
    ensures FoldEngines(p, c, url, a + [e] + b) == FoldEngines(p, c, url, a + b)
  {
    FoldEnginesAppend(p, c, url, a + [e], b);
    FoldEnginesAppend(p, c, url, a, [e]);
    FoldEnginesAppend(p, c, url, a, b);
    assert [e][..0] == [];
  }

  /** What the issuer loop of one engine does to each sample: a running loop
      sets exactly the samples of the listed issuers with a readable
      certificate, to their validity, overwriting any earlier value; a
      stopped one has set some of those and nothing else. */
  lemma {:induction false} FoldIssuersEffect(m: map<Labels, int>, c: Cycle, url: Option<string>, engine: string, issuers: seq<string>)
    ensures var p := FoldIssuers(Running(m), c, url, engine, issuers);
      p.Running? ==>
        forall k :: Lookup(p.samples, k) ==
          if WrittenBy(c, url, engine, issuers, k) then Expected(c, engine, k.issuer) else Lookup(m, k)
    ensures var p := FoldIssuers(Running(m), c, url, engine, issuers);
      forall k :: Lookup(p.samples, k) == Lookup(m, k) ||
        (WrittenBy(c, url, engine, issuers, k) && Lookup(p.samples, k) == Expected(c, engine, k.issuer))
    decreases |issuers|
  {
    if |issuers| > 0 {
      var init := issuers[..|issuers| - 1];
      var x := issuers[|issuers| - 1];
      assert issuers == init + [x];
      FoldIssuersEffect(m, c, url, engine, init);
      var q := FoldIssuers(Running(m), c, url, engine, init);
      var p := FoldIssuers(Running(m), c, url, engine, issuers);
      assert p == IssuerStep(q, c, url, engine, x);
      forall k
        ensures WrittenBy(c, url, engine, issuers, k) <==>
          WrittenBy(c, url, engine, init, k) || (k == Labels(engine, x, url) && Expected(c, engine, x).Some?)
      {
      }
    }
  }

  /** What the engine loop does to each sample, in the same two forms. */
  lemma {:induction false} FoldEnginesEffect(m: map<Labels, int>, c: Cycle, url: Option<string>, engines: seq<string>)
    ensures var p := FoldEngines(Running(m), c, url, engines);
      p.Running? ==>
        forall k :: Lookup(p.samples, k) ==
          if Written(c, url, engines, k) then Expected(c, k.engine, k.issuer) else Lookup(m, k)
    ensures var p := FoldEngines(Running(m), c, url, engines);
      forall k :: Lookup(p.samples, k) == Lookup(m, k) ||
        (Written(c, url, engines, k) && Lookup(p.samples, k) == Expected(c, k.engine, k.issuer))
    decreases |engines|
  {
    if |engines| > 0 {
      var init := engines[..|engines| - 1];
      var e := engines[|engines| - 1];
      assert engines == init + [e];
      FoldEnginesEffect(m, c, url, init);
      var q := FoldEngines(Running(m), c, url, init);
      var p := FoldEngines(Running(m), c, url, engines);
      assert p == EngineStep(q, c, url, e);
      var issuers := IssuersOf(c.listIssuers(e));
      forall k
        ensures Written(c, url, engines, k) <==>
          Written(c, url, init, k) || WrittenBy(c, url, e, issuers, k)
      {
      }
      if q.Running? && !c.listIssuers(e).ListingRaise? {
        assert c.listIssuers(e).InvalidPath? ==> issuers == [];
        assert p == FoldIssuers(Running(q.samples), c, url, e, issuers);
        FoldIssuersEffect(q.samples, c, url, e, issuers);
      }
    }
  }

  /** If the client cannot be built, the gauge is left as it was. */
  lemma RefreshWithoutClient(samples: map<Labels, int>, cfg: Config, auth: AuthBackend, mounts: MountsResponse, c: Cycle)
    requires CreateClient(cfg, auth).Err?
    ensures Refresh(samples, cfg, auth, mounts, c) == RefreshResult(samples, ClientUnavailable)
  {
  }

  /** If the mount listing has no 'data', the gauge is left as it was. */
  lemma RefreshWithoutMountData(samples: map<Labels, int>, cfg: Config, auth: AuthBackend, mounts: MountsResponse, c: Cycle)
    requires CreateClient(cfg, auth).Ok? && mounts == MountsNoData
    ensures Refresh(samples, cfg, auth, mounts, c) == RefreshResult(samples, NoMountData)
  {
  }

  /** A completed refresh sets exactly one sample per (PKI engine, listed
      issuer with a certificate), labelled with VAULT_ADDR, to that
      certificate's validity (last write wins), and leaves every other
      sample as it was. */
  lemma RefreshCompletedSamples(samples: map<Labels, int>, cfg: Config, auth: AuthBackend, mounts: MountsResponse, c: Cycle)
    requires Refresh(samples, cfg, auth, mounts, c).outcome == Completed
    ensures mounts.MountsData? && CreateClient(cfg, auth).Ok?
    ensures forall k :: (Lookup(Refresh(samples, cfg, auth, mounts, c).samples, k) ==
      if Written(c, cfg.addr, Visited(mounts), k) then Expected(c, k.engine, k.issuer) else Lookup(samples, k))
  {
    FoldEnginesEffect(samples, c, cfg.addr, Visited(mounts));
  }

  /** Whatever the outcome, a refresh only touches samples of engines mounted
      with type exactly "pki", labelled with VAULT_ADDR, and sets each of
      them to its certificate's validity; a sample it leaves unchanged may
      still be one it would have set, had an exception not stopped it. */
  lemma RefreshOnlyPkiSamples(samples: map<Labels, int>, cfg: Config, auth: AuthBackend, mounts: MountsResponse, c: Cycle)
    ensures forall k :: (Lookup(Refresh(samples, cfg, auth, mounts, c).samples, k) == Lookup(samples, k) ||
      (&& Written(c, cfg.addr, Visited(mounts), k)
       && Lookup(Refresh(samples, cfg, auth, mounts, c).samples, k) == Expected(c, k.engine, k.issuer)))
    ensures forall k :: (Lookup(Refresh(samples, cfg, auth, mounts, c).samples, k) != Lookup(samples, k) ==>
      && k.url == cfg.addr
      && mounts.MountsData?
      && exists j :: 0 <= j < |mounts.entries| && mounts.entries[j] == MountEntry(k.engine, "pki"))
  {
    var r := Refresh(samples, cfg, auth, mounts, c);
    if CreateClient(cfg, auth).Ok? && mounts.MountsData? {
      FoldEnginesEffect(samples, c, cfg.addr, Visited(mounts));
      forall k | Lookup(r.samples, k) != Lookup(samples, k)
        ensures exists j :: 0 <= j < |mounts.entries| && mounts.entries[j] == MountEntry(k.engine, "pki")
      {
        PkiEnginesMember(mounts.entries, k.engine);
      }
    }
  }

  /** A mount of another type changes nothing about a refresh. */
  lemma NonPkiMountIgnored(samples: map<Labels, int>, cfg: Config, auth: AuthBackend, c: Cycle,
                           a: seq<MountEntry>, x: MountEntry, b: seq<MountEntry>)
    requires x.engineType != "pki"
    ensures Refresh(samples, cfg, auth, MountsData(a + [x] + b), c) == Refresh(samples, cfg, auth, MountsData(a + b), c)
  {
    NonPkiMountNotVisited(a, x, b);
  }

  /** The backend of the repository's update_metrics test: every engine
      lists "issuer1", whose details hold a certificate issued at `issued`
      for ten days. */
  function TenDayCycle(issued: int, now: int): Cycle
  {
    Cycle(
      engine => ListingData(Some(["issuer1"])),
      (engine, issuer) => DetailsData(Some("certificate")),
      pem => Some(issued + 10 * SecondsPerDay),
      now)
  }

  /** In that test only "pki/" is visited and "issuer1" gets its validity. */
  lemma TenDayEngineLoop(issued: int, now: int, addr: Option<string>)
    ensures PkiEngines([MountEntry("pki/", "pki"), MountEntry("secret/", "kv")]) == ["pki/"]
    ensures FoldEngines(Running(map[]), TenDayCycle(issued, now), addr, ["pki/"])
         == Running(map[Labels("pki/", "issuer1", addr) := CertificateValidity(issued + 10 * SecondsPerDay, now)])
  {
    var c := TenDayCycle(issued, now);
    var k := Labels("pki/", "issuer1", addr);
    var v := CertificateValidity(issued + 10 * SecondsPerDay, now);
    var entries := [MountEntry("pki/", "pki"), MountEntry("secret/", "kv")];
    assert entries[..1] == [MountEntry("pki/", "pki")];
    assert entries[..1][..0] == [];
    var issuers := ["issuer1"];
    assert issuers[..0] == [];
    assert IssuerStep(Running(map[]), c, addr, "pki/", "issuer1") == Running(map[k := v]);
    assert FoldIssuers(Running(map[]), c, addr, "pki/", issuers) == Running(map[k := v]);
    assert EngineStep(Running(map[]), c, addr, "pki/") == Running(map[k := v]);
    assert ["pki/"][..0] == [];
  }

  /** In that test, with one "pki" and one "kv" mount, the refresh sets
      exactly one sample, labelled ("pki/", "issuer1", VAULT_ADDR), to a value
      between nine and ten days. */
  lemma TenDayScenario(issued: int, now: int)
    requires issued <= now < issued + SecondsPerDay
    ensures var addr := Some("http://127.0.0.1:8200");
      var cfg := Config(Some("test-token"), None, None, addr, None, None);
      var mounts := MountsData([MountEntry("pki/", "pki"), MountEntry("secret/", "kv")]);
      var r := Refresh(map[], cfg, AuthBackend(Returns, Answers(true)), mounts, TenDayCycle(issued, now));
      && r.outcome == Completed
      && r.samples.Keys == {Labels("pki/", "issuer1", addr)}
      && 9 * SecondsPerDay < r.samples[Labels("pki/", "issuer1", addr)] <= 10 * SecondsPerDay
  {
    var addr := Some("http://127.0.0.1:8200");
    TenDayEngineLoop(issued, now, addr);
    ValidForDays(10, issued, now);
  }

  // ---------------------------------------------------------------------------
  // The imperative update_metrics
  // ---------------------------------------------------------------------------

  /** The loop that builds secrets_engines_list by appending. */
  method ListPkiEngines(entries: seq<MountEntry>) returns (engines: seq<string>)
    ensures engines == PkiEngines(entries)
  {
    engines := [];
    var i := 0;
    while i < |entries|
      invariant 0 <= i <= |entries|
      invariant engines == PkiEngines(entries[..i])
    {
      assert entries[..i + 1][..i] == entries[..i];
      if entries[i].engineType == "pki" {
        engines := engines + [entries[i].path];
      }
      i := i + 1;
    }
    assert entries[..i] == entries;
  }

  /** get_certificate_validity on a PEM text: None when it does not parse. */
  function GetCertificateValidity(c: Cycle, pem: string): (r: Option<int>)
    ensures r.Some? <==> c.notValidAfter(pem).Some?
    ensures r.Some? ==> c.now + r.value == c.notValidAfter(pem).value
  {
    match c.notValidAfter(pem)
    case Some(t) => Some(CertificateValidity(t, c.now))
    case None => None
  }

  /** The inner loop of update_metrics, over the issuers of one engine;
      `stopped` says whether an exception ended it. */
  method UpdateIssuers(gauge: Gauge, c: Cycle, url: Option<string>, engine: string, issuers: seq<string>)
    returns (stopped: bool)
    modifies gauge
    ensures FoldIssuers(Running(old(gauge.samples)), c, url, engine, issuers)
         == if stopped then Stopped(gauge.samples) else Running(gauge.samples)
  {
    ghost var start := Running(gauge.samples);
    var j := 0;
    while j < |issuers|
      invariant 0 <= j <= |issuers|
      invariant FoldIssuers(start, c, url, engine, issuers[..j]) == Running(gauge.samples)
    {
      var issuer := issuers[j];
      assert issuers[..j + 1][..j] == issuers[..j];
      var details := c.readIssuer(engine, issuer);
      if details.DetailsRaise? {
        IssuersStopHere(start, c, url, engine, issuers, j + 1, gauge.samples);
        return true;
      }
      if details.DetailsData? && details.certificate.Some? {
        var validity := GetCertificateValidity(c, details.certificate.value);
        if validity.None? {
          IssuersStopHere(start, c, url, engine, issuers, j + 1, gauge.samples);
          return true;
        }
        gauge.Set(Labels(engine, issuer, url), validity.value);
      }
      j := j + 1;
    }
    assert issuers[..j] == issuers;
    return false;
  }

  /** One pass of the outer loop of update_metrics, for one PKI engine;
      `stopped` says whether an exception ended the refresh. */
  method UpdateEngine(gauge: Gauge, c: Cycle, url: Option<string>, engine: string) returns (stopped: bool)
    modifies gauge
    ensures EngineStep(Running(old(gauge.samples)), c, url, engine)
         == if stopped then Stopped(gauge.samples) else Running(gauge.samples)
  {
    var listing := c.listIssuers(engine);
    if listing.InvalidPath? {
      return false;
    }
    if listing.ListingRaise? {
      return true;
    }
    stopped := UpdateIssuers(gauge, c, url, engine, IssuersOf(listing));
  }

  /** update_metrics: refreshes the gauge as `Refresh` says. */
  method UpdateMetrics(gauge: Gauge, cfg: Config, auth: AuthBackend, mounts: MountsResponse, c: Cycle)
    returns (outcome: Outcome)
    modifies gauge
    ensures gauge.samples == Refresh(old(gauge.samples), cfg, auth, mounts, c).samples
    ensures outcome == Refresh(old(gauge.samples), cfg, auth, mounts, c).outcome
  {
    var client := CreateClient(cfg, auth);
    if client.Err? {
      return ClientUnavailable;
    }
    if mounts.MountsRaise? {
      return Aborted;
    }
    if mounts.MountsNoData? {
      return NoMountData;
    }
    var secretsEngines := ListPkiEngines(mounts.entries);
    ghost var start := Running(gauge.samples);
    var url := cfg.addr;
    var i := 0;
    while i < |secretsEngines|
      invariant 0 <= i <= |secretsEngines|
      invariant FoldEngines(start, c, url, secretsEngines[..i]) == Running(gauge.samples)
    {
      assert secretsEngines[..i + 1][..i] == secretsEngines[..i];
      var stopped := UpdateEngine(gauge, c, url, secretsEngines[i]);
      if stopped {
        EnginesStopHere(start, c, url, secretsEngines, i + 1, gauge.samples);
        return Aborted;
      }
      i := i + 1;
    }
    assert secretsEngines[..i] == secretsEngines;
    return Completed;
  }

  /** An exception in the issuer loop of pass n stops the whole loop there. */
  lemma IssuersStopHere(p: Progress, c: Cycle, url: Option<string>, engine: string, issuers: seq<string>, n: nat, m: map<Labels, int>)
    requires n <= |issuers|
    requires FoldIssuers(p, c, url, engine, issuers[..n]) == Stopped(m)
    ensures FoldIssuers(p, c, url, engine, issuers) == Stopped(m)
  {
    assert issuers == issuers[..n] + issuers[n..];
    FoldIssuersAppend(p, c, url, engine, issuers[..n], issuers[n..]);
    FoldIssuersStopped(m, c, url, engine, issuers[n..]);
  }

  /** An exception in pass n of the engine loop stops the whole loop there. */
  lemma EnginesStopHere(p: Progress, c: Cycle, url: Option<string>, engines: seq<string>, n: nat, m: map<Labels, int>)
    requires n <= |engines|
    requires FoldEngines(p, c, url, engines[..n]) == Stopped(m)
    ensures FoldEngines(p, c, url, engines) == Stopped(m)
  {
    assert engines == engines[..n] + engines[n..];
    FoldEnginesAppend(p, c, url, engines[..n], engines[n..]);
    FoldEnginesStopped(m, c, url, engines[n..]);
  }

  // ---------------------------------------------------------------------------
  // What an exception keeps
  // ---------------------------------------------------------------------------

  /** Processing this issuer raises: `read_issuer` raises, or its certificate
      does not parse. */
  predicate IssuerRaises(c: Cycle, engine: string, issuer: string)
  {
    match c.readIssuer(engine, issuer)
    case DetailsRaise => true
    case DetailsData(Some(pem)) => GetCertificateValidity(c, pem).None?
    case _ => false
  }

  /** The first exception in the issuer loop, at issuer j, ends the loop with
      the samples set by issuers 0 .. j-1 kept, and no rollback. */
  lemma IssuersAbortAt(m: map<Labels, int>, c: Cycle, url: Option<string>, engine: string, issuers: seq<string>, j: nat)
    requires j < |issuers|
    requires FoldIssuers(Running(m), c, url, engine, issuers[..j]).Running?
    requires IssuerRaises(c, engine, issuers[j])
    ensures FoldIssuers(Running(m), c, url, engine, issuers)
         == Stopped(FoldIssuers(Running(m), c, url, engine, issuers[..j]).samples)
  {
    var q := FoldIssuers(Running(m), c, url, engine, issuers[..j]);
    assert issuers[..j + 1][..j] == issuers[..j];
    assert FoldIssuers(Running(m), c, url, engine, issuers[..j + 1]) == IssuerStep(q, c, url, engine, issuers[j]);
    IssuersStopHere(Running(m), c, url, engine, issuers, j + 1, q.samples);
  }

  /** The first exception in the engine loop, a raising issuer listing of
      engine n, ends the loop with the samples of engines 0 .. n-1 kept. */
  lemma EnginesAbortAt(m: map<Labels, int>, c: Cycle, url: Option<string>, engines: seq<string>, n: nat)
    requires n < |engines|
    requires FoldEngines(Running(m), c, url, engines[..n]).Running?
    requires c.listIssuers(engines[n]) == ListingRaise
    ensures FoldEngines(Running(m), c, url, engines)
         == Stopped(FoldEngines(Running(m), c, url, engines[..n]).samples)
  {
    var q := FoldEngines(Running(m), c, url, engines[..n]);
    assert engines[..n + 1][..n] == engines[..n];
    assert FoldEngines(Running(m), c, url, engines[..n + 1]) == EngineStep(q, c, url, engines[n]);
    EnginesStopHere(Running(m), c, url, engines, n + 1, q.samples);
  }

  /** A refresh whose first exception is the issuer listing of the n-th PKI
      engine is Aborted, and every sample set by the engines before it stays
      set to its certificate's validity; all others keep their old value. */
  lemma RefreshAbortedAtEngine(samples: map<Labels, int>, cfg: Config, auth: AuthBackend, entries: seq<MountEntry>, c: Cycle, n: nat)
    requires CreateClient(cfg, auth).Ok?
    requires n < |PkiEngines(entries)|
    requires FoldEngines(Running(samples), c, cfg.addr, PkiEngines(entries)[..n]).Running?
    requires c.listIssuers(PkiEngines(entries)[n]) == ListingRaise
    ensures var r := Refresh(samples, cfg, auth, MountsData(entries), c);
      && r.outcome == Aborted
      && r.samples == FoldEngines(Running(samples), c, cfg.addr, PkiEngines(entries)[..n]).samples
      && forall k :: Lookup(r.samples, k) ==
           if Written(c, cfg.addr, PkiEngines(entries)[..n], k) then Expected(c, k.engine, k.issuer) else Lookup(samples, k)
  {
    var engines := PkiEngines(entries);
    EnginesAbortAt(samples, c, cfg.addr, engines, n);
    FoldEnginesEffect(samples, c, cfg.addr, engines[..n]);
  }

  /** A refresh whose first exception comes from the j-th issuer of the n-th
      PKI engine is Aborted, and keeps the samples set by the engines before
      it and by issuers 0 .. j-1 of that engine; all others keep their old
      value. */
  lemma RefreshAbortedAtIssuer(samples: map<Labels, int>, cfg: Config, auth: AuthBackend, entries: seq<MountEntry>, c: Cycle, n: nat, j: nat)
    requires CreateClient(cfg, auth).Ok?
    requires n < |PkiEngines(entries)|
    requires FoldEngines(Running(samples), c, cfg.addr, PkiEngines(entries)[..n]).Running?
    requires !c.listIssuers(PkiEngines(entries)[n]).InvalidPath?
    requires !c.listIssuers(PkiEngines(entries)[n]).ListingRaise?
    requires j < |IssuersOf(c.listIssuers(PkiEngines(entries)[n]))|
    requires FoldIssuers(FoldEngines(Running(samples), c, cfg.addr, PkiEngines(entries)[..n]), c, cfg.addr,
                         PkiEngines(entries)[n], IssuersOf(c.listIssuers(PkiEngines(entries)[n]))[..j]).Running?
    requires IssuerRaises(c, PkiEngines(entries)[n], IssuersOf(c.listIssuers(PkiEngines(entries)[n]))[j])
    ensures var r := Refresh(samples, cfg, auth, MountsData(entries), c);
      var e := PkiEngines(entries)[n];
      && r.outcome == Aborted
      && forall k :: Lookup(r.samples, k) ==
           if Written(c, cfg.addr, PkiEngines(entries)[..n], k)
              || WrittenBy(c, cfg.addr, e, IssuersOf(c.listIssuers(e))[..j], k)
           then Expected(c, k.engine, k.issuer) else Lookup(samples, k)
  {
    var url := cfg.addr;
    var engines := PkiEngines(entries);
    var e := engines[n];
    var issuers := IssuersOf(c.listIssuers(e));
    var q := FoldEngines(Running(samples), c, url, engines[..n]);
    var s := FoldIssuers(q, c, url, e, issuers[..j]);
    IssuersAbortAt(q.samples, c, url, e, issuers, j);
    assert EngineStep(q, c, url, e) == Stopped(s.samples);
    assert engines[..n + 1][..n] == engines[..n];
    assert FoldEngines(Running(samples), c, url, engines[..n + 1]) == Stopped(s.samples);
    EnginesStopHere(Running(samples), c, url, engines, n + 1, s.samples);
    FoldEnginesEffect(samples, c, url, engines[..n]);
    FoldIssuersEffect(q.samples, c, url, e, issuers[..j]);
  }
}
