/**
 * The Drone plugin that packages a Helm chart and pushes it to an OCI registry:
 * argument validation with defaults, the three-stage `Exec` sequence and the
 * composition of the push address. Helm's packager and registry client are
 * opaque collaborators and appear here only as parameters.
 */
module Plugin {
  import opened Wrappers

  // ---------------------------------------------------------------------------
  // Arguments
  // ---------------------------------------------------------------------------

  /** The plugin's arguments as a value (the Go struct `Args`, without the embedded pipeline). */
  datatype Args = Args(
    level: string,
    chartPath: string,
    chartDestination: string,
    registryNamespace: string,
    registryPassword: string,
    registryURL: string,
    registryUsername: string)

  /** Defaults applied to the three optional fields. */
  const DefaultChartPath: string := "./"
  const DefaultChartDestination: string := ".packaged_charts"
  const DefaultRegistryURL: string := "registry.hub.docker.com"

  /** The three required fields, in the order in which they are checked. */
  datatype Credential = Username | Password | Namespace

  /** Position of a credential in the checking order. */
  function Rank(c: Credential): nat {
    match c
    case Username => 0
    case Password => 1
    case Namespace => 2
  }

  /** The value a credential has in `a`. */
  function CredentialValue(a: Args, c: Credential): string {
    match c
    case Username => a.registryUsername
    case Password => a.registryPassword
    case Namespace => a.registryNamespace
  }

  // ---------------------------------------------------------------------------
  // Errors
  // ---------------------------------------------------------------------------

  /**
   * The errors the plugin returns. Only `Configuration` wraps the sentinel
   * `errConfiguration`; the other three carry the text of a collaborator's
   * error, which the source formats with `%s` and so does not wrap.
   */
  datatype Error =
    | Configuration(missing: Credential)
    | PackageFailed(message: string)
    | ClientFailed(cause: string)
    | PushFailed(chart: string, ref: string, cause: string)

  /** `errors.Is(e, errConfiguration)`. */
  predicate IsConfigurationError(e: Error) {
    e.Configuration?
  }

  // ---------------------------------------------------------------------------
  // Specification of verifyArgs
  // ---------------------------------------------------------------------------

  /**
   * The credential verifyArgs reports: the first empty one in the order
   * username, password, namespace, or none when all three are present.
   */
  function MissingCredential(a: Args): (r: Option<Credential>)
    ensures r.None? <==> forall c :: CredentialValue(a, c) != ""
    ensures r.Some? ==> CredentialValue(a, r.value) == ""
    ensures r.Some? ==> forall c :: Rank(c) < Rank(r.value) ==> CredentialValue(a, c) != ""
  {
    if a.registryUsername == "" then
      assert CredentialValue(a, Username) == "";
      Some(Username)
    else if a.registryPassword == "" then
      assert CredentialValue(a, Password) == "";
      Some(Password)
    else if a.registryNamespace == "" then
      assert CredentialValue(a, Namespace) == "";
      Some(Namespace)
    else None
  }

  /** The arguments with every empty optional field replaced by its default. */
  function Defaulted(a: Args): (r: Args)
    ensures r.chartPath != "" && r.chartDestination != "" && r.registryURL != ""
    ensures a.chartPath != "" ==> r.chartPath == a.chartPath
    ensures a.chartPath == "" ==> r.chartPath == DefaultChartPath
    ensures a.chartDestination != "" ==> r.chartDestination == a.chartDestination
    ensures a.chartDestination == "" ==> r.chartDestination == DefaultChartDestination
    ensures a.registryURL != "" ==> r.registryURL == a.registryURL
    ensures a.registryURL == "" ==> r.registryURL == DefaultRegistryURL
    ensures r.level == a.level
    ensures forall c :: CredentialValue(r, c) == CredentialValue(a, c)
  {
    a.(chartPath := if a.chartPath == "" then DefaultChartPath else a.chartPath,
       chartDestination := if a.chartDestination == "" then DefaultChartDestination else a.chartDestination,
       registryURL := if a.registryURL == "" then DefaultRegistryURL else a.registryURL)
  }

  /** Arguments as verifyArgs leaves them on success: nothing required or defaulted is empty. */
  predicate Verified(a: Args) {
    (forall c :: CredentialValue(a, c) != "")
    && a.chartPath != "" && a.chartDestination != "" && a.registryURL != ""
  }

  /** What verifyArgs does to a value: the error it returns, or the defaulted arguments. */
  function Verify(a: Args): (r: Result<Args, Error>)
    ensures r.Failure? <==> MissingCredential(a).Some?
    ensures r.Failure? ==> r.error == Configuration(MissingCredential(a).value)
    ensures r.Failure? ==> IsConfigurationError(r.error)
    ensures r.Success? ==> r.value == Defaulted(a) && Verified(r.value)
  {
    match MissingCredential(a)
    case Some(c) => Failure(Configuration(c))
    case None => Success(Defaulted(a))
  }

  /** Validating validated arguments succeeds and changes nothing. */
  lemma VerifyIdempotent(a: Args)
    requires Verify(a).Success?
    ensures Verify(Verify(a).value) == Verify(a)
  {
    VerifiedIsFixedPoint(Verify(a).value);
  }

  /** The arguments verifyArgs accepts unchanged are exactly the verified ones. */
  lemma VerifiedIsFixedPoint(a: Args)
    ensures Verified(a) <==> Verify(a) == Success(a)
  {
    if Verified(a) {
      assert MissingCredential(a).None?;
    }
    if Verify(a) == Success(a) {
      assert Defaulted(a) == a;
    }
  }

  /** The three cases of the repository's verifyArgs test: each missing credential is rejected. */
  lemma VerifyArgsTestCases()
    ensures var a := Args("", "", "", "example", "correct-horse-battery-staple", "", "");
            Verify(a) == Failure(Configuration(Username))
    ensures var a := Args("", "", "", "", "correct-horse-battery-staple", "", "kevinbacon");
            Verify(a) == Failure(Configuration(Namespace))
    ensures var a := Args("", "", "", "example", "", "", "kevinbacon");
            Verify(a) == Failure(Configuration(Password))
  {
  }

  // ---------------------------------------------------------------------------
  // verifyArgs: in place, through a reference
  // ---------------------------------------------------------------------------

  /** A mutable Args record, standing for the Go pointer `*Args`. */
  class ArgsRef {
    var level: string
    var chartPath: string
    var chartDestination: string
    var registryNamespace: string
    var registryPassword: string
    var registryURL: string
    var registryUsername: string

    /** The record's current contents as a value. */
    function Value(): Args
      reads this
    {
      Args(level, chartPath, chartDestination, registryNamespace,
           registryPassword, registryURL, registryUsername)
    }

    /** Takes the address of a copy of `a`. */
    constructor (a: Args)
      ensures Value() == a
    {
      level := a.level;
      chartPath := a.chartPath;
      chartDestination := a.chartDestination;
      registryNamespace := a.registryNamespace;
      registryPassword := a.registryPassword;
      registryURL := a.registryURL;
      registryUsername := a.registryUsername;
    }
  }

  /**
   * Checks username, password and namespace in that order and returns on the
   * first empty one; only when all three are present does it fill the defaults.
   */
  method VerifyArgs(args: ArgsRef) returns (err: Option<Error>)
    modifies args
    ensures err.Some? <==> MissingCredential(old(args.Value())).Some?
    ensures err.Some? ==> err.value == Configuration(MissingCredential(old(args.Value())).value)
    ensures err.Some? ==> unchanged(args)
    ensures err.Some? ==> Verify(old(args.Value())) == Failure(err.value)
    ensures err.None? ==> Verify(old(args.Value())) == Success(args.Value())
    ensures err.None? ==> args.Value() == Defaulted(old(args.Value()))
    ensures err.None? ==> Verified(args.Value())
    ensures args.level == old(args.level)
    ensures args.registryUsername == old(args.registryUsername)
    ensures args.registryPassword == old(args.registryPassword)
    ensures args.registryNamespace == old(args.registryNamespace)
    ensures old(args.chartPath) != "" ==> args.chartPath == old(args.chartPath)
    ensures old(args.chartDestination) != "" ==> args.chartDestination == old(args.chartDestination)
    ensures old(args.registryURL) != "" ==> args.registryURL == old(args.registryURL)
  {
    if args.registryUsername == "" {
      return Some(Configuration(Username));
    }
    if args.registryPassword == "" {
      return Some(Configuration(Password));
    }
    if args.registryNamespace == "" {
      return Some(Configuration(Namespace));
    }
    if args.chartPath == "" {
      args.chartPath := DefaultChartPath;
    }
    if args.chartDestination == "" {
      args.chartDestination := DefaultChartDestination;
    }
    if args.registryURL == "" {
      args.registryURL := DefaultRegistryURL;
    }
    return None;
  }

  // ---------------------------------------------------------------------------
  // The push address
  // ---------------------------------------------------------------------------

  const OciScheme: string := "oci://"

  /** The address the chart is pushed to: `oci://<registry URL>/<namespace>`. */
  function OciTarget(url: string, namespace: string): (r: string)
    ensures |r| == |OciScheme| + |url| + 1 + |namespace|
    ensures r[..|OciScheme|] == OciScheme
    ensures r[|OciScheme|..|OciScheme| + |url|] == url
    ensures r[|OciScheme| + |url|] == '/'
    ensures r[|OciScheme| + |url| + 1..] == namespace
  {
    OciScheme + url + "/" + namespace
  }

  /** Index of the first '/' in `s`, or `|s|` when there is none. */
  function FirstSlash(s: string): (i: nat)
    ensures i <= |s|
    ensures i < |s| ==> s[i] == '/'
    ensures forall j :: 0 <= j < i ==> s[j] != '/'
  {
    if s == [] then 0
    else if s[0] == '/' then 0
    else 1 + FirstSlash(s[1..])
  }

  /**
   * Reads a push address back into registry URL and namespace, splitting at
   * the first '/' after the scheme; None when `s` is not of that form.
   */
  function SplitOciTarget(s: string): (r: Option<(string, string)>)
    ensures r.Some? ==> '/' !in r.value.0 && OciTarget(r.value.0, r.value.1) == s
  {
    if |s| < |OciScheme| || s[..|OciScheme|] != OciScheme then None
    else
      var rest := s[|OciScheme|..];
      var i := FirstSlash(rest);
      if i == |rest| then None
      else
        assert s == OciScheme + rest[..i] + "/" + rest[i + 1..] by {
          assert rest == rest[..i] + [rest[i]] + rest[i + 1..];
        }
        Some((rest[..i], rest[i + 1..]))
  }

  /** A registry URL without a path component is recovered, with the namespace, from the address. */
  lemma SplitOciTargetInverse(url: string, namespace: string)
    requires '/' !in url
    ensures SplitOciTarget(OciTarget(url, namespace)) == Some((url, namespace))
  {
    var s := OciTarget(url, namespace);
    var rest := s[|OciScheme|..];
    assert rest == url + "/" + namespace;
    assert rest[|url|] == '/';
  }

  /** Distinct (host, namespace) pairs give distinct addresses. */
  lemma OciTargetInjective(url1: string, namespace1: string, url2: string, namespace2: string)
    requires '/' !in url1 && '/' !in url2
    requires OciTarget(url1, namespace1) == OciTarget(url2, namespace2)
    ensures url1 == url2 && namespace1 == namespace2
  {
    SplitOciTargetInverse(url1, namespace1);
    SplitOciTargetInverse(url2, namespace2);
  }

  /** With no URL given, the address names the default registry host. */
  lemma DefaultHostTarget(namespace: string)
    ensures OciTarget(DefaultRegistryURL, namespace) == "oci://registry.hub.docker.com/" + namespace
  {
    assert OciScheme + DefaultRegistryURL + "/" == "oci://registry.hub.docker.com/";
  }

  /**
   * After successful validation the address is composed from the namespace
   * and the given URL, or the default host when no URL was given.
   */
  lemma PushTargetAfterVerify(a: Args)
    requires Verify(a).Success?
    ensures a.registryURL != "" ==>
              OciTarget(Verify(a).value.registryURL, Verify(a).value.registryNamespace) == OciTarget(a.registryURL, a.registryNamespace)
    ensures a.registryURL == "" ==>
              OciTarget(Verify(a).value.registryURL, Verify(a).value.registryNamespace) == "oci://registry.hub.docker.com/" + a.registryNamespace
    ensures var t := OciTarget(Verify(a).value.registryURL, Verify(a).value.registryNamespace);
            t[..|OciScheme|] == OciScheme && |t| > |a.registryNamespace| > 0
            && t[|t| - |a.registryNamespace|..] == a.registryNamespace
            && t[|t| - |a.registryNamespace| - 1] == '/'
  {
    var d := Verify(a).value;
    assert CredentialValue(a, Namespace) != "";
    assert d.registryNamespace == a.registryNamespace;
    var t := OciTarget(d.registryURL, d.registryNamespace);
    assert |t| - |a.registryNamespace| == |OciScheme| + |d.registryURL| + 1;
    if a.registryURL == "" {
      DefaultHostTarget(a.registryNamespace);
    }
  }

  // ---------------------------------------------------------------------------
  // The collaborators and Exec
  // ---------------------------------------------------------------------------

  /**
   * The registry capability pushChart uses: whether creating the client fails
   * (and with what cause), and the outcome of pushing a chart file to an address.
   */
  datatype Registry = Registry(
    newClient: Option<string>,
    push: (string, string) -> Option<string>)

  /** A call into a collaborator, recorded in the order Exec makes them. */
  datatype Call =
    | Package(args: Args)
    | Push(chart: string, ref: string)

  /**
   * Creates the registry client and pushes `packageRun` to the address
   * composed from the arguments. The login action's result is discarded by
   * the source and has no effect here.
   */
  method PushChart(args: Args, packageRun: string, registry: Registry)
    returns (err: Option<Error>, calls: seq<Call>)
    ensures registry.newClient.Some? ==>
              err == Some(ClientFailed(registry.newClient.value)) && calls == []
    ensures registry.newClient.None? ==>
              calls == [Push(packageRun, OciTarget(args.registryURL, args.registryNamespace))]
    ensures registry.newClient.None? && registry.push(packageRun, OciTarget(args.registryURL, args.registryNamespace)).Some? ==>
              err == Some(PushFailed(packageRun, OciTarget(args.registryURL, args.registryNamespace), registry.push(packageRun, OciTarget(args.registryURL, args.registryNamespace)).value))
    ensures registry.newClient.None? && registry.push(packageRun, OciTarget(args.registryURL, args.registryNamespace)).None? ==>
              err == None
    ensures err.Some? ==> !IsConfigurationError(err.value)
  {
    if registry.newClient.Some? {
      return Some(ClientFailed(registry.newClient.value)), [];
    }
    var ociURL := OciTarget(args.registryURL, args.registryNamespace);
    calls := [Push(packageRun, ociURL)];
    var pushErr := registry.push(packageRun, ociURL);
    if pushErr.Some? {
      return Some(PushFailed(packageRun, ociURL, pushErr.value)), calls;
    }
    return None, calls;
  }

  /**
   * Runs the plugin: validate, package, push, returning the first error.
   * `pack` stands for packageChart as a whole; `calls` lists the collaborator
   * calls made, so that a stage that never ran is visible.
   */
  method Exec(args: Args, pack: Args -> Result<string, string>, registry: Registry)
    returns (err: Option<Error>, calls: seq<Call>)
    // validation fails: its error, and neither packaging nor pushing is called
    ensures MissingCredential(args).Some? ==>
              err == Some(Configuration(MissingCredential(args).value)) && calls == []
    // otherwise packaging is called first, on the defaulted arguments
    ensures MissingCredential(args).None? ==>
              |calls| >= 1 && calls[0] == Package(Defaulted(args))
    // packaging fails: its error, and push is not called
    ensures MissingCredential(args).None? && pack(Defaulted(args)).Failure? ==>
              err == Some(PackageFailed(pack(Defaulted(args)).error)) && calls == [Package(Defaulted(args))]
    // packaging succeeds: the result of pushing the packaged file
    ensures MissingCredential(args).None? && pack(Defaulted(args)).Success? ==>
              var d := Defaulted(args);
              var packageRun := pack(d).value;
              (registry.newClient.Some? ==>
                 err == Some(ClientFailed(registry.newClient.value)) && calls == [Package(d)])
              && (registry.newClient.None? ==>
                    calls == [Package(d), Push(packageRun, OciTarget(d.registryURL, d.registryNamespace))]
                    && (err.None? <==> registry.push(packageRun, OciTarget(d.registryURL, d.registryNamespace)).None?)
                    && (err.Some? ==>
                          err.value == PushFailed(packageRun, OciTarget(d.registryURL, d.registryNamespace), registry.push(packageRun, OciTarget(d.registryURL, d.registryNamespace)).value)))
    // only validation produces configuration errors
    ensures (err.Some? && IsConfigurationError(err.value)) <==> MissingCredential(args).Some?
    // a successful run packaged once and pushed once
    ensures err.None? ==> |calls| == 2 && calls[0].Package? && calls[1].Push?
  {
    var ref := new ArgsRef(args);
    err := VerifyArgs(ref);
    if err.Some? {
      return err, [];
    }
    var verified := ref.Value();
    var packageRun := pack(verified);
    calls := [Package(verified)];
    if packageRun.Failure? {
      return Some(PackageFailed(packageRun.error)), calls;
    }
    var pushErr, pushCalls := PushChart(verified, packageRun.value, registry);
    calls := calls + pushCalls;
    if pushErr.Some? {
      return pushErr, calls;
    }
    return None, calls;
  }
}
