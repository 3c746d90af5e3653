/** End-to-end consequences of the resolution, stated for all inputs where
    possible and for one concrete host where the point is a worked example. */
module Scenarios {
  import opened Errors
  import opened Oracles
  import opened Paths
  import opened ClientAuth
  import opened TunnelConfig

  /** An alias the ssh config gives no user for, with nothing set on the
      tunnel, fails for want of a user: the host name and the port have
      fallbacks, the user has none. */
  lemma UnknownAliasNeedsUser(t: Declaration, env: Env)
    requires !SshConfigFileOf(env).Undecodable?
    requires t.host != "" && t.user == "" && t.port == 0 && t.identityFile == ""
    requires ConfValue(t.host, "User", env) == ""
    ensures Resolve(t, env) == Err(NoUser)
    ensures ResolveWarnings(t, env) == []
    // with no Port entry either, the port has fallen back to 22
    ensures GoLibraryFacts(env) && ConfValue(t.host, "Port", env) == "" ==> Layered(t, env).value.port == 22
  {
    if GoLibraryFacts(env) && ConfValue(t.host, "Port", env) == "" {
      RejectedConfigPortDefaults(t, env);
    }
  }

  /** A config file that opens but does not decode aborts the resolution
      with the wrapped decode error, before any key is looked at. */
  lemma MalformedConfigAborts(t: Declaration, env: Env)
    requires SshConfigFileOf(env).Undecodable?
    ensures Resolve(t, env) == Err(SSHConfParse(SSHConfDecode(SshConfigFileOf(env).reason)))
    ensures ResolveWarnings(t, env) == []
  {
  }

  /** A config file that cannot be opened is the same as an empty one: only
      the tunnel's fields and the fallbacks count. */
  lemma AbsentConfigIgnored(t: Declaration, env: Env)
    requires SshConfigFileOf(env).Unopenable?
    ensures Layered(t, env) == Ok(ApplyOverrides(t, ZeroRun))
    ensures Layered(t, env).value.hostName == t.host
    ensures Layered(t, env).value.port == if t.port != 0 then t.port else 22
  {
  }

  /** A known_hosts store that cannot be loaded fails the tunnel whenever
      the run reaches it; verification is never skipped. */
  lemma KnownHostsFailureFailsTunnel(t: Declaration, env: Env)
    requires Layered(t, env).Ok? && Validate(Layered(t, env).value) == None
    requires Scan(Candidates(Layered(t, env).value.identityFile), env).signers != []
    requires env.knownHosts(SshConfigPath(env.home, "known_hosts")).HostsError?
    ensures Resolve(t, env) ==
              Err(ClientConfigFailed(KnownHostsFailed(env.knownHosts(SshConfigPath(env.home, "known_hosts")).reason)))
  {
  }

  /** No readable key among the candidates fails the tunnel with "no key
      files found." and logs nothing. */
  lemma NoReadableKeyFailsTunnel(t: Declaration, env: Env)
    requires Layered(t, env).Ok? && Validate(Layered(t, env).value) == None
    requires forall c :: c in Candidates(Layered(t, env).value.identityFile) ==>
                           env.readFile(FillHome(c, env.home)).Unreadable?
    ensures Resolve(t, env) == Err(ClientConfigFailed(NoKeyFiles))
    ensures ResolveWarnings(t, env) == []
  {
    NoReadableKeyFails(Layered(t, env).value.user, Layered(t, env).value.identityFile, env);
  }

  /** Local addresses: a bare port is bound on localhost, a host:port is
      kept. */
  lemma LocalAddressExamples()
    ensures NormaliseLocal("8080") == "localhost:8080"
    ensures NormaliseLocal("0.0.0.0:8080") == "0.0.0.0:8080"
    ensures NormaliseLocal(NormaliseLocal("8080")) == "localhost:8080"
  {
    assert "0.0.0.0:8080"[7] == ':';
  }

  /** The ssh config used by the examples: "myhost" has HostName
      example.com, User alice and Port 2222. */
  function MyHostConfig(): SshConfigFile
  {
    Decoded((alias, key) =>
      if alias != "myhost" then ""
      else if key == "HostName" then "example.com"
      else if key == "User" then "alice"
      else if key == "Port" then "2222"
      else "")
  }

  /** An environment with that config, `strconv.Atoi`'s value on the texts
      the examples use, and the given key files. */
  function ExampleEnv(readFile: string -> ReadOutcome): Env
  {
    Env("/u",
        _ => MyHostConfig(),
        readFile,
        _ => Parsed(Signer(1)),
        _ => HostsLoaded(HostKeyCallback(7)),
        s => if s == "2222" then 2222 else 0)
  }

  /** The alias alone resolves to the ssh config's host, user and port. */
  lemma MyHostFromConfig(readFile: string -> ReadOutcome)
    ensures Layered(Declaration("myhost", "", 0, "", "8080", "db:5432"), ExampleEnv(readFile))
            == Ok(RunValue("", "", "example.com", "alice", 2222, "", None))
  {
  }

  /** The port comes from the highest layer that gives one: the tunnel, then
      the ssh config, then 22. */
  lemma PortFromEachLayer(readFile: string -> ReadOutcome)
    ensures Layered(Declaration("myhost", "", 3333, "", "8080", ""), ExampleEnv(readFile)).value.port == 3333
    ensures Layered(Declaration("myhost", "", 0, "", "8080", ""), ExampleEnv(readFile)).value.port == 2222
    ensures Layered(Declaration("otherhost", "bob", 0, "", "8080", ""), ExampleEnv(readFile)).value.port == 22
  {
  }

  /** Key files for the full example: the tunnel's identity file is not a
      key, id_rsa is, and the other default keys are missing. */
  function ExampleKeys(): string -> ReadOutcome
  {
    path => if path == "/u/k" then Read([0])
            else if path == "/u/.ssh/id_rsa" then Read([1])
            else Unreadable
  }

  function ExampleKeyParser(): seq<bv8> -> KeyOutcome
  {
    data => if data == [0] then Malformed("ssh: no key found") else Parsed(Signer(1))
  }

  /** The example environment with those key files. */
  function KeyEnv(): Env
  {
    ExampleEnv(ExampleKeys()).(parseKey := ExampleKeyParser())
  }

  /** The example's identity file expands to a file that is not a key. */
  lemma ExampleIdentityFile()
    ensures Classify("~/k", KeyEnv()) == Warn(UnparsableKey("~/k", "ssh: no key found"))
  {
    assert "~/k"[..2] == "~/" && "~/k"[2..] == "k";
    assert FillHome("~/k", KeyEnv().home) == "/u/k";
  }

  /** Of the example's default keys only id_rsa exists, and it parses. */
  lemma ExampleDefaultKeys()
    ensures Classify(DefaultKeys[0], KeyEnv()) == Keep(Signer(1))
    ensures Classify(DefaultKeys[1], KeyEnv()).Skip? && Classify(DefaultKeys[2], KeyEnv()).Skip?
  {
    var home := KeyEnv().home;
    assert FillHome(DefaultKeys[0], home) == "/u/.ssh/id_rsa" by {
      assert DefaultKeys[0][..2] == "~/" && DefaultKeys[0][2..] == ".ssh/id_rsa";
    }
    assert FillHome(DefaultKeys[1], home) == "/u/.ssh/id_ecdsa" by {
      assert DefaultKeys[1][..2] == "~/" && DefaultKeys[1][2..] == ".ssh/id_ecdsa";
    }
    assert FillHome(DefaultKeys[2], home) == "/u/.ssh/id_ed25519" by {
      assert DefaultKeys[2][..2] == "~/" && DefaultKeys[2][2..] == ".ssh/id_ed25519";
    }
  }

  /** The scan for the malformed identity file: one signer, from id_rsa, and
      one warning, naming the identity file as written. */
  lemma MalformedIdentityScan()
    ensures Scan(Candidates("~/k"), KeyEnv())
            == ScanResult([Signer(1)], [UnparsableKey("~/k", "ssh: no key found")])
  {
    ExampleIdentityFile();
    ExampleDefaultKeys();
    MalformedThenValid("~/k", KeyEnv(), "ssh: no key found", Signer(1));
  }

  /** The whole resolution for "myhost" with that identity file succeeds
      with exactly one signer and logs exactly one warning. */
  lemma MalformedIdentityThenDefaultKey()
    ensures var t := Declaration("myhost", "", 0, "~/k", "8080", "db:5432");
            && Resolve(t, KeyEnv()) == Ok(RunValue("localhost:8080", "db:5432", "example.com", "alice", 2222, "~/k",
                                                   Some(ClientConfig("alice", [PublicKeys([Signer(1)])], HostKeyCallback(7),
                                                                     10 * 1_000_000_000))))
            && ResolveWarnings(t, KeyEnv()) == [UnparsableKey("~/k", "ssh: no key found")]
  {
    MalformedIdentityScan();
    LocalAddressExamples();
  }
}
