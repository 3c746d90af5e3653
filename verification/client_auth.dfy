/** `makeClientConfig`: scans the candidate key files, collects a signer for
    each one that parses, and wraps them with the known_hosts callback into
    an SSH client configuration. */
module ClientAuth {
  import opened Errors
  import opened Oracles
  import opened Paths

  /** Keys tried after the identity file, in this order. */
  const DefaultKeys: seq<string> := ["~/.ssh/id_rsa", "~/.ssh/id_ecdsa", "~/.ssh/id_ed25519"]

  /** `time.Duration` counts nanoseconds. */
  const Second: nat := 1_000_000_000

  /** `sshConnTimeout`. */
  const SshConnTimeout: nat := 10 * Second

  /** A line handed to the warning log. */
  datatype Warning = UnparsableKey(candidate: string, reason: string)
  {
    function Text(): string
    {
      "Unable to parse private key " + candidate + ": " + reason
    }
  }

  /** `ssh.PublicKeys(signers...)`. */
  datatype AuthMethod = PublicKeys(signers: seq<Signer>)

  /** The fields of `ssh.ClientConfig` the code sets; `timeout` is in
      nanoseconds. */
  datatype ClientConfig = ClientConfig(
    user: string,
    auth: seq<AuthMethod>,
    hostKeyCallback: HostKeyCallback,
    timeout: nat)

  /** The files tried, in order: the identity file first, even when it is
      empty, then the default keys. */
  function Candidates(identityFile: string): seq<string>
  {
    [identityFile] + DefaultKeys
  }

  /** What one candidate contributes to the scan. */
  datatype Classification = Skip | Warn(warning: Warning) | Keep(signer: Signer)

  /** One candidate: unreadable after "~" expansion, readable but not a
      private key, or a key. */
  function Classify(candidate: string, env: Env): (c: Classification)
    // the warning names the candidate as listed, before "~" expansion
    ensures c.Warn? ==> c.warning.candidate == candidate
    ensures c.Skip? <==> env.readFile(FillHome(candidate, env.home)).Unreadable?
  {
    match env.readFile(FillHome(candidate, env.home))
    case Unreadable => Skip
    case Read(data) =>
      match env.parseKey(data)
      case Malformed(reason) => Warn(UnparsableKey(candidate, reason))
      case Parsed(signer) => Keep(signer)
  }

  /** Signers collected and warnings emitted so far. */
  datatype ScanResult = ScanResult(signers: seq<Signer>, warnings: seq<Warning>)
  {
    function Then(next: ScanResult): ScanResult
    {
      ScanResult(signers + next.signers, warnings + next.warnings)
    }

    lemma ThenAssociative(b: ScanResult, c: ScanResult)
      ensures Then(b).Then(c) == Then(b.Then(c))
    {
      assert signers + b.signers + c.signers == signers + (b.signers + c.signers);
      assert warnings + b.warnings + c.warnings == warnings + (b.warnings + c.warnings);
    }
  }

  const NothingScanned := ScanResult([], [])

  function Emitted(c: Classification): ScanResult
  {
    match c
    case Skip => NothingScanned
    case Warn(w) => ScanResult([], [w])
    case Keep(s) => ScanResult([s], [])
  }

  /** The whole scan over `candidates`, in order. Every candidate yields at
      most one signer or one warning. */
  function Scan(candidates: seq<string>, env: Env): (r: ScanResult)
    ensures |r.signers| + |r.warnings| <= |candidates|
    decreases |candidates|
  {
    if candidates == [] then NothingScanned
    else
      var last := |candidates| - 1;
      Scan(candidates[..last], env).Then(Emitted(Classify(candidates[last], env)))
  }

  /** The scan of a concatenation is the scan of each part, in order: each
      candidate contributes exactly what it emits on its own, and signers
      and warnings keep candidate order. */
  lemma {:induction false} ScanConcat(a: seq<string>, b: seq<string>, env: Env)
    ensures Scan(a + b, env) == Scan(a, env).Then(Scan(b, env))
    decreases |b|
  {
    if b == [] {
      assert a + b == a;
    } else {
      var init, last := b[..|b| - 1], Emitted(Classify(b[|b| - 1], env));
      assert (a + b)[..|a + b| - 1] == a + init;
      assert (a + b)[|a + b| - 1] == b[|b| - 1];
      calc {
        Scan(a + b, env);
        Scan(a + init, env).Then(last);
        { ScanConcat(a, init, env); }
        Scan(a, env).Then(Scan(init, env)).Then(last);
        { Scan(a, env).ThenAssociative(Scan(init, env), last); }
        Scan(a, env).Then(Scan(init, env).Then(last));
        Scan(a, env).Then(Scan(b, env));
      }
    }
  }

  /** A signer is collected exactly when some candidate parses to it. */
  lemma {:induction false} ScanKeepsExactlyParsed(cs: seq<string>, env: Env, s: Signer)
    ensures s in Scan(cs, env).signers <==> exists i :: 0 <= i < |cs| && Classify(cs[i], env) == Keep(s)
    decreases |cs|
  {
    if cs != [] {
      var init, n := cs[..|cs| - 1], |cs| - 1;
      var before, now := Scan(init, env), Emitted(Classify(cs[n], env));
      ScanKeepsExactlyParsed(init, env, s);
      assert Scan(cs, env).signers == before.signers + now.signers;
      assert s in now.signers <==> Classify(cs[n], env) == Keep(s);
      if s in Scan(cs, env).signers {
        if s in before.signers {
          var i :| 0 <= i < |init| && Classify(init[i], env) == Keep(s);
          assert cs[i] == init[i];
        }
      } else {
        forall i | 0 <= i < |cs|
          ensures Classify(cs[i], env) != Keep(s)
        {
          if i < n {
            assert cs[i] == init[i];
          }
        }
      }
    }
  }

  /** A warning is emitted exactly for a candidate that was read but did
      not parse. */
  lemma {:induction false} ScanWarnsExactlyMalformed(cs: seq<string>, env: Env, w: Warning)
    ensures w in Scan(cs, env).warnings <==> exists i :: 0 <= i < |cs| && Classify(cs[i], env) == Warn(w)
    decreases |cs|
  {
    if cs != [] {
      var init, n := cs[..|cs| - 1], |cs| - 1;
      var before, now := Scan(init, env), Emitted(Classify(cs[n], env));
      ScanWarnsExactlyMalformed(init, env, w);
      assert Scan(cs, env).warnings == before.warnings + now.warnings;
      assert w in now.warnings <==> Classify(cs[n], env) == Warn(w);
      if w in Scan(cs, env).warnings {
        if w in before.warnings {
          var i :| 0 <= i < |init| && Classify(init[i], env) == Warn(w);
          assert cs[i] == init[i];
        }
      } else {
        forall i | 0 <= i < |cs|
          ensures Classify(cs[i], env) != Warn(w)
        {
          if i < n {
            assert cs[i] == init[i];
          }
        }
      }
    }
  }

  /** The scan never looks at the known_hosts store. */
  lemma {:induction false} ScanIgnoresKnownHosts(cs: seq<string>, env: Env, kh: string -> KnownHostsOutcome)
    ensures Scan(cs, env) == Scan(cs, env.(knownHosts := kh))
    decreases |cs|
  {
    if cs != [] {
      ScanIgnoresKnownHosts(cs[..|cs| - 1], env, kh);
    }
  }

  /** The client configuration `makeClientConfig` returns for `user` and
      `identityFile`. */
  function ClientConfigFor(user: string, identityFile: string, env: Env): Result<ClientConfig>
  {
    var scanned := Scan(Candidates(identityFile), env);
    if scanned.signers == [] then Err(NoKeyFiles)
    else
      match env.knownHosts(SshConfigPath(env.home, "known_hosts"))
      case HostsError(reason) => Err(KnownHostsFailed(reason))
      case HostsLoaded(callback) => Ok(ClientConfig(user, [PublicKeys(scanned.signers)], callback, SshConnTimeout))
  }

  /** The checks after the scan. With no signer the result is "no key files
      found."; otherwise a known_hosts failure is passed on unchanged and
      verification is never skipped; on success the configuration carries
      the given user, one public-key method over the collected signers
      (between one and four of them, in scan order) and the 10-second
      timeout. */
  lemma PostScanChecks(user: string, identityFile: string, env: Env)
    ensures var r, scanned := ClientConfigFor(user, identityFile, env), Scan(Candidates(identityFile), env);
            r == Err(NoKeyFiles) <==> scanned.signers == []
    ensures var r, kh := ClientConfigFor(user, identityFile, env), env.knownHosts(SshConfigPath(env.home, "known_hosts"));
            Scan(Candidates(identityFile), env).signers != [] ==>
              (r.Err? <==> kh.HostsError?) && (kh.HostsError? ==> r.error == KnownHostsFailed(kh.reason))
    ensures var r, kh := ClientConfigFor(user, identityFile, env), env.knownHosts(SshConfigPath(env.home, "known_hosts"));
            r.Ok? ==>
              && r.value.user == user
              && r.value.auth == [PublicKeys(Scan(Candidates(identityFile), env).signers)]
              && 1 <= |r.value.auth[0].signers| <= 4
              && kh.HostsLoaded? && r.value.hostKeyCallback == kh.callback
              && r.value.timeout == 10 * 1_000_000_000
  {
  }

  /** With no signer, the outcome is the same whatever the known_hosts store
      holds: it is not consulted. */
  lemma NoKeysSkipsKnownHosts(user: string, identityFile: string, env: Env, kh: string -> KnownHostsOutcome)
    requires Scan(Candidates(identityFile), env).signers == []
    ensures ClientConfigFor(user, identityFile, env) == Err(NoKeyFiles)
    ensures ClientConfigFor(user, identityFile, env.(knownHosts := kh)) == Err(NoKeyFiles)
  {
    ScanIgnoresKnownHosts(Candidates(identityFile), env, kh);
  }

  /** When no candidate can be read there is no signer, no warning, and the
      result is "no key files found.". */
  lemma NoReadableKeyFails(user: string, identityFile: string, env: Env)
    requires forall c :: c in Candidates(identityFile) ==> env.readFile(FillHome(c, env.home)).Unreadable?
    ensures Scan(Candidates(identityFile), env) == NothingScanned
    ensures ClientConfigFor(user, identityFile, env) == Err(NoKeyFiles)
  {
    var cs := Candidates(identityFile);
    var r := Scan(cs, env);
    if r.signers != [] {
      ScanKeepsExactlyParsed(cs, env, r.signers[0]);
      assert false;
    }
    if r.warnings != [] {
      ScanWarnsExactlyMalformed(cs, env, r.warnings[0]);
      assert false;
    }
  }

  /** A malformed identity file followed by a good first default key, with
      the remaining keys missing: one warning naming the identity file and
      exactly one signer. */
  lemma MalformedThenValid(identityFile: string, env: Env, reason: string, s: Signer)
    requires Classify(identityFile, env) == Warn(UnparsableKey(identityFile, reason))
    requires Classify(DefaultKeys[0], env) == Keep(s)
    requires Classify(DefaultKeys[1], env).Skip? && Classify(DefaultKeys[2], env).Skip?
    ensures Scan(Candidates(identityFile), env) == ScanResult([s], [UnparsableKey(identityFile, reason)])
  {
    var cs := Candidates(identityFile);
    ScanConcat([identityFile], DefaultKeys, env);
    ScanConcat([DefaultKeys[0]], DefaultKeys[1..], env);
    ScanConcat([DefaultKeys[1]], DefaultKeys[2..], env);
    assert [identityFile][..0] == [];
    assert DefaultKeys == [DefaultKeys[0]] + DefaultKeys[1..];
    assert DefaultKeys[1..] == [DefaultKeys[1]] + DefaultKeys[2..];
    assert [DefaultKeys[0]][..0] == [] && [DefaultKeys[1]][..0] == [] && DefaultKeys[2..][..0] == [];
  }

  /** An unset identity file is still tried first, but it expands to the
      empty path, which cannot be read: the scan is that of the default keys
      alone. */
  lemma EmptyIdentityFileSkipped(env: Env)
    requires GoLibraryFacts(env)
    ensures Classify("", env) == Skip
    ensures Scan(Candidates(""), env) == Scan(DefaultKeys, env)
  {
    ScanConcat([""], DefaultKeys, env);
    assert [""][..0] == [];
  }

  /** The default keys sit in the same ".ssh" directory under HOME as the
      ssh config and known_hosts files. */
  lemma DefaultKeysUnderSshDir(home: string)
    ensures FillHome(DefaultKeys[0], home) == SshConfigPath(home, "id_rsa")
    ensures FillHome(DefaultKeys[1], home) == SshConfigPath(home, "id_ecdsa")
    ensures FillHome(DefaultKeys[2], home) == SshConfigPath(home, "id_ed25519")
  {
    assert DefaultKeys[0][2..] == ".ssh/id_rsa" && DefaultKeys[0][..2] == "~/";
    assert DefaultKeys[1][2..] == ".ssh/id_ecdsa" && DefaultKeys[1][..2] == "~/";
    assert DefaultKeys[2][2..] == ".ssh/id_ed25519" && DefaultKeys[2][..2] == "~/";
    if home != "" {
      assert home + "/" + ".ssh/id_rsa" == home + "/" + ".ssh" + "/" + "id_rsa";
      assert home + "/" + ".ssh/id_ecdsa" == home + "/" + ".ssh" + "/" + "id_ecdsa";
      assert home + "/" + ".ssh/id_ed25519" == home + "/" + ".ssh" + "/" + "id_ed25519";
    } else {
      assert ".ssh/id_rsa" == ".ssh" + "/" + "id_rsa";
      assert ".ssh/id_ecdsa" == ".ssh" + "/" + "id_ecdsa";
      assert ".ssh/id_ed25519" == ".ssh" + "/" + "id_ed25519";
    }
  }

  /** `makeClientConfig`: the loop over the candidates, then the post-scan
      checks. The warnings are the lines the loop hands to the log. */
  method MakeClientConfig(user: string, identityFile: string, env: Env)
    returns (cc: Result<ClientConfig>, warnings: seq<Warning>)
    ensures cc == ClientConfigFor(user, identityFile, env)
    ensures warnings == Scan(Candidates(identityFile), env).warnings
  {
    var signers: seq<Signer> := [];
    warnings := [];
    var identityFiles := Candidates(identityFile);
    for n := 0 to |identityFiles|
      invariant ScanResult(signers, warnings) == Scan(identityFiles[..n], env)
    {
      assert identityFiles[..n + 1][..n] == identityFiles[..n];
      var i := identityFiles[n];
      assert Scan(identityFiles[..n + 1], env) == Scan(identityFiles[..n], env).Then(Emitted(Classify(i, env)));
      var key := env.readFile(FillHome(i, env.home));
      if key.Unreadable? {
        assert Classify(i, env) == Skip;
        continue;
      }
      var parsed := env.parseKey(key.data);
      if parsed.Malformed? {
        assert Classify(i, env) == Warn(UnparsableKey(i, parsed.reason));
        warnings := warnings + [UnparsableKey(i, parsed.reason)];
        continue;
      }
      assert Classify(i, env) == Keep(parsed.signer);
      signers := signers + [parsed.signer];
    }
    assert identityFiles[..|identityFiles|] == identityFiles;
    assert ScanResult(signers, warnings) == Scan(Candidates(identityFile), env);

    if |signers| == 0 {
      return Err(NoKeyFiles), warnings;
    }

    var knownHosts := env.knownHosts(SshConfigPath(env.home, "known_hosts"));
    if knownHosts.HostsError? {
      return Err(KnownHostsFailed(knownHosts.reason)), warnings;
    }

    cc := Ok(ClientConfig(user, [PublicKeys(signers)], knownHosts.callback, SshConnTimeout));
  }
}
