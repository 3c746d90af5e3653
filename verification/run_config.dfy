/** The run configuration of a tunnel: `makeRunConfig`, `parseSSHConf` and
    `validate`. Values come from three layers: the ssh config entry of the
    tunnel's host alias, the fields set on the tunnel, and the fallbacks
    (port 22, the alias as host name). */
module TunnelConfig {
  import opened Errors
  import opened Oracles
  import opened Paths
  import opened ClientAuth

  /** `sshPort`. */
  const SshPort: int := 22

  /** The fields of a tunnel that the resolution reads: the host alias, the
      optional overrides (empty or zero when not set) and the two address
      specifications. */
  datatype Declaration = Declaration(
    host: string,
    user: string,
    port: int,
    identityFile: string,
    localAddress: string,
    remoteAddress: string)

  /** The value held by a `runConfig` struct; `clientConfig` is `None` while
      the pointer is nil. */
  datatype RunValue = RunValue(
    localAddress: string,
    remoteAddress: string,
    hostName: string,
    user: string,
    port: int,
    identityFile: string,
    clientConfig: Option<ClientConfig>)

  /** `runConfig{}`. */
  const ZeroRun := RunValue("", "", "", "", 0, "", None)

  /** The ssh config file of a home directory. */
  function SshConfigFileOf(env: Env): SshConfigFile
  {
    env.sshConfig(SshConfigPath(env.home, "config"))
  }

  /** What the ssh config gives for `key` of `alias`: "" when the file could
      not be opened (or did not decode) or the key is not set. */
  function ConfValue(alias: string, key: string, env: Env): string
  {
    match SshConfigFileOf(env)
    case Decoded(get) => get(alias, key)
    case _ => ""
  }

  /** The port the ssh config leaves in the struct: the `strconv.Atoi` value
      of its Port text when the file decoded; otherwise the field keeps its
      zero. */
  function ConfPort(alias: string, env: Env): int
  {
    match SshConfigFileOf(env)
    case Decoded(get) => env.atoi(get(alias, "Port"))
    case _ => 0
  }

  /** `parseSSHConf` applied to the struct value `rc`. */
  function ApplySSHConf(alias: string, env: Env, rc: RunValue): (r: Result<RunValue>)
    // a file that cannot be opened is not an error and changes nothing
    ensures SshConfigFileOf(env).Unopenable? ==> r == Ok(rc)
    // a file that opens but does not decode is the only error
    ensures r.Err? <==> SshConfigFileOf(env).Undecodable?
    ensures r.Err? ==> r.error == SSHConfDecode(SshConfigFileOf(env).reason)
    // only the four ssh-config fields are written
    ensures r.Ok? ==> r.value.localAddress == rc.localAddress && r.value.remoteAddress == rc.remoteAddress
                      && r.value.clientConfig == rc.clientConfig
  {
    match SshConfigFileOf(env)
    case Unopenable => Ok(rc)
    case Undecodable(reason) => Err(SSHConfDecode(reason))
    case Decoded(get) =>
      Ok(rc.(identityFile := get(alias, "IdentityFile"),
             user := get(alias, "User"),
             port := env.atoi(get(alias, "Port")),
             hostName := get(alias, "HostName")))
  }

  /** The overrides and fallbacks `makeRunConfig` applies after parsing. */
  function ApplyOverrides(t: Declaration, rc: RunValue): RunValue
  {
    var user := if t.user != "" then t.user else rc.user;
    var port := if t.port != 0 then t.port else rc.port;
    var identityFile := if t.identityFile != "" then t.identityFile else rc.identityFile;
    rc.(user := user,
        port := if port == 0 then SshPort else port,
        identityFile := identityFile,
        hostName := if rc.hostName == "" then t.host else rc.hostName)
  }

  /** The struct once all three layers are applied, before validation. */
  function Layered(t: Declaration, env: Env): (r: Result<RunValue>)
    ensures r.Err? <==> SshConfigFileOf(env).Undecodable?
    ensures r.Err? ==> r.error == SSHConfDecode(SshConfigFileOf(env).reason)
    // a field set on the tunnel wins over the ssh config
    ensures r.Ok? ==> r.value.user == (if t.user != "" then t.user else ConfValue(t.host, "User", env))
    ensures r.Ok? ==> r.value.identityFile ==
                        (if t.identityFile != "" then t.identityFile else ConfValue(t.host, "IdentityFile", env))
    // the port falls back to 22 when neither layer gives a non-zero one
    ensures r.Ok? ==> r.value.port == (if t.port != 0 then t.port
                                       else if ConfPort(t.host, env) != 0 then ConfPort(t.host, env)
                                       else 22)
    // the host name is never taken from the tunnel, only the alias is
    ensures r.Ok? ==> r.value.hostName == (if ConfValue(t.host, "HostName", env) != "" then ConfValue(t.host, "HostName", env)
                                           else t.host)
    ensures r.Ok? ==> r.value.port != 0
    ensures r.Ok? ==> r.value.localAddress == "" && r.value.remoteAddress == "" && r.value.clientConfig == None
  {
    match ApplySSHConf(t.host, env, ZeroRun)
    case Err(e) => Err(e)
    case Ok(rc) => Ok(ApplyOverrides(t, rc))
  }

  /** `validate`: host name, then user, then port; the first missing one is
      reported. */
  function Validate(rc: RunValue): (err: Option<Error>)
    ensures err == None <==> rc.hostName != "" && rc.user != "" && rc.port != 0
    ensures err == None || err == Some(NoHost) || err == Some(NoUser) || err == Some(NoPort)
    ensures err == Some(NoHost) <==> rc.hostName == ""
    ensures err == Some(NoUser) <==> rc.hostName != "" && rc.user == ""
    // any non-zero port passes, negative ones included
    ensures err == Some(NoPort) <==> rc.hostName != "" && rc.user != "" && rc.port == 0
  {
    if rc.hostName == "" then Some(NoHost)
    else if rc.user == "" then Some(NoUser)
    else if rc.port == 0 then Some(NoPort)
    else None
  }

  /** The local address as stored: an address without ':' is only a port
      and is bound on localhost. */
  function NormaliseLocal(addr: string): (r: string)
    ensures ':' in r
    ensures ':' in addr ==> r == addr
    ensures ':' !in addr ==> r == "localhost:" + addr
  {
    if ':' in addr then addr
    else
      var r := "localhost:" + addr;
      assert r[9] == ':';
      r
  }

  /** Normalising an already normalised address changes nothing. */
  lemma NormaliseLocalIdempotent(addr: string)
    ensures NormaliseLocal(NormaliseLocal(addr)) == NormaliseLocal(addr)
  {
  }

  /** The run configuration `makeRunConfig` stores on the tunnel, or the
      error it returns. */
  function Resolve(t: Declaration, env: Env): Result<RunValue>
  {
    match Layered(t, env)
    case Err(e) => Err(SSHConfParse(e))
    case Ok(rc) =>
      match Validate(rc)
      case Some(e) => Err(e)
      case None =>
        match ClientConfigFor(rc.user, rc.identityFile, env)
        case Err(e) => Err(ClientConfigFailed(e))
        case Ok(cc) =>
          Ok(rc.(clientConfig := Some(cc),
                 remoteAddress := t.remoteAddress,
                 localAddress := NormaliseLocal(t.localAddress)))
  }

  /** What a resolution guarantees: a stored configuration is the layered
      one, complete and valid, with a client configuration built for its
      user and identity file; every failure comes from one of the checks, in
      the order they run. */
  lemma ResolveSound(t: Declaration, env: Env)
    ensures var r, l := Resolve(t, env), Layered(t, env);
            r.Ok? ==> && l.Ok? && Validate(l.value) == None
                      && r.value.hostName == l.value.hostName && r.value.user == l.value.user
                      && r.value.port == l.value.port && r.value.identityFile == l.value.identityFile
    ensures var r := Resolve(t, env);
            r.Ok? ==> r.value.hostName != "" && r.value.user != "" && r.value.port != 0
    ensures var r := Resolve(t, env);
            r.Ok? ==> && ClientConfigFor(r.value.user, r.value.identityFile, env).Ok?
                      && r.value.clientConfig == Some(ClientConfigFor(r.value.user, r.value.identityFile, env).value)
                      && r.value.clientConfig.value.user == r.value.user
    ensures var r := Resolve(t, env);
            r.Ok? ==> && r.value.remoteAddress == t.remoteAddress
                      && r.value.localAddress == NormaliseLocal(t.localAddress)
                      && ':' in r.value.localAddress
    // "no port specified." cannot come out: the port was defaulted first
    ensures Resolve(t, env) != Err(NoPort)
    ensures var r, l := Resolve(t, env), Layered(t, env);
            r.Err? ==> || (l.Err? && r.error == SSHConfParse(l.error))
                       || (l.Ok? && Validate(l.value) == Some(r.error))
                       || (l.Ok? && Validate(l.value) == None
                           && ClientConfigFor(l.value.user, l.value.identityFile, env).Err?
                           && r.error == ClientConfigFailed(ClientConfigFor(l.value.user, l.value.identityFile, env).error))
  {
  }

  /** The warnings a resolution logs: those of the key scan, which runs only
      on a configuration that parsed and validated. */
  function ResolveWarnings(t: Declaration, env: Env): (w: seq<Warning>)
    ensures w != [] ==> Layered(t, env).Ok? && Validate(Layered(t, env).value) == None
    ensures |w| <= 4
  {
    match Layered(t, env)
    case Err(_) => []
    case Ok(rc) =>
      if Validate(rc).Some? then [] else Scan(Candidates(rc.identityFile), env).warnings
  }

  /** "no host specified." happens only for an empty alias that the ssh
      config gives no HostName for. */
  lemma NoHostOnlyForEmptyAlias(t: Declaration, env: Env)
    ensures Resolve(t, env) == Err(NoHost) <==>
              !SshConfigFileOf(env).Undecodable? && t.host == "" && ConfValue(t.host, "HostName", env) == ""
  {
  }

  /** A port the ssh config gives as a negative number is kept and passes
      validation: only zero is refused. */
  lemma NegativeConfigPortAccepted(t: Declaration, env: Env)
    requires SshConfigFileOf(env).Decoded? && t.port == 0 && ConfPort(t.host, env) < 0
    ensures Layered(t, env).Ok? && Layered(t, env).value.port < 0
    ensures Validate(Layered(t, env).value) != Some(NoPort)
  {
  }

  /** A port the ssh config leaves unset, or gives as a text `strconv.Atoi`
      rejects, reads as 0; with no port on the tunnel either, 22 is used. */
  lemma RejectedConfigPortDefaults(t: Declaration, env: Env)
    requires GoLibraryFacts(env) && !SshConfigFileOf(env).Undecodable?
    requires t.port == 0 && !DecimalInteger(ConfValue(t.host, "Port", env))
    ensures Layered(t, env).Ok? && ConfPort(t.host, env) == 0 && Layered(t, env).value.port == 22
  {
    if SshConfigFileOf(env).Decoded? {
      assert env.atoi(ConfValue(t.host, "Port", env)) == 0;
    }
  }

  /** The mutable `runConfig` struct that `parseSSHConf` fills through a
      pointer and that `makeRunConfig` finally stores on the tunnel. */
  class RunConfig {
    var localAddress: string
    var remoteAddress: string
    var hostName: string
    var user: string
    var port: int
    var identityFile: string
    var clientConfig: Option<ClientConfig>

    /** `runConfig{}`. */
    constructor ()
      ensures Value() == ZeroRun
    {
      localAddress, remoteAddress, hostName, user := "", "", "", "";
      port, identityFile, clientConfig := 0, "", None;
    }

    function Value(): RunValue
      reads this
    {
      RunValue(localAddress, remoteAddress, hostName, user, port, identityFile, clientConfig)
    }
  }

  /** `parseSSHConf`: fills the ssh-config fields of `rc` for `alias`. */
  method ParseSSHConf(alias: string, rc: RunConfig, env: Env) returns (err: Option<Error>)
    modifies rc
    ensures ApplySSHConf(alias, env, old(rc.Value())).Ok? ==>
              err == None && rc.Value() == ApplySSHConf(alias, env, old(rc.Value())).value
    ensures ApplySSHConf(alias, env, old(rc.Value())).Err? ==>
              err == Some(ApplySSHConf(alias, env, old(rc.Value())).error) && rc.Value() == old(rc.Value())
  {
    var sshConfFile := env.sshConfig(SshConfigPath(env.home, "config"));
    if sshConfFile.Unopenable? {
      return None;
    }
    if sshConfFile.Undecodable? {
      return Some(SSHConfDecode(sshConfFile.reason));
    }
    var get := sshConfFile.get;
    rc.identityFile := get(alias, "IdentityFile");
    rc.user := get(alias, "User");
    var port := get(alias, "Port");
    rc.port := env.atoi(port);
    rc.hostName := get(alias, "HostName");
    err := None;
  }

  /** A tunnel: the declared fields and the run configuration pointer, nil
      until a resolution succeeds. */
  class Tunnel {
    const host: string
    const user: string
    const port: int
    const identityFile: string
    const localAddress: string
    const remoteAddress: string
    var rc: RunConfig?

    constructor (d: Declaration)
      ensures Declared() == d && rc == null
    {
      host, user, port, identityFile := d.host, d.user, d.port, d.identityFile;
      localAddress, remoteAddress := d.localAddress, d.remoteAddress;
      rc := null;
    }

    function Declared(): Declaration
    {
      Declaration(host, user, port, identityFile, localAddress, remoteAddress)
    }

    /** The part of `makeRunConfig` after parsing: the fields the tunnel
        sets replace the ssh-config values, then port 22 and the alias are
        the fallbacks. */
    method FillFromTunnel(r: RunConfig)
      modifies r
      ensures r.Value() == ApplyOverrides(Declared(), old(r.Value()))
    {
      if user != "" {
        r.user := user;
      }
      if port != 0 {
        r.port := port;
      }
      if identityFile != "" {
        r.identityFile := identityFile;
      }
      if r.port == 0 {
        r.port := SshPort;
      }
      if r.hostName == "" {
        r.hostName := host;
      }
    }

    /** `makeRunConfig`: on success the tunnel points at a new run
        configuration holding the resolved value; on any error the tunnel is
        left as it was. */
    method MakeRunConfig(env: Env) returns (err: Option<Error>, warnings: seq<Warning>)
      modifies this
      ensures Resolve(Declared(), env).Ok? ==>
                err == None && rc != null && fresh(rc) && rc.Value() == Resolve(Declared(), env).value
      ensures Resolve(Declared(), env).Err? ==>
                err == Some(Resolve(Declared(), env).error) && rc == old(rc)
      ensures warnings == ResolveWarnings(Declared(), env)
    {
      ghost var d := Declared();
      var r := new RunConfig();

      // first layer: the entry of the host alias in the ssh config
      var perr := ParseSSHConf(host, r, env);
      if perr.Some? {
        assert Layered(d, env).Err?;
        return Some(SSHConfParse(perr.value)), [];
      }
      ghost var parsed := r.Value();
      assert ApplySSHConf(host, env, ZeroRun) == Ok(parsed);

      // second and third layers: the tunnel's own fields, then port 22 and the alias
      FillFromTunnel(r);
      ghost var layered := r.Value();
      assert layered == ApplyOverrides(d, parsed);
      assert Layered(d, env) == Ok(layered);

      var verr := Validate(r.Value());
      if verr.Some? {
        return verr, [];
      }

      var cc;
      cc, warnings := MakeClientConfig(r.user, r.identityFile, env);
      if cc.Err? {
        return Some(ClientConfigFailed(cc.error)), warnings;
      }
      r.clientConfig := Some(cc.value);
      ghost var resolved := layered.(clientConfig := Some(cc.value),
                                     remoteAddress := remoteAddress,
                                     localAddress := NormaliseLocal(localAddress));
      assert Resolve(d, env) == Ok(resolved);

      r.remoteAddress := remoteAddress;
      r.localAddress := localAddress;
      if ':' !in localAddress {
        r.localAddress := "localhost:" + r.localAddress;
      }
      assert r.localAddress == NormaliseLocal(localAddress);
      assert r.hostName == layered.hostName && r.user == layered.user && r.port == layered.port;
      assert r.identityFile == layered.identityFile;
      assert r.Value() == resolved;

      rc := r;
      assert rc.Value() == resolved;
      assert d == Declared();
      err := None;
    }
  }
}
