# Tunnel run configuration

This is a Dafny model of how the `boring` SSH tunnel manager turns a declared
tunnel into the configuration it connects with (`internal/tunnel/config.go`).
The configuration is built in three layers:

1. the entry for the tunnel's host alias in `~/.ssh/config`, which can be
   absent or malformed;
2. the fields set on the tunnel itself, which override the ssh config;
3. the fallbacks: port 22, and the alias itself as the host name.

The result is then checked for a host, a user and a port. Next, an SSH client
configuration is built:

- the identity file and the three default keys are scanned, in order;
- a signer is collected for each one that parses;
- a warning is logged for each one that reads but does not parse;
- the known_hosts callback is attached.

Finally, the local address is normalised to `host:port`.

Modules:

- `Errors` holds `Option` and `Result` and the errors the code returns, with their message texts.
- `Oracles` holds the environment:
  - HOME;
  - opening and decoding the ssh config;
  - reading a file;
  - parsing a private key;
  - loading known_hosts;
  - `strconv.Atoi`.

  Each one is a total function from what the Go code passes to what it gets back.
- `Paths` holds `sshConfigPath` and `fillHome`.
- `ClientAuth` holds the key scan and `makeClientConfig`:
  - the functions `Classify` and `Scan` specify the scan;
  - the method `MakeClientConfig` runs the scan as a loop, the way the Go code does, and is proved equal to the specification.
- `TunnelConfig` holds `parseSSHConf`, `validate` and `makeRunConfig`:
  - the functions `ApplySSHConf`, `Layered`, `Validate` and `Resolve` specify them;
  - the class `RunConfig` is the `runConfig` struct that `parseSSHConf` fills through a pointer;
  - the class `Tunnel` holds the `rc` pointer that `MakeRunConfig` sets.
- `Scenarios` holds end-to-end consequences and a worked example.

Two behaviours of the code are easy to miss:

- A local address is given a `localhost:` prefix whenever it contains no `:`. This includes the empty address, which becomes `"localhost:"` (`config.go:75-77`).
- The warning for an unparsable key names the candidate as listed, before `~` expansion (`config.go:132`).

## Model

| member | source | states |
|---|---|---|
| Errors.Error.Message | internal/tunnel/config.go:34-156 | The error texts. A wrapped error ("could not parse SSH config: ", "could not make client config: ") ends with its cause's text. A known_hosts error is passed on verbatim. |
| Paths.FillHome | internal/tunnel/config.go:162-170 | "~" becomes HOME. "~/x" becomes x joined under HOME, so the result starts with HOME when HOME is set (with the join without cleaning, see Left out). Any other path, "~user" included, is unchanged. |
| Paths.FillHomeIdempotent | internal/tunnel/config.go:162-170 | With an absolute HOME, expanding twice gives the same as expanding once, because the expanded path starts with '/'. |
| ClientAuth.Classify | internal/tunnel/config.go:125-135 | A candidate is skipped exactly when its expanded path cannot be read. A warning names the candidate as listed, not the expanded path. |
| ClientAuth.Scan | internal/tunnel/config.go:121-136 | Each candidate yields at most one signer or warning, so the count of signers plus warnings is at most the number of candidates. |
| ClientAuth.ScanResult.ThenAssociative | internal/tunnel/config.go:125-136 | Accumulating scan results is associative. |
| ClientAuth.ScanConcat | internal/tunnel/config.go:125-136 | Scanning a + b gives the scan of a followed by the scan of b. The candidates are handled strictly in order and independently. |
| ClientAuth.ScanKeepsExactlyParsed | internal/tunnel/config.go:126-135 | A signer is collected if and only if some candidate reads and parses to it. |
| ClientAuth.ScanWarnsExactlyMalformed | internal/tunnel/config.go:126-134 | A warning is logged if and only if some candidate reads but fails to parse. A malformed key never stops the scan. |
| ClientAuth.ScanIgnoresKnownHosts | internal/tunnel/config.go:121-136 | The scan does not consult the known_hosts store. |
| ClientAuth.PostScanChecks | internal/tunnel/config.go:138-155 | "no key files found." is returned if and only if there is no signer. With signers, the call fails if and only if known_hosts fails, with that error unchanged, so host-key checking is never skipped. On success the config has the given user, one public-key method over the 1 to 4 signers in scan order, the known_hosts callback and a 10 s timeout. |
| ClientAuth.NoKeysSkipsKnownHosts | internal/tunnel/config.go:138-142 | Without a signer the result is "no key files found." whatever known_hosts holds. |
| ClientAuth.NoReadableKeyFails | internal/tunnel/config.go:122-140 | When no candidate is readable, there is no signer and no warning, and the result is "no key files found.". |
| ClientAuth.MalformedThenValid | internal/tunnel/config.go:122-136 | A malformed identity file followed by a good id_rsa and missing other keys gives exactly one signer and one warning, the warning naming the identity file. |
| ClientAuth.EmptyIdentityFileSkipped | internal/tunnel/config.go:123-129 | An unset identity file is still the first candidate, but it expands to the empty path, which cannot be read. The scan is then that of the default keys alone. |
| ClientAuth.DefaultKeysUnderSshDir | internal/tunnel/config.go:22 | Once expanded, the default keys are id_rsa, id_ecdsa and id_ed25519 in the same HOME/.ssh directory that `sshConfigPath` names. |
| ClientAuth.MakeClientConfig | internal/tunnel/config.go:121-156 | The loop computes the client config (or error) and the warning lines the scan specification gives, for every input. |
| TunnelConfig.ApplySSHConf | internal/tunnel/config.go:83-106 | A config file that cannot be opened is not an error and changes nothing. The only error is a file that opens but does not decode, reported with "could not decode ssh config". Otherwise only the four ssh-config fields change. |
| TunnelConfig.ParseSSHConf | internal/tunnel/config.go:83-106 | Through the pointer: on success the struct holds the ssh-config values for the alias. On error the struct is unchanged. |
| TunnelConfig.RunConfig.constructor | internal/tunnel/config.go:24-35 | A new run config is the zero struct. |
| TunnelConfig.Layered | internal/tunnel/config.go:34-61 | Precedence: a user or identity file set on the tunnel wins over the ssh config. The port is the tunnel's if non-zero, else the config's if non-zero, else 22, so it is never 0. The host name is the config's HostName, else the alias. Parsing fails exactly when the config does not decode. |
| TunnelConfig.Tunnel.FillFromTunnel | internal/tunnel/config.go:42-61 | The overrides and fallbacks applied in place to the parsed struct. |
| TunnelConfig.Validate | internal/tunnel/config.go:108-119 | Passes if and only if host name, user and port are all set. Otherwise reports the first missing one, in the order host, user, port. Any non-zero port passes. |
| TunnelConfig.NormaliseLocal | internal/tunnel/config.go:73-77 | The result always contains ':'. An address with ':' is kept. An address without ':' becomes "localhost:" + address. |
| TunnelConfig.NormaliseLocalIdempotent | internal/tunnel/config.go:73-77 | Normalising twice equals normalising once. |
| TunnelConfig.ResolveSound | internal/tunnel/config.go:34-81 | A stored run config is the layered one: valid, holding the client config built for its user and identity file, with the remote address and the normalised local address. "no port specified." never comes out. Every error is the wrapped parse error, the validation error, or the wrapped client-config error, in that order. |
| TunnelConfig.ResolveWarnings | internal/tunnel/config.go:63-71 | Warnings are logged only once parsing and validation succeed, and at most four of them. |
| TunnelConfig.NoHostOnlyForEmptyAlias | internal/tunnel/config.go:58-61 | "no host specified." is returned if and only if the config decodes or is absent, the alias is empty and the config gives no HostName. |
| TunnelConfig.NegativeConfigPortAccepted | internal/tunnel/config.go:100-117 | A negative port from the ssh config is kept and passes validation. |
| TunnelConfig.RejectedConfigPortDefaults | internal/tunnel/config.go:46-101 | A Port the ssh config leaves unset, or gives as text Atoi rejects, reads as 0. With no port on the tunnel, the port is then 22. |
| TunnelConfig.Tunnel.constructor | internal/tunnel/config.go:34 | A new tunnel holds the declared fields and no run config. |
| TunnelConfig.Tunnel.MakeRunConfig | internal/tunnel/config.go:34-81 | On success the tunnel points at a fresh run config equal to the resolved value. On any error the tunnel's pointer is unchanged and the error is the resolved one. The warnings logged are those of the resolution. |
| Scenarios.UnknownAliasNeedsUser | internal/tunnel/config.go:54-65 | An alias the config gives no user for, with nothing set on the tunnel, fails with "no user specified." and logs nothing. With no Port entry either, the port has fallen back to 22. |
| Scenarios.MalformedConfigAborts | internal/tunnel/config.go:38-40 | An undecodable config aborts with the wrapped decode error before any key is read. |
| Scenarios.AbsentConfigIgnored | internal/tunnel/config.go:85-88 | A missing config leaves only the tunnel's fields and the fallbacks. |
| Scenarios.KnownHostsFailureFailsTunnel | internal/tunnel/config.go:142-145 | A known_hosts failure fails the tunnel with the wrapped error. |
| Scenarios.NoReadableKeyFailsTunnel | internal/tunnel/config.go:125-140 | No readable key fails the tunnel with the wrapped "no key files found." and no warning. |
| Scenarios.LocalAddressExamples | internal/tunnel/config.go:73-77 | "8080" becomes "localhost:8080". "0.0.0.0:8080" is unchanged. |
| Scenarios.MyHostFromConfig | internal/tunnel/config.go:96-103 | An alias alone takes host, user and port from its config entry. |
| Scenarios.PortFromEachLayer | internal/tunnel/config.go:46-56 | The port comes from the tunnel, else the config, else 22. |
| Scenarios.ExampleIdentityFile | internal/tunnel/config.go:126-133 | The example identity file reads but does not parse. |
| Scenarios.ExampleDefaultKeys | internal/tunnel/config.go:22 | Of the example's default keys only id_rsa is present, and it parses. |
| Scenarios.MalformedIdentityScan | internal/tunnel/config.go:125-136 | The example scan gives one signer and one warning. |
| Scenarios.MalformedIdentityThenDefaultKey | internal/tunnel/config.go:34-81 | The full example resolution succeeds with exactly one signer and logs exactly one warning. |

## Left out

- Logging: `internal/log/log.go` is not part of this model. The warning lines `makeClientConfig` hands to the logger are returned as a sequence.
- The ssh_config grammar and `Get`: a decoded file is a lookup function from alias and key to the value, with "" for an unset key.
- `strconv.Atoi` is a parameter. The Go code drops its error. `Oracles.GoLibraryFacts` fixes that a text Atoi rejects, the empty text included, gives 0, and that the empty path cannot be read; the lemmas that need these facts require it. The value of an accepted text, and its clamping when out of range, are not fixed.
- `os.Open`, `os.ReadFile`, `os.Getenv("HOME")`, `ssh.ParsePrivateKey` and `knownhosts.New` are parameters of the environment. Key material, signatures and host-key checking are not modelled.
- `filepath.Join` drops empty elements and separates the others with "/". Its lexical cleaning (`..`, `.` and doubled separators) is not modelled.
- Paths.FillHome: its ensures that an expanded path starts with HOME holds for the join without cleaning that the model uses. Go's cleaning can break it: with HOME "/u", `fillHome("~/../x")` is "/x".
- The ssh config file is never closed on a decode error. File handles are not modelled.
- The other fields and methods of `Tunnel` (`tunnel.go`) are not part of this model. Only the fields the resolution reads and the `rc` pointer are kept.
- `time.Duration` is an integer count of nanoseconds.
- Concurrency: resolution runs on one tunnel at a time, so no sharing is modelled.
