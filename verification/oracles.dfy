/** The outside world as seen by the tunnel configuration code. Every call
    into the operating system or into a library whose code is not part of
    this model is a field of `Env`: a total function from what the Go code
    passes to what it gets back. */
module Oracles {

  /** A parsed private key (`ssh.Signer`); the handle stands for the key
      object the parsing library hands out. */
  datatype Signer = Signer(handle: nat)

  /** A host-key verification callback built from a known_hosts file. */
  datatype HostKeyCallback = HostKeyCallback(handle: nat)

  /** `os.ReadFile`: any failure is `Unreadable`. */
  datatype ReadOutcome = Unreadable | Read(data: seq<bv8>)

  /** `ssh.ParsePrivateKey`. */
  datatype KeyOutcome = Malformed(reason: string) | Parsed(signer: Signer)

  /** `knownhosts.New`. */
  datatype KnownHostsOutcome = HostsError(reason: string) | HostsLoaded(callback: HostKeyCallback)

  /** `os.Open` followed by `ssh_config.Decode`. When the file decodes,
      `get(alias, key)` is `Get(alias, key)` with its error dropped, as the
      Go code drops it: "" means the key is not given for the alias. */
  datatype SshConfigFile =
    | Unopenable
    | Undecodable(reason: string)
    | Decoded(get: (string, string) -> string)

  /** The environment one resolution runs in.
      - home: the value of the HOME environment variable;
      - sshConfig: opening and decoding the file at a path;
      - readFile, parseKey, knownHosts: the calls named above, by argument;
      - atoi: the integer `strconv.Atoi` returns for a text (its error is
        dropped by the caller). */
  datatype Env = Env(
    home: string,
    sshConfig: string -> SshConfigFile,
    readFile: string -> ReadOutcome,
    parseKey: seq<bv8> -> KeyOutcome,
    knownHosts: string -> KnownHostsOutcome,
    atoi: string -> int)

  /** A text `strconv.Atoi` accepts in base 10: an optional sign followed
      by one or more decimal digits. */
  predicate DecimalInteger(s: string)
  {
    var digits := if |s| > 0 && (s[0] == '+' || s[0] == '-') then s[1..] else s;
    |digits| > 0 && forall i :: 0 <= i < |digits| ==> '0' <= digits[i] <= '9'
  }

  /** What the Go libraries fix about the calls whatever the machine holds:
      `strconv.Atoi` gives 0 for a text it rejects, the empty text included,
      and `os.ReadFile("")` fails because no file has the empty name. */
  ghost predicate GoLibraryFacts(env: Env)
  {
    && (forall s :: !DecimalInteger(s) ==> env.atoi(s) == 0)
    && env.readFile("").Unreadable?
  }
}
