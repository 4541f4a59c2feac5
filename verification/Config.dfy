/** The configuration (`crates/sshrack-core/src/config/schema.rs`). */
module Config {
  import opened Prelude

  /** Stable identities; only their equality matters. */
  type Ulid = nat

  datatype Secret = Plain(text: string) | Encrypted(cipher: string)

  datatype InlineKey = InlineKey(privateKey: Option<Secret>, certificate: Option<Secret>, keyring: bool)

  datatype KeySource = PathKey(path: string) | Pasted(key: InlineKey)

  /** `keyring` marks a password that lives in the OS keyring. */
  datatype Body = Body(user: string, password: Option<Secret>, key: Option<KeySource>, keyring: bool)

  datatype Auth = Ref(credential: Ulid) | Inline(body: Body)

  datatype Host = Host(id: Ulid, name: string, host: string, port: nat, sshArgs: Option<string>, auth: Auth)

  datatype Credential = Credential(id: Ulid, name: string, body: Body)

  datatype Store = Plaintext | Vault | Keyring

  datatype Config = Config(hosts: seq<Host>, credentials: seq<Credential>, store: Option<Store>)

  function FindHost(hosts: seq<Host>, id: Ulid): Option<Host> {
    if hosts == [] then None
    else if hosts[0].id == id then Some(hosts[0])
    else FindHost(hosts[1..], id)
  }

  function FindCredential(creds: seq<Credential>, id: Ulid): Option<Credential> {
    if creds == [] then None
    else if creds[0].id == id then Some(creds[0])
    else FindCredential(creds[1..], id)
  }

  /** The user shown and searched for a host; `?` when there is none. */
  function HostUser(host: Host, creds: seq<Credential>): string {
    var user := match host.auth
                case Inline(body) => body.user
                case Ref(id) =>
                  (match FindCredential(creds, id) case Some(c) => c.body.user case None => "");
    if user == "" then "?" else user
  }

  /** The user of a host is that of its own body or of its credential, the first
      with the id; `?` stands for none. */
  lemma {:induction false} HostUserIsShown(host: Host, creds: seq<Credential>, k: nat)
    ensures host.auth.Inline? && host.auth.body.user != "" ==> HostUser(host, creds) == host.auth.body.user
    ensures host.auth.Inline? && host.auth.body.user == "" ==> HostUser(host, creds) == "?"
    ensures host.auth.Ref? && (forall c | c in creds :: c.id != host.auth.credential) ==> HostUser(host, creds) == "?"
    ensures host.auth.Ref? && k < |creds| && creds[k].id == host.auth.credential
            && (forall j | 0 <= j < k :: creds[j].id != host.auth.credential) ==>
              HostUser(host, creds) == if creds[k].body.user == "" then "?" else creds[k].body.user
  {
    if host.auth.Ref? && creds != [] && creds[0].id != host.auth.credential {
      assert forall j | 0 < j < |creds| :: creds[j] == creds[1..][j - 1];
      HostUserIsShown(host, creds[1..], if k > 0 then k - 1 else |creds|);
    }
  }

  datatype SecretKind = PasswordSecret | KeySecret | KeyringSecret | NoSecret

  function KindOf(body: Body): SecretKind {
    if body.keyring then KeyringSecret
    else if body.key.Some? then KeySecret
    else if body.password.Some? then PasswordSecret
    else NoSecret
  }
}
