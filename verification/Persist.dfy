/** Saving and deleting hosts and credentials (`src/tui/persist.rs`, with the
    sealing of secrets from `secret/vault/mod.rs`). The world is the loaded
    configuration and the OS keyring. */
module Persist {
  import opened Prelude
  import opened Config

  datatype Error = CredentialNotFound | HostNotFound | AlreadyExists | NameTaken | BadName | BadSshArgs
                 | InvalidBody | MissingId | StoreModeNotDecided | VaultLocked | Interrupted | KeyringDown | Io

  datatype Owner = HostOwner | CredentialOwner

  datatype Part = PasswordPart | PrivatePart | CertificatePart

  datatype Slot = Slot(owner: Owner, id: Ulid, part: Part)

  type Ring = map<Slot, string>

  datatype World = World(config: Config, keyring: Ring)

  /** What happens to the config file: there may be none, and saving or reading
      it back may fail. A file read back equals what was written. */
  datatype Disk = NoPath | SaveFails | LoadFails | Saved

  /** Foreign answers during one save: name and argument checks, the vault key
      (`Ok(true)` is an unlocked key), encryption, the keyring daemon, the disk. */
  datatype Env = Env(nameOk: string -> bool, argsOk: string -> bool,
                     normalize: Option<string> -> Option<string>,
                     unlock: Result<bool, Error>, encrypt: string -> string,
                     keyringUp: bool, disk: Disk)

  // ---- sealing ----

  predicate IsPlain(s: Option<Secret>) {
    s.Some? && s.value.Plain?
  }

  /** `body_has_plaintext_secret` */
  predicate HasPlain(body: Body) {
    || IsPlain(body.password)
    || (body.key.Some? && body.key.value.Pasted?
        && (IsPlain(body.key.value.key.privateKey) || IsPlain(body.key.value.key.certificate)))
  }

  /** Re-host one secret that is still plain: encrypted in place, moved to the
      keyring, or kept, by the storage mode. */
  function SealSecret(env: Env, store: Option<Store>, vaultKey: bool, slot: Slot, secret: Option<Secret>, keyring: Ring)
    : Result<(Option<Secret>, Ring), Error>
  {
    if !IsPlain(secret) then Ok((secret, keyring))
    else
      match store
      case Some(Vault) =>
        if vaultKey then Ok((Some(Encrypted(env.encrypt(secret.value.text))), keyring)) else Err(VaultLocked)
      case Some(Keyring) =>
        if env.keyringUp then Ok((None, keyring[slot := secret.value.text])) else Err(KeyringDown)
      case _ => Ok((secret, keyring))
  }

  /** `seal_body` */
  function SealBody(env: Env, store: Option<Store>, vaultKey: bool, owner: Owner, id: Ulid, body: Body, keyring: Ring)
    : Result<(Body, Ring), Error>
  {
    match SealSecret(env, store, vaultKey, Slot(owner, id, PasswordPart), body.password, keyring)
    case Err(e) => Err(e)
    case Ok((password, ring)) =>
      var marked := store == Some(Keyring) && body.key.None? && password.None?
                    && (IsPlain(body.password) || body.keyring);
      match body.key
      case None => Ok((Body(body.user, password, None, marked), ring))
      case Some(PathKey(p)) => Ok((Body(body.user, password, body.key, marked), ring))
      case Some(Pasted(ik)) =>
        match SealSecret(env, store, vaultKey, Slot(owner, id, PrivatePart), ik.privateKey, ring)
        case Err(e) => Err(e)
        case Ok((priv, ring1)) =>
          match SealSecret(env, store, vaultKey, Slot(owner, id, CertificatePart), ik.certificate, ring1)
          case Err(e) => Err(e)
          case Ok((cert, ring2)) =>
            var sealed := InlineKey(priv, cert, ik.keyring || store == Some(Keyring));
            Ok((Body(body.user, password, Some(Pasted(sealed)), marked), ring2))
  }

  /** What the program can read back for one secret of a stored body. */
  function Reveal(decrypt: string -> string, keyring: Ring, slot: Slot, marked: bool, secret: Option<Secret>)
    : Option<string>
  {
    match secret
    case Some(Plain(t)) => Some(t)
    case Some(Encrypted(c)) => Some(decrypt(c))
    case None => if marked && slot in keyring then Some(keyring[slot]) else None
  }

  function RevealPassword(decrypt: string -> string, keyring: Ring, owner: Owner, id: Ulid, body: Body)
    : Option<string>
  {
    Reveal(decrypt, keyring, Slot(owner, id, PasswordPart), body.keyring, body.password)
  }

  function RevealPrivate(decrypt: string -> string, keyring: Ring, owner: Owner, id: Ulid, body: Body): Option<string> {
    match body.key
    case Some(Pasted(key)) => Reveal(decrypt, keyring, Slot(owner, id, PrivatePart), key.keyring, key.privateKey)
    case _ => None
  }

  function RevealCertificate(decrypt: string -> string, keyring: Ring, owner: Owner, id: Ulid, body: Body)
    : Option<string>
  {
    match body.key
    case Some(Pasted(key)) => Reveal(decrypt, keyring, Slot(owner, id, CertificatePart), key.keyring, key.certificate)
    case _ => None
  }

  /** At most one of password, key and keyring marker, as configurations keep it. */
  predicate OneSecret(body: Body) {
    && !(body.password.Some? && body.key.Some?)
    && !(body.password.Some? && body.keyring)
    && !(body.key.Some? && body.keyring)
  }

  predicate Guarded(store: Option<Store>) {
    store == Some(Keyring) || store == Some(Vault)
  }

  /** Sealing under the vault or the keyring leaves no plaintext, and loses
      nothing: password, private key and certificate read back as collected. */
  lemma SealHidesAndKeeps(env: Env, decrypt: string -> string, store: Option<Store>, vaultKey: bool, owner: Owner,
                          id: Ulid, body: Body, keyring: Ring)
    requires forall t :: decrypt(env.encrypt(t)) == t
    requires OneSecret(body)
    requires SealBody(env, store, vaultKey, owner, id, body, keyring).Ok?
    ensures var (sealed, ring) := SealBody(env, store, vaultKey, owner, id, body, keyring).value;
            && (Guarded(store) ==> !HasPlain(sealed))
            && OneSecret(sealed)
            && sealed.user == body.user
            && (IsPlain(body.password) ==>
                  RevealPassword(decrypt, ring, owner, id, sealed) == Some(body.password.value.text))
            && (body.key.Some? && body.key.value.Pasted? && IsPlain(body.key.value.key.privateKey) ==>
                  RevealPrivate(decrypt, ring, owner, id, sealed) == Some(body.key.value.key.privateKey.value.text))
            && (body.key.Some? && body.key.value.Pasted? && IsPlain(body.key.value.key.certificate) ==>
                  RevealCertificate(decrypt, ring, owner, id, sealed)
                  == Some(body.key.value.key.certificate.value.text))
            && (forall slot: Slot :: slot.owner != owner || slot.id != id ==>
                  (slot in ring <==> slot in keyring) && (slot in ring ==> ring[slot] == keyring[slot]))
  {
    if body.key.Some? && body.key.value.Pasted? {
      assert body.password.None?;
    }
  }

  /** Seal only when there is something plain, and never without a decided mode. */
  function SealIfPlain(env: Env, store: Option<Store>, owner: Owner, id: Ulid, body: Body, keyring: Ring)
    : Result<(Body, Ring), Error>
  {
    if !HasPlain(body) then Ok((body, keyring))
    else if store.None? then Err(StoreModeNotDecided)
    else match env.unlock
      case Err(e) => Err(e)
      case Ok(vaultKey) => SealBody(env, store, vaultKey, owner, id, body, keyring)
  }

  lemma SealIfPlainHides(env: Env, store: Option<Store>, owner: Owner, id: Ulid, body: Body, keyring: Ring)
    ensures var r := SealIfPlain(env, store, owner, id, body, keyring);
            && (r.Ok? && (Guarded(store) || store.None?) ==> !HasPlain(r.value.0))
            && (r.Ok? && (store != Some(Keyring) || !HasPlain(body)) ==> r.value.1 == keyring)
  {
  }

  // ---- configuration edits ----

  predicate HostNamed(hosts: seq<Host>, name: string) {
    exists k :: 0 <= k < |hosts| && hosts[k].name == name
  }

  predicate CredentialNamed(creds: seq<Credential>, name: string) {
    exists k :: 0 <= k < |creds| && creds[k].name == name
  }

  function FindCredentialByName(creds: seq<Credential>, name: string): Option<Credential> {
    if creds == [] then None
    else if creds[0].name == name then Some(creds[0])
    else FindCredentialByName(creds[1..], name)
  }

  function FindHostByName(hosts: seq<Host>, name: string): Option<Host> {
    if hosts == [] then None
    else if hosts[0].name == name then Some(hosts[0])
    else FindHostByName(hosts[1..], name)
  }

  function SpliceHost(hosts: seq<Host>, h: Host): (r: seq<Host>)
    ensures |r| == |hosts|
  {
    if hosts == [] then []
    else if hosts[0].id == h.id then [h] + hosts[1..]
    else [hosts[0]] + SpliceHost(hosts[1..], h)
  }

  function SpliceCredential(creds: seq<Credential>, c: Credential): (r: seq<Credential>)
    ensures |r| == |creds|
  {
    if creds == [] then []
    else if creds[0].id == c.id then [c] + creds[1..]
    else [creds[0]] + SpliceCredential(creds[1..], c)
  }

  function DropHostsNamed(hosts: seq<Host>, name: string): (r: seq<Host>)
    ensures forall h :: h in r <==> h in hosts && h.name != name
  {
    if hosts == [] then []
    else
      assert hosts == [hosts[0]] + hosts[1..];
      (if hosts[0].name == name then [] else [hosts[0]]) + DropHostsNamed(hosts[1..], name)
  }

  function DropCredentialsNamed(creds: seq<Credential>, name: string): (r: seq<Credential>)
    ensures forall c :: c in r <==> c in creds && c.name != name
  {
    if creds == [] then []
    else
      assert creds == [creds[0]] + creds[1..];
      (if creds[0].name == name then [] else [creds[0]]) + DropCredentialsNamed(creds[1..], name)
  }

  /** Write the new configuration out and adopt what is read back. */
  function Commit(env: Env, w: World, next: Config, keyring: Ring): (World, bool) {
    match env.disk
    case NoPath => (World(next, keyring), true)
    case Saved => (World(next, keyring), true)
    case _ => (w.(keyring := keyring), false)
  }

  // ---- saving a host ----

  /** The host form: trimmed fields, and the inline body its rows build. */
  datatype HostForm = HostForm(editing: bool, origId: Option<Ulid>, name: string, addr: string, port: nat,
                               sshArgs: Option<string>, credentialName: Option<string>, body: Body,
                               passwordLeftBlank: bool)

  /** The auth to store, before sealing. On an edit that leaves the password row
      blank, the stored password and its keyring marker are carried over. */
  function HostAuth(cfg: Config, form: HostForm, id: Ulid): Result<Auth, Error> {
    match form.credentialName
    case Some(name) =>
      (match FindCredentialByName(cfg.credentials, name)
       case None => Err(CredentialNotFound)
       case Some(c) => Ok(Ref(c.id)))
    case None =>
      if form.editing && form.passwordLeftBlank && form.body.password.None? then
        match FindHost(cfg.hosts, id)
        case None => Err(HostNotFound)
        case Some(orig) =>
          if orig.auth.Inline?
          then Ok(Inline(form.body.(password := orig.auth.body.password, keyring := orig.auth.body.keyring)))
          else Ok(Inline(form.body))
      else Ok(Inline(form.body))
  }

  function SealAuth(env: Env, cfg: Config, id: Ulid, auth: Auth, keyring: Ring): Result<(Auth, Ring), Error> {
    match auth
    case Ref(_) => Ok((auth, keyring))
    case Inline(body) =>
      match SealIfPlain(env, cfg.store, HostOwner, id, body, keyring)
      case Err(e) => Err(e)
      case Ok((sealed, ring)) => Ok((Inline(sealed), ring))
  }

  function HostConfig(env: Env, cfg: Config, form: HostForm, id: Ulid, auth: Auth): Result<Config, Error> {
    if form.editing then
      match FindHost(cfg.hosts, id)
      case None => Err(HostNotFound)
      case Some(orig) =>
        if orig.name != form.name && !env.nameOk(form.name) then Err(BadName)
        else if orig.name != form.name && HostNamed(cfg.hosts, form.name) then Err(NameTaken)
        else Ok(cfg.(hosts := SpliceHost(cfg.hosts, Host(id, form.name, form.addr, form.port, form.sshArgs, auth))))
    else if HostNamed(cfg.hosts, form.name) then Err(AlreadyExists)
    else if !env.nameOk(form.name) then Err(BadName)
    else if form.sshArgs.Some? && !env.argsOk(form.sshArgs.value) then Err(BadSshArgs)
    else Ok(cfg.(hosts := cfg.hosts + [Host(id, form.name, form.addr, form.port, env.normalize(form.sshArgs), auth)]))
  }

  /** `persist_host_save`. `freshId` is the id generated for an added host. */
  function PersistHostSave(env: Env, w: World, form: HostForm, freshId: Ulid): (World, Result<Ulid, Error>) {
    if form.editing && form.origId.None? then (w, Err(MissingId))
    else
      var id := if form.editing then form.origId.value else freshId;
      match HostAuth(w.config, form, id)
      case Err(e) => (w, Err(e))
      case Ok(auth) =>
        match SealAuth(env, w.config, id, auth, w.keyring)
        case Err(e) => (w, Err(e))
        case Ok((sealed, ring)) =>
          match HostConfig(env, w.config, form, id, sealed)
          case Err(e) => (w.(keyring := ring), Err(e))
          case Ok(next) =>
            var (w', ok) := Commit(env, w, next, ring);
            (w', if ok then Ok(id) else Err(Io))
  }

  function Forget(env: Env, keyring: Ring, owner: Owner, id: Ulid, body: Body): Ring {
    if !env.keyringUp then keyring
    else
      var ring := if body.keyring then keyring - {Slot(owner, id, PasswordPart)} else keyring;
      if body.key.Some? && body.key.value.Pasted? && body.key.value.key.keyring
      then ring - {Slot(owner, id, PrivatePart), Slot(owner, id, CertificatePart)} else ring
  }

  function PersistHostDelete(env: Env, w: World, name: string): (World, Result<(), Error>) {
    match FindHostByName(w.config.hosts, name)
    case None => (w, Err(HostNotFound))
    case Some(h) =>
      var ring := if h.auth.Inline? then Forget(env, w.keyring, HostOwner, h.id, h.auth.body) else w.keyring;
      var (w', ok) := Commit(env, w, w.config.(hosts := DropHostsNamed(w.config.hosts, name)), ring);
      (w', if ok then Ok(()) else Err(Io))
  }

  // ---- saving a credential ----

  datatype CredForm = CredForm(editing: bool, origId: Option<Ulid>, name: string, body: Body, passwordLeftBlank: bool)

  /** Id and body before sealing. A blank password row carries over the stored
      password, but not the keyring marker. */
  function CredBody(env: Env, cfg: Config, form: CredForm, freshId: Ulid): Result<(Ulid, Body), Error> {
    if form.editing then
      if form.origId.None? then Err(MissingId)
      else match FindCredential(cfg.credentials, form.origId.value)
        case None => Err(CredentialNotFound)
        case Some(orig) =>
          var body := if form.passwordLeftBlank && form.body.password.None?
                      then form.body.(password := orig.body.password) else form.body;
          if orig.name != form.name && !env.nameOk(form.name) then Err(BadName)
          else if orig.name != form.name && CredentialNamed(cfg.credentials, form.name) then Err(NameTaken)
          else Ok((orig.id, body))
    else if CredentialNamed(cfg.credentials, form.name) then Err(AlreadyExists)
    else Ok((freshId, form.body))
  }

  /** `CredentialBody::validate` */
  predicate ValidBody(body: Body) {
    && OneSecret(body)
    && (body.key.Some? && body.key.value.Pasted? && body.key.value.key.keyring ==>
          body.key.value.key.privateKey.None? && body.key.value.key.certificate.None?)
  }

  function CredConfig(env: Env, cfg: Config, form: CredForm, id: Ulid, body: Body): Result<Config, Error> {
    if form.editing then Ok(cfg.(credentials := SpliceCredential(cfg.credentials, Credential(id, form.name, body))))
    else if !env.nameOk(form.name) then Err(BadName)
    else if !ValidBody(body) then Err(InvalidBody)
    else Ok(cfg.(credentials := cfg.credentials + [Credential(id, form.name, body)]))
  }

  /** `persist_cred_save` */
  function PersistCredSave(env: Env, w: World, form: CredForm, freshId: Ulid): (World, Result<(), Error>) {
    match CredBody(env, w.config, form, freshId)
    case Err(e) => (w, Err(e))
    case Ok((id, body)) =>
      match SealIfPlain(env, w.config.store, CredentialOwner, id, body, w.keyring)
      case Err(e) => (w, Err(e))
      case Ok((sealed, ring)) =>
        match CredConfig(env, w.config, form, id, sealed)
        case Err(e) => (w.(keyring := ring), Err(e))
        case Ok(next) =>
          var (w', ok) := Commit(env, w, next, ring);
          (w', if ok then Ok(()) else Err(Io))
  }

  function PersistCredDelete(env: Env, w: World, name: string): (World, Result<(), Error>) {
    match FindCredentialByName(w.config.credentials, name)
    case None => (w, Err(CredentialNotFound))
    case Some(c) =>
      var ring := Forget(env, w.keyring, CredentialOwner, c.id, c.body);
      var (w', ok) := Commit(env, w, w.config.(credentials := DropCredentialsNamed(w.config.credentials, name)), ring);
      (w', if ok then Ok(()) else Err(Io))
  }

  // ---- invariants of the configuration ----

  ghost predicate HostsDistinct(hosts: seq<Host>) {
    forall a, b | 0 <= a < b < |hosts| :: hosts[a].id != hosts[b].id && hosts[a].name != hosts[b].name
  }

  ghost predicate CredentialsDistinct(creds: seq<Credential>) {
    forall a, b | 0 <= a < b < |creds| :: creds[a].id != creds[b].id && creds[a].name != creds[b].name
  }

  predicate AuthHasPlain(auth: Auth) {
    auth.Inline? && HasPlain(auth.body)
  }

  ghost predicate NoPlaintext(cfg: Config) {
    && (forall k | 0 <= k < |cfg.hosts| :: !AuthHasPlain(cfg.hosts[k].auth))
    && (forall k | 0 <= k < |cfg.credentials| :: !HasPlain(cfg.credentials[k].body))
  }

  ghost predicate WellFormed(cfg: Config) {
    HostsDistinct(cfg.hosts) && CredentialsDistinct(cfg.credentials)
  }

  /** Names and ids are unique, and a guarded store holds no plaintext. */
  ghost predicate Inv(cfg: Config) {
    WellFormed(cfg) && (Guarded(cfg.store) ==> NoPlaintext(cfg))
  }

  lemma {:induction false} FindHostFinds(hosts: seq<Host>, id: Ulid)
    ensures FindHost(hosts, id).Some? ==>
              exists k :: 0 <= k < |hosts| && hosts[k] == FindHost(hosts, id).value && hosts[k].id == id
    ensures FindHost(hosts, id).None? ==> forall k | 0 <= k < |hosts| :: hosts[k].id != id
  {
    if hosts != [] && hosts[0].id != id {
      FindHostFinds(hosts[1..], id);
      assert forall k | 0 < k < |hosts| :: hosts[k] == hosts[1..][k - 1];
    }
  }

  lemma {:induction false} FindCredentialFinds(creds: seq<Credential>, id: Ulid)
    ensures FindCredential(creds, id).Some? ==>
              exists k :: 0 <= k < |creds| && creds[k] == FindCredential(creds, id).value && creds[k].id == id
    ensures FindCredential(creds, id).None? ==> forall k | 0 <= k < |creds| :: creds[k].id != id
  {
    if creds != [] && creds[0].id != id {
      FindCredentialFinds(creds[1..], id);
      assert forall k | 0 < k < |creds| :: creds[k] == creds[1..][k - 1];
    }
  }

  /** Splicing replaces the host with that id and no other. */
  lemma {:induction false} SpliceHostReplaces(hosts: seq<Host>, h: Host)
    requires HostsDistinct(hosts)
    ensures forall k | 0 <= k < |hosts| :: SpliceHost(hosts, h)[k] == if hosts[k].id == h.id then h else hosts[k]
  {
    if hosts != [] && hosts[0].id != h.id {
      SpliceHostReplaces(hosts[1..], h);
    }
  }

  lemma {:induction false} SpliceCredentialReplaces(creds: seq<Credential>, c: Credential)
    requires CredentialsDistinct(creds)
    ensures forall k | 0 <= k < |creds| :: SpliceCredential(creds, c)[k] == if creds[k].id == c.id then c else creds[k]
  {
    if creds != [] && creds[0].id != c.id {
      SpliceCredentialReplaces(creds[1..], c);
    }
  }

  lemma {:induction false} DropHostsDistinct(hosts: seq<Host>, name: string)
    requires HostsDistinct(hosts)
    ensures HostsDistinct(DropHostsNamed(hosts, name))
  {
    if hosts != [] {
      DropHostsDistinct(hosts[1..], name);
      var rest := DropHostsNamed(hosts[1..], name);
      forall k | 0 <= k < |rest|
        ensures rest[k].id != hosts[0].id && rest[k].name != hosts[0].name
      {
        assert rest[k] in hosts[1..];
      }
    }
  }

  lemma {:induction false} DropCredentialsDistinct(creds: seq<Credential>, name: string)
    requires CredentialsDistinct(creds)
    ensures CredentialsDistinct(DropCredentialsNamed(creds, name))
  {
    if creds != [] {
      DropCredentialsDistinct(creds[1..], name);
      var rest := DropCredentialsNamed(creds[1..], name);
      forall k | 0 <= k < |rest|
        ensures rest[k].id != creds[0].id && rest[k].name != creds[0].name
      {
        assert rest[k] in creds[1..];
      }
    }
  }

  // ---- what one save does ----

  /** The id a save is about. */
  function HostTarget(form: HostForm, freshId: Ulid): Ulid {
    if form.editing && form.origId.Some? then form.origId.value else freshId
  }

  ghost predicate FreshHostId(cfg: Config, id: Ulid) {
    forall k | 0 <= k < |cfg.hosts| :: cfg.hosts[k].id != id
  }

  ghost predicate FreshCredentialId(cfg: Config, id: Ulid) {
    forall k | 0 <= k < |cfg.credentials| :: cfg.credentials[k].id != id
  }

  /** The host has the id, and everything but its authentication is the form's;
      the arguments are normalised when a host is added. */
  predicate HasFields(env: Env, h: Host, form: HostForm, id: Ulid) {
    && h.id == id && h.name == form.name && h.host == form.addr && h.port == form.port
    && h.sshArgs == (if form.editing then form.sshArgs else env.normalize(form.sshArgs))
  }

  /** `next` is `hosts` with the first host under `id` replaced by the form's. */
  ghost predicate OneHostReplaced(env: Env, hosts: seq<Host>, next: seq<Host>, form: HostForm, id: Ulid) {
    exists k :: 0 <= k < |hosts| && hosts[k].id == id && (forall j | 0 <= j < k :: hosts[j].id != id)
                && |next| == |hosts| && HasFields(env, next[k], form, id)
                && forall j | 0 <= j < |hosts| && j != k :: next[j] == hosts[j]
  }

  ghost predicate OneHostAdded(env: Env, hosts: seq<Host>, next: seq<Host>, form: HostForm, id: Ulid) {
    |next| == |hosts| + 1 && next[..|hosts|] == hosts && HasFields(env, next[|hosts|], form, id)
  }

  lemma {:induction false} SpliceAt(hosts: seq<Host>, h: Host) returns (k: nat)
    requires FindHost(hosts, h.id).Some?
    ensures k < |hosts| && hosts[k].id == h.id && forall j | 0 <= j < k :: hosts[j].id != h.id
    ensures SpliceHost(hosts, h) == hosts[k := h]
  {
    k := 0;
    if hosts[0].id != h.id {
      var i := SpliceAt(hosts[1..], h);
      k := i + 1;
      assert forall j | 0 < j < k :: hosts[j] == hosts[1..][j - 1];
    }
  }

  lemma SpliceReplacesOne(env: Env, hosts: seq<Host>, h: Host, form: HostForm)
    requires FindHost(hosts, h.id).Some? && HasFields(env, h, form, h.id)
    ensures OneHostReplaced(env, hosts, SpliceHost(hosts, h), form, h.id)
  {
    hide HasFields;
    var k := SpliceAt(hosts, h);
    assert SpliceHost(hosts, h)[k] == h;
  }

  /** A saved host sits in the list under its id with the form's name, address,
      port and arguments: an edit replaces the first host of that id, an add
      appends, and every other host and all credentials stay. A refused save
      changes no part of the configuration. */
  lemma HostSaveIsLocal(env: Env, w: World, form: HostForm, freshId: Ulid)
    ensures var (w', r) := PersistHostSave(env, w, form, freshId);
            var id := HostTarget(form, freshId);
            && (r.Err? ==> w'.config == w.config)
            && w'.config.credentials == w.config.credentials && w'.config.store == w.config.store
            && (r.Ok? ==>
                  && r.value == id
                  && (if form.editing then OneHostReplaced(env, w.config.hosts, w'.config.hosts, form, id)
                      else OneHostAdded(env, w.config.hosts, w'.config.hosts, form, id)))
  {
    hide OneHostReplaced, SpliceHost, SealAuth, HostAuth;
    var (w', r) := PersistHostSave(env, w, form, freshId);
    if r.Ok? && form.editing {
      var id := HostTarget(form, freshId);
      var auth := HostAuth(w.config, form, id).value;
      var sealed := SealAuth(env, w.config, id, auth, w.keyring).value.0;
      SpliceReplacesOne(env, w.config.hosts, Host(id, form.name, form.addr, form.port, form.sshArgs, sealed), form);
    }
  }

  lemma HostConfigIsLocal(env: Env, cfg: Config, form: HostForm, id: Ulid, auth: Auth)
    requires HostsDistinct(cfg.hosts)
    requires form.editing || FreshHostId(cfg, id)
    requires HostConfig(env, cfg, form, id, auth).Ok?
    ensures var next := HostConfig(env, cfg, form, id, auth).value;
            && next.credentials == cfg.credentials && next.store == cfg.store
            && HostsDistinct(next.hosts)
            && |next.hosts| == |cfg.hosts| + (if form.editing then 0 else 1)
            && (exists k :: 0 <= k < |next.hosts| && next.hosts[k].id == id && next.hosts[k].name == form.name)
            && (forall k | 0 <= k < |next.hosts| :: next.hosts[k].id == id ==> next.hosts[k].auth == auth)
            && (forall k | 0 <= k < |cfg.hosts| :: next.hosts[k].id == cfg.hosts[k].id)
            && (forall k | 0 <= k < |cfg.hosts| && cfg.hosts[k].id != id :: next.hosts[k] == cfg.hosts[k])
  {
    var next := HostConfig(env, cfg, form, id, auth).value;
    if form.editing {
      FindHostFinds(cfg.hosts, id);
      var h := Host(id, form.name, form.addr, form.port, form.sshArgs, auth);
      SpliceHostReplaces(cfg.hosts, h);
      var k :| 0 <= k < |cfg.hosts| && cfg.hosts[k] == FindHost(cfg.hosts, id).value;
      assert next.hosts[k] == h;
    } else {
      assert next.hosts[|cfg.hosts|].id == id;
    }
  }

  /** Same promises for credentials. */
  lemma CredConfigIsLocal(env: Env, cfg: Config, form: CredForm, id: Ulid, body: Body)
    requires CredentialsDistinct(cfg.credentials)
    requires if form.editing
             then exists k :: 0 <= k < |cfg.credentials| && cfg.credentials[k].id == id
                              && (cfg.credentials[k].name == form.name || !CredentialNamed(cfg.credentials, form.name))
             else FreshCredentialId(cfg, id) && !CredentialNamed(cfg.credentials, form.name)
    requires CredConfig(env, cfg, form, id, body).Ok?
    ensures var next := CredConfig(env, cfg, form, id, body).value;
            && next.hosts == cfg.hosts && next.store == cfg.store
            && CredentialsDistinct(next.credentials)
            && |next.credentials| == |cfg.credentials| + (if form.editing then 0 else 1)
            && (exists k :: 0 <= k < |next.credentials| && next.credentials[k] == Credential(id, form.name, body))
            && (forall k | 0 <= k < |next.credentials| ::
                  next.credentials[k].id == id ==> next.credentials[k].body == body)
            && (forall k | 0 <= k < |cfg.credentials| :: next.credentials[k].id == cfg.credentials[k].id)
            && (forall k | 0 <= k < |cfg.credentials| && cfg.credentials[k].id != id ::
                  next.credentials[k] == cfg.credentials[k])
  {
    var next := CredConfig(env, cfg, form, id, body).value;
    var c := Credential(id, form.name, body);
    if form.editing {
      SpliceCredentialReplaces(cfg.credentials, c);
      var k :| 0 <= k < |cfg.credentials| && cfg.credentials[k].id == id;
      assert next.credentials[k] == c;
    } else {
      assert next.credentials[|cfg.credentials|] == c;
    }
  }

  /** Splicing touches no credential of another id. */
  lemma {:induction false} SpliceKeepsOthers(creds: seq<Credential>, c: Credential)
    requires FindCredential(creds, c.id).Some?
    ensures var next := SpliceCredential(creds, c);
            && c in next
            && forall k | 0 <= k < |creds| :: next[k] == creds[k] || (creds[k].id == c.id && next[k] == c)
  {
    if creds[0].id != c.id {
      SpliceKeepsOthers(creds[1..], c);
    }
  }

  /** The credential form of `HostSaveIsLocal`. */
  lemma CredSaveIsLocal(env: Env, w: World, form: CredForm, freshId: Ulid)
    ensures var (w', r) := PersistCredSave(env, w, form, freshId);
            var id := if form.editing && form.origId.Some? then form.origId.value else freshId;
            && (r.Err? ==> w'.config == w.config)
            && w'.config.hosts == w.config.hosts && w'.config.store == w.config.store
            && (r.Ok? ==>
                  && |w'.config.credentials| == |w.config.credentials| + (if form.editing then 0 else 1)
                  && (exists k :: 0 <= k < |w'.config.credentials|
                                  && w'.config.credentials[k].id == id && w'.config.credentials[k].name == form.name)
                  && (forall k | 0 <= k < |w.config.credentials| && w.config.credentials[k].id != id ::
                        w'.config.credentials[k] == w.config.credentials[k]))
  {
    hide SealIfPlain, SpliceCredential;
    var (w', r) := PersistCredSave(env, w, form, freshId);
    if r.Ok? {
      CredTargetExists(env, w.config, form, freshId);
      var (id, body) := CredBody(env, w.config, form, freshId).value;
      var sealed := SealIfPlain(env, w.config.store, CredentialOwner, id, body, w.keyring).value.0;
      var c := Credential(id, form.name, sealed);
      if form.editing {
        FindCredentialFinds(w.config.credentials, id);
        SpliceKeepsOthers(w.config.credentials, c);
        assert c in w'.config.credentials;
      } else {
        assert w'.config.credentials[|w.config.credentials|] == c;
      }
    }
  }

  lemma CredTargetExists(env: Env, cfg: Config, form: CredForm, freshId: Ulid)
    requires CredBody(env, cfg, form, freshId).Ok?
    ensures var (id, _) := CredBody(env, cfg, form, freshId).value;
            if form.editing
            then form.origId == Some(id)
                 && exists k :: 0 <= k < |cfg.credentials| && cfg.credentials[k].id == id
                              && (cfg.credentials[k].name == form.name || !CredentialNamed(cfg.credentials, form.name))
            else id == freshId && !CredentialNamed(cfg.credentials, form.name)
  {
    if form.editing {
      FindCredentialFinds(cfg.credentials, form.origId.value);
    }
  }

  /** Nothing plain is stored while the storage mode is undecided: the save is
      refused and the world is as before. */
  lemma UndecidedStoreRejectsPlaintext(env: Env, w: World, host: HostForm, cred: CredForm, freshId: Ulid)
    requires w.config.store.None?
    ensures HostAuth(w.config, host, HostTarget(host, freshId)).Ok?
            && AuthHasPlain(HostAuth(w.config, host, HostTarget(host, freshId)).value)
            && (host.editing ==> host.origId.Some?)
            ==> PersistHostSave(env, w, host, freshId) == (w, Err(StoreModeNotDecided))
    ensures CredBody(env, w.config, cred, freshId).Ok? && HasPlain(CredBody(env, w.config, cred, freshId).value.1)
            ==> PersistCredSave(env, w, cred, freshId) == (w, Err(StoreModeNotDecided))
  {
  }

  /** A plain secret other than the one its slot already holds. */
  predicate NewText(keyring: Ring, slot: Slot, secret: Option<Secret>) {
    IsPlain(secret) && !(slot in keyring && keyring[slot] == secret.value.text)
  }

  predicate HoldsNewSecret(keyring: Ring, owner: Owner, id: Ulid, body: Body) {
    || NewText(keyring, Slot(owner, id, PasswordPart), body.password)
    || (body.key.Some? && body.key.value.Pasted?
        && (NewText(keyring, Slot(owner, id, PrivatePart), body.key.value.key.privateKey)
            || NewText(keyring, Slot(owner, id, CertificatePart), body.key.value.key.certificate)))
  }

  /** What it takes to change a keyring. */
  predicate KeyringWrites(env: Env, store: Option<Store>) {
    store == Some(Keyring) && env.keyringUp && env.unlock.Ok?
  }

  function Put(keyring: Ring, slot: Slot, secret: Option<Secret>): Ring {
    if IsPlain(secret) then keyring[slot := secret.value.text] else keyring
  }

  /** The keyring once every plain secret of the body has its slot. */
  function PutBody(keyring: Ring, owner: Owner, id: Ulid, body: Body): Ring {
    var ring := Put(keyring, Slot(owner, id, PasswordPart), body.password);
    if body.key.Some? && body.key.value.Pasted? then
      var ring1 := Put(ring, Slot(owner, id, PrivatePart), body.key.value.key.privateKey);
      Put(ring1, Slot(owner, id, CertificatePart), body.key.value.key.certificate)
    else ring
  }

  lemma SealPutsBody(env: Env, vaultKey: bool, owner: Owner, id: Ulid, body: Body, keyring: Ring)
    requires env.keyringUp
    ensures var r := SealBody(env, Some(Keyring), vaultKey, owner, id, body, keyring);
            r.Ok? && r.value.1 == PutBody(keyring, owner, id, body)
  {
  }

  lemma SealNeedsKeyring(env: Env, vaultKey: bool, owner: Owner, id: Ulid, body: Body, keyring: Ring)
    requires HasPlain(body) && !env.keyringUp
    ensures SealBody(env, Some(Keyring), vaultKey, owner, id, body, keyring).Err?
  {
  }

  lemma PutSame(keyring: Ring, slot: Slot, secret: Option<Secret>)
    ensures Put(keyring, slot, secret) == keyring <==> !NewText(keyring, slot, secret)
  {
  }

  lemma PutBodySame(keyring: Ring, owner: Owner, id: Ulid, body: Body)
    ensures PutBody(keyring, owner, id, body) == keyring <==> !HoldsNewSecret(keyring, owner, id, body)
  {
    hide Put, NewText;
    var slot := Slot(owner, id, PasswordPart);
    var ring := Put(keyring, slot, body.password);
    PutSame(keyring, slot, body.password);
    if body.key.Some? && body.key.value.Pasted? {
      var key := body.key.value.key;
      var slot1, slot2 := Slot(owner, id, PrivatePart), Slot(owner, id, CertificatePart);
      LaterPuts(keyring, slot, body.password, slot1, key.privateKey, slot2, key.certificate);
    }
  }

  /** Three different slots do not hide each other's news. */
  lemma LaterPuts(keyring: Ring, a: Slot, x: Option<Secret>, b: Slot, y: Option<Secret>, c: Slot, z: Option<Secret>)
    requires a != b && b != c && a != c
    ensures Put(Put(Put(keyring, a, x), b, y), c, z) == keyring
            <==> !NewText(keyring, a, x) && !NewText(keyring, b, y) && !NewText(keyring, c, z)
  {
    var r := Put(Put(Put(keyring, a, x), b, y), c, z);
    if r == keyring {
      assert IsPlain(x) ==> a in r && r[a] == x.value.text;
      assert IsPlain(y) ==> b in r && r[b] == y.value.text;
    }
  }

  lemma SealMovesNewSecrets(env: Env, store: Option<Store>, owner: Owner, id: Ulid, body: Body, keyring: Ring)
    ensures var r := SealIfPlain(env, store, owner, id, body, keyring);
            r.Ok? && r.value.1 != keyring <==> KeyringWrites(env, store) && HoldsNewSecret(keyring, owner, id, body)
  {
    hide SealBody, PutBody;
    PutBodySame(keyring, owner, id, body);
    SealIfPlainHides(env, store, owner, id, body, keyring);
    if KeyringWrites(env, store) {
      SealPutsBody(env, env.unlock.value, owner, id, body, keyring);
    } else if HasPlain(body) && store == Some(Keyring) && env.unlock.Ok? {
      SealNeedsKeyring(env, env.unlock.value, owner, id, body, keyring);
    }
  }

  /** The form resolves to an inline body with a secret the keyring does not
      hold, and the keyring can be written. */
  predicate MovesSecret(env: Env, w: World, form: HostForm, freshId: Ulid) {
    && (form.editing ==> form.origId.Some?)
    && KeyringWrites(env, w.config.store)
    && var id := HostTarget(form, freshId);
    var auth := HostAuth(w.config, form, id);
    auth.Ok? && auth.value.Inline? && HoldsNewSecret(w.keyring, HostOwner, id, auth.value.body)
  }

  /** A refused save changes nothing, exactly unless the form holds a new secret
      for a keyring that can be written: sealing runs before the name of a host
      is checked and before the file is written. */
  lemma RefusedSaveKeepsKeyring(env: Env, w: World, form: HostForm, freshId: Ulid)
    requires PersistHostSave(env, w, form, freshId).1.Err?
    ensures PersistHostSave(env, w, form, freshId).0 == w <==> !MovesSecret(env, w, form, freshId)
  {
    hide SealIfPlain, HostConfig, HostAuth, KeyringWrites, HoldsNewSecret;
    var id := HostTarget(form, freshId);
    var auth := HostAuth(w.config, form, id);
    if auth.Ok? && auth.value.Inline? {
      SealMovesNewSecrets(env, w.config.store, HostOwner, id, auth.value.body, w.keyring);
    }
  }

  /** The same for a credential, whose name is checked first on an edit only. */
  lemma RefusedCredSaveKeepsKeyring(env: Env, w: World, form: CredForm, freshId: Ulid)
    requires PersistCredSave(env, w, form, freshId).1.Err?
    ensures var prepared := CredBody(env, w.config, form, freshId);
            PersistCredSave(env, w, form, freshId).0 == w
            <==> !(prepared.Ok? && KeyringWrites(env, w.config.store)
                   && HoldsNewSecret(w.keyring, CredentialOwner, prepared.value.0, prepared.value.1))
  {
    hide SealIfPlain, CredConfig, CredBody, KeyringWrites, HoldsNewSecret;
    var prepared := CredBody(env, w.config, form, freshId);
    if prepared.Ok? {
      SealMovesNewSecrets(env, w.config.store, CredentialOwner, prepared.value.0, prepared.value.1, w.keyring);
    }
  }

  /** Renaming a host to a taken name while typing a new password: the rename is
      refused, yet the password stored for that host is already the new one. */
  lemma RefusedRenameReplacesPassword(env: Env, w: World, form: HostForm, freshId: Ulid, password: string)
    requires w.config.store == Some(Keyring) && env.keyringUp && env.unlock.Ok? && env.nameOk(form.name)
    requires form.editing && form.origId.Some? && form.credentialName.None?
    requires form.body.password == Some(Plain(password)) && form.body.key.None?
    requires var orig := FindHost(w.config.hosts, form.origId.value); orig.Some? && orig.value.name != form.name
    requires HostNamed(w.config.hosts, form.name)
    ensures var (w', r) := PersistHostSave(env, w, form, freshId);
            && r == Err(NameTaken) && w'.config == w.config
            && w'.keyring == w.keyring[Slot(HostOwner, form.origId.value, PasswordPart) := password]
  {
  }

  lemma {:induction false} SplicedHostIsFound(hosts: seq<Host>, h: Host)
    requires FindHost(hosts, h.id).Some?
    ensures FindHost(SpliceHost(hosts, h), h.id) == Some(h)
  {
    if hosts[0].id != h.id {
      SplicedHostIsFound(hosts[1..], h);
    }
  }

  lemma {:induction false} SplicedCredentialIsFound(creds: seq<Credential>, c: Credential)
    requires FindCredential(creds, c.id).Some?
    ensures FindCredential(SpliceCredential(creds, c), c.id) == Some(c)
  {
    if creds[0].id != c.id {
      SplicedCredentialIsFound(creds[1..], c);
    }
  }

  lemma {:induction false} FoundCredentialHasId(creds: seq<Credential>, id: Ulid)
    ensures FindCredential(creds, id).Some? ==> FindCredential(creds, id).value.id == id
  {
    if creds != [] {
      FoundCredentialHasId(creds[1..], id);
    }
  }

  function UserOnly(user: string): Body {
    Body(user, None, None, false)
  }

  /** A body saved without touching its password reveals the same password. */
  lemma SealKeepsRevealedPassword(env: Env, decrypt: string -> string, store: Option<Store>, owner: Owner, id: Ulid,
                                  body: Body, keyring: Ring)
    requires forall t :: decrypt(env.encrypt(t)) == t
    requires OneSecret(body) && body.key.None? && SealIfPlain(env, store, owner, id, body, keyring).Ok?
    ensures var (sealed, ring) := SealIfPlain(env, store, owner, id, body, keyring).value;
            RevealPassword(decrypt, ring, owner, id, sealed) == RevealPassword(decrypt, keyring, owner, id, body)
  {
  }

  /** Editing a host and leaving its password row blank keeps the password. */
  lemma HostBlankPasswordIsKept(env: Env, decrypt: string -> string, w: World, form: HostForm, freshId: Ulid)
    requires forall t :: decrypt(env.encrypt(t)) == t
    requires form.editing && form.origId.Some? && form.credentialName.None?
    requires form.passwordLeftBlank && form.body == UserOnly(form.body.user)
    requires var orig := FindHost(w.config.hosts, form.origId.value);
             orig.Some? && orig.value.auth.Inline? && OneSecret(orig.value.auth.body)
    requires PersistHostSave(env, w, form, freshId).1.Ok?
    ensures var id := form.origId.value;
            var w' := PersistHostSave(env, w, form, freshId).0;
            var before, after := FindHost(w.config.hosts, id).value, FindHost(w'.config.hosts, id);
            && after.Some? && after.value.auth.Inline?
            && RevealPassword(decrypt, w'.keyring, HostOwner, id, after.value.auth.body)
               == RevealPassword(decrypt, w.keyring, HostOwner, id, before.auth.body)
  {
    var id := form.origId.value;
    var before := FindHost(w.config.hosts, id).value.auth.body;
    var body := form.body.(password := before.password, keyring := before.keyring);
    assert HostAuth(w.config, form, id) == Ok(Inline(body));
    SealKeepsRevealedPassword(env, decrypt, w.config.store, HostOwner, id, body, w.keyring);
    var (sealed, ring) := SealIfPlain(env, w.config.store, HostOwner, id, body, w.keyring).value;
    hide SealBody;
    SplicedHostIsFound(w.config.hosts, Host(id, form.name, form.addr, form.port, form.sshArgs, Inline(sealed)));
  }

  /** Editing a credential that way keeps the password exactly when it is not
      held by the keyring: the code carries over the stored password but drops
      the keyring marker. */
  lemma CredBlankPasswordIsKept(env: Env, decrypt: string -> string, w: World, form: CredForm, freshId: Ulid)
    requires forall t :: decrypt(env.encrypt(t)) == t
    requires form.editing && form.origId.Some? && form.passwordLeftBlank && form.body == UserOnly(form.body.user)
    requires var orig := FindCredential(w.config.credentials, form.origId.value);
             orig.Some? && OneSecret(orig.value.body)
    requires PersistCredSave(env, w, form, freshId).1.Ok?
    ensures var id := form.origId.value;
            var w' := PersistCredSave(env, w, form, freshId).0;
            var before := FindCredential(w.config.credentials, id).value;
            var after := FindCredential(w'.config.credentials, id);
            && after.Some?
            && (RevealPassword(decrypt, w'.keyring, CredentialOwner, id, after.value.body)
                == RevealPassword(decrypt, w.keyring, CredentialOwner, id, before.body)
                <==> !(before.body.keyring && Slot(CredentialOwner, id, PasswordPart) in w.keyring))
  {
    var id := form.origId.value;
    FoundCredentialHasId(w.config.credentials, id);
    var before := FindCredential(w.config.credentials, id).value.body;
    var body := form.body.(password := before.password);
    assert CredBody(env, w.config, form, freshId) == Ok((id, body));
    SealKeepsRevealedPassword(env, decrypt, w.config.store, CredentialOwner, id, body, w.keyring);
    var (sealed, ring) := SealIfPlain(env, w.config.store, CredentialOwner, id, body, w.keyring).value;
    hide SealBody;
    SplicedCredentialIsFound(w.config.credentials, Credential(id, form.name, sealed));
  }

  // ---- runs ----

  datatype Op = SaveHost(env: Env, host: HostForm, freshId: Ulid)
              | SaveCred(env: Env, cred: CredForm, freshId: Ulid)
              | DeleteHost(env: Env, name: string)
              | DeleteCred(env: Env, name: string)

  function Step(w: World, op: Op): World {
    match op
    case SaveHost(env, form, freshId) => PersistHostSave(env, w, form, freshId).0
    case SaveCred(env, form, freshId) => PersistCredSave(env, w, form, freshId).0
    case DeleteHost(env, name) => PersistHostDelete(env, w, name).0
    case DeleteCred(env, name) => PersistCredDelete(env, w, name).0
  }

  function Run(w: World, ops: seq<Op>): World
    decreases |ops|
  {
    if ops == [] then w else Step(Run(w, ops[..|ops| - 1]), ops[|ops| - 1])
  }

  /** Generated ids are new. */
  ghost predicate FreshIds(w: World, ops: seq<Op>) {
    forall k | 0 <= k < |ops| ::
      && (ops[k].SaveHost? ==> FreshHostId(Run(w, ops[..k]).config, ops[k].freshId))
      && (ops[k].SaveCred? ==> FreshCredentialId(Run(w, ops[..k]).config, ops[k].freshId))
  }

  lemma HostSaveKeepsInv(env: Env, w: World, form: HostForm, freshId: Ulid)
    requires Inv(w.config) && FreshHostId(w.config, freshId)
    ensures Inv(PersistHostSave(env, w, form, freshId).0.config)
  {
    var (w', r) := PersistHostSave(env, w, form, freshId);
    if r.Ok? {
      var id := HostTarget(form, freshId);
      var auth := HostAuth(w.config, form, id).value;
      var sealed := SealAuth(env, w.config, id, auth, w.keyring).value.0;
      if auth.Inline? {
        SealIfPlainHides(env, w.config.store, HostOwner, id, auth.body, w.keyring);
      }
      HostConfigIsLocal(env, w.config, form, id, sealed);
      hide SealBody, HostConfig, PersistHostSave;
      forall k | 0 <= k < |w'.config.hosts| && Guarded(w.config.store)
        ensures !AuthHasPlain(w'.config.hosts[k].auth)
      {
        if w'.config.hosts[k].id != id {
          assert w'.config.hosts[k] == w.config.hosts[k];
        }
      }
    }
  }

  lemma CredSaveKeepsInv(env: Env, w: World, form: CredForm, freshId: Ulid)
    requires Inv(w.config) && FreshCredentialId(w.config, freshId)
    ensures Inv(PersistCredSave(env, w, form, freshId).0.config)
  {
    var (w', r) := PersistCredSave(env, w, form, freshId);
    if r.Ok? {
      CredTargetExists(env, w.config, form, freshId);
      var (id, body) := CredBody(env, w.config, form, freshId).value;
      var sealed := SealIfPlain(env, w.config.store, CredentialOwner, id, body, w.keyring).value.0;
      SealIfPlainHides(env, w.config.store, CredentialOwner, id, body, w.keyring);
      CredConfigIsLocal(env, w.config, form, id, sealed);
      hide SealBody, CredConfig, PersistCredSave;
      forall k | 0 <= k < |w'.config.credentials| && Guarded(w.config.store)
        ensures !HasPlain(w'.config.credentials[k].body)
      {
        if w'.config.credentials[k].id != id {
          assert w'.config.credentials[k] == w.config.credentials[k];
        }
      }
    }
  }

  lemma DeleteKeepsInv(env: Env, w: World, name: string)
    requires Inv(w.config)
    ensures Inv(PersistHostDelete(env, w, name).0.config)
    ensures Inv(PersistCredDelete(env, w, name).0.config)
  {
    DropHostsDistinct(w.config.hosts, name);
    DropCredentialsDistinct(w.config.credentials, name);
    var hosts, creds := DropHostsNamed(w.config.hosts, name), DropCredentialsNamed(w.config.credentials, name);
    forall k | 0 <= k < |hosts| ensures hosts[k] in w.config.hosts {
      assert hosts[k] in hosts;
    }
    forall k | 0 <= k < |creds| ensures creds[k] in w.config.credentials {
      assert creds[k] in creds;
    }
  }

  /** Over any run of adds, edits and deletes, names and ids stay unique, the
      storage mode stays what it was, and under the keyring or the vault no
      stored body ever holds plaintext. */
  lemma {:induction false} RunKeepsInv(w: World, ops: seq<Op>)
    requires Inv(w.config) && FreshIds(w, ops)
    ensures Inv(Run(w, ops).config) && Run(w, ops).config.store == w.config.store
    decreases |ops|
  {
    if ops != [] {
      var init, op := ops[..|ops| - 1], ops[|ops| - 1];
      forall k | 0 <= k < |init| ensures init[..k] == ops[..k] {
      }
      RunKeepsInv(w, init);
      StepKeepsInv(Run(w, init), op);
    }
  }

  lemma StepKeepsInv(w: World, op: Op)
    requires Inv(w.config)
    requires op.SaveHost? ==> FreshHostId(w.config, op.freshId)
    requires op.SaveCred? ==> FreshCredentialId(w.config, op.freshId)
    ensures Inv(Step(w, op).config) && Step(w, op).config.store == w.config.store
  {
    match op
    case SaveHost(env, form, freshId) =>
      HostSaveKeepsInv(env, w, form, freshId);
      HostSaveIsLocal(env, w, form, freshId);
    case SaveCred(env, form, freshId) =>
      CredSaveKeepsInv(env, w, form, freshId);
      CredSaveIsLocal(env, w, form, freshId);
    case DeleteHost(env, name) => DeleteKeepsInv(env, w, name);
    case DeleteCred(env, name) => DeleteKeepsInv(env, w, name);
  }
}
