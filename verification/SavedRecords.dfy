/** What a save stores and when it is refused, told from the form: the whole
    record, its secrets as they read back, and the checks a save passes
    (`src/tui/persist.rs`). */
module SavedRecords {
  import opened Prelude
  import opened Config
  import opened Persist

  // ---- what is stored ----

  /** The stored body holds the form's: the same user and key file, and every
      secret typed reads back as typed. */
  predicate Keeps(decrypt: string -> string, keyring: Ring, owner: Owner, id: Ulid, typed: Body, stored: Body) {
    && stored.user == typed.user
    && (typed.key.Some? && typed.key.value.PathKey? ==> stored.key == typed.key)
    && (typed.key.Some? && typed.key.value.Pasted? ==> stored.key.Some? && stored.key.value.Pasted?)
    && (typed.key.None? ==> stored.key.None?)
    && (IsPlain(typed.password) ==>
          RevealPassword(decrypt, keyring, owner, id, stored) == Some(typed.password.value.text))
    && (typed.key.Some? && typed.key.value.Pasted? && IsPlain(typed.key.value.key.privateKey) ==>
          RevealPrivate(decrypt, keyring, owner, id, stored) == Some(typed.key.value.key.privateKey.value.text))
    && (typed.key.Some? && typed.key.value.Pasted? && IsPlain(typed.key.value.key.certificate) ==>
          RevealCertificate(decrypt, keyring, owner, id, stored) == Some(typed.key.value.key.certificate.value.text))
  }

  lemma SealedKeeps(env: Env, decrypt: string -> string, store: Option<Store>, owner: Owner, id: Ulid, body: Body,
                    keyring: Ring)
    requires forall t :: decrypt(env.encrypt(t)) == t
    requires OneSecret(body) && SealIfPlain(env, store, owner, id, body, keyring).Ok?
    ensures var (sealed, ring) := SealIfPlain(env, store, owner, id, body, keyring).value;
            Keeps(decrypt, ring, owner, id, body, sealed)
  {
    hide SealBody, Keeps;
    if HasPlain(body) {
      SealedBodyKeeps(env, decrypt, store, env.unlock.value, owner, id, body, keyring);
    } else {
      PlainlessKeeps(decrypt, keyring, owner, id, body);
    }
  }

  lemma PlainlessKeeps(decrypt: string -> string, keyring: Ring, owner: Owner, id: Ulid, body: Body)
    requires !HasPlain(body)
    ensures Keeps(decrypt, keyring, owner, id, body, body)
  {
  }

  lemma SealedBodyKeeps(env: Env, decrypt: string -> string, store: Option<Store>, vaultKey: bool, owner: Owner,
                        id: Ulid, body: Body, keyring: Ring)
    requires forall t :: decrypt(env.encrypt(t)) == t
    requires OneSecret(body) && SealBody(env, store, vaultKey, owner, id, body, keyring).Ok?
    ensures var (sealed, ring) := SealBody(env, store, vaultKey, owner, id, body, keyring).value;
            Keeps(decrypt, ring, owner, id, body, sealed)
  {
    hide RevealPassword, RevealPrivate, RevealCertificate;
    SealHidesAndKeeps(env, decrypt, store, vaultKey, owner, id, body, keyring);
    SealedKeyKind(env, store, vaultKey, owner, id, body, keyring);
    hide SealBody;
  }

  lemma SealedKeyKind(env: Env, store: Option<Store>, vaultKey: bool, owner: Owner, id: Ulid, body: Body, keyring: Ring)
    requires SealBody(env, store, vaultKey, owner, id, body, keyring).Ok?
    ensures var key := SealBody(env, store, vaultKey, owner, id, body, keyring).value.0.key;
            && (body.key.Some? && body.key.value.PathKey? ==> key == body.key)
            && (body.key.Some? && body.key.value.Pasted? ==> key.Some? && key.value.Pasted?)
            && (body.key.None? ==> key.None?)
  {
    hide SealSecret;
  }

  /** The record a host save is about: the one under the id when a host is edited,
      the last one when a host is added. */
  function SavedHost(form: HostForm, id: Ulid, hosts: seq<Host>): Option<Host> {
    if form.editing then FindHost(hosts, id) else if hosts == [] then None else Some(hosts[|hosts| - 1])
  }

  /** The stored authentication is the form's: a reference to the credential of
      the chosen name, or a body of its own. */
  predicate AuthOfForm(decrypt: string -> string, w: World, form: HostForm, id: Ulid, auth: Auth) {
    match form.credentialName
    case Some(name) =>
      && auth.Ref?
      && var c := FindCredentialByName(w.config.credentials, name);
      c.Some? && auth.credential == c.value.id
    case None =>
      auth.Inline? && Keeps(decrypt, w.keyring, HostOwner, id, form.body, auth.body)
  }

  /** An accepted host save stores the whole form. */
  lemma SavedHostIsTheForm(env: Env, decrypt: string -> string, w: World, form: HostForm, freshId: Ulid)
    requires forall t :: decrypt(env.encrypt(t)) == t
    requires PersistHostSave(env, w, form, freshId).1.Ok?
    requires OneSecret(form.body)
    requires form.editing && form.passwordLeftBlank ==> form.body.key == None
    requires form.editing ==> InlineOneSecret(w.config.hosts)
    ensures var w', id := PersistHostSave(env, w, form, freshId).0, HostTarget(form, freshId);
            var h := SavedHost(form, id, w'.config.hosts);
            h.Some? && HasFields(env, h.value, form, id) && AuthOfForm(decrypt, w', form, id, h.value.auth)
  {
    hide SealIfPlain, Keeps, HostConfig, OneSecret, FindCredentialByName;
    var id := HostTarget(form, freshId);
    var auth := HostAuth(w.config, form, id).value;
    var (sealed, ring) := SealAuth(env, w.config, id, auth, w.keyring).value;
    if auth.Inline? {
      TypedBodyIsKept(w.config, form, id);
      SealedKeeps(env, decrypt, w.config.store, HostOwner, id, auth.body, w.keyring);
      KeptBodyKeeps(decrypt, ring, HostOwner, id, form.body, auth.body, sealed.body);
    }
    StoredHost(env, w.config, form, id, sealed);
  }

  ghost predicate InlineOneSecret(hosts: seq<Host>) {
    forall h | h in hosts && h.auth.Inline? :: OneSecret(h.auth.body)
  }

  /** The body before sealing has what the form has. */
  predicate Carries(typed: Body, body: Body) {
    && body.user == typed.user && body.key == typed.key
    && (IsPlain(typed.password) ==> body.password == typed.password)
  }

  lemma TypedBodyIsKept(cfg: Config, form: HostForm, id: Ulid)
    requires OneSecret(form.body) && HostAuth(cfg, form, id).Ok? && HostAuth(cfg, form, id).value.Inline?
    requires form.editing && form.passwordLeftBlank ==> form.body.key == None
    requires form.editing ==> InlineOneSecret(cfg.hosts)
    ensures var body := HostAuth(cfg, form, id).value.body; Carries(form.body, body) && OneSecret(body)
    ensures form.credentialName == None
  {
    FindHostFinds(cfg.hosts, id);
  }

  lemma KeptBodyKeeps(decrypt: string -> string, keyring: Ring, owner: Owner, id: Ulid, typed: Body, body: Body,
                      stored: Body)
    requires Carries(typed, body) && Keeps(decrypt, keyring, owner, id, body, stored)
    ensures Keeps(decrypt, keyring, owner, id, typed, stored)
  {
    hide RevealPassword, RevealPrivate, RevealCertificate;
  }

  lemma StoredHost(env: Env, cfg: Config, form: HostForm, id: Ulid, auth: Auth)
    requires HostConfig(env, cfg, form, id, auth).Ok?
    ensures var next := HostConfig(env, cfg, form, id, auth).value;
            var h := SavedHost(form, id, next.hosts);
            h.Some? && HasFields(env, h.value, form, id) && h.value.auth == auth && next.credentials == cfg.credentials
  {
    if form.editing {
      SplicedHostIsFound(cfg.hosts, Host(id, form.name, form.addr, form.port, form.sshArgs, auth));
    }
  }

  function SavedCred(form: CredForm, id: Ulid, creds: seq<Credential>): Option<Credential> {
    if form.editing then FindCredential(creds, id) else if creds == [] then None else Some(creds[|creds| - 1])
  }

  /** An accepted credential save stores the whole form. */
  lemma SavedCredIsTheForm(env: Env, decrypt: string -> string, w: World, form: CredForm, freshId: Ulid)
    requires forall t :: decrypt(env.encrypt(t)) == t
    requires PersistCredSave(env, w, form, freshId).1.Ok?
    requires OneSecret(form.body)
    requires form.editing && form.passwordLeftBlank ==> form.body.key == None && !form.body.keyring
    ensures var w' := PersistCredSave(env, w, form, freshId).0;
            var id := if form.editing && form.origId.Some? then form.origId.value else freshId;
            var c := SavedCred(form, id, w'.config.credentials);
            && c.Some? && c.value.id == id && c.value.name == form.name
            && Keeps(decrypt, w'.keyring, CredentialOwner, id, form.body, c.value.body)
  {
    hide SealIfPlain, Keeps;
    var (id, body) := CredBody(env, w.config, form, freshId).value;
    var (sealed, ring) := SealIfPlain(env, w.config.store, CredentialOwner, id, body, w.keyring).value;
    if form.editing {
      FoundCredentialHasId(w.config.credentials, form.origId.value);
      SplicedCredentialIsFound(w.config.credentials, Credential(id, form.name, sealed));
    }
    SealedKeeps(env, decrypt, w.config.store, CredentialOwner, id, body, w.keyring);
    KeptBodyKeeps(decrypt, ring, CredentialOwner, id, form.body, body, sealed);
  }

  // ---- when a save is accepted ----

  /** Secrets can be stored: there are none to seal, or the mode is decided, the
      vault opens and its key is there, or the keyring answers. */
  predicate CanSeal(env: Env, store: Option<Store>, body: Body) {
    HasPlain(body) ==>
      && store.Some? && env.unlock.Ok?
      && (store == Some(Vault) ==> env.unlock.value)
      && (store == Some(Keyring) ==> env.keyringUp)
  }

  lemma SealsIfCan(env: Env, store: Option<Store>, owner: Owner, id: Ulid, body: Body, keyring: Ring)
    ensures SealIfPlain(env, store, owner, id, body, keyring).Ok? <==> CanSeal(env, store, body)
  {
    if HasPlain(body) && store.Some? && env.unlock.Ok? {
      BodySeals(env, store, env.unlock.value, owner, id, body, keyring);
    }
  }

  lemma BodySeals(env: Env, store: Option<Store>, vaultKey: bool, owner: Owner, id: Ulid, body: Body, keyring: Ring)
    requires HasPlain(body)
    ensures SealBody(env, store, vaultKey, owner, id, body, keyring).Ok? <==>
              (store == Some(Vault) ==> vaultKey) && (store == Some(Keyring) ==> env.keyringUp)
  {
  }

  predicate NamedElsewhere(hosts: seq<Host>, name: string) {
    exists h :: h in hosts && h.name == name
  }

  lemma NamedIsNamed(hosts: seq<Host>, name: string)
    ensures HostNamed(hosts, name) <==> NamedElsewhere(hosts, name)
  {
    if k :| 0 <= k < |hosts| && hosts[k].name == name {
      assert hosts[k] in hosts;
    }
  }

  /** The checks on the name and the arguments of a host. An edit checks a name
      only if it is new. */
  predicate HostPasses(env: Env, cfg: Config, form: HostForm) {
    if form.editing then
      && form.origId.Some? && FindHost(cfg.hosts, form.origId.value).Some?
      && (FindHost(cfg.hosts, form.origId.value).value.name != form.name ==>
            env.nameOk(form.name) && !NamedElsewhere(cfg.hosts, form.name))
    else
      && env.nameOk(form.name) && !NamedElsewhere(cfg.hosts, form.name)
      && (form.sshArgs.Some? ==> env.argsOk(form.sshArgs.value))
  }

  /** What the form's body becomes before sealing: a password row left blank on an
      edit takes the stored password along. */
  function BodyToSeal(cfg: Config, form: HostForm): Body {
    if form.editing && form.passwordLeftBlank && form.body.password == None && form.origId.Some? then
      match FindHost(cfg.hosts, form.origId.value)
      case Some(h) =>
        if h.auth.Inline?
        then form.body.(password := h.auth.body.password, keyring := h.auth.body.keyring)
        else form.body
      case None => form.body
    else form.body
  }

  /** A host save is accepted exactly when it passes the checks, its credential
      exists or its secrets can be stored, and the disk takes the file. */
  lemma HostSaveAccepted(env: Env, w: World, form: HostForm, freshId: Ulid)
    ensures PersistHostSave(env, w, form, freshId).1.Ok? <==>
              && HostPasses(env, w.config, form)
              && (if form.credentialName.Some? then CredentialNamed(w.config.credentials, form.credentialName.value)
                  else CanSeal(env, w.config.store, BodyToSeal(w.config, form)))
              && (env.disk == NoPath || env.disk == Saved)
  {
    hide SealIfPlain, CanSeal, SpliceHost, FindHost, HostNamed, NamedElsewhere, CredentialNamed;
    var id := HostTarget(form, freshId);
    NamedIsNamed(w.config.hosts, form.name);
    SealsIfCan(env, w.config.store, HostOwner, id, BodyToSeal(w.config, form), w.keyring);
    if form.credentialName.Some? {
      NamedCredential(w.config.credentials, form.credentialName.value);
    }
  }

  predicate IsSealed(secret: Option<Secret>) {
    secret.Some? && secret.value.Encrypted?
  }

  /** The body is valid once its plain secrets are sealed: the keyring takes them
      out of it, everywhere else they stay in their place. */
  predicate ValidOnceSealed(store: Option<Store>, body: Body) {
    if !HasPlain(body) then ValidBody(body)
    else if store == Some(Keyring) then
      && !(IsSealed(body.password) && body.key.Some?)
      && (body.key.Some? && body.key.value.Pasted? ==>
            !IsSealed(body.key.value.key.privateKey) && !IsSealed(body.key.value.key.certificate))
    else
      && !(body.password.Some? && body.key.Some?)
      && (body.key.Some? && body.key.value.Pasted? && body.key.value.key.keyring ==>
            body.key.value.key.privateKey == None && body.key.value.key.certificate == None)
  }

  lemma SealsValid(env: Env, store: Option<Store>, owner: Owner, id: Ulid, body: Body, keyring: Ring)
    requires SealIfPlain(env, store, owner, id, body, keyring).Ok?
    ensures ValidBody(SealIfPlain(env, store, owner, id, body, keyring).value.0) <==> ValidOnceSealed(store, body)
  {
  }

  /** A body as the wizard builds it: one secret at most, all of it typed text, no
      keyring mark. */
  predicate Typed(body: Body) {
    && OneSecret(body) && !body.keyring
    && (body.password.Some? ==> IsPlain(body.password))
    && (body.key.Some? && body.key.value.Pasted? ==>
          var key := body.key.value.key;
          && !key.keyring
          && (key.privateKey.Some? ==> IsPlain(key.privateKey))
          && (key.certificate.Some? ==> IsPlain(key.certificate)))
  }

  lemma TypedIsValid(store: Option<Store>, body: Body)
    requires Typed(body)
    ensures ValidOnceSealed(store, body)
  {
  }

  /** The checks on the name of a credential, as on that of a host. */
  predicate CredPasses(env: Env, cfg: Config, form: CredForm) {
    if form.editing then
      && form.origId.Some? && FindCredential(cfg.credentials, form.origId.value).Some?
      && (FindCredential(cfg.credentials, form.origId.value).value.name != form.name ==>
            env.nameOk(form.name) && !CredNamedElsewhere(cfg.credentials, form.name))
    else
      env.nameOk(form.name) && !CredNamedElsewhere(cfg.credentials, form.name)
  }

  predicate CredNamedElsewhere(creds: seq<Credential>, name: string) {
    exists c :: c in creds && c.name == name
  }

  lemma CredNamedIsNamed(creds: seq<Credential>, name: string)
    ensures CredentialNamed(creds, name) <==> CredNamedElsewhere(creds, name)
  {
    if k :| 0 <= k < |creds| && creds[k].name == name {
      assert creds[k] in creds;
    }
  }

  function CredBodyToSeal(cfg: Config, form: CredForm): Body {
    if form.editing && form.passwordLeftBlank && form.body.password == None && form.origId.Some?
       && FindCredential(cfg.credentials, form.origId.value).Some?
    then form.body.(password := FindCredential(cfg.credentials, form.origId.value).value.body.password)
    else form.body
  }

  /** A credential save is accepted exactly when it passes the checks, its secrets
      can be stored, a new body is valid with them sealed, and the disk takes the
      file. */
  lemma CredSaveAccepted(env: Env, w: World, form: CredForm, freshId: Ulid)
    ensures PersistCredSave(env, w, form, freshId).1.Ok? <==>
              && CredPasses(env, w.config, form)
              && CanSeal(env, w.config.store, CredBodyToSeal(w.config, form))
              && (!form.editing ==> ValidOnceSealed(w.config.store, form.body))
              && (env.disk == NoPath || env.disk == Saved)
  {
    hide SealIfPlain, CanSeal, SpliceCredential, FindCredential, CredentialNamed, CredNamedElsewhere, ValidBody;
    hide ValidOnceSealed;
    var id := if form.editing && form.origId.Some? then form.origId.value else freshId;
    CredNamedIsNamed(w.config.credentials, form.name);
    if form.editing && form.origId.Some? {
      FoundCredentialHasId(w.config.credentials, id);
    }
    SealsIfCan(env, w.config.store, CredentialOwner, id, CredBodyToSeal(w.config, form), w.keyring);
    if !form.editing && SealIfPlain(env, w.config.store, CredentialOwner, id, form.body, w.keyring).Ok? {
      SealsValid(env, w.config.store, CredentialOwner, id, form.body, w.keyring);
    }
  }

  /** The credential of the chosen name is the first of that name. */
  lemma {:induction false} FirstOfTheName(creds: seq<Credential>, name: string)
    ensures FindCredentialByName(creds, name).Some? <==> CredNamedElsewhere(creds, name)
    ensures FindCredentialByName(creds, name).Some? ==>
              exists k :: 0 <= k < |creds| && creds[k] == FindCredentialByName(creds, name).value
                       && creds[k].name == name && forall j | 0 <= j < k :: creds[j].name != name
  {
    if creds != [] && creds[0].name != name {
      FirstOfTheName(creds[1..], name);
      assert creds == [creds[0]] + creds[1..];
      if FindCredentialByName(creds, name).Some? {
        var k :| 0 <= k < |creds[1..]| && creds[1..][k] == FindCredentialByName(creds[1..], name).value
                 && creds[1..][k].name == name && forall j | 0 <= j < k :: creds[1..][j].name != name;
        assert forall j | 0 < j <= k :: creds[j] == creds[1..][j - 1];
        assert creds[k + 1] == creds[1..][k];
      }
    }
  }

  lemma {:induction false} NamedCredential(creds: seq<Credential>, name: string)
    ensures FindCredentialByName(creds, name).Some? <==> CredentialNamed(creds, name)
    ensures FindCredentialByName(creds, name).Some? ==>
              FindCredentialByName(creds, name).value in creds && FindCredentialByName(creds, name).value.name == name
  {
    if creds != [] {
      NamedCredential(creds[1..], name);
      assert forall k | 0 < k < |creds| :: creds[k] == creds[1..][k - 1];
      if k :| 0 <= k < |creds[1..]| && creds[1..][k].name == name {
        assert creds[k + 1].name == name;
      }
    }
  }

  // ---- an edit without changes ----

  /** A key of its own; a password marked as held by the keyring comes first. */
  predicate HasKey(body: Body) {
    !body.keyring && body.key.Some?
  }

  predicate HasPassword(body: Body) {
    body.keyring || (body.key.None? && body.password.Some?)
  }

  /** The form shows the body: its user, its key if that is its secret, and a blank
      password row if a password is. */
  predicate ShowsBody(formBody: Body, blank: bool, user: string, body: Body) {
    && formBody.user == user && formBody.password == None && !formBody.keyring
    && formBody.key == (if HasKey(body) then body.key else None)
    && (blank <==> HasPassword(body))
  }

  /** The form shows the host: its id, name, address, port and arguments, and the
      name of its credential, or its own body. A reference to a credential that is
      gone shows the first one. */
  predicate Shows(form: HostForm, h: Host, creds: seq<Credential>) {
    && form.editing && form.origId == Some(h.id) && form.name == h.name && form.addr == h.host
    && form.port == h.port && form.sshArgs == h.sshArgs
    && match h.auth
       case Ref(id) =>
         var c := FindCredential(creds, id);
         && !form.passwordLeftBlank
         && form.credentialName == (if c.Some? then Some(c.value.name) else if creds == [] then None
                                    else Some(creds[0].name))
       case Inline(body) =>
         && form.credentialName == None
         && ShowsBody(form.body, form.passwordLeftBlank, if body.user == "" then "root" else body.user, body)
  }

  predicate ShowsCred(form: CredForm, c: Credential) {
    && form.editing && form.origId == Some(c.id) && form.name == c.name
    && ShowsBody(form.body, form.passwordLeftBlank, c.body.user, c.body)
  }

  /** What an edit can give back: a reference that leads somewhere, or a body with
      a user, one secret at most, and nothing left to seal. */
  predicate Restorable(h: Host, creds: seq<Credential>) {
    match h.auth
    case Ref(id) => FindCredential(creds, id).Some?
    case Inline(body) => body.user != "" && OneSecret(body) && !HasPlain(body)
  }

  lemma UntouchedAuth(cfg: Config, form: HostForm, h: Host)
    requires WellFormed(cfg) && h in cfg.hosts && Shows(form, h, cfg.credentials) && Restorable(h, cfg.credentials)
    ensures FindHost(cfg.hosts, h.id) == Some(h)
    ensures HostAuth(cfg, form, h.id) == Ok(h.auth)
    ensures h.auth.Inline? ==> !HasPlain(h.auth.body)
  {
    var k :| 0 <= k < |cfg.hosts| && cfg.hosts[k] == h;
    FindHostFinds(cfg.hosts, h.id);
    hide FindHost, HasPlain, FindCredential, FindCredentialByName;
    if h.auth.Ref? {
      ReferenceIsNamed(cfg.credentials, h.auth.credential);
    }
  }

  /** Saving an edit without changes leaves the configuration and the keyring as
      they are. */
  lemma UntouchedEditIsIdentity(env: Env, w: World, form: HostForm, freshId: Ulid, h: Host)
    requires WellFormed(w.config) && h in w.config.hosts && Shows(form, h, w.config.credentials)
    requires Restorable(h, w.config.credentials) && DiskTakes(env)
    ensures PersistHostSave(env, w, form, freshId) == (w, Ok(h.id))
  {
    var cfg := w.config;
    UntouchedAuth(cfg, form, h);
    SpliceSame(cfg.hosts, h);
    hide SpliceHost, FindHost, HostAuth, HasPlain, HostNamed, WellFormed, Restorable, ShowsBody;
    assert cfg.(hosts := cfg.hosts) == cfg;
  }

  lemma SpliceSame(hosts: seq<Host>, h: Host)
    requires HostsDistinct(hosts) && h in hosts && FindHost(hosts, h.id).Some?
    ensures SpliceHost(hosts, h) == hosts
  {
    var k := SpliceAt(hosts, h);
    var j :| 0 <= j < |hosts| && hosts[j] == h;
    assert j == k;
    hide SpliceHost, FindHost;
    assert hosts[k := hosts[k]] == hosts;
  }

  /** A host whose credential is gone takes the first credential at its next save,
      even an untouched one. */
  lemma LostReferenceTakesFirst(env: Env, w: World, form: HostForm, freshId: Ulid, h: Host)
    requires WellFormed(w.config) && h in w.config.hosts && Shows(form, h, w.config.credentials) && DiskTakes(env)
    requires h.auth.Ref? && FindCredential(w.config.credentials, h.auth.credential).None? && w.config.credentials != []
    ensures var (w', res) := PersistHostSave(env, w, form, freshId);
            && res == Ok(h.id) && w'.keyring == w.keyring
            && FindHost(w'.config.hosts, h.id) == Some(h.(auth := Ref(w.config.credentials[0].id)))
  {
    var cfg := w.config;
    var k :| 0 <= k < |cfg.hosts| && cfg.hosts[k] == h;
    FindHostFinds(cfg.hosts, h.id);
    SplicedHostIsFound(cfg.hosts, h.(auth := Ref(cfg.credentials[0].id)));
    assert FindCredentialByName(cfg.credentials, cfg.credentials[0].name) == Some(cfg.credentials[0]);
    hide SpliceHost, FindHost, FindCredential, FindCredentialByName, SealBody, HostNamed;
  }

  predicate DiskTakes(env: Env) {
    env.disk == NoPath || env.disk == Saved
  }

  /** With names unrepeated a credential is found again by its name. */
  lemma ReferenceIsNamed(creds: seq<Credential>, id: Ulid)
    requires CredentialsDistinct(creds) && FindCredential(creds, id).Some?
    ensures FindCredentialByName(creds, FindCredential(creds, id).value.name) == FindCredential(creds, id)
    ensures FindCredential(creds, id).value.id == id
  {
    FindCredentialFinds(creds, id);
    var c := FindCredential(creds, id).value;
    NamedCredential(creds, c.name);
    var k :| 0 <= k < |creds| && creds[k] == c;
    assert CredentialNamed(creds, c.name);
    var d := FindCredentialByName(creds, c.name).value;
    var j :| 0 <= j < |creds| && creds[j] == d;
  }
}
