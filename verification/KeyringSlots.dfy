/** Which keyring entries a configuration still knows of. Saving and deleting
    (`src/tui/persist.rs`) change the keyring before they write the file, and an
    edit forgets no entry: exactly when that leaves entries nobody owns, and when
    a refused delete loses a secret that is still owned. */
module KeyringSlots {
  import opened Prelude
  import opened Config
  import opened Persist

  // ---- a refused delete ----

  /** The keyring holds something this body says it holds. */
  predicate HoldsMarked(keyring: Ring, owner: Owner, id: Ulid, body: Body) {
    exists part: Part :: Marks(body, part) && Slot(owner, id, part) in keyring
  }

  /** The body says that this part lives in the keyring; one marker stands for
      both parts of a pasted key. */
  predicate Marks(body: Body, part: Part) {
    match part
    case PasswordPart => body.keyring
    case _ => body.key.Some? && body.key.value.Pasted? && body.key.value.key.keyring
  }

  lemma ForgetForgets(env: Env, keyring: Ring, owner: Owner, id: Ulid, body: Body)
    ensures var ring := Forget(env, keyring, owner, id, body);
            && (forall slot :: slot in ring <==>
                  slot in keyring
                  && !(env.keyringUp && slot.owner == owner && slot.id == id && Marks(body, slot.part)))
            && (ring == keyring <==> !(env.keyringUp && HoldsMarked(keyring, owner, id, body)))
  {
    var ring := Forget(env, keyring, owner, id, body);
    forall slot
      ensures slot in ring <==>
                slot in keyring
                && !(env.keyringUp && slot.owner == owner && slot.id == id && Marks(body, slot.part))
    {
      match slot.part case PasswordPart => case PrivatePart => case CertificatePart =>
    }
    if ring == keyring && env.keyringUp {
      forall part: Part | Slot(owner, id, part) in keyring ensures !Marks(body, part) {
        assert Slot(owner, id, part) in ring;
      }
    }
    if !(env.keyringUp && HoldsMarked(keyring, owner, id, body)) {
      forall slot | slot in keyring ensures slot in ring {
        assert slot == Slot(slot.owner, slot.id, slot.part);
      }
    }
  }

  /** A refused delete leaves the whole world as it was, exactly unless the record
      has an entry in a keyring that can be reached: entries are forgotten before
      the file is written. */
  lemma RefusedDeleteKeepsKeyring(env: Env, w: World, name: string)
    ensures PersistHostDelete(env, w, name).1.Err? ==>
              (PersistHostDelete(env, w, name).0 == w <==>
                 !(env.keyringUp && exists h :: FindHostByName(w.config.hosts, name) == Some(h) && h.auth.Inline?
                                                && HoldsMarked(w.keyring, HostOwner, h.id, h.auth.body)))
    ensures PersistCredDelete(env, w, name).1.Err? ==>
              (PersistCredDelete(env, w, name).0 == w <==>
                 !(env.keyringUp && exists c :: FindCredentialByName(w.config.credentials, name) == Some(c)
                                                && HoldsMarked(w.keyring, CredentialOwner, c.id, c.body)))
  {
    hide Forget, HoldsMarked;
    var h, c := FindHostByName(w.config.hosts, name), FindCredentialByName(w.config.credentials, name);
    if h.Some? && h.value.auth.Inline? {
      ForgetForgets(env, w.keyring, HostOwner, h.value.id, h.value.auth.body);
    }
    if c.Some? {
      ForgetForgets(env, w.keyring, CredentialOwner, c.value.id, c.value.body);
    }
  }

  /** The delete of a host fails to write the file: the host stays in the list and
      its password is gone. */
  lemma RefusedDeleteLosesPassword(env: Env, decrypt: string -> string, w: World, name: string)
    requires env.keyringUp && (env.disk.SaveFails? || env.disk.LoadFails?)
    requires var h := FindHostByName(w.config.hosts, name);
             && h.Some? && h.value.auth.Inline? && h.value.auth.body.keyring && h.value.auth.body.password.None?
             && Slot(HostOwner, h.value.id, PasswordPart) in w.keyring
    ensures var h := FindHostByName(w.config.hosts, name).value;
            var (w', r) := PersistHostDelete(env, w, name);
            && r == Err(Io) && w'.config == w.config
            && RevealPassword(decrypt, w.keyring, HostOwner, h.id, h.auth.body).Some?
            && RevealPassword(decrypt, w'.keyring, HostOwner, h.id, h.auth.body).None?
  {
  }

  // ---- entries without an owner ----

  ghost predicate Claimed(cfg: Config, slot: Slot) {
    match slot.owner
    case HostOwner =>
      exists k :: 0 <= k < |cfg.hosts| && cfg.hosts[k].id == slot.id && cfg.hosts[k].auth.Inline?
                  && Marks(cfg.hosts[k].auth.body, slot.part)
    case CredentialOwner =>
      exists k :: 0 <= k < |cfg.credentials| && cfg.credentials[k].id == slot.id
                  && Marks(cfg.credentials[k].body, slot.part)
  }

  /** Every entry of the keyring has an owner in the configuration. */
  ghost predicate Tidy(w: World) {
    forall slot | slot in w.keyring :: Claimed(w.config, slot)
  }

  function PartOf(body: Body, part: Part): Option<Secret> {
    match part
    case PasswordPart => body.password
    case PrivatePart => if body.key.Some? && body.key.value.Pasted? then body.key.value.key.privateKey else None
    case CertificatePart => if body.key.Some? && body.key.value.Pasted? then body.key.value.key.certificate else None
  }

  /** What the stored body will say of a part: a body with nothing plain is stored
      as it is, any other is marked anew. */
  predicate WillMark(store: Option<Store>, body: Body, part: Part) {
    if !HasPlain(body) then Marks(body, part)
    else match part
      case PasswordPart =>
        store == Some(Keyring) && body.key.None? && (IsPlain(body.password) || (body.password.None? && body.keyring))
      case _ =>
        body.key.Some? && body.key.value.Pasted? && (body.key.value.key.keyring || store == Some(Keyring))
  }

  /** The keyring has the part already, or the save will put it there. */
  predicate WillHold(store: Option<Store>, keyring: Ring, owner: Owner, id: Ulid, body: Body, part: Part) {
    Slot(owner, id, part) in keyring || (store == Some(Keyring) && IsPlain(PartOf(body, part)))
  }

  lemma SealedMarks(env: Env, store: Option<Store>, owner: Owner, id: Ulid, body: Body, keyring: Ring, part: Part)
    requires SealIfPlain(env, store, owner, id, body, keyring).Ok?
    ensures Marks(SealIfPlain(env, store, owner, id, body, keyring).value.0, part) <==> WillMark(store, body, part)
  {
  }

  /** Sealing touches the slots of its owner only, one for each plain part. */
  lemma SealedHolds(env: Env, store: Option<Store>, owner: Owner, id: Ulid, body: Body, keyring: Ring)
    requires SealIfPlain(env, store, owner, id, body, keyring).Ok?
    ensures var ring := SealIfPlain(env, store, owner, id, body, keyring).value.1;
            forall slot :: slot in ring <==>
              if slot.owner == owner && slot.id == id then WillHold(store, keyring, owner, id, body, slot.part)
              else slot in keyring
  {
    if HasPlain(body) && store == Some(Keyring) {
      if env.keyringUp {
        SealPutsBody(env, env.unlock.value, owner, id, body, keyring);
        PutBodyHolds(keyring, owner, id, body);
      } else {
        SealNeedsKeyring(env, env.unlock.value, owner, id, body, keyring);
      }
    } else {
      SealIfPlainHides(env, store, owner, id, body, keyring);
      NothingPlain(body);
    }
  }

  lemma NothingPlain(body: Body)
    ensures !HasPlain(body) ==> forall part: Part :: !IsPlain(PartOf(body, part))
  {
  }

  lemma PutHolds(keyring: Ring, slot: Slot, secret: Option<Secret>)
    ensures forall s :: s in Put(keyring, slot, secret) <==> s in keyring || (s == slot && IsPlain(secret))
  {
  }

  lemma PutBodyHolds(keyring: Ring, owner: Owner, id: Ulid, body: Body)
    ensures forall slot :: slot in PutBody(keyring, owner, id, body) <==>
              slot in keyring || (slot.owner == owner && slot.id == id && IsPlain(PartOf(body, slot.part)))
  {
    hide Put, IsPlain;
    var a, b := Slot(owner, id, PasswordPart), Slot(owner, id, PrivatePart);
    var c := Slot(owner, id, CertificatePart);
    PutHolds(keyring, a, body.password);
    if body.key.Some? && body.key.value.Pasted? {
      var key := body.key.value.key;
      var ring := Put(keyring, a, body.password);
      PutHolds(ring, b, key.privateKey);
      PutHolds(Put(ring, b, key.privateKey), c, key.certificate);
    } else {
      NoSecretIsPlain();
    }
    forall slot: Slot
      ensures slot.owner == owner && slot.id == id ==> slot == a || slot == b || slot == c
    {
      match slot.part case PasswordPart => case PrivatePart => case CertificatePart =>
    }
  }

  lemma NoSecretIsPlain()
    ensures !IsPlain(None)
  {
  }

  // ---- what a step orphans ----

  /** The accepted save leaves an entry of its own id without a mark. A reference
      to a credential marks nothing. */
  predicate HostSaveOrphans(w: World, auth: Auth, id: Ulid) {
    match auth
    case Ref(_) => exists part: Part :: Slot(HostOwner, id, part) in w.keyring
    case Inline(body) => BodyOrphans(w, HostOwner, id, body)
  }

  predicate BodyOrphans(w: World, owner: Owner, id: Ulid, body: Body) {
    exists part: Part ::
      WillHold(w.config.store, w.keyring, owner, id, body, part) && !WillMark(w.config.store, body, part)
  }

  /** The refused save has put an entry into the keyring that nobody claims. */
  ghost predicate RefusalOrphans(env: Env, w: World, owner: Owner, id: Ulid, body: Body) {
    KeyringWrites(env, w.config.store)
    && exists part: Part :: IsPlain(PartOf(body, part)) && !Claimed(w.config, Slot(owner, id, part))
  }

  ghost predicate HostOrphans(env: Env, w: World, form: HostForm, freshId: Ulid) {
    && (form.editing ==> form.origId.Some?)
    && var id := HostTarget(form, freshId);
    && HostAuth(w.config, form, id).Ok?
    && var auth := HostAuth(w.config, form, id).value;
    if PersistHostSave(env, w, form, freshId).1.Ok? then HostSaveOrphans(w, auth, id)
    else auth.Inline? && RefusalOrphans(env, w, HostOwner, id, auth.body)
  }

  ghost predicate CredOrphans(env: Env, w: World, form: CredForm, freshId: Ulid) {
    && CredBody(env, w.config, form, freshId).Ok?
    && var (id, body) := CredBody(env, w.config, form, freshId).value;
    if PersistCredSave(env, w, form, freshId).1.Ok? then BodyOrphans(w, CredentialOwner, id, body)
    else RefusalOrphans(env, w, CredentialOwner, id, body)
  }

  /** A delete that goes through without a keyring to clean. */
  ghost predicate DeleteOrphans(env: Env, w: World, owner: Owner, id: Ulid, done: bool) {
    done && !env.keyringUp && exists part: Part :: Slot(owner, id, part) in w.keyring
  }

  ghost predicate Orphans(w: World, op: Op) {
    match op
    case SaveHost(env, form, freshId) => HostOrphans(env, w, form, freshId)
    case SaveCred(env, form, freshId) => CredOrphans(env, w, form, freshId)
    case DeleteHost(env, name) =>
      var h := FindHostByName(w.config.hosts, name);
      h.Some? && DeleteOrphans(env, w, HostOwner, h.value.id, PersistHostDelete(env, w, name).1.Ok?)
    case DeleteCred(env, name) =>
      var c := FindCredentialByName(w.config.credentials, name);
      c.Some? && DeleteOrphans(env, w, CredentialOwner, c.value.id, PersistCredDelete(env, w, name).1.Ok?)
  }

  lemma HostClaims(env: Env, cfg: Config, form: HostForm, id: Ulid, auth: Auth, slot: Slot)
    requires HostsDistinct(cfg.hosts) && (form.editing || FreshHostId(cfg, id))
    requires HostConfig(env, cfg, form, id, auth).Ok?
    ensures Claimed(HostConfig(env, cfg, form, id, auth).value, slot)
            <==> if slot.owner.HostOwner? && slot.id == id then auth.Inline? && Marks(auth.body, slot.part)
                 else Claimed(cfg, slot)
  {
    hide HostConfig, Marks, HostsDistinct, FreshHostId;
    HostConfigIsLocal(env, cfg, form, id, auth);
    var next := HostConfig(env, cfg, form, id, auth).value;
    if slot.owner.HostOwner? && slot.id != id {
      AddedIsOwn(env, cfg, form, id, auth);
      if k :| 0 <= k < |cfg.hosts| && cfg.hosts[k].id == slot.id && cfg.hosts[k].auth.Inline?
              && Marks(cfg.hosts[k].auth.body, slot.part) {
        assert next.hosts[k] == cfg.hosts[k];
      }
    }
  }

  lemma AddedIsOwn(env: Env, cfg: Config, form: HostForm, id: Ulid, auth: Auth)
    requires HostConfig(env, cfg, form, id, auth).Ok?
    ensures var next := HostConfig(env, cfg, form, id, auth).value;
            forall k | |cfg.hosts| <= k < |next.hosts| :: next.hosts[k].id == id
  {
  }

  lemma CredClaims(env: Env, cfg: Config, form: CredForm, id: Ulid, body: Body, slot: Slot)
    requires CredentialsDistinct(cfg.credentials)
    requires if form.editing
             then exists k :: 0 <= k < |cfg.credentials| && cfg.credentials[k].id == id
                              && (cfg.credentials[k].name == form.name || !CredentialNamed(cfg.credentials, form.name))
             else FreshCredentialId(cfg, id) && !CredentialNamed(cfg.credentials, form.name)
    requires CredConfig(env, cfg, form, id, body).Ok?
    ensures Claimed(CredConfig(env, cfg, form, id, body).value, slot)
            <==> if slot.owner.CredentialOwner? && slot.id == id then Marks(body, slot.part) else Claimed(cfg, slot)
  {
    hide CredConfig, Marks, CredentialsDistinct, FreshCredentialId, CredentialNamed;
    CredConfigIsLocal(env, cfg, form, id, body);
    var next := CredConfig(env, cfg, form, id, body).value;
    if slot.owner.CredentialOwner? && slot.id != id {
      AddedCredIsOwn(env, cfg, form, id, body);
      if k :| 0 <= k < |cfg.credentials| && cfg.credentials[k].id == slot.id
              && Marks(cfg.credentials[k].body, slot.part) {
        assert next.credentials[k] == cfg.credentials[k];
      }
    }
  }

  lemma AddedCredIsOwn(env: Env, cfg: Config, form: CredForm, id: Ulid, body: Body)
    requires CredConfig(env, cfg, form, id, body).Ok?
    ensures var next := CredConfig(env, cfg, form, id, body).value;
            forall k | |cfg.credentials| <= k < |next.credentials| :: next.credentials[k].id == id
  {
  }

  /** The rest of the keyring keeps its owners, so one id decides. */
  lemma TidyByOwner(w: World, t: World, owner: Owner, id: Ulid)
    requires Tidy(w)
    requires forall slot: Slot | !(slot.owner == owner && slot.id == id) ::
               (slot in t.keyring ==> slot in w.keyring) && (Claimed(w.config, slot) ==> Claimed(t.config, slot))
    ensures Tidy(t) <==> forall part: Part ::
                           Slot(owner, id, part) in t.keyring ==> Claimed(t.config, Slot(owner, id, part))
  {
    hide Claimed;
    if forall part: Part :: Slot(owner, id, part) in t.keyring ==> Claimed(t.config, Slot(owner, id, part)) {
      forall slot | slot in t.keyring ensures Claimed(t.config, slot) {
        if slot.owner == owner && slot.id == id {
          assert slot == Slot(owner, id, slot.part);
        }
      }
    }
  }

  /** A refused save: the entries just put into the keyring need an owner. */
  lemma RefusedSealTidy(env: Env, w: World, owner: Owner, id: Ulid, body: Body)
    requires Tidy(w) && SealIfPlain(env, w.config.store, owner, id, body, w.keyring).Ok?
    ensures var t := w.(keyring := SealIfPlain(env, w.config.store, owner, id, body, w.keyring).value.1);
            Tidy(t) <==> !RefusalOrphans(env, w, owner, id, body)
  {
    hide SealIfPlain, Claimed, PartOf;
    var store := w.config.store;
    var t := w.(keyring := SealIfPlain(env, store, owner, id, body, w.keyring).value.1);
    SealedHolds(env, store, owner, id, body, w.keyring);
    TidyByOwner(w, t, owner, id);
    if store == Some(Keyring) {
      PlainNeedsWrites(env, store, owner, id, body, w.keyring);
    }
  }

  lemma PlainNeedsWrites(env: Env, store: Option<Store>, owner: Owner, id: Ulid, body: Body, keyring: Ring)
    requires SealIfPlain(env, store, owner, id, body, keyring).Ok? && store == Some(Keyring)
    ensures HasPlain(body) ==> KeyringWrites(env, store)
    ensures forall part: Part | IsPlain(PartOf(body, part)) :: HasPlain(body)
  {
    if HasPlain(body) && !env.keyringUp && env.unlock.Ok? {
      SealNeedsKeyring(env, env.unlock.value, owner, id, body, keyring);
    }
  }

  lemma RefusedHostTidy(env: Env, w: World, form: HostForm, freshId: Ulid)
    requires Tidy(w) && PersistHostSave(env, w, form, freshId).1.Err?
    ensures Tidy(PersistHostSave(env, w, form, freshId).0) <==> !HostOrphans(env, w, form, freshId)
  {
    hide Tidy, RefusalOrphans, SealIfPlain, HostConfig, HostAuth;
    var id := HostTarget(form, freshId);
    var auth := HostAuth(w.config, form, id);
    assert w.(keyring := w.keyring) == w;
    if (form.editing ==> form.origId.Some?) && auth.Ok? && auth.value.Inline? {
      var body := auth.value.body;
      if SealIfPlain(env, w.config.store, HostOwner, id, body, w.keyring).Ok? {
        RefusedSealTidy(env, w, HostOwner, id, body);
      } else {
        UnsealedOrphansNothing(env, w, HostOwner, id, body);
      }
    }
  }

  lemma UnsealedOrphansNothing(env: Env, w: World, owner: Owner, id: Ulid, body: Body)
    requires SealIfPlain(env, w.config.store, owner, id, body, w.keyring).Err?
    ensures !RefusalOrphans(env, w, owner, id, body)
  {
    hide Claimed;
    if KeyringWrites(env, w.config.store) {
      SealPutsBody(env, env.unlock.value, owner, id, body, w.keyring);
    }
  }

  lemma AcceptedHostTidy(env: Env, w: World, form: HostForm, freshId: Ulid)
    requires Tidy(w) && HostsDistinct(w.config.hosts) && FreshHostId(w.config, freshId)
    requires PersistHostSave(env, w, form, freshId).1.Ok?
    ensures Tidy(PersistHostSave(env, w, form, freshId).0) <==> !HostOrphans(env, w, form, freshId)
  {
    hide Tidy, SealIfPlain, HostConfig, HostAuth, Claimed, WillHold, WillMark, Marks, HostsDistinct, FreshHostId;
    var id := HostTarget(form, freshId);
    var auth := HostAuth(w.config, form, id).value;
    var (sealed, ring) := SealAuth(env, w.config, id, auth, w.keyring).value;
    var t := PersistHostSave(env, w, form, freshId).0;
    assert t == World(HostConfig(env, w.config, form, id, sealed).value, ring);
    forall slot
      ensures Claimed(t.config, slot)
              <==> if slot.owner.HostOwner? && slot.id == id then sealed.Inline? && Marks(sealed.body, slot.part)
                   else Claimed(w.config, slot)
    {
      HostClaims(env, w.config, form, id, sealed, slot);
    }
    if auth.Inline? {
      SealedHolds(env, w.config.store, HostOwner, id, auth.body, w.keyring);
      forall part: Part ensures Marks(sealed.body, part) <==> WillMark(w.config.store, auth.body, part) {
        SealedMarks(env, w.config.store, HostOwner, id, auth.body, w.keyring, part);
      }
    }
    TidyByOwner(w, t, HostOwner, id);
    forall part: Part
      ensures var slot := Slot(HostOwner, id, part);
              (slot in ring ==> Claimed(t.config, slot))
              <==> if auth.Ref? then slot !in w.keyring
                   else WillHold(w.config.store, w.keyring, HostOwner, id, auth.body, part)
                        ==> WillMark(w.config.store, auth.body, part)
    {
    }
  }

  lemma RefusedCredTidy(env: Env, w: World, form: CredForm, freshId: Ulid)
    requires Tidy(w) && PersistCredSave(env, w, form, freshId).1.Err?
    ensures Tidy(PersistCredSave(env, w, form, freshId).0) <==> !CredOrphans(env, w, form, freshId)
  {
    hide Tidy, RefusalOrphans, SealIfPlain, CredConfig, CredBody;
    var prepared := CredBody(env, w.config, form, freshId);
    assert w.(keyring := w.keyring) == w;
    if prepared.Ok? {
      var (id, body) := prepared.value;
      if SealIfPlain(env, w.config.store, CredentialOwner, id, body, w.keyring).Ok? {
        RefusedSealTidy(env, w, CredentialOwner, id, body);
      } else {
        UnsealedOrphansNothing(env, w, CredentialOwner, id, body);
      }
    }
  }

  lemma AcceptedCredTidy(env: Env, w: World, form: CredForm, freshId: Ulid)
    requires Tidy(w) && CredentialsDistinct(w.config.credentials) && FreshCredentialId(w.config, freshId)
    requires PersistCredSave(env, w, form, freshId).1.Ok?
    ensures Tidy(PersistCredSave(env, w, form, freshId).0) <==> !CredOrphans(env, w, form, freshId)
  {
    hide Tidy, SealIfPlain, CredConfig, CredBody, Claimed, WillHold, WillMark, Marks;
    hide CredentialsDistinct, FreshCredentialId, CredentialNamed;
    var (id, body) := CredBody(env, w.config, form, freshId).value;
    var (sealed, ring) := SealIfPlain(env, w.config.store, CredentialOwner, id, body, w.keyring).value;
    var t := PersistCredSave(env, w, form, freshId).0;
    assert t == World(CredConfig(env, w.config, form, id, sealed).value, ring);
    CredTargetExists(env, w.config, form, freshId);
    forall slot
      ensures Claimed(t.config, slot)
              <==> if slot.owner.CredentialOwner? && slot.id == id then Marks(sealed, slot.part)
                   else Claimed(w.config, slot)
    {
      CredClaims(env, w.config, form, id, sealed, slot);
    }
    SealedHolds(env, w.config.store, CredentialOwner, id, body, w.keyring);
    forall part: Part ensures Marks(sealed, part) <==> WillMark(w.config.store, body, part) {
      SealedMarks(env, w.config.store, CredentialOwner, id, body, w.keyring, part);
    }
    TidyByOwner(w, t, CredentialOwner, id);
    forall part: Part
      ensures (Slot(CredentialOwner, id, part) in ring ==> Claimed(t.config, Slot(CredentialOwner, id, part)))
              <==> (WillHold(w.config.store, w.keyring, CredentialOwner, id, body, part)
                    ==> WillMark(w.config.store, body, part))
    {
    }
  }

  lemma {:induction false} NamedHostIsIn(hosts: seq<Host>, name: string)
    ensures var h := FindHostByName(hosts, name); h.Some? ==> h.value in hosts && h.value.name == name
  {
    if hosts != [] && hosts[0].name != name {
      NamedHostIsIn(hosts[1..], name);
    }
  }

  lemma {:induction false} NamedCredentialIsIn(creds: seq<Credential>, name: string)
    ensures var c := FindCredentialByName(creds, name); c.Some? ==> c.value in creds && c.value.name == name
  {
    if creds != [] && creds[0].name != name {
      NamedCredentialIsIn(creds[1..], name);
    }
  }

  /** Dropping the host of that name takes its own claims away, and no other. */
  lemma DropHostClaims(cfg: Config, h: Host, slot: Slot)
    requires HostsDistinct(cfg.hosts) && h in cfg.hosts
    ensures Claimed(cfg.(hosts := DropHostsNamed(cfg.hosts, h.name)), slot)
            <==> Claimed(cfg, slot) && !(slot.owner.HostOwner? && slot.id == h.id)
    ensures slot.owner.HostOwner? && slot.id == h.id ==>
              (Claimed(cfg, slot) <==> h.auth.Inline? && Marks(h.auth.body, slot.part))
  {
    hide Marks;
    var next := DropHostsNamed(cfg.hosts, h.name);
    if slot.owner.HostOwner? {
      if k :| 0 <= k < |cfg.hosts| && cfg.hosts[k].id == slot.id && cfg.hosts[k].auth.Inline?
              && Marks(cfg.hosts[k].auth.body, slot.part) {
        if slot.id != h.id { assert cfg.hosts[k] in next; }
      }
      assert forall k | 0 <= k < |next| :: next[k] in next;
    }
  }

  lemma DropCredentialClaims(cfg: Config, c: Credential, slot: Slot)
    requires CredentialsDistinct(cfg.credentials) && c in cfg.credentials
    ensures Claimed(cfg.(credentials := DropCredentialsNamed(cfg.credentials, c.name)), slot)
            <==> Claimed(cfg, slot) && !(slot.owner.CredentialOwner? && slot.id == c.id)
    ensures slot.owner.CredentialOwner? && slot.id == c.id ==> (Claimed(cfg, slot) <==> Marks(c.body, slot.part))
  {
    hide Marks;
    var next := DropCredentialsNamed(cfg.credentials, c.name);
    if slot.owner.CredentialOwner? {
      if k :| 0 <= k < |cfg.credentials| && cfg.credentials[k].id == slot.id
              && Marks(cfg.credentials[k].body, slot.part) {
        if slot.id != c.id { assert cfg.credentials[k] in next; }
      }
      assert forall k | 0 <= k < |next| :: next[k] in next;
    }
  }

  lemma DeleteHostTidy(env: Env, w: World, name: string)
    requires Tidy(w) && HostsDistinct(w.config.hosts)
    ensures Tidy(PersistHostDelete(env, w, name).0) <==> !Orphans(w, DeleteHost(env, name))
  {
    hide Forget, DropHostsNamed, FindHostByName, Claimed, HostsDistinct, Marks, HoldsMarked;
    var found := FindHostByName(w.config.hosts, name);
    NamedHostIsIn(w.config.hosts, name);
    if found.Some? {
      var h, t := found.value, PersistHostDelete(env, w, name).0;
      if h.auth.Inline? { ForgetForgets(env, w.keyring, HostOwner, h.id, h.auth.body); }
      if PersistHostDelete(env, w, name).1.Ok? {
        forall slot
          ensures Claimed(t.config, slot)
                  <==> Claimed(w.config, slot) && !(slot.owner.HostOwner? && slot.id == h.id)
          ensures slot.owner.HostOwner? && slot.id == h.id ==>
                    (Claimed(w.config, slot) <==> h.auth.Inline? && Marks(h.auth.body, slot.part))
        {
          DropHostClaims(w.config, h, slot);
        }
        TidyByOwner(w, t, HostOwner, h.id);
      }
    }
  }

  lemma DeleteCredTidy(env: Env, w: World, name: string)
    requires Tidy(w) && CredentialsDistinct(w.config.credentials)
    ensures Tidy(PersistCredDelete(env, w, name).0) <==> !Orphans(w, DeleteCred(env, name))
  {
    hide Forget, DropCredentialsNamed, FindCredentialByName, Claimed, CredentialsDistinct, Marks, HoldsMarked;
    var found := FindCredentialByName(w.config.credentials, name);
    NamedCredentialIsIn(w.config.credentials, name);
    if found.Some? {
      var c, t := found.value, PersistCredDelete(env, w, name).0;
      ForgetForgets(env, w.keyring, CredentialOwner, c.id, c.body);
      if PersistCredDelete(env, w, name).1.Ok? {
        forall slot
          ensures Claimed(t.config, slot)
                  <==> Claimed(w.config, slot) && !(slot.owner.CredentialOwner? && slot.id == c.id)
          ensures slot.owner.CredentialOwner? && slot.id == c.id ==>
                    (Claimed(w.config, slot) <==> Marks(c.body, slot.part))
        {
          DropCredentialClaims(w.config, c, slot);
        }
        TidyByOwner(w, t, CredentialOwner, c.id);
      }
    }
  }

  /** A save or delete keeps every keyring entry owned exactly unless it orphans:
      it stores a body that does not mark what the keyring holds or receives for
      it, is refused after a new entry was made, or deletes with no keyring. */
  lemma StepKeepsTidy(w: World, op: Op)
    requires Inv(w.config) && Tidy(w)
    requires op.SaveHost? ==> FreshHostId(w.config, op.freshId)
    requires op.SaveCred? ==> FreshCredentialId(w.config, op.freshId)
    ensures Tidy(Step(w, op)) <==> !Orphans(w, op)
  {
    hide Tidy, PersistHostSave, PersistCredSave, PersistHostDelete, PersistCredDelete, HostOrphans, CredOrphans;
    match op
    case SaveHost(env, form, freshId) =>
      if PersistHostSave(env, w, form, freshId).1.Ok? { AcceptedHostTidy(env, w, form, freshId); }
      else { RefusedHostTidy(env, w, form, freshId); }
    case SaveCred(env, form, freshId) =>
      if PersistCredSave(env, w, form, freshId).1.Ok? { AcceptedCredTidy(env, w, form, freshId); }
      else { RefusedCredTidy(env, w, form, freshId); }
    case DeleteHost(env, name) => DeleteHostTidy(env, w, name);
    case DeleteCred(env, name) => DeleteCredTidy(env, w, name);
  }

  /** So over every run that never orphans each entry has an owner. */
  lemma {:induction false} RunKeepsTidy(w: World, ops: seq<Op>)
    requires Inv(w.config) && Tidy(w) && FreshIds(w, ops)
    requires forall k | 0 <= k < |ops| :: !Orphans(Run(w, ops[..k]), ops[k])
    ensures Tidy(Run(w, ops))
    decreases |ops|
  {
    hide Tidy, Inv, Step, Orphans, FreshHostId, FreshCredentialId;
    if ops != [] {
      var n := |ops| - 1;
      var init := ops[..n];
      forall k | 0 <= k < n ensures init[..k] == ops[..k] && init[k] == ops[k] {
      }
      RunKeepsTidy(w, init);
      RunKeepsInv(w, init);
      assert ops[..n] == init;
      StepKeepsTidy(Run(w, init), ops[n]);
    }
  }

  // ---- a run that leaves an orphan ----

  function EmptyWorld(): World {
    World(Config([], [], Some(Keyring)), map[])
  }

  function PasswordForm(name: string, user: string, password: string): HostForm {
    HostForm(false, None, name, "", 22, None, None, Body(user, Some(Plain(password)), None, false), false)
  }

  function KeyPathForm(id: Ulid, name: string, user: string, path: string): HostForm {
    HostForm(true, Some(id), name, "", 22, None, None, Body(user, None, Some(PathKey(path)), false), false)
  }

  /** A host is added with a password, edited to log in with a key file, and
      deleted. Every step succeeds; the password stays in the keyring for good. */
  lemma EditLeavesPassword(env: Env, id: Ulid, other: Ulid, name: string, user: string, password: string, path: string)
    requires env.keyringUp && env.unlock.Ok? && env.disk.Saved? && env.nameOk(name) && other != id
    ensures var ops := [SaveHost(env, PasswordForm(name, user, password), id),
                        SaveHost(env, KeyPathForm(id, name, user, path), other),
                        DeleteHost(env, name)];
            var w := Run(EmptyWorld(), ops);
            && Orphans(Run(EmptyWorld(), ops[..1]), ops[1])
            && w.config.hosts == [] && Slot(HostOwner, id, PasswordPart) in w.keyring
            && w.keyring[Slot(HostOwner, id, PasswordPart)] == password
  {
    var a := SaveHost(env, PasswordForm(name, user, password), id);
    var b := SaveHost(env, KeyPathForm(id, name, user, path), other);
    var c := DeleteHost(env, name);
    var ops := [a, b, c];
    assert ops[..2][..1] == ops[..1] && ops[..1][..0] == [];
    var w0 := EmptyWorld();
    AddStores(env, id, name, user, password);
    var w1 := Step(w0, a);
    assert Run(w0, ops[..1]) == w1;
    EditStores(env, w1, id, other, name, user, password, path);
    var w2 := Step(w1, b);
    assert Run(w0, ops[..2]) == w2;
    DeleteForgetsNothing(env, w2, name);
  }

  lemma AddStores(env: Env, id: Ulid, name: string, user: string, password: string)
    requires env.keyringUp && env.unlock.Ok? && env.disk.Saved? && env.nameOk(name)
    ensures var w := Step(EmptyWorld(), SaveHost(env, PasswordForm(name, user, password), id));
            && w.keyring == map[Slot(HostOwner, id, PasswordPart) := password]
            && w.config == Config([Host(id, name, "", 22, env.normalize(None), Inline(Body(user, None, None, true)))],
                                  [], Some(Keyring))
  {
  }

  lemma EditStores(env: Env, w: World, id: Ulid, other: Ulid, name: string, user: string, password: string,
                   path: string)
    requires env.disk.Saved? && w.keyring == map[Slot(HostOwner, id, PasswordPart) := password]
    requires |w.config.hosts| == 1 && w.config.hosts[0].id == id && w.config.hosts[0].name == name
    ensures var op := SaveHost(env, KeyPathForm(id, name, user, path), other);
            var t := Step(w, op);
            && t.keyring == w.keyring && Orphans(w, op)
            && t.config.hosts == [Host(id, name, "", 22, None, Inline(Body(user, None, Some(PathKey(path)), false)))]
  {
    var body := Body(user, None, Some(PathKey(path)), false);
    assert WillHold(w.config.store, w.keyring, HostOwner, id, body, PasswordPart);
    assert !WillMark(w.config.store, body, PasswordPart);
  }

  lemma DeleteForgetsNothing(env: Env, w: World, name: string)
    requires env.disk.Saved? && |w.config.hosts| == 1 && w.config.hosts[0].name == name
    requires w.config.hosts[0].auth.Inline?
    requires var body := w.config.hosts[0].auth.body;
             !body.keyring && (body.key.Some? ==> body.key.value.PathKey?)
    ensures var t := Step(w, DeleteHost(env, name)); t.config.hosts == [] && t.keyring == w.keyring
  {
    assert DropHostsNamed(w.config.hosts, name) == [] by {
      assert w.config.hosts[1..] == [];
    }
  }
}
