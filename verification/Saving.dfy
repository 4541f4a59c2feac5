/** The save and delete functions of `src/tui/persist.rs` as they work on the
    application: step by step, replacing the configuration at the end. */
module Saving {
  import opened Prelude
  import opened Config
  import opened Persist

  class ConfigHolder {
    var config: Config
    var keyring: Ring

    ghost function Value(): World
      reads this
    {
      World(config, keyring)
    }

    /** Write, read back, adopt. */
    method Adopt(env: Env, next: Config) returns (ok: bool)
      modifies this`config
      ensures ok == (env.disk.NoPath? || env.disk.Saved?)
      ensures config == if ok then next else old(config)
    {
      ok := env.disk.NoPath? || env.disk.Saved?;
      if ok {
        config := next;
      }
    }

    method SaveHost(env: Env, form: HostForm, freshId: Ulid) returns (r: Result<Ulid, Error>)
      modifies this
      ensures (Value(), r) == PersistHostSave(env, old(Value()), form, freshId)
    {
      hide HostAuth, SealAuth, HostConfig;
      if form.editing && form.origId.None? {
        return Err(MissingId);
      }
      var id := if form.editing then form.origId.value else freshId;
      var auth := HostAuth(config, form, id);
      if auth.Err? {
        return Err(auth.error);
      }
      var sealed := SealAuth(env, config, id, auth.value, keyring);
      if sealed.Err? {
        return Err(sealed.error);
      }
      keyring := sealed.value.1;
      var next := BuildHosts(env, form, id, sealed.value.0);
      if next.Err? {
        return Err(next.error);
      }
      var ok := Adopt(env, next.value);
      r := if ok then Ok(id) else Err(Io);
    }

    /** Replace the host in its slot, or append it. */
    method BuildHosts(env: Env, form: HostForm, id: Ulid, auth: Auth) returns (next: Result<Config, Error>)
      ensures next == HostConfig(env, config, form, id, auth)
    {
      if form.editing {
        var orig := FindHost(config.hosts, id);
        if orig.None? {
          return Err(HostNotFound);
        }
        if orig.value.name != form.name {
          if !env.nameOk(form.name) {
            return Err(BadName);
          }
          if HostNamed(config.hosts, form.name) {
            return Err(NameTaken);
          }
        }
        var hosts := ReplaceHost(config.hosts, Host(id, form.name, form.addr, form.port, form.sshArgs, auth));
        return Ok(config.(hosts := hosts));
      }
      if HostNamed(config.hosts, form.name) {
        return Err(AlreadyExists);
      }
      if !env.nameOk(form.name) {
        return Err(BadName);
      }
      if form.sshArgs.Some? && !env.argsOk(form.sshArgs.value) {
        return Err(BadSshArgs);
      }
      var added := Host(id, form.name, form.addr, form.port, env.normalize(form.sshArgs), auth);
      next := Ok(config.(hosts := config.hosts + [added]));
    }

    method SaveCredential(env: Env, form: CredForm, freshId: Ulid) returns (r: Result<(), Error>)
      modifies this
      ensures (Value(), r) == PersistCredSave(env, old(Value()), form, freshId)
    {
      hide CredBody, SealIfPlain;
      var prepared := CredBody(env, config, form, freshId);
      if prepared.Err? {
        return Err(prepared.error);
      }
      var (id, body) := prepared.value;
      var sealed := SealIfPlain(env, config.store, CredentialOwner, id, body, keyring);
      if sealed.Err? {
        return Err(sealed.error);
      }
      keyring := sealed.value.1;
      var next := config;
      if form.editing {
        var creds := ReplaceCredential(config.credentials, Credential(id, form.name, sealed.value.0));
        next := config.(credentials := creds);
      } else if !env.nameOk(form.name) {
        return Err(BadName);
      } else if !ValidBody(sealed.value.0) {
        return Err(InvalidBody);
      } else {
        next := config.(credentials := config.credentials + [Credential(id, form.name, sealed.value.0)]);
      }
      var ok := Adopt(env, next);
      r := if ok then Ok(()) else Err(Io);
    }

    method DeleteHost(env: Env, name: string) returns (r: Result<(), Error>)
      modifies this
      ensures (Value(), r) == PersistHostDelete(env, old(Value()), name)
    {
      hide Forget, FindHostByName, DropHostsNamed;
      var h := FindHostByName(config.hosts, name);
      if h.None? {
        return Err(HostNotFound);
      }
      if h.value.auth.Inline? {
        keyring := Forget(env, keyring, HostOwner, h.value.id, h.value.auth.body);
      }
      var ok := Adopt(env, config.(hosts := DropHostsNamed(config.hosts, name)));
      r := if ok then Ok(()) else Err(Io);
    }

    method DeleteCredential(env: Env, name: string) returns (r: Result<(), Error>)
      modifies this
      ensures (Value(), r) == PersistCredDelete(env, old(Value()), name)
    {
      hide Forget, FindCredentialByName, DropCredentialsNamed;
      var c := FindCredentialByName(config.credentials, name);
      if c.None? {
        return Err(CredentialNotFound);
      }
      keyring := Forget(env, keyring, CredentialOwner, c.value.id, c.value.body);
      var ok := Adopt(env, config.(credentials := DropCredentialsNamed(config.credentials, name)));
      r := if ok then Ok(()) else Err(Io);
    }
  }

  /** `iter_mut().find(...)`: the first host with the id is overwritten. */
  method ReplaceHost(hosts: seq<Host>, h: Host) returns (r: seq<Host>)
    ensures r == SpliceHost(hosts, h)
  {
    r := hosts;
    for i := 0 to |hosts|
      invariant r == hosts
      invariant SpliceHost(hosts, h) == hosts[..i] + SpliceHost(hosts[i..], h)
    {
      if hosts[i].id == h.id {
        assert hosts[i := h] == hosts[..i] + ([h] + hosts[i..][1..]);
        return hosts[i := h];
      }
      assert hosts[i..][1..] == hosts[i + 1..];
      assert hosts[..i + 1] == hosts[..i] + [hosts[i]];
    }
  }

  method ReplaceCredential(creds: seq<Credential>, c: Credential) returns (r: seq<Credential>)
    ensures r == SpliceCredential(creds, c)
  {
    r := creds;
    for i := 0 to |creds|
      invariant r == creds
      invariant SpliceCredential(creds, c) == creds[..i] + SpliceCredential(creds[i..], c)
    {
      if creds[i].id == c.id {
        assert creds[i := c] == creds[..i] + ([c] + creds[i..][1..]);
        return creds[i := c];
      }
      assert creds[i..][1..] == creds[i + 1..];
      assert creds[..i + 1] == creds[..i] + [creds[i]];
    }
  }
}
