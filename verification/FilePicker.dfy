/** The modal file picker over a static listing source
    (`src/tui/file_picker.rs`). */
module FilePicker {
  import opened Prelude
  import opened Keys
  import opened DirSource
  import Ranking
  import B = Browser

  datatype Outcome = Pick(path: Path) | Cancel | Pending

  datatype Status = Clear | CannotList(msg: string) | NoSuchPath(raw: string)

  datatype State = State(core: B.State, status: Status, started: bool)

  /** What does not change while a picker is open. */
  datatype Setting = Setting(matcher: Ranking.Matcher, source: Source, candidates: seq<string>)

  const ROOT := Path(true, [])

  // ---- specification ----

  function Load(g: Setting, s: State, cwd: Path): State {
    match g.source.list(cwd)
    case Ok(entries) => s.(core := B.CommitSwitch(g.matcher, s.core, cwd, entries), status := Clear)
    case Err(msg) => s.(status := CannotList(msg))
  }

  function StartCwd(g: Setting): Path {
    match StartDir(g.source, g.candidates) case Some(p) => p case None => ROOT
  }

  function EnsureStarted(g: Setting, s: State): State {
    if s.started then s
    else Load(g, s, StartCwd(g)).(started := g.source.list(StartCwd(g)).Ok?)
  }

  predicate IsPathLike(query: string) {
    StartsWithTilde(query) || '/' in query
  }

  function IsBlank(c: char): bool {
    c == ' ' || c == '\t' || c == '\n' || c == '\r'
  }

  function TrimStart(s: string): string {
    if s != "" && IsBlank(s[0]) then TrimStart(s[1..]) else s
  }

  function TrimEnd(s: string): string {
    if s != "" && IsBlank(s[|s| - 1]) then TrimEnd(s[..|s| - 1]) else s
  }

  function Trim(s: string): string {
    TrimEnd(TrimStart(s))
  }

  function Activate(g: Setting, s: State): (State, Outcome) {
    if IsPathLike(s.core.query) then
      var raw := Trim(s.core.query);
      match Resolve(g.source, raw, s.core.cwd)
      case FileAt(p) => (s, Pick(p))
      case DirAt(p) => (Load(g, s, p), Pending)
      case Missing => (s.(status := NoSuchPath(raw)), Pending)
    else
      match B.SelectedEntry(s.core)
      case None => (s, Pending)
      case Some(e) => if e.isDir then (Load(g, s, e.path), Pending) else (s, Pick(e.path))
  }

  function StepInto(g: Setting, s: State): State {
    match B.SelectedEntry(s.core)
    case Some(e) => if e.isDir then Load(g, s, e.path) else s
    case None => s
  }

  function StepUp(g: Setting, s: State): State {
    match Parent(s.core.cwd) case Some(p) => Load(g, s, p) case None => s
  }

  predicate Closes(key: Key) {
    key.code == Esc || (key.ctrl && key.code == Char('c'))
  }

  function OnKey(g: Setting, s: State, key: Key): (State, Outcome) {
    if !key.press then (s, Pending)
    else if Closes(key) then (s, Cancel)
    else
      var t := EnsureStarted(g, s);
      match B.Decision(t.core, key)
      case Some(d) =>
        var u := t.(core := B.ApplyNavKey(g.matcher, t.core, key));
        (if d == B.StepUp then StepUp(g, u) else u, Pending)
      case None =>
        if key.code == Enter then Activate(g, t)
        else if key.code == Right then (StepInto(g, t), Pending)
        else (t, Pending)
  }

  // ---- the picker object ----

  class Picker {
    const setting: Setting
    const core: B.BrowserCore
    var status: Status
    var started: bool

    ghost predicate Valid() {
      core.matcher == setting.matcher
    }

    function Value(): State
      reads this, core
    {
      State(core.Value(), status, started)
    }

    constructor (setting: Setting)
      ensures Valid() && this.setting == setting && fresh(core)
      ensures Value() == State(B.Fresh(ROOT), Clear, false)
    {
      this.setting := setting;
      core := new B.BrowserCore(setting.matcher, ROOT);
      status, started := Clear, false;
    }

    method DoLoad(cwd: Path) returns (ok: bool)
      requires Valid()
      modifies this, core
      ensures Value() == Load(setting, old(Value()), cwd)
      ensures ok == setting.source.list(cwd).Ok?
    {
      match setting.source.list(cwd)
      case Ok(entries) =>
        core.DoCommitSwitch(cwd, entries);
        status := Clear;
        return true;
      case Err(msg) =>
        status := CannotList(msg);
        return false;
    }

    method DoEnsureStarted()
      requires Valid()
      modifies this, core
      ensures Value() == EnsureStarted(setting, old(Value()))
    {
      if started { return; }
      var start := ResolveStart(setting.source, setting.candidates);
      var cwd := if start.Some? then start.value else ROOT;
      var ok := DoLoad(cwd);
      if ok {
        started := true;
      }
    }

    method DoActivate() returns (out: Outcome)
      requires Valid()
      modifies this, core
      ensures (Value(), out) == Activate(setting, old(Value()))
    {
      if IsPathLike(core.query) {
        var raw := Trim(core.query);
        match Resolve(setting.source, raw, core.cwd)
        case FileAt(p) => return Pick(p);
        case DirAt(p) => var _ := DoLoad(p); return Pending;
        case Missing => status := NoSuchPath(raw); return Pending;
      }
      match B.SelectedEntry(core.Value())
      case None => return Pending;
      case Some(e) =>
        if e.isDir {
          var _ := DoLoad(e.path);
          return Pending;
        }
        return Pick(e.path);
    }

    method DoOnKey(key: Key) returns (out: Outcome)
      requires Valid()
      modifies this, core
      ensures (Value(), out) == OnKey(setting, old(Value()), key)
    {
      hide B.ApplyNavKey, B.CommitSwitch;
      if !key.press { return Pending; }
      if Closes(key) { return Cancel; }
      DoEnsureStarted();
      var decision := core.DoNavKey(key);
      if decision.Some? {
        if decision.value == B.StepUp {
          var parent := Parent(core.cwd);
          if parent.Some? {
            var _ := DoLoad(parent.value);
          }
        }
        return Pending;
      }
      assert Value() == EnsureStarted(setting, old(Value())) by {
        UnownedKeyIsInert(setting.matcher, EnsureStarted(setting, old(Value())).core, key);
      }
      match key.code
      case Enter => out := DoActivate();
      case Right =>
        var entry := B.SelectedEntry(core.Value());
        if entry.Some? && entry.value.isDir {
          var _ := DoLoad(entry.value.path);
        }
        return Pending;
      case _ => return Pending;
    }
  }

  /** A key the browser does not own leaves it untouched. */
  lemma UnownedKeyIsInert(m: Ranking.Matcher, s: B.State, key: Key)
    requires B.Decision(s, key).None?
    ensures B.ApplyNavKey(m, s, key) == s
  {
  }

  // ---- what the picker promises over whole runs ----

  function Run(g: Setting, s: State, keys: seq<Key>): State
    decreases |keys|
  {
    if keys == [] then s else OnKey(g, Run(g, s, keys[..|keys| - 1]), keys[|keys| - 1]).0
  }

  /** Nothing listed yet, or exactly the listing of the current directory. */
  ghost predicate ShowsListing(g: Setting, s: State) {
    || (s.core.cwd == ROOT && s.core.entries == [] && !s.started)
    || g.source.list(s.core.cwd) == Ok(s.core.entries)
  }

  ghost predicate Inv(g: Setting, s: State) {
    ShowsListing(g, s) && B.Sound(s.core)
  }

  lemma CommitIsSound(m: Ranking.Matcher, s: B.State, cwd: Path, entries: seq<DirEntry>)
    requires B.Sound(s)
    ensures var t := B.CommitSwitch(m, s, cwd, entries);
            t.cwd == cwd && t.entries == entries && B.Sound(t)
  {
    B.StepKeepsCursor(m, s, B.Commit(cwd, entries));
  }

  /** A listing that fails leaves the browser as it was. */
  lemma LoadKeepsInv(g: Setting, s: State, cwd: Path)
    requires Inv(g, s)
    ensures Inv(g, Load(g, s, cwd))
    ensures g.source.list(cwd).Err? ==> Load(g, s, cwd).core == s.core
  {
    hide B.CommitSwitch, B.Sound;
    if g.source.list(cwd).Ok? {
      CommitIsSound(g.matcher, s.core, cwd, g.source.list(cwd).value);
    }
  }

  lemma NavKeepsListing(m: Ranking.Matcher, s: B.State, key: Key)
    requires B.Sound(s)
    ensures var t := B.ApplyNavKey(m, s, key); t.cwd == s.cwd && t.entries == s.entries && B.Sound(t)
  {
    B.NavKeyKeepsCursor(m, s, key);
  }

  lemma OnKeyKeepsInv(g: Setting, s: State, key: Key)
    requires Inv(g, s)
    ensures Inv(g, OnKey(g, s, key).0)
  {
    hide B.CommitSwitch, B.ApplyNavKey, B.Sound, Load;
    LoadKeepsInv(g, s, StartCwd(g));
    var t := EnsureStarted(g, s);
    assert Inv(g, t) by { StartedKeepsInv(g, s); }
    var u := t.(core := B.ApplyNavKey(g.matcher, t.core, key));
    NavKeepsListing(g.matcher, t.core, key);
    forall cwd ensures Inv(g, Load(g, t, cwd)) {
      LoadKeepsInv(g, t, cwd);
    }
    forall cwd ensures Inv(g, Load(g, u, cwd)) {
      LoadKeepsInv(g, u, cwd);
    }
  }

  lemma StartedKeepsInv(g: Setting, s: State)
    requires Inv(g, s)
    ensures Inv(g, EnsureStarted(g, s))
  {
    hide B.CommitSwitch, B.Sound;
    if g.source.list(StartCwd(g)).Ok? {
      CommitIsSound(g.matcher, s.core, StartCwd(g), g.source.list(StartCwd(g)).value);
    }
  }

  lemma {:induction false} RunKeepsInv(g: Setting, keys: seq<Key>)
    ensures Inv(g, Run(g, State(B.Fresh(ROOT), Clear, false), keys))
    decreases |keys|
  {
    hide OnKey;
    if keys != [] {
      RunKeepsInv(g, keys[..|keys| - 1]);
      OnKeyKeepsInv(g, Run(g, State(B.Fresh(ROOT), Clear, false), keys[..|keys| - 1]), keys[|keys| - 1]);
    }
  }

  /** After any keys the picker shows the listing of the directory it names (or
      has listed nothing yet), and a picked path is a file: a non-directory row
      of that listing, or a typed path the source classifies as a file. */
  lemma PickIsAListedFile(g: Setting, keys: seq<Key>, key: Key)
    ensures var s := Run(g, State(B.Fresh(ROOT), Clear, false), keys);
            var (t, out) := OnKey(g, s, key);
            && ShowsListing(g, s)
            && ShowsListing(g, t)
            && (out.Pick? ==>
                  || g.source.classify(out.path) == File
                  || (exists e :: e in t.core.entries && !e.isDir && e.path == out.path
                                  && g.source.list(t.core.cwd) == Ok(t.core.entries)))
  {
    hide B.CommitSwitch, B.ApplyNavKey, Load;
    RunKeepsInv(g, keys);
    var s := Run(g, State(B.Fresh(ROOT), Clear, false), keys);
    OnKeyKeepsInv(g, s, key);
    var (t, out) := OnKey(g, s, key);
    if out.Pick? && !IsPathLike(t.core.query) {
      assert B.SelectedEntry(t.core).Some?;
      assert B.SelectedEntry(t.core).value in t.core.entries;
    }
  }
}
