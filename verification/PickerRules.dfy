/** What the keys of the file picker pick and open, and how a typed path is read
    (`src/tui/file_picker.rs`, `crates/sshrack-core/src/dirsource.rs`). */
module PickerRules {
  import opened Prelude
  import opened Keys
  import opened DirSource
  import opened FilePicker
  import B = Browser

  // ---- typed paths ----

  /** A name that can stand in a path. */
  predicate Proper(name: string) {
    name != "" && name != "." && '/' !in name
  }

  predicate AllProper(names: seq<string>) {
    forall n | n in names :: Proper(n)
  }

  function Joined(names: seq<string>): string {
    if names == [] then "" else if |names| == 1 then names[0] else names[0] + "/" + Joined(names[1..])
  }

  /** How a path is written. */
  function Written(p: Path): string {
    (if p.rooted then "/" else "") + Joined(p.parts)
  }

  lemma {:induction false} SplitName(name: string, rest: string)
    requires '/' !in name
    ensures Split(name + "/" + rest) == [name] + Split(rest)
    ensures Split(name) == [name]
  {
    if name == "" {
      assert name + "/" + rest == "/" + rest;
      assert ("/" + rest)[1..] == rest;
    } else {
      assert (name + "/" + rest)[1..] == name[1..] + "/" + rest;
      SplitName(name[1..], rest);
      assert [name[0]] + name[1..] == name;
    }
  }

  predicate NoSlashes(names: seq<string>) {
    forall n | n in names :: '/' !in n
  }

  lemma {:induction false} SplitJoined(names: seq<string>)
    requires NoSlashes(names)
    ensures Split(Joined(names)) == if names == [] then [""] else names
  {
    if |names| == 1 {
      assert names[0] in names;
      SplitName(names[0], "");
    } else if names != [] {
      assert names[0] in names && forall n | n in names[1..] :: n in names;
      SplitJoined(names[1..]);
      SplitName(names[0], Joined(names[1..]));
      assert names == [names[0]] + names[1..];
    }
  }

  lemma FrontOfJoined(names: seq<string>)
    requires NoSlashes(names) && names != []
    ensures IsAbsolute(Joined(names)) <==> |names| > 1 && names[0] == ""
    ensures names[0] != "" ==> Joined(names) != "" && Joined(names)[0] == names[0][0]
  {
    assert names[0] in names;
  }

  lemma {:induction false} ProperComponents(names: seq<string>, keepDot: bool)
    requires AllProper(names)
    ensures Components(names, keepDot) == names
  {
    if names != [] {
      assert names[0] in names && forall n | n in names[1..] :: n in names;
      ProperComponents(names[1..], false);
    }
  }

  /** A written path is read back as it was. */
  lemma WrittenPathIsRead(p: Path)
    requires AllProper(p.parts)
    ensures ParsePath(Written(p)) == p
  {
    SplitJoined(p.parts);
    if p.rooted {
      var s := Written(p);
      assert s[0] == '/' && s[1..] == Joined(p.parts);
      assert Split(s) == [""] + Split(Joined(p.parts));
      if p.parts == [] {
        assert Components([""] + [""], false) == Components([""], false) by { assert ([""] + [""])[1..] == [""]; }
        assert Components([""], false) == [] by { assert [""][1..] == []; }
      } else {
        assert ([""] + p.parts)[1..] == p.parts;
        ProperComponents(p.parts, false);
      }
    } else {
      assert Written(p) == Joined(p.parts);
      if p.parts != [] {
        assert p.parts[0] in p.parts;
        FrontOfJoined(p.parts);
      }
      if p.parts == [] {
        assert Components([""], true) == [] by { assert [""][1..] == []; }
      } else {
        ProperComponents(p.parts, true);
      }
    }
  }

  /** A typed path starts at the root, at home after `~/`, or in the directory on
      screen. */
  lemma TypedPathStartsSomewhere(src: Source, cwd: Path, names: seq<string>)
    requires AllProper(names) && names != []
    ensures ResolveTarget(src, "/" + Joined(names), cwd) == Path(true, names)
    ensures src.home.Some? ==>
              ResolveTarget(src, "~/" + Joined(names), cwd)
              == Path(src.home.value.rooted, src.home.value.parts + names)
    ensures src.home.Some? ==> ResolveTarget(src, "~", cwd) == src.home.value
    ensures names[0] != "" && names[0][0] != '~' ==>
              ResolveTarget(src, Joined(names), cwd) == Path(cwd.rooted, cwd.parts + names)
  {
    assert names[0] in names;
    FrontOfJoined(names);
    WrittenPathIsRead(Path(true, names));
    WrittenPathIsRead(Path(false, names));
    assert Written(Path(false, names)) == Joined(names);
    var tilde := "~/" + Joined(names);
    assert tilde[..2] == "~/" && tilde[2..] == Joined(names);
  }

  /** Doubled slashes and `.` count for nothing anywhere behind the front. */
  lemma BlankSegmentsVanish(head: seq<string>, blank: string, tail: seq<string>)
    requires NoSlashes(head) && NoSlashes(tail) && (blank == "" || blank == ".")
    requires head != [] && head + tail != [""]
    ensures ParsePath(Joined(head + [blank] + tail)) == ParsePath(Joined(head + tail))
  {
    var with, without := head + [blank] + tail, head + tail;
    assert with[0] == head[0] == without[0] && head[0] in head;
    SplitJoined(with);
    SplitJoined(without);
    FrontOfJoined(with);
    FrontOfJoined(without);
    ComponentsSkip(head, blank, tail, !IsAbsolute(Joined(with)));
  }

  lemma {:induction false} ComponentsSkip(head: seq<string>, blank: string, tail: seq<string>, keepDot: bool)
    requires head != [] && (blank == "" || blank == ".")
    ensures Components(head + [blank] + tail, keepDot) == Components(head + tail, keepDot)
  {
    assert (head + [blank] + tail)[1..] == head[1..] + [blank] + tail;
    assert (head + tail)[1..] == head[1..] + tail;
    if |head| == 1 {
      assert head[1..] + [blank] + tail == [blank] + tail && head[1..] + tail == tail;
      assert ([blank] + tail)[1..] == tail;
    } else {
      ComponentsSkip(head[1..], blank, tail, false);
    }
  }

  /** A `.` at the front stands for the directory on screen. */
  lemma LeadingDotIsHere(src: Source, cwd: Path, names: seq<string>)
    requires AllProper(names) && (cwd.rooted || cwd.parts != [])
    ensures ResolveTarget(src, Joined(["."] + names), cwd) == Path(cwd.rooted, cwd.parts + names)
  {
    var dotted := ["."] + names;
    SplitJoined(dotted);
    FrontOfJoined(dotted);
    assert dotted[1..] == names;
    ProperComponents(names, false);
    assert Components(dotted, true) == ["."] + names;
    assert ParsePath(Joined(dotted)).parts[1..] == names;
  }

  /** What the source says of the path decides: a file, a directory (also behind a
      link), or nothing. */
  lemma SourceDecides(src: Source, raw: string, cwd: Path)
    ensures var p, r := ResolveTarget(src, raw, cwd), Resolve(src, raw, cwd);
            && (src.classify(p) == File <==> r == FileAt(p))
            && (src.classify(p) == Dir || src.classify(p) == Symlink <==> r == DirAt(p))
            && (src.classify(p) == NotFound <==> r == Missing)
  {
  }

  predicate AllBlank(s: string) {
    forall c | c in s :: c == ' ' || c == '\t' || c == '\n' || c == '\r'
  }

  predicate BlankEnds(s: string) {
    s != "" && (AllBlank([s[0]]) || AllBlank([s[|s| - 1]]))
  }

  /** Blanks around a typed path are dropped, those inside it are not. */
  lemma TrimDropsBlankEnds(before: string, path: string, after: string)
    requires AllBlank(before) && AllBlank(after) && !BlankEnds(path)
    ensures Trim(before + path + after) == path
  {
    assert before + path + after == before + (path + after);
    StartCut(before, path + after);
    if path == "" {
      assert path + after == after;
      StartCut(after, "");
      assert after + "" == after;
    } else {
      assert path[0] in [path[0]] && (path + after)[0] == path[0];
      assert !IsBlank(path[0]);
      EndCut(path, after);
    }
  }

  lemma {:induction false} StartCut(blanks: string, rest: string)
    requires AllBlank(blanks)
    ensures TrimStart(blanks + rest) == TrimStart(rest)
  {
    if blanks == "" {
      assert blanks + rest == rest;
    } else {
      assert blanks[0] in blanks && (blanks + rest)[1..] == blanks[1..] + rest;
      assert forall c | c in blanks[1..] :: c in blanks;
      StartCut(blanks[1..], rest);
    }
  }

  lemma {:induction false} EndCut(rest: string, blanks: string)
    requires AllBlank(blanks) && rest != "" && !BlankEnds(rest)
    ensures TrimEnd(rest + blanks) == rest
    decreases |blanks|
  {
    if blanks == "" {
      assert rest + blanks == rest;
      assert rest[|rest| - 1] in [rest[|rest| - 1]];
    } else {
      var n := |blanks| - 1;
      assert blanks[n] in blanks && (rest + blanks)[..|rest + blanks| - 1] == rest + blanks[..n];
      assert forall c | c in blanks[..n] :: c in blanks;
      EndCut(rest, blanks[..n]);
    }
  }

  // ---- keys ----

  /** The directory is on screen with its listing, or the status says why not. */
  predicate Opened(g: Setting, s: State, t: State, dir: Path) {
    match g.source.list(dir)
    case Ok(entries) =>
      t.status == Clear && t.started == s.started && t.core == B.CommitSwitch(g.matcher, s.core, dir, entries)
    case Err(msg) => t == s.(status := CannotList(msg))
  }

  /** The query is a path when it starts with `~` or has a slash in it. */
  predicate TypesPath(query: string) {
    (query != "" && query[0] == '~') || exists k :: 0 <= k < |query| && query[k] == '/'
  }

  /** Enter on a row: a file under the cursor is picked, a directory is opened. */
  lemma EnterTakesCursorRow(g: Setting, s: State, key: Key)
    requires s.started && key.press && key.code == Enter && !TypesPath(s.core.query)
    ensures var (t, out) := OnKey(g, s, key);
            match B.SelectedEntry(s.core)
            case None => t == s && out == Pending
            case Some(e) =>
              if e.isDir then Opened(g, s, t, e.path) && out == Pending else t == s && out == Pick(e.path)
  {
    hide B.CommitSwitch, B.SelectedEntry;
  }

  /** Enter on a typed path: a file is picked, a directory is opened, and nothing
      there is said so. */
  lemma EnterTakesTypedPath(g: Setting, s: State, key: Key)
    requires s.started && key.press && key.code == Enter && TypesPath(s.core.query)
    ensures var (t, out), typed := OnKey(g, s, key), Trim(s.core.query);
            var p := ResolveTarget(g.source, typed, s.core.cwd);
            match g.source.classify(p)
            case File => t == s && out == Pick(p)
            case NotFound => t == s.(status := NoSuchPath(typed)) && out == Pending
            case _ => Opened(g, s, t, p) && out == Pending
  {
    hide B.CommitSwitch, ResolveTarget, Trim;
    var k := 0;
    assert IsPathLike(s.core.query);
  }

  /** Right opens the directory under the cursor, Left the parent of the one on
      screen. */
  lemma SideKeysOpen(g: Setting, s: State, key: Key)
    requires s.started && key.press && !key.ctrl
    ensures var (t, out) := OnKey(g, s, key);
            && (key.code == Right && B.SelectedEntry(s.core).Some? && B.SelectedEntry(s.core).value.isDir ==>
                  Opened(g, s, t, B.SelectedEntry(s.core).value.path) && out == Pending)
            && (key.code == Right && !(B.SelectedEntry(s.core).Some? && B.SelectedEntry(s.core).value.isDir) ==>
                  t == s && out == Pending)
            && (key.code == Left && s.core.cwd.parts != [] ==>
                  Opened(g, s, t, s.core.cwd.(parts := s.core.cwd.parts[..|s.core.cwd.parts| - 1])) && out == Pending)
            && (key.code == Left && s.core.cwd.parts == [] ==> t == s && out == Pending)
  {
    hide B.CommitSwitch, B.SelectedEntry;
  }

  /** Esc and Ctrl-C close the picker, a release of a key does nothing, and every
      other key goes to the browser. */
  lemma OtherKeys(g: Setting, s: State, key: Key)
    requires s.started
    ensures var (t, out) := OnKey(g, s, key);
            && (!key.press ==> t == s && out == Pending)
            && (key.press && (key.code == Esc || (key.ctrl && key.code == Char('c'))) ==> t == s && out == Cancel)
            && (key.press && out == Cancel ==> key.code == Esc || (key.ctrl && key.code == Char('c')))
            && (key.press && out != Cancel && key.code != Enter && key.code != Right && key.code != Left ==>
                  t == s.(core := B.ApplyNavKey(g.matcher, s.core, key)) && out == Pending)
  {
    hide B.CommitSwitch, B.SelectedEntry;
    UnownedKeyIsInert2(g, s, key);
  }

  lemma UnownedKeyIsInert2(g: Setting, s: State, key: Key)
    ensures B.Decision(s.core, key).None? ==> B.ApplyNavKey(g.matcher, s.core, key) == s.core
    ensures B.Decision(s.core, key) == Some(B.StepUp) ==> key.code == Left
  {
  }

  /** The first candidate that is a directory, or the root if none is. */
  predicate StartsIn(g: Setting, dir: Path) {
    || (exists k :: 0 <= k < |g.candidates| && CandidatePath(g.source, g.candidates[k]) == Some(dir)
                 && g.source.classify(dir) == Dir
                 && forall j | 0 <= j < k :: !IsStartDir(g.source, g.candidates[j]))
    || (dir == Path(true, []) && forall k | 0 <= k < |g.candidates| :: !IsStartDir(g.source, g.candidates[k]))
  }

  lemma {:induction false} StartDirIsFirst(src: Source, candidates: seq<string>)
    ensures match StartDir(src, candidates)
            case None => forall k | 0 <= k < |candidates| :: !IsStartDir(src, candidates[k])
            case Some(dir) =>
              exists k :: 0 <= k < |candidates| && CandidatePath(src, candidates[k]) == Some(dir)
                       && src.classify(dir) == Dir && forall j | 0 <= j < k :: !IsStartDir(src, candidates[j])
  {
    if candidates != [] && !IsStartDir(src, candidates[0]) {
      var rest := candidates[1..];
      StartDirIsFirst(src, rest);
      match StartDir(src, rest)
      case None =>
        assert forall k | 0 < k < |candidates| :: candidates[k] == rest[k - 1];
      case Some(dir) =>
        var k :| 0 <= k < |rest| && CandidatePath(src, rest[k]) == Some(dir)
                 && src.classify(dir) == Dir && forall j | 0 <= j < k :: !IsStartDir(src, rest[j]);
        assert candidates[k + 1] == rest[k];
        assert forall j | 0 < j < k + 1 :: candidates[j] == rest[j - 1];
    }
  }

  /** The first key starts the picker in the first candidate that is a directory,
      or at the root, and then does its work there; a start that cannot be listed
      is tried again at the next key. */
  lemma FirstKeyStarts(g: Setting, s: State, key: Key)
    requires !s.started && key.press && !Closes(key)
    ensures var t, dir := EnsureStarted(g, s), StartCwd(g);
            var (u, out) := OnKey(g, t.(started := true), key);
            && OnKey(g, s, key) == (u.(started := t.started), out)
            && (t.started <==> g.source.list(dir).Ok?)
            && Opened(g, s, t.(started := s.started), dir)
            && StartsIn(g, dir)
  {
    hide B.CommitSwitch, B.ApplyNavKey, B.SelectedEntry, Resolve, IsStartDir;
    StartDirIsFirst(g.source, g.candidates);
  }
}
