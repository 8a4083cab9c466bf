/**
 * The hook installer: entries of a settings file are recognised by the file name of their handler,
 * replaced or appended on install, and filtered out on uninstall.
 */
module HookInstaller {
  import opened Prelude

  const CLAUDE_HANDLER_FILENAME := "hook-handler.js"
  const CODEX_HANDLER_FILENAME := "codex-hook-handler.js"

  // ---------------------------------------------------------------------------------------------
  // Recognising entries
  // ---------------------------------------------------------------------------------------------

  /** An entry of a hook list, with the commands it holds; `None` is a command that is not a string. */
  datatype Entry =
    | NotAnObject(value: string)
    | Entry(command: Option<string>, hooks: seq<Option<string>>, matcher: Option<string>, other: string)

  predicate IsSeparator(c: char) {
    c == '/' || c == '\\'
  }

  predicate IsEnd(c: char) {
    c == '"' || c == ' '
  }

  /** At `i` stands a separator, the file name, and a quote or space. */
  predicate MentionsAt(s: string, filename: string, i: int) {
    0 <= i && i + |filename| + 2 <= |s| && IsSeparator(s[i]) && s[i + 1..i + 1 + |filename|] == filename && IsEnd(s[i + 1 + |filename|])
  }

  predicate Mentions(s: string, filename: string) {
    exists i :: 0 <= i < |s| && MentionsAt(s, filename, i)
  }

  /** commandReferences */
  predicate References(entry: Entry, filename: string) {
    match entry
    case NotAnObject(_) => false
    case Entry(command, hooks, _, _) =>
      (command.Some? && Mentions(command.value, filename))
      || exists i :: 0 <= i < |hooks| && hooks[i].Some? && Mentions(hooks[i].value, filename)
  }

  /** In this text the file name stands behind a slash or backslash and before a quote or space. */
  predicate InPath(s: string, f: string, before: string, sep: char, end: char, after: string) {
    s == before + [sep] + f + [end] + after && (sep == '/' || sep == '\\') && (end == '"' || end == ' ')
  }

  lemma MentionsIff(s: string, f: string)
    ensures Mentions(s, f) <==> exists before, sep, end, after :: InPath(s, f, before, sep, end, after)
  {
    if Mentions(s, f) {
      var i :| 0 <= i < |s| && MentionsAt(s, f, i);
      assert s == s[..i] + [s[i]] + s[i + 1..i + 1 + |f|] + [s[i + 1 + |f|]] + s[i + |f| + 2..];
      assert InPath(s, f, s[..i], s[i], s[i + 1 + |f|], s[i + |f| + 2..]);
    }
    if before, sep, end, after :| InPath(s, f, before, sep, end, after) {
      assert MentionsAt(s, f, |before|);
    }
  }

  /** A command of the entry itself, or of one of its hooks. */
  predicate HasCommand(entry: Entry, text: string) {
    entry.Entry? && (entry.command == Some(text) || Some(text) in entry.hooks)
  }

  /** An entry belongs to a handler exactly when one of its commands mentions the handler's file in a path. */
  lemma ReferencesIff(entry: Entry, f: string)
    ensures References(entry, f) <==>
      exists text, before, sep, end, after :: HasCommand(entry, text) && InPath(text, f, before, sep, end, after)
  {
    hide Mentions, InPath;
    if References(entry, f) {
      var text := Mentioned(entry, f);
      MentionsIff(text, f);
      var before, sep, end, after :| InPath(text, f, before, sep, end, after);
      assert HasCommand(entry, text);
    }
    if text, before, sep, end, after :| HasCommand(entry, text) && InPath(text, f, before, sep, end, after) {
      MentionsIff(text, f);
      HasMention(entry, text, f);
    }
  }

  lemma Mentioned(entry: Entry, f: string) returns (text: string)
    requires References(entry, f)
    ensures HasCommand(entry, text) && Mentions(text, f)
  {
    hide Mentions;
    if entry.command.Some? && Mentions(entry.command.value, f) {
      text := entry.command.value;
    } else {
      var i :| 0 <= i < |entry.hooks| && entry.hooks[i].Some? && Mentions(entry.hooks[i].value, f);
      text := entry.hooks[i].value;
      assert entry.hooks[i] == Some(text);
    }
  }

  lemma HasMention(entry: Entry, text: string, f: string)
    requires HasCommand(entry, text) && Mentions(text, f)
    ensures References(entry, f)
  {
    hide Mentions;
    if entry.command != Some(text) {
      var i :| 0 <= i < |entry.hooks| && entry.hooks[i] == Some(text);
      assert entry.hooks[i].value == text;
    }
  }

  /** The command line; `hookType` is the hook type as JSON text, quotes included. */
  function MakeHookCommand(execPath: string, handler: string, hookType: string): string {
    "ELECTRON_RUN_AS_NODE=1 \"" + execPath + "\" \"" + handler + "\" " + hookType
  }

  function MakeEntry(execPath: string, handler: string, hookType: string, matcher: Option<string>): Entry {
    Entry(None, [Some(MakeHookCommand(execPath, handler, hookType))], matcher, "command")
  }

  /** A file name: free of separators, quotes and spaces. */
  predicate IsFilename(f: string) {
    f != "" && forall i | 0 <= i < |f| :: !IsSeparator(f[i]) && !IsEnd(f[i])
  }

  lemma NoEndInside(s: string, f: string, i: int)
    requires IsFilename(f) && MentionsAt(s, f, i)
    ensures forall p | i <= p < i + 1 + |f| :: !IsEnd(s[p])
  {
    forall p | i < p < i + 1 + |f| ensures !IsEnd(s[p]) {
      assert s[p] == f[p - i - 1];
    }
  }

  lemma MentionOnTheLeft(left: string, b: string, f: string, i: nat)
    requires i + |f| + 2 <= |left|
    ensures MentionsAt(left, f, i) <==> MentionsAt(left + b, f, i)
  {
    assert left[i + 1..i + 1 + |f|] == (left + b)[i + 1..i + 1 + |f|];
  }

  lemma MentionOnTheRight(left: string, b: string, f: string, i: nat)
    ensures MentionsAt(b, f, i) <==> MentionsAt(left + b, f, |left| + i)
  {
    if i + |f| + 2 <= |b| {
      assert b[i + 1..i + 1 + |f|] == (left + b)[|left| + i + 1..|left| + i + 1 + |f|];
    }
  }

  /** A mention never crosses a quote or space: it is on the left of one, ended by it at most, or on the right. */
  lemma MentionsSplit(a: string, q: char, b: string, f: string)
    requires IsFilename(f) && IsEnd(q)
    ensures Mentions(a + [q] + b, f) <==> Mentions(a + [q], f) || Mentions(b, f)
  {
    var left := a + [q];
    var s := left + b;
    if Mentions(s, f) {
      var i :| 0 <= i < |s| && MentionsAt(s, f, i);
      NoEndInside(s, f, i);
      assert s[|a|] == q;
      assert i + |f| + 2 <= |left| || i >= |left|;
      hide MentionsAt;
      if i >= |left| {
        MentionOnTheRight(left, b, f, i - |left|);
      } else {
        MentionOnTheLeft(left, b, f, i);
      }
    }
    if Mentions(left, f) || Mentions(b, f) {
      MentionsEither(left, b, f);
    }
  }

  lemma MentionsEither(left: string, b: string, f: string)
    requires Mentions(left, f) || Mentions(b, f)
    ensures Mentions(left + b, f)
  {
    if Mentions(left, f) {
      var i :| 0 <= i < |left| && MentionsAt(left, f, i);
      MentionOnTheLeft(left, b, f, i);
    } else {
      var i :| 0 <= i < |b| && MentionsAt(b, f, i);
      MentionOnTheRight(left, b, f, i);
    }
  }

  lemma NoSeparatorNoMention(s: string, f: string)
    requires forall i | 0 <= i < |s| :: !IsSeparator(s[i])
    ensures !Mentions(s, f)
  {
  }

  lemma EndFirst(q: char, rest: string, f: string)
    requires IsFilename(f) && IsEnd(q)
    ensures Mentions([q] + rest, f) <==> Mentions(rest, f)
  {
    MentionsSplit("", q, rest, f);
    NoSeparatorNoMention("" + [q], f);
    assert "" + [q] + rest == [q] + rest;
  }

  /** What follows the opening quote of a path. */
  lemma QuotedFirst(path: string, rest: string, f: string)
    requires IsFilename(f)
    ensures Mentions(['"'] + (path + ['"'] + rest), f) <==> Mentions(path + ['"'], f) || Mentions(rest, f)
  {
    EndFirst('"', path + ['"'] + rest, f);
    MentionsSplit(path, '"', rest, f);
  }

  /** A made command mentions a file name exactly when its executable, its handler or its hook type does. */
  lemma CommandMentions(execPath: string, handler: string, hookType: string, f: string)
    requires IsFilename(f)
    ensures Mentions(MakeHookCommand(execPath, handler, hookType), f)
       <==> Mentions(execPath + ['"'], f) || Mentions(handler + ['"'], f) || Mentions(hookType, f)
  {
    hide Mentions, IsFilename;
    var variable := "ELECTRON_RUN_AS_NODE=1";
    var afterHandler := [' '] + hookType;
    var fromHandler := ['"'] + (handler + ['"'] + afterHandler);
    var fromExec := ['"'] + (execPath + ['"'] + ([' '] + fromHandler));
    assert MakeHookCommand(execPath, handler, hookType) == variable + [' '] + fromExec;
    MentionsSplit(variable, ' ', fromExec, f);
    NoSeparatorNoMention(variable + [' '], f);
    QuotedFirst(execPath, [' '] + fromHandler, f);
    EndFirst(' ', fromHandler, f);
    QuotedFirst(handler, afterHandler, f);
    EndFirst(' ', hookType, f);
  }

  /** A quoted path mentions the file name it ends with, and another one only inside its directory part. */
  lemma PathMentions(dir: string, sep: char, own: string, f: string)
    requires IsSeparator(sep) && IsFilename(own) && IsFilename(f)
    ensures Mentions(dir + [sep] + own + ['"'], f) <==> own == f || Mentions(dir, f)
  {
    var s := dir + [sep] + own + ['"'];
    assert s[|dir|] == sep && s[|dir| + 1..|dir| + 1 + |own|] == own && s[|s| - 1] == '"';
    if own == f {
      assert MentionsAt(s, f, |dir|);
    }
    if Mentions(dir, f) {
      var i :| 0 <= i < |dir| && MentionsAt(dir, f, i);
      assert dir[i + 1..i + 1 + |f|] == s[i + 1..i + 1 + |f|];
      assert MentionsAt(s, f, i);
    }
    if Mentions(s, f) {
      var i :| 0 <= i < |s| && MentionsAt(s, f, i);
      OnlyAtEnds(dir, sep, own, f, i);
    }
  }

  lemma OnlyAtEnds(dir: string, sep: char, own: string, f: string, i: nat)
    requires IsSeparator(sep) && IsFilename(own) && IsFilename(f)
    requires MentionsAt(dir + [sep] + own + ['"'], f, i)
    ensures (own == f && i == |dir|) || MentionsAt(dir, f, i)
  {
    var s := dir + [sep] + own + ['"'];
    var end := i + 1 + |f|;
    assert forall j | |dir| < j < |s| - 1 :: s[j] == own[j - |dir| - 1];
    assert s[|dir|] == sep;
    assert forall j | i < j < end :: s[j] == f[j - i - 1];
    assert IsEnd(s[end]);
    if end < |dir| {
      assert dir[i + 1..i + 1 + |f|] == s[i + 1..i + 1 + |f|];
    } else {
      assert end == |s| - 1;
      assert i == |dir|;
      assert s[|dir| + 1..|s| - 1] == own;
    }
  }

  lemma FilenamesAreFilenames()
    ensures IsFilename(CLAUDE_HANDLER_FILENAME) && IsFilename(CODEX_HANDLER_FILENAME)
    ensures CLAUDE_HANDLER_FILENAME != CODEX_HANDLER_FILENAME
  {
  }

  /**
   * An entry made for a handler file is recognised by that file's name, and by another file's name
   * exactly when the executable path ends with it or the handler's directory mentions it.
   */
  lemma MadeEntryIsRecognised(execPath: string, dir: string, sep: char, own: string, f: string, hookType: string, matcher: Option<string>)
    requires IsSeparator(sep) && IsFilename(own) && IsFilename(f)
    requires forall i | 0 <= i < |hookType| :: !IsSeparator(hookType[i])
    ensures References(MakeEntry(execPath, dir + [sep] + own, hookType, matcher), f)
       <==> own == f || Mentions(execPath + ['"'], f) || Mentions(dir, f)
  {
    var handler := dir + [sep] + own;
    CommandMentions(execPath, handler, hookType, f);
    PathMentions(dir, sep, own, f);
    NoSeparatorNoMention(hookType, f);
    var entry := MakeEntry(execPath, handler, hookType, matcher);
    assert entry.hooks[0] == Some(MakeHookCommand(execPath, handler, hookType));
  }

  /**
   * The two installers tell their entries apart: a made entry is recognised by its own file name, and
   * by the other one only through an executable of that name or a directory that mentions it.
   */
  lemma HandlersAreToldApart(execPath: string, dir: string, sep: char, hookType: string, matcher: Option<string>)
    requires IsSeparator(sep) && forall i | 0 <= i < |hookType| :: !IsSeparator(hookType[i])
    ensures var claude := MakeEntry(execPath, dir + [sep] + CLAUDE_HANDLER_FILENAME, hookType, matcher);
      var codex := MakeEntry(execPath, dir + [sep] + CODEX_HANDLER_FILENAME, hookType, matcher);
      && References(claude, CLAUDE_HANDLER_FILENAME) && References(codex, CODEX_HANDLER_FILENAME)
      && (References(claude, CODEX_HANDLER_FILENAME)
          <==> Mentions(execPath + ['"'], CODEX_HANDLER_FILENAME) || Mentions(dir, CODEX_HANDLER_FILENAME))
      && (References(codex, CLAUDE_HANDLER_FILENAME)
          <==> Mentions(execPath + ['"'], CLAUDE_HANDLER_FILENAME) || Mentions(dir, CLAUDE_HANDLER_FILENAME))
  {
    FilenamesAreFilenames();
    hide References, Mentions, IsFilename;
    MadeEntryIsRecognised(execPath, dir, sep, CLAUDE_HANDLER_FILENAME, CLAUDE_HANDLER_FILENAME, hookType, matcher);
    MadeEntryIsRecognised(execPath, dir, sep, CLAUDE_HANDLER_FILENAME, CODEX_HANDLER_FILENAME, hookType, matcher);
    MadeEntryIsRecognised(execPath, dir, sep, CODEX_HANDLER_FILENAME, CLAUDE_HANDLER_FILENAME, hookType, matcher);
    MadeEntryIsRecognised(execPath, dir, sep, CODEX_HANDLER_FILENAME, CODEX_HANDLER_FILENAME, hookType, matcher);
  }

  // ---------------------------------------------------------------------------------------------
  // Settings
  // ---------------------------------------------------------------------------------------------

  /** What stands under an event name: a list of entries, null, or something that is no list. */
  datatype HookValue = List(entries: seq<Entry>) | Null | NotList(value: string)

  /** The properties of the `hooks` object in their order. */
  type Hooks = seq<(string, HookValue)>

  datatype HooksField = NoHooks | NullHooks | HooksObject(hooks: Hooks)

  datatype Settings = Settings(hooks: HooksField, other: string)

  function Lookup(hooks: Hooks, key: string): Option<HookValue> {
    if hooks == [] then None
    else if hooks[0].0 == key then Some(hooks[0].1)
    else Lookup(hooks[1..], key)
  }

  /** Assignment to a property: in place when it exists, at the end otherwise. */
  function SetKey(hooks: Hooks, key: string, value: HookValue): Hooks {
    if hooks == [] then [(key, value)]
    else if hooks[0].0 == key then [(key, value)] + hooks[1..]
    else [hooks[0]] + SetKey(hooks[1..], key, value)
  }

  function FirstOurs(list: seq<Entry>, ours: Entry -> bool): nat
    ensures FirstOurs(list, ours) <= |list|
  {
    if list == [] || ours(list[0]) then 0 else 1 + FirstOurs(list[1..], ours)
  }

  function InstallIn(list: seq<Entry>, entry: Entry, ours: Entry -> bool): seq<Entry> {
    var i := FirstOurs(list, ours);
    if i < |list| then list[i := entry] else list + [entry]
  }

  /** `hooks[hookType] ??= []`; installing under something that is no list throws, which callers exclude. */
  function ListAt(hooks: Hooks, key: string): seq<Entry> {
    var value := Lookup(hooks, key);
    if value.Some? && value.value.List? then value.value.entries else []
  }

  function InstallOne(hooks: Hooks, key: string, ours: Entry -> bool, make: string -> Entry): Hooks {
    SetKey(hooks, key, List(InstallIn(ListAt(hooks, key), make(key), ours)))
  }

  function InstallAll(hooks: Hooks, types: seq<string>, ours: Entry -> bool, make: string -> Entry): Hooks {
    if types == [] then hooks
    else InstallOne(InstallAll(hooks, types[..|types| - 1], ours, make), types[|types| - 1], ours, make)
  }

  function Kept(list: seq<Entry>, ours: Entry -> bool): (kept: seq<Entry>)
    ensures |kept| <= |list|
  {
    if list == [] then []
    else Kept(list[..|list| - 1], ours) + (if ours(list[|list| - 1]) then [] else [list[|list| - 1]])
  }

  /** One property after uninstalling: gone if its list has nothing foreign. */
  function UninstallOne(property: (string, HookValue), ours: Entry -> bool): Hooks {
    if !property.1.List? then [property]
    else if Kept(property.1.entries, ours) == [] then []
    else [(property.0, List(Kept(property.1.entries, ours)))]
  }

  function UninstallAll(hooks: Hooks, ours: Entry -> bool): Hooks {
    if hooks == [] then [] else UninstallOne(hooks[0], ours) + UninstallAll(hooks[1..], ours)
  }

  function HooksOf(field: HooksField): Hooks {
    if field.HooksObject? then field.hooks else []
  }

  /** applyHookInstall on what the file holds; a missing file reads as empty settings. */
  function Install(settings: Settings, types: seq<string>, ours: Entry -> bool, make: string -> Entry): Settings {
    settings.(hooks := HooksObject(InstallAll(HooksOf(settings.hooks), types, ours, make)))
  }

  /** applyHookUninstall on what the file holds. */
  function Uninstall(settings: Settings, ours: Entry -> bool): Settings {
    if !settings.hooks.HooksObject? then settings
    else
      var hooks := UninstallAll(settings.hooks.hooks, ours);
      settings.(hooks := if hooks == [] then NoHooks else HooksObject(hooks))
  }

  ghost predicate DistinctKeys(hooks: Hooks) {
    forall i, j | 0 <= i < j < |hooks| :: hooks[i].0 != hooks[j].0
  }

  /** Something that is neither a list nor null stands under the event. */
  predicate Blocked(hooks: Hooks, key: string) {
    Lookup(hooks, key).Some? && Lookup(hooks, key).value.NotList?
  }

  /** Installing does not throw. */
  predicate CanInstall(hooks: Hooks, types: seq<string>) {
    forall i | 0 <= i < |types| :: !Blocked(hooks, types[i])
  }

  lemma {:induction false} SetKeyIs(hooks: Hooks, key: string, value: HookValue, other: string)
    ensures Lookup(SetKey(hooks, key, value), other) == if other == key then Some(value) else Lookup(hooks, other)
  {
    if hooks != [] {
      SetKeyIs(hooks[1..], key, value, other);
    }
  }

  lemma {:induction false} SetKeyAgain(hooks: Hooks, key: string, value: HookValue)
    ensures Lookup(hooks, key) == Some(value) ==> SetKey(hooks, key, value) == hooks
  {
    if hooks != [] {
      SetKeyAgain(hooks[1..], key, value);
    }
  }

  // ---------------------------------------------------------------------------------------------
  // Installing twice
  // ---------------------------------------------------------------------------------------------

  /** The first entry of ours under this event is the current one. */
  ghost predicate Installed(hooks: Hooks, key: string, ours: Entry -> bool, make: string -> Entry) {
    && Lookup(hooks, key).Some? && Lookup(hooks, key).value.List?
    && var list := Lookup(hooks, key).value.entries;
    && FirstOurs(list, ours) < |list| && list[FirstOurs(list, ours)] == make(key)
  }

  lemma {:induction false} FirstOursIs(list: seq<Entry>, ours: Entry -> bool, n: nat)
    requires n < |list| && ours(list[n]) && forall i | 0 <= i < n :: !ours(list[i])
    ensures FirstOurs(list, ours) == n
  {
    if n > 0 {
      FirstOursIs(list[1..], ours, n - 1);
    }
  }

  lemma {:induction false} BeforeFirst(list: seq<Entry>, ours: Entry -> bool)
    ensures forall i | 0 <= i < FirstOurs(list, ours) :: !ours(list[i])
    ensures FirstOurs(list, ours) < |list| ==> ours(list[FirstOurs(list, ours)])
  {
    if list != [] && !ours(list[0]) {
      BeforeFirst(list[1..], ours);
      assert forall i | 0 < i < |list| :: list[i] == list[1..][i - 1];
    }
  }

  /** The entry takes the place of the first of ours, or else goes to the end; every other entry stays where it is. */
  lemma InstallKeepsPlaces(list: seq<Entry>, entry: Entry, ours: Entry -> bool, n: nat)
    requires n <= |list| && (forall i | 0 <= i < n :: !ours(list[i])) && (n < |list| ==> ours(list[n]))
    ensures var r := InstallIn(list, entry, ours);
      && |r| == (if n < |list| then |list| else |list| + 1) && r[n] == entry
      && forall i | 0 <= i < |list| && i != n :: r[i] == list[i]
  {
    if n < |list| {
      FirstOursIs(list, ours, n);
    } else {
      BeforeFirst(list, ours);
    }
  }

  /** An event that is there keeps its place among the properties, a new one goes to the end. */
  lemma {:induction false} SetKeyKeepsPlaces(hooks: Hooks, key: string, value: HookValue, n: nat)
    requires n <= |hooks| && (forall i | 0 <= i < n :: hooks[i].0 != key) && (n < |hooks| ==> hooks[n].0 == key)
    ensures var r := SetKey(hooks, key, value);
      && |r| == (if n < |hooks| then |hooks| else |hooks| + 1) && r[n] == (key, value)
      && forall i | 0 <= i < |hooks| && i != n :: r[i] == hooks[i]
  {
    if n > 0 {
      var tail := hooks[1..];
      assert forall i | 0 <= i < |tail| :: tail[i] == hooks[i + 1];
      SetKeyKeepsPlaces(tail, key, value, n - 1);
    }
  }

  lemma InstallInIs(list: seq<Entry>, entry: Entry, ours: Entry -> bool)
    requires ours(entry)
    ensures var r := InstallIn(list, entry, ours);
      FirstOurs(r, ours) < |r| && r[FirstOurs(r, ours)] == entry && InstallIn(r, entry, ours) == r
  {
    BeforeFirst(list, ours);
    FirstOursIs(InstallIn(list, entry, ours), ours, FirstOurs(list, ours));
  }

  lemma InstallOneKeeps(hooks: Hooks, key: string, other: string, ours: Entry -> bool, make: string -> Entry)
    requires ours(make(key)) && (other == key || Installed(hooks, other, ours, make))
    ensures Installed(InstallOne(hooks, key, ours, make), other, ours, make)
  {
    InstallInIs(ListAt(hooks, key), make(key), ours);
    SetKeyIs(hooks, key, List(InstallIn(ListAt(hooks, key), make(key), ours)), other);
  }

  lemma {:induction false} InstallAllInstalls(hooks: Hooks, types: seq<string>, ours: Entry -> bool, make: string -> Entry, k: nat)
    requires forall i | 0 <= i < |types| :: ours(make(types[i]))
    requires k < |types|
    ensures Installed(InstallAll(hooks, types, ours, make), types[k], ours, make)
  {
    var front := types[..|types| - 1];
    if k < |front| {
      InstallAllInstalls(hooks, front, ours, make, k);
    }
    InstallOneKeeps(InstallAll(hooks, front, ours, make), types[|types| - 1], types[k], ours, make);
  }

  lemma {:induction false} InstallingInstalled(hooks: Hooks, types: seq<string>, ours: Entry -> bool, make: string -> Entry)
    requires forall i | 0 <= i < |types| :: Installed(hooks, types[i], ours, make)
    ensures InstallAll(hooks, types, ours, make) == hooks
  {
    if types != [] {
      var front, key := types[..|types| - 1], types[|types| - 1];
      InstallingInstalled(hooks, front, ours, make);
      assert Installed(hooks, key, ours, make);
      var list := ListAt(hooks, key);
      assert list[FirstOurs(list, ours) := make(key)] == list;
      SetKeyAgain(hooks, key, Lookup(hooks, key).value);
    }
  }

  /** Installing twice is installing once, whenever the made entries are recognised as ours. */
  lemma InstallTwice(settings: Settings, types: seq<string>, ours: Entry -> bool, make: string -> Entry)
    requires forall i | 0 <= i < |types| :: ours(make(types[i]))
    ensures Install(Install(settings, types, ours, make), types, ours, make) == Install(settings, types, ours, make)
  {
    var once := InstallAll(HooksOf(settings.hooks), types, ours, make);
    forall i | 0 <= i < |types| ensures Installed(once, types[i], ours, make) {
      InstallAllInstalls(HooksOf(settings.hooks), types, ours, make, i);
    }
    InstallingInstalled(once, types, ours, make);
  }

  // ---------------------------------------------------------------------------------------------
  // Uninstalling
  // ---------------------------------------------------------------------------------------------

  lemma {:induction false} KeptAppend(a: seq<Entry>, b: seq<Entry>, ours: Entry -> bool)
    ensures Kept(a + b, ours) == Kept(a, ours) + Kept(b, ours)
  {
    if b == [] {
      assert a + b == a;
    } else {
      assert (a + b)[..|a + b| - 1] == a + b[..|b| - 1];
      KeptAppend(a, b[..|b| - 1], ours);
    }
  }

  /** Installing into a list leaves its foreign entries, in order. */
  lemma InstallInKeepsForeign(list: seq<Entry>, entry: Entry, ours: Entry -> bool)
    requires ours(entry)
    ensures Kept(InstallIn(list, entry, ours), ours) == Kept(list, ours)
  {
    BeforeFirst(list, ours);
    var i := FirstOurs(list, ours);
    assert Kept([entry], ours) == [];
    if i < |list| {
      assert Kept([list[i]], ours) == [];
      assert list == list[..i] + [list[i]] + list[i + 1..];
      assert list[i := entry] == list[..i] + [entry] + list[i + 1..];
      KeptAppend(list[..i] + [list[i]], list[i + 1..], ours);
      KeptAppend(list[..i], [list[i]], ours);
      KeptAppend(list[..i] + [entry], list[i + 1..], ours);
      KeptAppend(list[..i], [entry], ours);
    } else {
      KeptAppend(list, [entry], ours);
    }
  }

  lemma {:induction false} UninstallAfterSet(hooks: Hooks, key: string, list: seq<Entry>, ours: Entry -> bool)
    requires Lookup(hooks, key).None? || Lookup(hooks, key).value.List?
    requires Kept(list, ours) == Kept(ListAt(hooks, key), ours)
    ensures UninstallAll(SetKey(hooks, key, List(list)), ours) == UninstallAll(hooks, ours)
  {
    if hooks == [] {
      assert Kept([], ours) == [];
      assert SetKey(hooks, key, List(list))[1..] == [];
    } else if hooks[0].0 == key {
      assert SetKey(hooks, key, List(list))[1..] == hooks[1..];
    } else {
      UninstallAfterSet(hooks[1..], key, list, ours);
      assert SetKey(hooks, key, List(list))[1..] == SetKey(hooks[1..], key, List(list));
    }
  }

  /** Every event to install is absent or a list. */
  predicate AllLists(hooks: Hooks, types: seq<string>) {
    forall i | 0 <= i < |types| :: Lookup(hooks, types[i]).None? || Lookup(hooks, types[i]).value.List?
  }

  lemma {:induction false} InstallAllLookup(hooks: Hooks, types: seq<string>, ours: Entry -> bool, make: string -> Entry, key: string)
    ensures key in types ==>
      Lookup(InstallAll(hooks, types, ours, make), key).Some? && Lookup(InstallAll(hooks, types, ours, make), key).value.List?
    ensures key !in types ==> Lookup(InstallAll(hooks, types, ours, make), key) == Lookup(hooks, key)
  {
    if types != [] {
      var front, last := types[..|types| - 1], types[|types| - 1];
      InstallAllLookup(hooks, front, ours, make, key);
      var h := InstallAll(hooks, front, ours, make);
      SetKeyIs(h, last, List(InstallIn(ListAt(h, last), make(last), ours)), key);
      assert types == front + [last];
      hide Lookup, SetKey, InstallIn;
    }
  }

  lemma {:induction false} InstallAllKeepsForeign(hooks: Hooks, types: seq<string>, ours: Entry -> bool, make: string -> Entry, key: string)
    requires forall i | 0 <= i < |types| :: ours(make(types[i]))
    ensures Kept(ListAt(InstallAll(hooks, types, ours, make), key), ours) == Kept(ListAt(hooks, key), ours)
  {
    if types != [] {
      var front, last := types[..|types| - 1], types[|types| - 1];
      InstallAllKeepsForeign(hooks, front, ours, make, key);
      var h := InstallAll(hooks, front, ours, make);
      SetKeyIs(h, last, List(InstallIn(ListAt(h, last), make(last), ours)), key);
      InstallInKeepsForeign(ListAt(h, last), make(last), ours);
      hide Kept, SetKey, InstallIn, Lookup;
    }
  }

  lemma {:induction false} UninstallAfterInstallAll(hooks: Hooks, types: seq<string>, ours: Entry -> bool, make: string -> Entry)
    requires AllLists(hooks, types) && forall i | 0 <= i < |types| :: ours(make(types[i]))
    ensures UninstallAll(InstallAll(hooks, types, ours, make), ours) == UninstallAll(hooks, ours)
  {
    if types != [] {
      var front, last := types[..|types| - 1], types[|types| - 1];
      assert forall i | 0 <= i < |front| :: front[i] == types[i];
      UninstallAfterInstallAll(hooks, front, ours, make);
      InstallAllLookup(hooks, front, ours, make, last);
      var h := InstallAll(hooks, front, ours, make);
      assert Lookup(h, last).None? || Lookup(h, last).value.List? by {
        assert types[|types| - 1] == last;
      }
      InstallInKeepsForeign(ListAt(h, last), make(last), ours);
      UninstallAfterSet(h, last, InstallIn(ListAt(h, last), make(last), ours), ours);
    }
  }

  /** Uninstalling never removes what is no list, and leaves under an event exactly its foreign entries, if any. */
  lemma {:induction false} UninstallLookup(hooks: Hooks, ours: Entry -> bool, key: string)
    requires DistinctKeys(hooks)
    ensures Lookup(UninstallAll(hooks, ours), key)
         == if Lookup(hooks, key).Some? && Lookup(hooks, key).value.List? then
              if Kept(ListAt(hooks, key), ours) == [] then None else Some(List(Kept(ListAt(hooks, key), ours)))
            else Lookup(hooks, key)
  {
    if hooks != [] {
      var rest := hooks[1..];
      assert forall i | 0 <= i < |rest| :: rest[i] == hooks[i + 1];
      UninstallLookup(rest, ours, key);
      NotFound(rest, hooks[0].0);
      var one, tail := UninstallOne(hooks[0], ours), UninstallAll(rest, ours);
      assert one != [] ==> (one + tail)[0] == one[0] && (one + tail)[1..] == tail;
      assert one == [] ==> one + tail == tail;
    }
  }

  lemma {:induction false} NotFound(hooks: Hooks, key: string)
    requires forall i | 0 <= i < |hooks| :: hooks[i].0 != key
    ensures Lookup(hooks, key).None?
  {
    if hooks != [] {
      NotFound(hooks[1..], key);
    }
  }

  lemma {:induction false} InstallAllDistinct(hooks: Hooks, types: seq<string>, ours: Entry -> bool, make: string -> Entry)
    requires DistinctKeys(hooks)
    ensures DistinctKeys(InstallAll(hooks, types, ours, make))
  {
    if types != [] {
      var h := InstallAll(hooks, types[..|types| - 1], ours, make);
      InstallAllDistinct(hooks, types[..|types| - 1], ours, make);
      var key := types[|types| - 1];
      SetKeyDistinct(h, key, List(InstallIn(ListAt(h, key), make(key), ours)));
    }
  }

  ghost predicate KeyIn(hooks: Hooks, key: string) {
    exists i :: 0 <= i < |hooks| && hooks[i].0 == key
  }

  lemma KeyInCons(first: (string, HookValue), rest: Hooks, key: string)
    ensures KeyIn([first] + rest, key) <==> first.0 == key || KeyIn(rest, key)
  {
    var hooks := [first] + rest;
    assert hooks[0] == first && forall i | 0 <= i < |rest| :: rest[i] == hooks[i + 1];
    if KeyIn(rest, key) {
      var i :| 0 <= i < |rest| && rest[i].0 == key;
      assert hooks[i + 1].0 == key;
    }
    assert forall i | 0 < i < |hooks| :: hooks[i] == rest[i - 1];
  }

  lemma {:induction false} SetKeyKeys(hooks: Hooks, key: string, value: HookValue, other: string)
    ensures KeyIn(SetKey(hooks, key, value), other) <==> other == key || KeyIn(hooks, other)
  {
    if hooks == [] {
      KeyInCons((key, value), [], other);
      assert [(key, value)] == [(key, value)] + [];
    } else {
      assert hooks == [hooks[0]] + hooks[1..];
      KeyInCons(hooks[0], hooks[1..], other);
      SetKeyKeys(hooks[1..], key, value, other);
      KeyInCons((key, value), hooks[1..], other);
      KeyInCons(hooks[0], SetKey(hooks[1..], key, value), other);
    }
  }

  lemma DistinctCons(first: (string, HookValue), rest: Hooks)
    ensures DistinctKeys([first] + rest) <==> !KeyIn(rest, first.0) && DistinctKeys(rest)
  {
    var hooks := [first] + rest;
    assert hooks[0] == first && forall i | 0 <= i < |rest| :: rest[i] == hooks[i + 1];
    if DistinctKeys(hooks) {
      forall i, j | 0 <= i < j < |rest| ensures rest[i].0 != rest[j].0 {
        assert hooks[i + 1].0 != hooks[j + 1].0;
      }
    }
    assert forall i | 0 < i < |hooks| :: hooks[i] == rest[i - 1];
  }

  lemma {:induction false} SetKeyDistinct(hooks: Hooks, key: string, value: HookValue)
    requires DistinctKeys(hooks)
    ensures DistinctKeys(SetKey(hooks, key, value))
  {
    if hooks != [] {
      assert hooks == [hooks[0]] + hooks[1..];
      DistinctCons(hooks[0], hooks[1..]);
      hide DistinctKeys, KeyIn;
      SetKeyDistinct(hooks[1..], key, value);
      SetKeyKeys(hooks[1..], key, value, hooks[0].0);
      DistinctCons((key, value), hooks[1..]);
      DistinctCons(hooks[0], SetKey(hooks[1..], key, value));
    }
  }

  /** Under every event the foreign entries survive both operations, in order. */
  lemma ForeignEntriesSurvive(settings: Settings, types: seq<string>, ours: Entry -> bool, make: string -> Entry, key: string)
    requires DistinctKeys(HooksOf(settings.hooks)) && forall i | 0 <= i < |types| :: ours(make(types[i]))
    ensures Kept(ListAt(HooksOf(Install(settings, types, ours, make).hooks), key), ours) == Kept(ListAt(HooksOf(settings.hooks), key), ours)
    ensures ListAt(HooksOf(Uninstall(settings, ours).hooks), key) == Kept(ListAt(HooksOf(settings.hooks), key), ours)
    ensures Install(settings, types, ours, make).other == Uninstall(settings, ours).other == settings.other
  {
    InstallAllKeepsForeign(HooksOf(settings.hooks), types, ours, make, key);
    UninstallLookup(HooksOf(settings.hooks), ours, key);
    assert Kept([], ours) == [];
  }

  /**
   * Uninstalling after installing is uninstalling alone, exactly when `hooks` is not null and no
   * event to install holds null: an uninstall leaves such a null, an install replaces it.
   */
  lemma UninstallUndoesInstallIff(settings: Settings, types: seq<string>, ours: Entry -> bool, make: string -> Entry)
    requires DistinctKeys(HooksOf(settings.hooks)) && CanInstall(HooksOf(settings.hooks), types)
    requires forall i | 0 <= i < |types| :: ours(make(types[i]))
    ensures Uninstall(Install(settings, types, ours, make), ours) == Uninstall(settings, ours)
       <==> !settings.hooks.NullHooks? && AllLists(HooksOf(settings.hooks), types)
  {
    var hooks := HooksOf(settings.hooks);
    var installed := InstallAll(hooks, types, ours, make);
    if AllLists(hooks, types) {
      UninstallAfterInstallAll(hooks, types, ours, make);
      assert UninstallAll([], ours) == [];
    } else {
      var k :| 0 <= k < |types| && Lookup(hooks, types[k]).Some? && !Lookup(hooks, types[k]).value.List?;
      InstallAllLookup(hooks, types, ours, make, types[k]);
      InstallAllDistinct(hooks, types, ours, make);
      UninstallLookup(installed, ours, types[k]);
      UninstallLookup(hooks, ours, types[k]);
      assert UninstallAll(hooks, ours) != [];
      assert UninstallAll(installed, ours) != UninstallAll(hooks, ours);
    }
  }

  // ---------------------------------------------------------------------------------------------
  // The settings file
  // ---------------------------------------------------------------------------------------------

  /** How many of the events get their entry replaced rather than appended. */
  function Repairs(hooks: Hooks, types: seq<string>, ours: Entry -> bool, make: string -> Entry): nat {
    if types == [] then 0
    else
      var h := InstallAll(hooks, types[..|types| - 1], ours, make);
      var list := ListAt(h, types[|types| - 1]);
      Repairs(hooks, types[..|types| - 1], ours, make) + (if FirstOurs(list, ours) < |list| then 1 else 0)
  }

  /** A second install only repairs. */
  lemma {:induction false} SecondInstallRepairs(hooks: Hooks, types: seq<string>, ours: Entry -> bool, make: string -> Entry)
    requires forall i | 0 <= i < |types| :: Installed(hooks, types[i], ours, make)
    ensures Repairs(hooks, types, ours, make) == |types|
  {
    if types != [] {
      var front, key := types[..|types| - 1], types[|types| - 1];
      InstallingInstalled(hooks, front, ours, make);
      SecondInstallRepairs(hooks, front, ours, make);
      assert Installed(hooks, key, ours, make);
    }
  }

  function CountOurs(hooks: Hooks, ours: Entry -> bool): nat {
    if hooks == [] then 0
    else
      var last := hooks[|hooks| - 1].1;
      CountOurs(hooks[..|hooks| - 1], ours) + (if last.List? then |last.entries| - |Kept(last.entries, ours)| else 0)
  }

  function DeleteKey(hooks: Hooks, key: string): Hooks {
    if hooks == [] then []
    else if hooks[0].0 == key then hooks[1..]
    else [hooks[0]] + DeleteKey(hooks[1..], key)
  }

  ghost predicate Lacks(hooks: Hooks, key: string) {
    forall i | 0 <= i < |hooks| :: hooks[i].0 != key
  }

  /** Finding, replacing and deleting a property behind others with other keys. */
  lemma {:induction false} LookupBehind(done: Hooks, rest: Hooks, key: string)
    requires Lacks(done, key)
    ensures Lookup(done + rest, key) == Lookup(rest, key)
  {
    if done == [] {
      assert done + rest == rest;
    } else {
      assert (done + rest)[1..] == done[1..] + rest;
      LookupBehind(done[1..], rest, key);
    }
  }

  lemma {:induction false} SetBehind(done: Hooks, rest: Hooks, key: string, value: HookValue)
    requires Lacks(done, key)
    ensures SetKey(done + rest, key, value) == done + SetKey(rest, key, value)
  {
    if done == [] {
      assert done + rest == rest;
    } else {
      assert (done + rest)[1..] == done[1..] + rest;
      SetBehind(done[1..], rest, key, value);
      assert done + SetKey(rest, key, value) == [done[0]] + (done[1..] + SetKey(rest, key, value));
    }
  }

  lemma {:induction false} DeleteBehind(done: Hooks, rest: Hooks, key: string)
    requires Lacks(done, key)
    ensures DeleteKey(done + rest, key) == done + DeleteKey(rest, key)
  {
    if done == [] {
      assert done + rest == rest;
    } else {
      assert (done + rest)[1..] == done[1..] + rest;
      DeleteBehind(done[1..], rest, key);
      assert done + DeleteKey(rest, key) == [done[0]] + (done[1..] + DeleteKey(rest, key));
    }
  }

  lemma {:induction false} UninstallSnoc(hooks: Hooks, p: (string, HookValue), ours: Entry -> bool)
    ensures UninstallAll(hooks + [p], ours) == UninstallAll(hooks, ours) + UninstallOne(p, ours)
  {
    hide UninstallOne;
    if hooks == [] {
      assert hooks + [p] == [p];
      assert UninstallAll([p][1..], ours) == [];
    } else {
      assert (hooks + [p])[1..] == hooks[1..] + [p];
      UninstallSnoc(hooks[1..], p, ours);
    }
  }

  lemma {:induction false} UninstallAddsNoKey(hooks: Hooks, key: string, ours: Entry -> bool)
    requires Lacks(hooks, key)
    ensures Lacks(UninstallAll(hooks, ours), key)
  {
    if hooks != [] {
      assert hooks[0].0 != key;
      UninstallAddsNoKey(hooks[1..], key, ours);
      hide Kept;
    }
  }

  lemma UninstallStep(hooks: Hooks, n: nat, ours: Entry -> bool)
    requires DistinctKeys(hooks) && n < |hooks|
    ensures hooks[n..] == [hooks[n]] + hooks[n + 1..] && Lacks(UninstallAll(hooks[..n], ours), hooks[n].0)
    ensures UninstallAll(hooks[..n + 1], ours) == UninstallAll(hooks[..n], ours) + UninstallOne(hooks[n], ours)
    ensures CountOurs(hooks[..n + 1], ours) == CountOurs(hooks[..n], ours)
         + (if hooks[n].1.List? then |hooks[n].1.entries| - |Kept(hooks[n].1.entries, ours)| else 0)
  {
    assert hooks[..n + 1] == hooks[..n] + [hooks[n]] && hooks[..n + 1][..n] == hooks[..n];
    UninstallSnoc(hooks[..n], hooks[n], ours);
    UninstallAddsNoKey(hooks[..n], hooks[n].0, ours);
  }

  /** A settings file; `None` when there is none. */
  class SettingsFile {
    var contents: Option<Settings>

    constructor (contents: Option<Settings>)
      ensures this.contents == contents
    {
      this.contents := contents;
    }

    function Read(): Settings
      reads this
    {
      if contents.Some? then contents.value else Settings(NoHooks, "")
    }

    /** Fails without writing when an event to install holds something that is no list. */
    method ApplyHookInstall(types: seq<string>, ours: Entry -> bool, make: string -> Entry) returns (r: Result<(nat, nat), string>)
      modifies this
      ensures r.Ok? <==> CanInstall(HooksOf(old(Read()).hooks), types)
      ensures r.Err? ==> contents == old(contents)
      ensures r.Ok? ==>
        && contents == Some(Install(old(Read()), types, ours, make))
        && r.value.1 == Repairs(HooksOf(old(Read()).hooks), types, ours, make)
        && r.value.0 + r.value.1 == |types|
    {
      var settings := Read();
      ghost var before := HooksOf(settings.hooks);
      var hooks := HooksOf(settings.hooks);
      var installed: nat, repaired: nat := 0, 0;
      assert types[..0] == [];
      for i := 0 to |types|
        invariant contents == old(contents) && hooks == InstallAll(before, types[..i], ours, make)
        invariant CanInstall(before, types[..i])
        invariant repaired == Repairs(before, types[..i], ours, make) && installed + repaired == i
      {
        assert types[..i + 1][..i] == types[..i];
        var value := Lookup(hooks, types[i]);
        StillCanInstall(before, types, i, ours, make);
        if value.Some? && value.value.NotList? {
          return Err("not a list");
        }
        var list := if value.Some? && value.value.List? then value.value.entries else [];
        var index := FirstOurs(list, ours);
        var entry := make(types[i]);
        if index < |list| {
          list := list[index := entry];
          repaired := repaired + 1;
        } else {
          list := list + [entry];
          installed := installed + 1;
        }
        hooks := SetKey(hooks, types[i], List(list));
      }
      assert types[..|types|] == types;
      contents := Some(settings.(hooks := HooksObject(hooks)));
      r := Ok((installed, repaired));
    }

    /** One property of the object: its list is filtered, or the property deleted. */
    static method UninstallKey(hooks: Hooks, key: string, ours: Entry -> bool,
                               ghost done: Hooks, ghost p: (string, HookValue), ghost rest: Hooks)
      returns (r: Hooks, removed: nat)
      requires hooks == done + ([p] + rest) && p.0 == key && Lacks(done, key)
      ensures r == done + UninstallOne(p, ours) + rest
      ensures removed == if p.1.List? then |p.1.entries| - |Kept(p.1.entries, ours)| else 0
    {
      LookupBehind(done, [p] + rest, key);
      assert ([p] + rest)[1..] == rest;
      r, removed := hooks, 0;
      var current := Lookup(hooks, key);
      if current.Some? && current.value.List? {
        var kept := Kept(current.value.entries, ours);
        removed := |current.value.entries| - |kept|;
        if |kept| > 0 {
          SetBehind(done, [p] + rest, key, List(kept));
          r := SetKey(hooks, key, List(kept));
        } else {
          DeleteBehind(done, [p] + rest, key);
          r := DeleteKey(hooks, key);
        }
      }
    }

    /** Removes our entries list by list, in place, and counts them. */
    method ApplyHookUninstall(ours: Entry -> bool) returns (removed: nat)
      requires contents.Some? ==> DistinctKeys(HooksOf(contents.value.hooks))
      modifies this
      ensures contents == if old(contents).None? then None else Some(Uninstall(old(contents).value, ours))
      ensures removed == if old(contents).None? then 0 else CountOurs(HooksOf(old(contents).value.hooks), ours)
    {
      removed := 0;
      if contents.None? {
        return;
      }
      var settings := contents.value;
      if !settings.hooks.HooksObject? {
        return;
      }
      var hooks;
      hide UninstallAll, CountOurs, DistinctKeys;
      hooks, removed := UninstallKeys(settings.hooks.hooks, ours);
      contents := Some(settings.(hooks := if |hooks| == 0 then NoHooks else HooksObject(hooks)));
    }

    /** The loop over the properties of `hooks`, list by list. */
    static method UninstallKeys(before: Hooks, ours: Entry -> bool) returns (hooks: Hooks, removed: nat)
      requires DistinctKeys(before)
      ensures hooks == UninstallAll(before, ours) && removed == CountOurs(before, ours)
    {
      var keys := before;
      hooks, removed := before, 0;
      assert UninstallAll([], ours) == [] && CountOurs([], ours) == 0;
      assert before[..0] == [] && [] + before[0..] == before;
      hide UninstallOne, CountOurs, UninstallAll, DistinctKeys, Lacks, Kept;
      for i := 0 to |keys|
        invariant hooks == UninstallAll(before[..i], ours) + before[i..]
        invariant removed == CountOurs(before[..i], ours)
      {
        ghost var done, rest := UninstallAll(before[..i], ours), before[i + 1..];
        UninstallStep(before, i, ours);
        var n;
        hooks, n := UninstallKey(hooks, keys[i].0, ours, done, before[i], rest);
        removed := removed + n;
      }
      assert before[..|before|] == before && before[|before|..] == [];
    }
  }

  /** While installing, an event is blocked only if it was at the start. */
  lemma StillCanInstall(hooks: Hooks, types: seq<string>, n: nat, ours: Entry -> bool, make: string -> Entry)
    requires n < |types| && CanInstall(hooks, types[..n])
    ensures CanInstall(hooks, types[..n + 1]) <==> !Blocked(InstallAll(hooks, types[..n], ours, make), types[n])
    ensures CanInstall(hooks, types) ==> CanInstall(hooks, types[..n + 1])
  {
    InstallAllLookup(hooks, types[..n], ours, make, types[n]);
    if types[n] in types[..n] {
      var j :| 0 <= j < n && types[..n][j] == types[n];
      assert !Blocked(hooks, types[..n][j]);
    }
    assert types[..n + 1] == types[..n] + [types[n]];
    assert forall i | 0 <= i < n + 1 :: types[..n + 1][i] == types[i];
    assert forall i | 0 <= i < n :: types[..n][i] == types[i];
    if CanInstall(hooks, types[..n + 1]) {
      assert !Blocked(hooks, types[..n + 1][n]);
    }
  }
}
