/** The two installers: the entries, predicates and events of the Claude Code and the Codex hooks. */
module AgentMonitorHooks {
  import opened Prelude
  import opened HookInstaller

  const HOOKS_WITH_MATCHER := ["PreToolUse", "PostToolUse", "Stop", "SubagentStop", "Notification"]
  const HOOKS_WITHOUT_MATCHER := ["SessionStart", "SessionEnd", "UserPromptSubmit"]
  const HOOK_TYPES := HOOKS_WITH_MATCHER + HOOKS_WITHOUT_MATCHER

  const CODEX_HOOKS_WITH_MATCHER := ["PreToolUse", "PostToolUse"]
  const CODEX_HOOKS_WITHOUT_MATCHER := ["SessionStart", "UserPromptSubmit", "Stop"]
  const CODEX_HOOK_TYPES := CODEX_HOOKS_WITH_MATCHER + CODEX_HOOKS_WITHOUT_MATCHER
  const CODEX_SESSION_START_MATCHER := "startup|resume"

  /** Where a handler was copied to, and the executable that runs it. */
  datatype Place = Place(execPath: string, dir: string, sep: char)

  /** The event name as JSON text; the names need no escapes. */
  function Quoted(hookType: string): string {
    "\"" + hookType + "\""
  }

  predicate IsClaudeEntry(entry: Entry) {
    References(entry, CLAUDE_HANDLER_FILENAME)
  }

  predicate IsCodexEntry(entry: Entry) {
    References(entry, CODEX_HANDLER_FILENAME)
  }

  function MakeClaudeEntry(p: Place, hookType: string): Entry {
    MakeEntry(p.execPath, p.dir + [p.sep] + CLAUDE_HANDLER_FILENAME, Quoted(hookType),
              if hookType in HOOKS_WITH_MATCHER then Some("*") else None)
  }

  function MakeCodexEntry(p: Place, hookType: string): Entry {
    MakeEntry(p.execPath, p.dir + [p.sep] + CODEX_HANDLER_FILENAME, Quoted(hookType),
              if hookType in CODEX_HOOKS_WITH_MATCHER then Some("*")
              else if hookType == "SessionStart" then Some(CODEX_SESSION_START_MATCHER) else None)
  }

  /** The events of the Claude Code hooks: five match every tool, three take no matcher. */
  lemma ClaudeEntries(p: Place, hookType: string)
    ensures hookType in HOOK_TYPES <==> hookType in {"PreToolUse", "PostToolUse", "Stop", "SubagentStop", "Notification",
                                                     "SessionStart", "SessionEnd", "UserPromptSubmit"}
    ensures MakeClaudeEntry(p, hookType) == Entry(
      None, [Some("ELECTRON_RUN_AS_NODE=1 \"" + p.execPath + "\" \"" + (p.dir + [p.sep] + "hook-handler.js") + "\" " + ("\"" + hookType + "\""))],
      if hookType in {"PreToolUse", "PostToolUse", "Stop", "SubagentStop", "Notification"} then Some("*") else None, "command")
  {
  }

  /** The events of the Codex hooks: the start of a session has a matcher of its own. */
  lemma CodexEntries(p: Place, hookType: string)
    ensures hookType in CODEX_HOOK_TYPES <==> hookType in {"PreToolUse", "PostToolUse", "SessionStart", "UserPromptSubmit", "Stop"}
    ensures MakeCodexEntry(p, hookType) == Entry(
      None, [Some("ELECTRON_RUN_AS_NODE=1 \"" + p.execPath + "\" \"" + (p.dir + [p.sep] + "codex-hook-handler.js") + "\" " + ("\"" + hookType + "\""))],
      if hookType in {"PreToolUse", "PostToolUse"} then Some("*")
      else if hookType == "SessionStart" then Some("startup|resume") else None, "command")
  {
  }

  predicate NoSeparators(s: string) {
    forall i | 0 <= i < |s| :: !IsSeparator(s[i])
  }

  lemma EventNames()
    ensures forall t | t in HOOK_TYPES :: NoSeparators(Quoted(t))
    ensures forall t | t in CODEX_HOOK_TYPES :: NoSeparators(Quoted(t))
  {
    PlainNames();
    hide NoSeparators;
    forall t | t in HOOK_TYPES || t in CODEX_HOOK_TYPES ensures NoSeparators(Quoted(t)) {
      QuotingAddsNone(t);
    }
  }

  lemma PlainNames()
    ensures NoSeparators("PreToolUse") && NoSeparators("PostToolUse") && NoSeparators("Stop") && NoSeparators("SubagentStop")
    ensures NoSeparators("Notification") && NoSeparators("SessionStart") && NoSeparators("SessionEnd") && NoSeparators("UserPromptSubmit")
  {
  }

  lemma QuotingAddsNone(t: string)
    ensures NoSeparators(t) ==> NoSeparators(Quoted(t))
  {
  }

  /** Each installer recognises every entry it makes. */
  lemma OwnEntriesAreRecognised(p: Place)
    requires IsSeparator(p.sep)
    ensures forall t | t in HOOK_TYPES :: IsClaudeEntry(MakeClaudeEntry(p, t))
    ensures forall t | t in CODEX_HOOK_TYPES :: IsCodexEntry(MakeCodexEntry(p, t))
  {
    EventNames();
    forall t | t in HOOK_TYPES ensures IsClaudeEntry(MakeClaudeEntry(p, t)) {
      HandlersAreToldApart(p.execPath, p.dir, p.sep, Quoted(t), if t in HOOKS_WITH_MATCHER then Some("*") else None);
    }
    forall t | t in CODEX_HOOK_TYPES ensures IsCodexEntry(MakeCodexEntry(p, t)) {
      HandlersAreToldApart(p.execPath, p.dir, p.sep, Quoted(t), MakeCodexEntry(p, t).matcher);
    }
  }

  /** An installer takes entries of the other one for its own exactly when the path says so. */
  lemma OtherEntriesAreForeign(p: Place)
    requires IsSeparator(p.sep)
    ensures forall t | t in CODEX_HOOK_TYPES ::
      IsClaudeEntry(MakeCodexEntry(p, t)) <==> Mentions(p.execPath + ['"'], CLAUDE_HANDLER_FILENAME) || Mentions(p.dir, CLAUDE_HANDLER_FILENAME)
    ensures forall t | t in HOOK_TYPES ::
      IsCodexEntry(MakeClaudeEntry(p, t)) <==> Mentions(p.execPath + ['"'], CODEX_HANDLER_FILENAME) || Mentions(p.dir, CODEX_HANDLER_FILENAME)
  {
    EventNames();
    forall t | t in CODEX_HOOK_TYPES
      ensures IsClaudeEntry(MakeCodexEntry(p, t))
              <==> Mentions(p.execPath + ['"'], CLAUDE_HANDLER_FILENAME) || Mentions(p.dir, CLAUDE_HANDLER_FILENAME)
    {
      HandlersAreToldApart(p.execPath, p.dir, p.sep, Quoted(t), MakeCodexEntry(p, t).matcher);
    }
    forall t | t in HOOK_TYPES
      ensures IsCodexEntry(MakeClaudeEntry(p, t))
              <==> Mentions(p.execPath + ['"'], CODEX_HANDLER_FILENAME) || Mentions(p.dir, CODEX_HANDLER_FILENAME)
    {
      HandlersAreToldApart(p.execPath, p.dir, p.sep, Quoted(t), MakeClaudeEntry(p, t).matcher);
    }
  }

  /**
   * Installing twice is installing once, and the second time only repairs; the foreign entries of
   * every event survive installing and uninstalling, in order; uninstalling after installing is
   * uninstalling alone exactly when no null stands where a list is expected.
   */
  ghost predicate Laws(settings: Settings, types: seq<string>, ours: Entry -> bool, make: string -> Entry) {
    var installed := Install(settings, types, ours, make);
    && Install(installed, types, ours, make) == installed
    && Repairs(HooksOf(installed.hooks), types, ours, make) == |types|
    && (forall key {:trigger Lookup(HooksOf(settings.hooks), key)} ::
          && Kept(ListAt(HooksOf(installed.hooks), key), ours) == Kept(ListAt(HooksOf(settings.hooks), key), ours)
          && ListAt(HooksOf(Uninstall(settings, ours).hooks), key) == Kept(ListAt(HooksOf(settings.hooks), key), ours))
    && (CanInstall(HooksOf(settings.hooks), types) ==>
          (Uninstall(installed, ours) == Uninstall(settings, ours)
           <==> !settings.hooks.NullHooks? && AllLists(HooksOf(settings.hooks), types)))
  }

  lemma LawsHold(settings: Settings, types: seq<string>, ours: Entry -> bool, make: string -> Entry)
    requires DistinctKeys(HooksOf(settings.hooks)) && forall i | 0 <= i < |types| :: ours(make(types[i]))
    ensures Laws(settings, types, ours, make)
  {
    InstallTwice(settings, types, ours, make);
    var once := InstallAll(HooksOf(settings.hooks), types, ours, make);
    forall i | 0 <= i < |types| ensures Installed(once, types[i], ours, make) {
      InstallAllInstalls(HooksOf(settings.hooks), types, ours, make, i);
    }
    SecondInstallRepairs(once, types, ours, make);
    forall key {
      ForeignEntriesSurvive(settings, types, ours, make, key);
    }
    if CanInstall(HooksOf(settings.hooks), types) {
      UninstallUndoesInstallIff(settings, types, ours, make);
    }
  }

  /** installHooks and uninstallHooks: the laws for the Claude Code settings file, wherever the handler is. */
  lemma ClaudeLaws(settings: Settings, p: Place)
    requires DistinctKeys(HooksOf(settings.hooks)) && IsSeparator(p.sep)
    ensures Laws(settings, HOOK_TYPES, IsClaudeEntry, t => MakeClaudeEntry(p, t))
  {
    OwnEntriesAreRecognised(p);
    hide *;
    LawsHold(settings, HOOK_TYPES, IsClaudeEntry, t => MakeClaudeEntry(p, t));
  }

  /** installCodexHooks and uninstallCodexHooks: the same for the Codex hooks file. */
  lemma CodexLaws(settings: Settings, p: Place)
    requires DistinctKeys(HooksOf(settings.hooks)) && IsSeparator(p.sep)
    ensures Laws(settings, CODEX_HOOK_TYPES, IsCodexEntry, t => MakeCodexEntry(p, t))
  {
    OwnEntriesAreRecognised(p);
    hide *;
    LawsHold(settings, CODEX_HOOK_TYPES, IsCodexEntry, t => MakeCodexEntry(p, t));
  }
}
