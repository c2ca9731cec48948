/**
 The reference-counted Cursor MCP config (engine/src/cursor_helm_launcher.rs,
 `write_cursor_mcp_config` and `CursorMcpConfig::drop`).

 Launchers inject a server into the project's config file and keep the user's own content, with the
 launchers that still need the injection, in a side state file. Both critical sections run under a
 non-blocking file lock, so a contended one does nothing. Each file operation may fail; a crash
 after one operation leaves what a failure of the next one leaves.
 */
module McpConfig {
  import opened Wrappers

  /** An owner is a process identity: pid and start time. */
  type Owner = nat

  /** `inject(exe, original)`: the config with our server added, or `None` if it cannot be parsed. */
  type Inject = (string, Option<string>) -> Option<string>

  datatype Saved = Saved(original: Option<string>, sessions: map<string, Owner>)

  datatype Files = Files(config: Option<string>, saved: Option<Saved>)

  /**
   Which operations fail, in the order the code performs them. `write` also stands for failing to
   capture the launcher's identity, between the rename and the write.
   */
  datatype Faults = Faults(busy: bool, restore: bool, remove: bool, read: bool, rename: bool, write: bool)

  const NO_FAULTS := Faults(false, false, false, false, false, false)

  function Kept(sessions: map<string, Owner>, live: set<Owner>): map<string, Owner> {
    map s | s in sessions && sessions[s] in live :: sessions[s]
  }

  // ---------------------------------------------------------------------------------------------
  // The two critical sections
  // ---------------------------------------------------------------------------------------------

  /** The state to extend, after sweeping dead owners; `None` when a file operation failed. */
  function Prepare(files: Files, live: set<Owner>, f: Faults): (Files, Option<Saved>) {
    if files.saved.Some? then
      var kept := Kept(files.saved.value.sessions, live);
      if kept != map[] then (files, Some(Saved(files.saved.value.original, kept)))
      else if f.restore then (files, None)
      else
        var restored := files.(config := files.saved.value.original);
        if f.remove then (restored, None)
        else if f.read then (restored.(saved := None), None)
        else (restored.(saved := None), Some(Saved(restored.config, map[])))
    else if f.read then (files, None)
    else (files, Some(Saved(files.config, map[])))
  }

  function Acquire(files: Files, inject: Inject, exe: string, session: string, owner: Owner,
                   live: set<Owner>, f: Faults): (Files, bool)
  {
    if f.busy then (files, false)
    else
      var (swept, state) := Prepare(files, live, f);
      if state.None? then (swept, false)
      else
        var injected := inject(exe, state.value.original);
        if injected.None? || f.rename then (swept, false)
        else if f.write then (swept.(config := injected), false)
        else
          (Files(injected, Some(Saved(state.value.original, state.value.sessions[session := owner]))), true)
  }

  function Release(files: Files, session: string, live: set<Owner>, f: Faults): Files {
    if f.busy || files.saved.None? then files
    else
      var state := files.saved.value;
      var kept := Kept(state.sessions - {session}, live);
      if kept == map[] then
        Files(if f.restore then files.config else state.original, if f.remove then files.saved else None)
      else if f.write then files
      else files.(saved := Some(Saved(state.original, kept)))
  }

  // ---------------------------------------------------------------------------------------------
  // Runs
  // ---------------------------------------------------------------------------------------------

  datatype World = World(
    files: Files,
    live: set<Owner>,
    handles: map<string, Owner>,   // configs acquired and not yet dropped by a live launcher
    user: Option<string>)          // what the user last wrote, or nothing

  datatype Action =
    | Start(owner: Owner)
    | Die(owner: Owner)
    | Take(session: string, owner: Owner, exe: string, faults: Faults)
    | Drop(session: string, faults: Faults)
    | Edit(content: Option<string>)

  /** The launcher already holds the session's own lock, so nobody else has this session. */
  predicate CanTake(w: World, session: string, owner: Owner) {
    owner in w.live && session !in w.handles
  }

  function Step(w: World, a: Action, inject: Inject): World {
    match a
    case Start(owner) => w.(live := w.live + {owner})
    case Die(owner) =>
      w.(live := w.live - {owner}, handles := map s | s in w.handles && w.handles[s] != owner :: w.handles[s])
    case Take(session, owner, exe, faults) =>
      if !CanTake(w, session, owner) then w
      else
        var (files, ok) := Acquire(w.files, inject, exe, session, owner, w.live, faults);
        w.(files := files, handles := if ok then w.handles[session := owner] else w.handles)
    case Drop(session, faults) =>
      if session !in w.handles then w
      else w.(files := Release(w.files, session, w.live, faults), handles := w.handles - {session})
    case Edit(content) =>
      if w.files.saved.Some? then w
      else w.(files := w.files.(config := content), user := content)
  }

  function Initial(user: Option<string>): World {
    World(Files(user, None), {}, map[], user)
  }

  function Run(user: Option<string>, actions: seq<Action>, inject: Inject): World {
    if actions == [] then Initial(user)
    else Step(Run(user, actions[..|actions| - 1], inject), actions[|actions| - 1], inject)
  }

  // ---------------------------------------------------------------------------------------------
  // Invariant
  // ---------------------------------------------------------------------------------------------

  /** The user's content is on disk, where the next restore looks for it. */
  predicate Preserved(w: World) {
    match w.files.saved
    case None => w.files.config == w.user
    case Some(state) => state.original == w.user
  }

  ghost predicate Injected(config: Option<string>, user: Option<string>, inject: Inject) {
    config.Some? && exists exe: string :: inject(exe, user) == config
  }

  /** Every live holder is listed, under its own identity. */
  predicate Listed(w: World) {
    forall s | s in w.handles ::
      && w.handles[s] in w.live
      && w.files.saved.Some?
      && s in w.files.saved.value.sessions
      && w.files.saved.value.sessions[s] == w.handles[s]
  }

  ghost predicate Inv(w: World, inject: Inject) {
    && Preserved(w)
    && Listed(w)
    && (w.files.saved.Some? ==> w.files.config == w.user || Injected(w.files.config, w.user, inject))
    && (w.handles != map[] ==> Injected(w.files.config, w.user, inject))
  }

  /** Nobody but `session` needs the injection any more. */
  predicate LastHolder(files: Files, session: string, live: set<Owner>) {
    files.saved.Some? && Kept(files.saved.value.sessions - {session}, live) == map[]
  }

  /** An acquire would start from the config file alone: no state file, or only dead owners in it. */
  predicate StartsAfresh(files: Files, live: set<Owner>, f: Faults) {
    && !f.read
    && (files.saved.Some? ==> Kept(files.saved.value.sessions, live) == map[] && !f.restore && !f.remove)
  }

  function OriginalOf(files: Files): Option<string> {
    if files.saved.Some? then files.saved.value.original else files.config
  }

  /** The steps that lose the user's content, read off the disk before the step. */
  predicate Loses(w: World, a: Action, inject: Inject) {
    match a
    case Take(session, owner, exe, f) =>
      && CanTake(w, session, owner) && !f.busy && StartsAfresh(w.files, w.live, f)
      && !f.rename && f.write
      && inject(exe, OriginalOf(w.files)).Some?
      && inject(exe, OriginalOf(w.files)) != OriginalOf(w.files)
    case Drop(session, f) =>
      && session in w.handles && !f.busy && LastHolder(w.files, session, w.live)
      && f.restore && !f.remove
      && w.files.config != OriginalOf(w.files)
    case _ => false
  }

  lemma HeldMeansKept(w: World, s: string)
    requires Listed(w) && s in w.handles
    ensures w.files.saved.Some? && s in Kept(w.files.saved.value.sessions, w.live)
  {
  }

  lemma TakeKeeps(w: World, session: string, owner: Owner, exe: string, f: Faults, inject: Inject)
    requires Inv(w, inject) && CanTake(w, session, owner)
    ensures var a := Take(session, owner, exe, f);
      && (Preserved(Step(w, a, inject)) <==> !Loses(w, a, inject))
      && (!Loses(w, a, inject) ==> Inv(Step(w, a, inject), inject))
  {
    var (swept, state) := Prepare(w.files, w.live, f);
    if w.handles != map[] {
      var s :| s in w.handles;
      HeldMeansKept(w, s);
    }
    if !f.busy && state.Some? {
      assert state.value.original == w.user;
      assert forall s | s in w.handles :: s in state.value.sessions && state.value.sessions[s] == w.handles[s];
      assert StartsAfresh(w.files, w.live, f) <==> swept.saved.None?;
    }
  }

  lemma DropKeeps(w: World, session: string, f: Faults, inject: Inject)
    requires Inv(w, inject) && session in w.handles
    ensures var a := Drop(session, f);
      && (Preserved(Step(w, a, inject)) <==> !Loses(w, a, inject))
      && (!Loses(w, a, inject) ==> Inv(Step(w, a, inject), inject))
  {
    var kept := Kept(w.files.saved.value.sessions - {session}, w.live);
    forall s | s in w.handles - {session}
      ensures s in kept && kept[s] == w.handles[s]
    {
      HeldMeansKept(w, s);
    }
    if w.handles - {session} != map[] {
      var s :| s in w.handles - {session};
      assert s in kept;
    }
  }

  /** The user's content survives a step exactly if the step is not one of the two losing ones. */
  lemma LossExactly(w: World, a: Action, inject: Inject)
    requires Inv(w, inject)
    ensures Preserved(Step(w, a, inject)) <==> !Loses(w, a, inject)
    ensures !Loses(w, a, inject) ==> Inv(Step(w, a, inject), inject)
  {
    match a
    case Take(session, owner, exe, f) =>
      if CanTake(w, session, owner) {
        TakeKeeps(w, session, owner, exe, f, inject);
      }
    case Drop(session, f) =>
      if session in w.handles {
        DropKeeps(w, session, f, inject);
      }
    case Die(owner) =>
      var w' := Step(w, a, inject);
      if w'.handles != map[] {
        var s :| s in w'.handles;
        assert s in w.handles;
      }
    case _ =>
  }

  predicate Lossless(user: Option<string>, actions: seq<Action>, inject: Inject) {
    forall i | 0 <= i < |actions| :: !Loses(Run(user, actions[..i], inject), actions[i], inject)
  }

  /**
   Over every run of launches, exits, deaths, edits and failures that avoids those two steps: the
   state file holds the user's exact content under an injected config, without it the config is the
   user's own, and a config that somebody holds stays injected.
   */
  lemma {:induction false} InvRun(user: Option<string>, actions: seq<Action>, inject: Inject)
    requires Lossless(user, actions, inject)
    ensures Inv(Run(user, actions, inject), inject)
  {
    if actions != [] {
      var n := |actions| - 1;
      hide Inv, Step, Loses, Run;
      assert forall i | 0 <= i < n :: actions[..n][..i] == actions[..i];
      InvRun(user, actions[..n], inject);
      LossExactly(Run(user, actions[..n], inject), actions[n], inject);
      RunLast(user, actions, inject);
    }
  }

  lemma RunLast(user: Option<string>, actions: seq<Action>, inject: Inject)
    requires actions != []
    ensures Run(user, actions, inject)
         == Step(Run(user, actions[..|actions| - 1], inject), actions[|actions| - 1], inject)
  {
  }

  // ---------------------------------------------------------------------------------------------
  // What users get
  // ---------------------------------------------------------------------------------------------

  /** After any such run, the last holder's clean drop puts back exactly the user's file. */
  lemma LastDropRestores(user: Option<string>, actions: seq<Action>, session: string, inject: Inject)
    requires Lossless(user, actions, inject)
    requires session in Run(user, actions, inject).handles
    requires LastHolder(Run(user, actions, inject).files, session, Run(user, actions, inject).live)
    ensures var w := Run(user, actions, inject);
      Step(w, Drop(session, NO_FAULTS), inject).files == Files(w.user, None)
  {
    InvRun(user, actions, inject);
  }

  /**
   After any such run whose owners have all died, the next clean acquire does what it would do on
   the user's untouched file, whatever the dead launchers left behind.
   */
  lemma DeadOwnersLeaveNoTrace(user: Option<string>, actions: seq<Action>, session: string, owner: Owner,
                               exe: string, inject: Inject)
    requires Lossless(user, actions, inject)
    requires var w := Run(user, actions, inject);
      w.files.saved.Some? ==> Kept(w.files.saved.value.sessions, w.live) == map[]
    ensures var w := Run(user, actions, inject);
      Acquire(w.files, inject, exe, session, owner, w.live, NO_FAULTS)
        == Acquire(Files(w.user, None), inject, exe, session, owner, w.live, NO_FAULTS)
  {
    InvRun(user, actions, inject);
  }

  /** The state file lists this session under this owner. */
  predicate Lists(files: Files, session: string, owner: Owner) {
    && files.saved.Some? && session in files.saved.value.sessions
    && files.saved.value.sessions[session] == owner
  }

  /** Somebody listed is still alive. */
  ghost predicate InUse(files: Files, live: set<Owner>) {
    exists s, o :: o in live && Lists(files, s, o)
  }

  lemma InUseMeaning(files: Files, live: set<Owner>)
    ensures InUse(files, live) <==> files.saved.Some? && Kept(files.saved.value.sessions, live) != map[]
  {
    if files.saved.Some? && Kept(files.saved.value.sessions, live) != map[] {
      var s :| s in Kept(files.saved.value.sessions, live);
      assert Lists(files, s, files.saved.value.sessions[s]);
    }
    if s, o :| o in live && Lists(files, s, o) {
      assert s in Kept(files.saved.value.sessions, live);
    }
  }

  /** What must not go wrong for an acquire to succeed, given that its lock is free. */
  ghost predicate AcquireUndisturbed(files: Files, live: set<Owner>, f: Faults) {
    && !f.busy && !f.rename && !f.write
    && (InUse(files, live) || (!f.read && (files.saved.Some? ==> !f.restore && !f.remove)))
  }

  /**
   After any such run an acquire succeeds if and only if the user's content can be injected into and no
   file operation it needs fails, whoever else holds the config. Then the config is the user's content
   injected, and the state file lists exactly the new session and those listed before whose owners live.
   */
  lemma AcquireExactly(user: Option<string>, actions: seq<Action>, session: string, owner: Owner,
                       exe: string, f: Faults, inject: Inject)
    requires Lossless(user, actions, inject)
    ensures var w := Run(user, actions, inject);
      var (files, ok) := Acquire(w.files, inject, exe, session, owner, w.live, f);
      && (ok <==> inject(exe, w.user).Some? && AcquireUndisturbed(w.files, w.live, f))
      && (ok ==>
            && files.config == inject(exe, w.user)
            && files.saved.Some? && files.saved.value.original == w.user
            && forall s, o :: Lists(files, s, o) <==>
                 if s == session then o == owner else o in w.live && Lists(w.files, s, o))
  {
    InvRun(user, actions, inject);
    var w := Run(user, actions, inject);
    hide Run, Lossless;
    InUseMeaning(w.files, w.live);
    hide InUse;
  }

  /** An acquire that fails cleanly leaves the others' config alone, or the user's file where it was. */
  lemma RefusedAcquireExactly(user: Option<string>, actions: seq<Action>, session: string, owner: Owner,
                              exe: string, inject: Inject)
    requires Lossless(user, actions, inject) && inject(exe, Run(user, actions, inject).user).None?
    ensures var w := Run(user, actions, inject);
      Acquire(w.files, inject, exe, session, owner, w.live, NO_FAULTS).0
        == if InUse(w.files, w.live) then w.files else Files(w.user, None)
  {
    InvRun(user, actions, inject);
    var w := Run(user, actions, inject);
    hide Run, Lossless;
    InUseMeaning(w.files, w.live);
    hide InUse;
  }

  /**
   A clean drop takes its own session off the list, and the dead; the config stays as long as anybody
   alive is left, and else the user's file is back.
   */
  lemma DropExactly(user: Option<string>, actions: seq<Action>, session: string, inject: Inject)
    requires Lossless(user, actions, inject) && session in Run(user, actions, inject).handles
    ensures var w := Run(user, actions, inject);
      var files := Step(w, Drop(session, NO_FAULTS), inject).files;
      && (forall s, o :: Lists(files, s, o) <==> s != session && o in w.live && Lists(w.files, s, o))
      && files.config == (if InUse(files, w.live) then w.files.config else w.user)
      && (files.saved.Some? <==> InUse(files, w.live))
      && (files.saved.Some? ==> files.saved.value.original == w.user)
  {
    InvRun(user, actions, inject);
    var w := Run(user, actions, inject);
    hide Run, Lossless;
    var files := Release(w.files, session, w.live, NO_FAULTS);
    InUseMeaning(files, w.live);
    var kept := Kept(w.files.saved.value.sessions - {session}, w.live);
    assert Kept(kept, w.live) == kept;
    forall s, o
      ensures Lists(files, s, o) <==> s != session && o in w.live && Lists(w.files, s, o)
    {
      assert s in kept <==> s != session && s in w.files.saved.value.sessions && w.files.saved.value.sessions[s] in w.live;
    }
    hide InUse;
  }

  /** An acquire that fails leaves the list of sessions alone while anybody alive is on it. */
  lemma FailedAcquireKeepsOthers(user: Option<string>, actions: seq<Action>, session: string, owner: Owner,
                                 exe: string, f: Faults, inject: Inject)
    requires Lossless(user, actions, inject)
    requires var w := Run(user, actions, inject);
      InUse(w.files, w.live) && !Acquire(w.files, inject, exe, session, owner, w.live, f).1
    ensures var w := Run(user, actions, inject);
      var files := Acquire(w.files, inject, exe, session, owner, w.live, f).0;
      && files.saved == w.files.saved
      && files.config == (if !f.busy && !f.rename && f.write && inject(exe, w.user).Some? then inject(exe, w.user)
                          else w.files.config)
  {
    InvRun(user, actions, inject);
    var w := Run(user, actions, inject);
    hide Run, Lossless;
    InUseMeaning(w.files, w.live);
    hide InUse;
  }

  /** A drop under any faults: which of the two files it leaves as it was, and what it makes of the other. */
  lemma FaultyDropExactly(user: Option<string>, actions: seq<Action>, session: string, f: Faults, inject: Inject)
    requires Lossless(user, actions, inject) && session in Run(user, actions, inject).handles
    ensures var w := Run(user, actions, inject);
      var files := Step(w, Drop(session, f), inject).files;
      var clean := Step(w, Drop(session, NO_FAULTS), inject).files;
      if f.busy then files == w.files
      else if clean.saved.Some? then files == if f.write then w.files else clean
      else files == Files(if f.restore then w.files.config else w.user, if f.remove then w.files.saved else None)
  {
    InvRun(user, actions, inject);
    hide Run, Lossless;
  }

  /** The user's edits take effect, and the death of the last live owner leaves the config to the next acquire. */
  lemma EditsAndDeathsCount(user: Option<string>, actions: seq<Action>, owner: Owner, content: Option<string>,
                            inject: Inject)
    ensures var w := Run(user, actions, inject);
      var edited, dead := Step(w, Edit(content), inject), Step(w, Die(owner), inject);
      && (w.files.saved.None? ==> edited.user == content && edited.files == Files(content, None))
      && ((forall s, o | o in w.live && Lists(w.files, s, o) :: o == owner) ==> !InUse(dead.files, dead.live))
      && dead.files == w.files && (forall s | s in dead.handles :: dead.handles[s] != owner)
  {
    hide Run;
  }

  /** However many launchers share the project, each injects into the user's own content. */
  lemma InjectionsDoNotStack(user: Option<string>, actions: seq<Action>, session: string, owner: Owner,
                             exe: string, f: Faults, inject: Inject)
    requires Lossless(user, actions, inject)
    requires var w := Run(user, actions, inject);
      Acquire(w.files, inject, exe, session, owner, w.live, f).1
    ensures var w := Run(user, actions, inject);
      Acquire(w.files, inject, exe, session, owner, w.live, f).0.config == inject(exe, w.user)
  {
    InvRun(user, actions, inject);
  }

  /** While any launcher still holds the config, no other launcher's exit or failure takes it away. */
  lemma HeldConfigStaysInjected(user: Option<string>, actions: seq<Action>, inject: Inject)
    requires Lossless(user, actions, inject)
    requires Run(user, actions, inject).handles != map[]
    ensures var w := Run(user, actions, inject);
      Injected(w.files.config, w.user, inject) && w.files.saved.Some?
  {
    InvRun(user, actions, inject);
    var s :| s in Run(user, actions, inject).handles;
  }

  /** The first launcher dies between renaming the config and writing the state: the file is lost. */
  lemma CrashAfterRenameLoses(original: string, injected: string, inject: Inject)
    requires inject("longhouse", Some(original)) == Some(injected) && injected != original
    ensures var crash := NO_FAULTS.(write := true);
      var w := Run(Some(original), [Start(1), Take("s", 1, "longhouse", crash), Die(1)], inject);
      w.files == Files(Some(injected), None) && w.user == Some(original) && !Preserved(w)
  {
    var crash := NO_FAULTS.(write := true);
    var r1 := [Start(1)];
    var r2 := r1 + [Take("s", 1, "longhouse", crash)];
    RunSnoc(Some(original), [], Start(1), inject);
    RunSnoc(Some(original), r1, Take("s", 1, "longhouse", crash), inject);
    RunSnoc(Some(original), r2, Die(1), inject);
    assert r2 + [Die(1)] == [Start(1), Take("s", 1, "longhouse", crash), Die(1)];
  }

  /** The last drop cannot write the config back but removes the state: the file is lost. */
  lemma FailedRestoreLoses(original: string, injected: string, inject: Inject)
    requires inject("longhouse", Some(original)) == Some(injected) && injected != original
    ensures var fail := NO_FAULTS.(restore := true);
      var w := Run(Some(original), [Start(1), Take("s", 1, "longhouse", NO_FAULTS), Drop("s", fail)], inject);
      w.files == Files(Some(injected), None) && w.user == Some(original) && !Preserved(w)
  {
    var fail := NO_FAULTS.(restore := true);
    var r1 := [Start(1)];
    var r2 := r1 + [Take("s", 1, "longhouse", NO_FAULTS)];
    RunSnoc(Some(original), [], Start(1), inject);
    RunSnoc(Some(original), r1, Take("s", 1, "longhouse", NO_FAULTS), inject);
    RunSnoc(Some(original), r2, Drop("s", fail), inject);
    assert r2 + [Drop("s", fail)] == [Start(1), Take("s", 1, "longhouse", NO_FAULTS), Drop("s", fail)];
    assert Kept(map["s" := 1] - {"s"}, {1}) == map[];
  }

  lemma RunSnoc(user: Option<string>, actions: seq<Action>, a: Action, inject: Inject)
    ensures Run(user, actions + [a], inject) == Step(Run(user, actions, inject), a, inject)
  {
    assert (actions + [a])[..|actions|] == actions;
  }

  // ---------------------------------------------------------------------------------------------
  // The code
  // ---------------------------------------------------------------------------------------------

  /** One project's config file and its state file, as the launchers change them. */
  class ProjectFiles {
    var config: Option<string>
    var saved: Option<Saved>

    constructor (user: Option<string>)
      ensures Now() == Files(user, None)
    {
      config, saved := user, None;
    }

    function Now(): Files
      reads this
    {
      Files(config, saved)
    }

    method WriteCursorMcpConfig(inject: Inject, exe: string, session: string, owner: Owner,
                                live: set<Owner>, f: Faults) returns (ok: bool)
      modifies this
      ensures (Now(), ok) == Acquire(old(Now()), inject, exe, session, owner, live, f)
    {
      if f.busy {
        return false;
      }
      var state: Saved;
      if saved.Some? {
        var kept := Kept(saved.value.sessions, live);
        if kept == map[] {
          if f.restore {
            return false;
          }
          config := saved.value.original;
          if f.remove {
            return false;
          }
          saved := None;
          if f.read {
            return false;
          }
          state := Saved(config, map[]);
        } else {
          state := Saved(saved.value.original, kept);
        }
      } else {
        if f.read {
          return false;
        }
        state := Saved(config, map[]);
      }
      var injected := inject(exe, state.original);
      if injected.None? || f.rename {
        return false;
      }
      config := injected;
      if f.write {
        return false;
      }
      saved := Some(Saved(state.original, state.sessions[session := owner]));
      return true;
    }

    method DropConfig(session: string, live: set<Owner>, f: Faults)
      modifies this
      ensures Now() == Release(old(Now()), session, live, f)
    {
      if f.busy || saved.None? {
        return;
      }
      var state := saved.value;
      var kept := Kept(state.sessions - {session}, live);
      if kept == map[] {
        if !f.restore {
          config := state.original;
        }
        if !f.remove {
          saved := None;
        }
      } else if !f.write {
        saved := Some(Saved(state.original, kept));
      }
    }
  }
}
