/**
 * Preparing a logged-in user's session (`login.go`): the environment the session receives, the user's
 * login shell from the passwd database, the command line that starts the desktop, the first free X
 * display, stopping supervised processes on a signal, and the optional display scripts.
 */
module Login {
  import opened Wrappers
  import opened Text
  import opened Config
  import opened Os
  import opened Entities
  import opened AuthPam

  const EnvXdgConfigHome: string := "XDG_CONFIG_HOME"
  const EnvXdgRuntimeDir: string := "XDG_RUNTIME_DIR"
  const EnvXdgSessionId: string := "XDG_SESSION_ID"
  const EnvXdgSessionType: string := "XDG_SESSION_TYPE"
  const EnvXdgSessionClass: string := "XDG_SESSION_CLASS"
  const EnvXdgSeat: string := "XDG_SEAT"
  const EnvHome: string := "HOME"
  const EnvPwd: string := "PWD"
  const EnvUser: string := "USER"
  const EnvLogname: string := "LOGNAME"
  const EnvXauthority: string := "XAUTHORITY"
  const EnvDisplay: string := "DISPLAY"
  const EnvShell: string := "SHELL"
  const EnvLang: string := "LANG"
  const EnvPath: string := "PATH"
  const EnvDesktopSession: string := "DESKTOP_SESSION"
  const EnvXdgSessDesktop: string := "XDG_SESSION_DESKTOP"
  const EnvSessionBusAddr: string := "DBUS_SESSION_BUS_ADDRESS"

  /** The shell used when the account's own shell cannot be used. */
  const FallbackShell: string := "/usr/bin/bash"

  /** The per-user runtime directory, `/run/user/<uid>`. */
  function RuntimeDir(uid: int): string {
    "/run/user/" + Itoa(uid)
  }

  /** The account of a logged-in user. */
  function AccountOf(usr: SysUser): Account {
    Account(usr.uid, usr.gid, usr.username, usr.homedir)
  }

  // ---------------------------------------------------------------------------------------------
  // getUserShell

  /** The ':'-separated fields of a `getent passwd` line, its trailing newline removed. */
  function PasswdFields(out: string): seq<string> {
    Split(TrimSuffix(out, "\n"), ':')
  }

  /**
   * `getUserShell`, given the output of `getent passwd <uid>` (None when the command fails) and the
   * file system. None when the program stops: the command failed, or the line has fewer than seven
   * fields, so that reading the seventh fails. Otherwise the seventh field when it names an existing
   * file that is not a directory, and "" when it does not.
   */
  function ShellLookup(getent: Option<string>, files: map<string, FileKind>): (r: Option<string>)
    ensures r.Some? <==> getent.Some? && |PasswdFields(getent.value)| >= 7
    ensures r.Some? && r.value != "" ==> r.value in files && files[r.value] == RegularFile
    ensures r.Some? && r.value != "" ==> r.value == PasswdFields(getent.value)[6]
  {
    if getent.None? then None
    else
      var ent := PasswdFields(getent.value);
      if |ent| < 7 then None
      else
        var shellCmdline := ent[6];
        if shellCmdline in files && files[shellCmdline] == RegularFile then Some(shellCmdline) else Some("")
  }

  /**
   * For a well-formed passwd entry — seven or more ':'-free fields joined by ':' and ended by a
   * newline — the lookup yields the seventh field when that file exists and is not a directory, and
   * "" otherwise.
   */
  lemma ShellOfEntry(fields: seq<string>, files: map<string, FileKind>)
    requires |fields| >= 7
    requires forall i :: 0 <= i < |fields| ==> ':' !in fields[i]
    ensures var r := ShellLookup(Some(Join(fields, ':') + "\n"), files);
      r == Some(if fields[6] in files && files[fields[6]] == RegularFile then fields[6] else "")
  {
    var line := Join(fields, ':');
    assert TrimSuffix(line + "\n", "\n") == line by {
      assert (line + "\n")[|line + "\n"| - 1..] == "\n";
      assert (line + "\n")[..|line|] == line;
    }
    SplitJoin(fields, ':');
  }

  /** The effects of `getUserShell`: it runs getent, and stops the program when the lookup fails. */
  function ShellTrace(uid: int, getent: Option<string>, files: map<string, FileKind>): seq<Event> {
    [Getent(Itoa(uid))] + if ShellLookup(getent, files).None? then [Abort] else []
  }

  /** `getUserShell`. `ok` is false when the program stopped. */
  method GetUserShell(usr: SysUser, h: Host) returns (shell: string, ok: bool)
    modifies h`events
    ensures h.events == old(h.events) + ShellTrace(usr.uid, h.world.getent, h.files)
    ensures ok <==> ShellLookup(h.world.getent, h.files).Some?
    ensures ok ==> shell == ShellLookup(h.world.getent, h.files).value
  {
    h.Emit(Getent(usr.StrUid()));
    var r := ShellLookup(h.world.getent, h.files);
    if r.None? {
      h.Emit(Abort);
      return "", false;
    }
    return r.value, true;
  }

  // ---------------------------------------------------------------------------------------------
  // defineEnvironment

  /** The variables every session gets from the account, written after PAM's. */
  function FixedEnv(e: map<string, string>, a: Account): map<string, string> {
    e[EnvHome := a.homedir][EnvPwd := a.homedir][EnvUser := a.username][EnvLogname := a.username]
     [EnvXdgConfigHome := a.homedir + "/.config"][EnvXdgRuntimeDir := RuntimeDir(a.uid)]
     [EnvXdgSeat := "seat0"][EnvXdgSessionClass := "user"]
  }

  /** `DESKTOP_SESSION` and `XDG_SESSION_DESKTOP`: the desktop's name, else its chosen child's name. */
  function DesktopNames(e: map<string, string>, d: Desktop): map<string, string> {
    if d.name != "" then e[EnvDesktopSession := d.name][EnvXdgSessDesktop := d.name]
    else if d.child.Some? && d.child.value.name != "" then
      e[EnvDesktopSession := d.child.value.name][EnvXdgSessDesktop := d.child.value.name]
    else e
  }

  /** The D-Bus session address is passed on from the host only when it is set there and non-empty. */
  function DbusEnv(e: map<string, string>, hostEnv: map<string, string>): map<string, string> {
    if EnvSessionBusAddr in hostEnv && hostEnv[EnvSessionBusAddr] != "" then
      e[EnvSessionBusAddr := hostEnv[EnvSessionBusAddr]]
    else e
  }

  /** `os.Getenv` on the host environment. */
  function HostGetenv(hostEnv: map<string, string>, key: string): string {
    if key in hostEnv then hostEnv[key] else ""
  }

  /** The variables written after the shell lookup. */
  function SessionEnv(e: map<string, string>, shell: string, lang: string, hostEnv: map<string, string>, d: Desktop): map<string, string> {
    var e1 := e[EnvShell := if shell == "" then FallbackShell else shell][EnvLang := lang][EnvPath := HostGetenv(hostEnv, EnvPath)];
    DbusEnv(DesktopNames(e1, d), hostEnv)
  }

  /**
   * The user's environment after `defineEnvironment`, from the environment before it, the PAM handle,
   * the account, the looked-up shell, the configured language, the host environment and the desktop.
   */
  function DefinedEnv(env0: map<string, string>, trans: Option<Transaction>, a: Account, shell: string,
                      lang: string, hostEnv: map<string, string>, d: Desktop): map<string, string> {
    SessionEnv(FixedEnv(PamEnv(env0, trans), a), shell, lang, hostEnv, d)
  }

  /** The keys written from the account. */
  function FixedKeys(): set<string> {
    {EnvHome, EnvPwd, EnvUser, EnvLogname, EnvXdgConfigHome, EnvXdgRuntimeDir, EnvXdgSeat, EnvXdgSessionClass}
  }

  /** The value each key of `FixedKeys` receives. */
  function FixedValue(a: Account, k: string): string {
    if k == EnvHome || k == EnvPwd then a.homedir
    else if k == EnvUser || k == EnvLogname then a.username
    else if k == EnvXdgConfigHome then a.homedir + "/.config"
    else if k == EnvXdgRuntimeDir then RuntimeDir(a.uid)
    else if k == EnvXdgSeat then "seat0"
    else "user"
  }

  /** The keys written after the shell lookup: some of them only for some desktops and hosts. */
  function SessionWrites(d: Desktop, hostEnv: map<string, string>): set<string> {
    {EnvShell, EnvLang, EnvPath}
    + (if d.name != "" || (d.child.Some? && d.child.value.name != "") then {EnvDesktopSession, EnvXdgSessDesktop} else {})
    + (if EnvSessionBusAddr in hostEnv && hostEnv[EnvSessionBusAddr] != "" then {EnvSessionBusAddr} else {})
  }

  /** The value each key of `SessionWrites` receives. */
  function SessionValue(shell: string, lang: string, hostEnv: map<string, string>, d: Desktop, k: string): string {
    if k == EnvShell then (if shell == "" then FallbackShell else shell)
    else if k == EnvLang then lang
    else if k == EnvPath then HostGetenv(hostEnv, EnvPath)
    else if k == EnvSessionBusAddr then HostGetenv(hostEnv, EnvSessionBusAddr)
    else if d.name != "" then d.name
    else if d.child.Some? then d.child.value.name
    else ""
  }

  /** The sequence of fixed writes gives each fixed key its value and leaves every other key alone. */
  lemma FixedEnvAt(e: map<string, string>, a: Account, k: string)
    ensures k in FixedKeys() ==> k in FixedEnv(e, a) && FixedEnv(e, a)[k] == FixedValue(a, k)
    ensures k !in FixedKeys() ==> (k in FixedEnv(e, a) <==> k in e) && (k in e ==> FixedEnv(e, a)[k] == e[k])
  {
  }

  /** The writes after the shell lookup give each written key its value and leave every other key alone. */
  lemma SessionEnvAt(e: map<string, string>, shell: string, lang: string, hostEnv: map<string, string>, d: Desktop, k: string)
    ensures var r := SessionEnv(e, shell, lang, hostEnv, d);
      && (k in SessionWrites(d, hostEnv) ==> k in r && r[k] == SessionValue(shell, lang, hostEnv, d, k))
      && (k !in SessionWrites(d, hostEnv) ==> (k in r <==> k in e) && (k in e ==> r[k] == e[k]))
  {
  }

  lemma FixedNotSession(k: string)
    requires k in FixedKeys()
    ensures k !in {EnvShell, EnvLang, EnvPath, EnvDesktopSession, EnvXdgSessDesktop, EnvSessionBusAddr}
  {
  }

  /**
   * The environment `defineEnvironment` builds, key by key: the fixed keys get the account's values
   * and the session keys theirs, whatever PAM or the earlier environment said; every other key is
   * what PAM's list says, or else what the earlier environment said.
   */
  lemma DefinedEnvAt(env0: map<string, string>, trans: Option<Transaction>, a: Account, shell: string,
                     lang: string, hostEnv: map<string, string>, d: Desktop, k: string)
    ensures var e := DefinedEnv(env0, trans, a, shell, lang, hostEnv, d);
      var before := PamEnv(env0, trans);
      && (k in FixedKeys() ==> k in e && e[k] == FixedValue(a, k))
      && (k in SessionWrites(d, hostEnv) ==> k in e && e[k] == SessionValue(shell, lang, hostEnv, d, k))
      && (k !in FixedKeys() && k !in SessionWrites(d, hostEnv) ==>
            (k in e <==> k in before) && (k in before ==> e[k] == before[k]))
  {
    var before := PamEnv(env0, trans);
    FixedEnvAt(before, a, k);
    SessionEnvAt(FixedEnv(before, a), shell, lang, hostEnv, d, k);
    if k in FixedKeys() {
      FixedNotSession(k);
    }
  }

  /** The values of the fixed keys, spelled out. */
  lemma FixedValues(a: Account)
    ensures FixedValue(a, "HOME") == a.homedir && FixedValue(a, "PWD") == a.homedir
    ensures FixedValue(a, "USER") == a.username && FixedValue(a, "LOGNAME") == a.username
    ensures FixedValue(a, "XDG_CONFIG_HOME") == a.homedir + "/.config"
    ensures FixedValue(a, "XDG_RUNTIME_DIR") == "/run/user/" + Itoa(a.uid)
    ensures FixedValue(a, "XDG_SEAT") == "seat0" && FixedValue(a, "XDG_SESSION_CLASS") == "user"
  {
  }

  /**
   * SHELL is the looked-up shell or the fallback; LANG is the configured language; PATH is the
   * host's, "" when unset.
   */
  lemma DefinedEnvShellLangPath(env0: map<string, string>, trans: Option<Transaction>, a: Account, shell: string,
                                lang: string, hostEnv: map<string, string>, d: Desktop)
    ensures var e := DefinedEnv(env0, trans, a, shell, lang, hostEnv, d);
      && e[EnvShell] == (if shell == "" then "/usr/bin/bash" else shell)
      && e[EnvLang] == lang
      && e[EnvPath] == (if EnvPath in hostEnv then hostEnv[EnvPath] else "")
  {
    DefinedEnvAt(env0, trans, a, shell, lang, hostEnv, d, EnvShell);
    DefinedEnvAt(env0, trans, a, shell, lang, hostEnv, d, EnvLang);
    DefinedEnvAt(env0, trans, a, shell, lang, hostEnv, d, EnvPath);
  }

  /**
   * Both desktop-name keys are the desktop's name when it has one, else the child's name when there
   * is a child with one; otherwise neither key is written and both keep what PAM or the earlier
   * environment gave them.
   */
  lemma DefinedEnvDesktopNames(env0: map<string, string>, trans: Option<Transaction>, a: Account, shell: string,
                               lang: string, hostEnv: map<string, string>, d: Desktop)
    ensures var e := DefinedEnv(env0, trans, a, shell, lang, hostEnv, d);
      var before := PamEnv(env0, trans);
      && (d.name != "" ==> e[EnvDesktopSession] == d.name && e[EnvXdgSessDesktop] == d.name)
      && (d.name == "" && d.child.Some? && d.child.value.name != "" ==>
            e[EnvDesktopSession] == d.child.value.name && e[EnvXdgSessDesktop] == d.child.value.name)
      && (d.name == "" && (d.child.None? || d.child.value.name == "") ==>
            (EnvDesktopSession in e <==> EnvDesktopSession in before)
            && (EnvDesktopSession in e ==> e[EnvDesktopSession] == before[EnvDesktopSession])
            && (EnvXdgSessDesktop in e <==> EnvXdgSessDesktop in before)
            && (EnvXdgSessDesktop in e ==> e[EnvXdgSessDesktop] == before[EnvXdgSessDesktop]))
  {
    DefinedEnvAt(env0, trans, a, shell, lang, hostEnv, d, EnvDesktopSession);
    DefinedEnvAt(env0, trans, a, shell, lang, hostEnv, d, EnvXdgSessDesktop);
  }

  /**
   * The D-Bus address is the host's when the host has a non-empty one; otherwise it is whatever PAM
   * or the earlier environment gave, and absent when neither did: it is never invented.
   */
  lemma DefinedEnvDbus(env0: map<string, string>, trans: Option<Transaction>, a: Account, shell: string,
                       lang: string, hostEnv: map<string, string>, d: Desktop)
    ensures var e := DefinedEnv(env0, trans, a, shell, lang, hostEnv, d);
      var before := PamEnv(env0, trans);
      && (EnvSessionBusAddr in hostEnv && hostEnv[EnvSessionBusAddr] != "" ==>
            e[EnvSessionBusAddr] == hostEnv[EnvSessionBusAddr])
      && (!(EnvSessionBusAddr in hostEnv && hostEnv[EnvSessionBusAddr] != "") ==>
            (EnvSessionBusAddr in e <==> EnvSessionBusAddr in before)
            && (EnvSessionBusAddr in e ==> e[EnvSessionBusAddr] == before[EnvSessionBusAddr]))
  {
    DefinedEnvAt(env0, trans, a, shell, lang, hostEnv, d, EnvSessionBusAddr);
  }

  /**
   * Building the environment a second time with the same inputs changes nothing: every key is either
   * written with the same value again, or comes from PAM again, or is untouched.
   */
  lemma DefinedEnvIdempotent(env0: map<string, string>, trans: Option<Transaction>, a: Account, shell: string,
                             lang: string, hostEnv: map<string, string>, d: Desktop)
    ensures var e := DefinedEnv(env0, trans, a, shell, lang, hostEnv, d);
      DefinedEnv(e, trans, a, shell, lang, hostEnv, d) == e
  {
    var e := DefinedEnv(env0, trans, a, shell, lang, hostEnv, d);
    var e2 := DefinedEnv(e, trans, a, shell, lang, hostEnv, d);
    forall k
      ensures (k in e2 <==> k in e) && (k in e ==> e2[k] == e[k])
    {
      DefinedEnvAt(env0, trans, a, shell, lang, hostEnv, d, k);
      DefinedEnvAt(e, trans, a, shell, lang, hostEnv, d, k);
    }
    assert e2.Keys == e.Keys;
  }

  /** The effects of ensuring the runtime directory `dir` exists and entering `home`. */
  function RuntimeTrace(dir: string, home: string, uid: int, gid: int, mkdirOk: bool, files: map<string, FileKind>): seq<Event> {
    if dir in files then [Chdir(home)]
    else if !mkdirOk then [MakeDir(dir), Abort]
    else [MakeDir(dir), Chown(dir, uid, gid), Chdir(home)]
  }

  /** The file system once the runtime directory `dir` is ensured. */
  function RuntimeFiles(dir: string, mkdirOk: bool, files: map<string, FileKind>): map<string, FileKind> {
    if dir !in files && mkdirOk then files[dir := Directory] else files
  }

  /** The effects of `defineEnvironment` after PAM's variables and the fixed ones are written. */
  function EnvTrace(a: Account, w: World, files: map<string, FileKind>): seq<Event> {
    ShellTrace(a.uid, w.getent, files) +
    if ShellLookup(w.getent, files).Some? then RuntimeTrace(RuntimeDir(a.uid), a.homedir, a.uid, a.gid, w.mkdirOk, files)
    else []
  }

  /** `defineEnvironment` completes: the shell lookup works and the runtime directory exists or is made. */
  predicate EnvOk(a: Account, w: World, files: map<string, FileKind>) {
    ShellLookup(w.getent, files).Some? && (RuntimeDir(a.uid) in files || w.mkdirOk)
  }

  /** The file system after `defineEnvironment`: the runtime directory is created when missing. */
  function EnvFiles(a: Account, w: World, files: map<string, FileKind>): map<string, FileKind> {
    if ShellLookup(w.getent, files).Some? then RuntimeFiles(RuntimeDir(a.uid), w.mkdirOk, files) else files
  }

  /** Getting the shell stops the program exactly when the lookup fails, and nothing follows the stop. */
  lemma ShellTraceAborts(uid: int, getent: Option<string>, files: map<string, FileKind>)
    ensures AbortOnlyLast(ShellTrace(uid, getent, files))
    ensures Aborts(ShellTrace(uid, getent, files)) <==> ShellLookup(getent, files).None?
  {
  }

  /** `defineEnvironment` stops the program exactly when it does not complete, and nothing follows the stop. */
  lemma EnvTraceAborts(a: Account, w: World, files: map<string, FileKind>)
    ensures AbortOnlyLast(EnvTrace(a, w, files))
    ensures Aborts(EnvTrace(a, w, files)) <==> !EnvOk(a, w, files)
  {
    var rd := RuntimeDir(a.uid);
    ShellTraceAborts(a.uid, w.getent, files);
    GuardedAborts(ShellTrace(a.uid, w.getent, files), RuntimeTrace(rd, a.homedir, a.uid, a.gid, w.mkdirOk, files),
      ShellLookup(w.getent, files).Some?);
  }

  /** Once the runtime directory exists, building the environment again only runs getent and enters home. */
  lemma EnvAgain(a: Account, w: World, files: map<string, FileKind>)
    requires EnvOk(a, w, files)
    requires EnvOk(a, w, EnvFiles(a, w, files))
    ensures EnvTrace(a, w, EnvFiles(a, w, files)) == [Getent(Itoa(a.uid)), Chdir(a.homedir)]
    ensures EnvFiles(a, w, EnvFiles(a, w, files)) == EnvFiles(a, w, files)
  {
  }

  method SetFixedVariables(usr: SysUser)
    modifies usr`env
    ensures usr.env == FixedEnv(old(usr.env), AccountOf(usr))
  {
    usr.Setenv(EnvHome, usr.homedir);
    usr.Setenv(EnvPwd, usr.homedir);
    usr.Setenv(EnvUser, usr.username);
    usr.Setenv(EnvLogname, usr.username);
    usr.Setenv(EnvXdgConfigHome, usr.homedir + "/.config");
    usr.Setenv(EnvXdgRuntimeDir, "/run/user/" + usr.StrUid());
    usr.Setenv(EnvXdgSeat, "seat0");
    usr.Setenv(EnvXdgSessionClass, "user");
  }

  method SetSessionVariables(usr: SysUser, shell: string, lang: string, h: Host, d: Desktop)
    modifies usr`env
    ensures usr.env == SessionEnv(old(usr.env), shell, lang, h.env, d)
  {
    var sh := shell;
    if sh == "" {
      sh := FallbackShell;
    }
    usr.Setenv(EnvShell, sh);
    usr.Setenv(EnvLang, lang);
    usr.Setenv(EnvPath, h.Getenv(EnvPath));
    if d.name != "" {
      usr.Setenv(EnvDesktopSession, d.name);
      usr.Setenv(EnvXdgSessDesktop, d.name);
    } else if d.child.Some? && d.child.value.name != "" {
      usr.Setenv(EnvDesktopSession, d.child.value.name);
      usr.Setenv(EnvXdgSessDesktop, d.child.value.name);
    }
    if h.HasNonEmpty(EnvSessionBusAddr) {
      usr.Setenv(EnvSessionBusAddr, h.env[EnvSessionBusAddr]);
    }
  }

  /** Creates the runtime directory `dir` when it is missing, then enters `home`. */
  method EnterRuntime(dir: string, home: string, uid: int, gid: int, h: Host) returns (ok: bool)
    modifies h`events, h`files
    ensures ok <==> dir in old(h.files) || h.world.mkdirOk
    ensures h.files == RuntimeFiles(dir, h.world.mkdirOk, old(h.files))
    ensures h.events == old(h.events) + RuntimeTrace(dir, home, uid, gid, h.world.mkdirOk, old(h.files))
  {
    if dir !in h.files {
      h.Emit(MakeDir(dir));
      if !h.world.mkdirOk {
        h.Emit(Abort);
        return false;
      }
      h.files := h.files[dir := Directory];
      h.Emit(Chown(dir, uid, gid));
    }
    h.Emit(Chdir(home));
    ok := true;
  }

  /** The runtime directory and the working directory of the built environment. */
  lemma DefinedEnvRuntimeAndPwd(env0: map<string, string>, trans: Option<Transaction>, a: Account, shell: string,
                                lang: string, hostEnv: map<string, string>, d: Desktop)
    ensures var e := DefinedEnv(env0, trans, a, shell, lang, hostEnv, d);
      && EnvXdgRuntimeDir in e && e[EnvXdgRuntimeDir] == RuntimeDir(a.uid)
      && EnvPwd in e && e[EnvPwd] == a.homedir
  {
    DefinedEnvAt(env0, trans, a, shell, lang, hostEnv, d, EnvXdgRuntimeDir);
    DefinedEnvAt(env0, trans, a, shell, lang, hostEnv, d, EnvPwd);
    assert EnvXdgRuntimeDir in FixedKeys() && EnvPwd in FixedKeys();
  }

  /** The variables of `defineEnvironment`: PAM's, the fixed ones, and those after the shell lookup. */
  method WriteEnvironment(usr: SysUser, conf: Config, d: Desktop, pam: Pam, h: Host) returns (ok: bool)
    modifies usr`env, h`events
    ensures h.events == old(h.events) + ShellTrace(usr.uid, h.world.getent, h.files)
    ensures ok <==> ShellLookup(h.world.getent, h.files).Some?
    ensures ok ==> usr.env == DefinedEnv(old(usr.env), pam.trans, AccountOf(usr),
      ShellLookup(h.world.getent, h.files).value, conf.lang, h.env, d)
  {
    pam.DefineSpecificEnvVariables(usr);
    SetFixedVariables(usr);
    var shell;
    shell, ok := GetUserShell(usr, h);
    if ok {
      SetSessionVariables(usr, shell, conf.lang, h, d);
    }
  }

  /** `defineEnvironment`. `ok` is false when the program stopped. */
  method DefineEnvironment(usr: SysUser, conf: Config, d: Desktop, pam: Pam, h: Host) returns (ok: bool)
    modifies usr`env, h`events, h`files
    ensures h.events == old(h.events) + EnvTrace(AccountOf(usr), h.world, old(h.files))
    ensures h.files == EnvFiles(AccountOf(usr), h.world, old(h.files))
    ensures ok <==> EnvOk(AccountOf(usr), h.world, old(h.files))
    ensures ok ==> usr.env == DefinedEnv(old(usr.env), pam.trans, AccountOf(usr),
      ShellLookup(h.world.getent, old(h.files)).value, conf.lang, h.env, d)
  {
    ok := WriteEnvironment(usr, conf, d, pam, h);
    if !ok {
      return;
    }
    DefinedEnvRuntimeAndPwd(old(usr.env), pam.trans, AccountOf(usr),
      ShellLookup(h.world.getent, h.files).value, conf.lang, h.env, d);
    ok := EnterRuntime(usr.Getenv(EnvXdgRuntimeDir), usr.Getenv(EnvPwd), usr.uid, usr.gid, h);
  }

  // ---------------------------------------------------------------------------------------------
  // getStrExec and prepareGuiCommand

  /** `getStrExec`: the desktop's exec line, and whether a startup prefix may be added to it. */
  function StrExec(d: Desktop): (r: (string, bool))
    ensures r.1 <==> d.exec != ""
    ensures r.0 == if d.exec != "" then d.exec else d.path
  {
    if d.exec != "" then (d.exec, true) else (d.path, false)
  }

  /** Whether the user's `~/.xinitrc` is put in front of the exec line. */
  predicate UsesXinitrc(d: Desktop, xinitrcLaunch: bool, xinitrcExists: bool) {
    d.env == Xorg && xinitrcLaunch && StrExec(d).1 && !Contains(StrExec(d).0, ".xinitrc") && xinitrcExists
  }

  /**
   * The shell command line that starts the desktop. A chosen desktop under a selection entry runs
   * as the entry's path followed by the child's exec line, with nothing in front. Otherwise the exec
   * line gets `~/.xinitrc` in front when `UsesXinitrc`, and then the session wrapper when one is
   * configured.
   */
  function SessionExec(d: Desktop, xinitrcLaunch: bool, sessionWrapper: string, homedir: string, xinitrcExists: bool): (s: string)
    ensures d.selection && d.child.Some? ==> s == d.path + " " + d.child.value.exec
    ensures !(d.selection && d.child.Some?) ==>
      var base := StrExec(d).0;
      var prefixed := if UsesXinitrc(d, xinitrcLaunch, xinitrcExists) then homedir + "/.xinitrc " + base else base;
      s == if sessionWrapper != "" then sessionWrapper + " " + prefixed else prefixed
  {
    var (strExec0, allowStartupPrefix) := StrExec(d);
    if d.selection && d.child.Some? then d.path + " " + d.child.value.exec
    else
      var strExec1 :=
        if d.env == Xorg && xinitrcLaunch && allowStartupPrefix && !Contains(strExec0, ".xinitrc") && xinitrcExists
        then homedir + "/.xinitrc " + strExec0 else strExec0;
      if sessionWrapper != "" then sessionWrapper + " " + strExec1 else strExec1
  }

  /** Outside a selection, the desktop's exec line (or path) is always the tail of the command line. */
  lemma SessionExecEndsWithDesktop(d: Desktop, xinitrcLaunch: bool, sessionWrapper: string, homedir: string, xinitrcExists: bool)
    requires !(d.selection && d.child.Some?)
    ensures var s := SessionExec(d, xinitrcLaunch, sessionWrapper, homedir, xinitrcExists);
      var base := StrExec(d).0;
      |base| <= |s| && s[|s| - |base|..] == base
  {
    var s := SessionExec(d, xinitrcLaunch, sessionWrapper, homedir, xinitrcExists);
    var base := StrExec(d).0;
    var prefixed := if UsesXinitrc(d, xinitrcLaunch, xinitrcExists) then homedir + "/.xinitrc " + base else base;
    assert prefixed[|prefixed| - |base|..] == base;
    if sessionWrapper != "" {
      assert s == sessionWrapper + " " + prefixed;
      assert s[|s| - |prefixed|..] == prefixed;
      assert s[|s| - |base|..] == prefixed[|prefixed| - |base|..];
    }
  }

  /** A desktop whose exec line already mentions `.xinitrc`, or that has only a path, is never prefixed. */
  lemma NoDoubleXinitrc(d: Desktop, xinitrcLaunch: bool, homedir: string, xinitrcExists: bool)
    requires !(d.selection && d.child.Some?)
    requires d.exec == "" || Contains(d.exec, ".xinitrc") || d.env == Wayland
    ensures SessionExec(d, xinitrcLaunch, "", homedir, xinitrcExists) == StrExec(d).0
  {
  }

  /**
   * The command `prepareGuiCommand` runs as the user: the shell (or `bash` from PATH when the
   * account's shell is unusable) as a login shell running the command line. None when no shell is found.
   */
  function GuiCommand(shell: string, bashPath: Option<string>, strExec: string): (cmd: Option<Command>)
    ensures cmd.Some? <==> shell != "" || bashPath.Some?
    ensures cmd.Some? ==> cmd.value.args == ["--login", "-c", strExec]
    ensures cmd.Some? ==> cmd.value.path == if shell != "" then shell else bashPath.value
  {
    if shell != "" then Some(Command(shell, ["--login", "-c", strExec]))
    else if bashPath.Some? then Some(Command(bashPath.value, ["--login", "-c", strExec]))
    else None
  }

  /** The command line `prepareGuiCommand` builds for `usr` in the current file system. */
  function GuiExec(a: Account, d: Desktop, xinitrcLaunch: bool, sessionWrapper: string, files: map<string, FileKind>): string {
    SessionExec(d, xinitrcLaunch, sessionWrapper, a.homedir, a.homedir + "/.xinitrc" in files)
  }

  /** The command `prepareGuiCommand` returns: None when the shell lookup stops the program or no shell is found. */
  function PreparedCommand(a: Account, d: Desktop, xinitrcLaunch: bool, sessionWrapper: string, w: World,
                           files: map<string, FileKind>): Option<Command> {
    var shell := ShellLookup(w.getent, files);
    if shell.None? then None
    else GuiCommand(shell.value, w.bashPath, GuiExec(a, d, xinitrcLaunch, sessionWrapper, files))
  }

  /**
   * `prepareGuiCommand`. `ok` is false when the shell lookup stopped the program; otherwise `cmd` is
   * the command, or None for the error returned when no shell is found.
   */
  method PrepareGuiCommand(usr: SysUser, d: Desktop, conf: Config, h: Host) returns (cmd: Option<Command>, ok: bool)
    modifies h`events
    ensures h.events == old(h.events) + ShellTrace(usr.uid, h.world.getent, h.files)
    ensures ok <==> ShellLookup(h.world.getent, h.files).Some?
    ensures ok ==> cmd == PreparedCommand(AccountOf(usr), d, conf.xinitrcLaunch, conf.sessionWrapper, h.world, h.files)
  {
    var (strExec, allowStartupPrefix) := StrExec(d);
    var shell;
    shell, ok := GetUserShell(usr, h);
    if !ok {
      return None, false;
    }
    if shell == "" {
      if h.world.bashPath.None? {
        return None, true;
      }
      shell := h.world.bashPath.value;
    }
    if d.selection && d.child.Some? {
      strExec := d.path + " " + d.child.value.exec;
    } else {
      if d.env == Xorg && conf.xinitrcLaunch && allowStartupPrefix && !Contains(strExec, ".xinitrc")
        && usr.homedir + "/.xinitrc" in h.files {
        strExec := usr.homedir + "/.xinitrc " + strExec;
      }
      if conf.sessionWrapper != "" {
        strExec := conf.sessionWrapper + " " + strExec;
      }
    }
    cmd := Some(Command(shell, ["--login", "-c", strExec]));
  }

  // ---------------------------------------------------------------------------------------------
  // getFreeXDisplay

  /** The lock file of X display `i`. */
  function LockPath(i: nat): string {
    "/tmp/.X" + Itoa(i) + "-lock"
  }

  /** Display `i` has a lock file. */
  predicate Locked(files: map<string, FileKind>, i: nat) {
    LockPath(i) in files
  }

  /** The displays below 32 that have a lock file. */
  function LockedDisplays(files: map<string, FileKind>): set<nat> {
    set i: nat | i < 32 && Locked(files, i)
  }

  /** The first display from `i` on, below 32, that is not in `locked`; 0 when there is none. */
  function FirstFreeFrom(locked: set<nat>, i: nat): (r: nat)
    requires i <= 32
    ensures || (i <= r < 32 && r !in locked && forall j :: i <= j < r ==> j in locked)
            || (r == 0 && forall j :: i <= j < 32 ==> j in locked)
    decreases 32 - i
  {
    if i == 32 then 0
    else if i !in locked then i
    else FirstFreeFrom(locked, i + 1)
  }

  /** The display `getFreeXDisplay` picks: the least one below 32 without a lock file, else 0. */
  function FreeDisplay(files: map<string, FileKind>): (r: nat)
    ensures r < 32
    ensures (exists j :: 0 <= j < 32 && !Locked(files, j)) ==>
      !Locked(files, r) && forall j :: 0 <= j < r ==> Locked(files, j)
    ensures (forall j :: 0 <= j < 32 ==> Locked(files, j)) ==> r == 0
  {
    var r := FirstFreeFrom(LockedDisplays(files), 0);
    assert forall j :: 0 <= j < 32 ==> (j in LockedDisplays(files) <==> Locked(files, j));
    r
  }

  /** `getFreeXDisplay`. */
  method GetFreeXDisplay(h: Host) returns (display: nat)
    ensures display == FreeDisplay(h.files)
  {
    ghost var locked := LockedDisplays(h.files);
    for i := 0 to 32
      invariant FirstFreeFrom(locked, i) == FreeDisplay(h.files)
    {
      if LockPath(i) !in h.files {
        assert i !in locked;
        return i;
      }
      assert i in locked;
    }
    return 0;
  }

  // ---------------------------------------------------------------------------------------------
  // handleInterrupt

  /** Each process in turn is interrupted and then waited for. */
  function InterruptTrace(procs: seq<Proc>): (t: seq<Event>)
    ensures |t| == 2 * |procs|
  {
    if procs == [] then [] else [Interrupt(procs[0]), Wait(procs[0])] + InterruptTrace(procs[1..])
  }

  /** The `k`-th registered process is interrupted at step 2k and waited for at step 2k+1. */
  lemma {:induction false} InterruptTraceOrder(procs: seq<Proc>, k: nat)
    requires k < |procs|
    ensures InterruptTrace(procs)[2 * k] == Interrupt(procs[k])
    ensures InterruptTrace(procs)[2 * k + 1] == Wait(procs[k])
  {
    if k > 0 {
      InterruptTraceOrder(procs[1..], k - 1);
    }
  }

  /** `handleInterrupt`, once the signal has arrived. */
  method HandleInterrupt(h: Host, procs: seq<Proc>)
    modifies h`events
    ensures h.events == old(h.events) + InterruptTrace(procs)
  {
    for i := 0 to |procs|
      invariant h.events == old(h.events) + InterruptTrace(procs[..i])
    {
      InterruptTraceAppend(procs[..i], procs[i]);
      assert procs[..i + 1] == procs[..i] + [procs[i]];
      h.Emit(Interrupt(procs[i]));
      h.Emit(Wait(procs[i]));
    }
    assert procs[..|procs|] == procs;
  }

  lemma {:induction false} InterruptTraceAppend(procs: seq<Proc>, p: Proc)
    ensures InterruptTrace(procs + [p]) == InterruptTrace(procs) + [Interrupt(p), Wait(p)]
  {
    if procs != [] {
      assert (procs + [p])[1..] == procs[1..] + [p];
      InterruptTraceAppend(procs[1..], p);
    } else {
      assert InterruptTrace([p]) == [Interrupt(p), Wait(p)] + InterruptTrace([]);
    }
  }

  // ---------------------------------------------------------------------------------------------
  // runDisplayScript

  /** A display script runs only when it is configured and executable; its failure is only logged. */
  function ScriptTrace(path: string, executables: set<string>): (t: seq<Event>)
    ensures t == [] || t == [RunScript(path)]
    ensures RunScript(path) in t <==> path != "" && path in executables
  {
    if path != "" && path in executables then [RunScript(path)] else []
  }

  /** `runDisplayScript`. */
  method RunDisplayScript(path: string, h: Host)
    modifies h`events
    ensures h.events == old(h.events) + ScriptTrace(path, h.world.executables)
  {
    if path != "" {
      if path in h.world.executables {
        h.Emit(RunScript(path));
      }
    }
  }
}
