/**
 * A login session (`session.go`): authenticate, resolve the desktop and language, build the
 * environment, run the start script, then start the desktop on a new X server or as a Wayland
 * compositor and clean up when it ends. The session's effects are the ordered `Host` trace; each
 * step's trace is given by a function, and the whole session's by `StartTrace`.
 */
module Session {
  import opened Wrappers
  import opened Text
  import opened Config
  import opened Os
  import opened Entities
  import opened AuthPam
  import opened Login
  import opened SessionTraces

  // ---------------------------------------------------------------------------------------------
  // BaseSession

  /** The settings of `conf` that `Start` uses; the language is not one of them. */
  function SessionConfOf(conf: Config): SessionConf
    reads conf`pamService, conf`defaultUser, conf`minTty, conf`xorgArgs, conf`xinitrcLaunch,
          conf`sessionWrapper, conf`displayStartScript
  {
    SessionConf(conf.pamService, conf.defaultUser, Itoa(conf.minTty), conf.xorgArgs, conf.xinitrcLaunch,
      conf.sessionWrapper, conf.displayStartScript)
  }

  /** The user environment after `startX` defines the X variables. */
  function XEnv(e: map<string, string>, xauth: string, display: string): (r: map<string, string>)
    ensures EnvXdgSessionType in r && r[EnvXdgSessionType] == "x11"
    ensures EnvXauthority in r && r[EnvXauthority] == xauth
    ensures EnvDisplay in r && r[EnvDisplay] == display
    ensures forall k :: k != EnvXdgSessionType && k != EnvXauthority && k != EnvDisplay ==>
      (k in r <==> k in e) && (k in r ==> r[k] == e[k])
  {
    e[EnvXdgSessionType := "x11"][EnvXauthority := xauth][EnvDisplay := display]
  }

  /** The user's environment, the display manager's own environment, and the file system. */
  datatype SessionState = SessionState(userEnv: map<string, string>, hostEnv: map<string, string>,
                                       files: map<string, FileKind>)

  /** Adding the runtime directory does not change the shell lookup: a directory is never a usable shell. */
  lemma ShellLookupIgnoresRuntimeDir(a: Account, w: World, files: map<string, FileKind>)
    ensures ShellLookup(w.getent, EnvFiles(a, w, files)) == ShellLookup(w.getent, files)
  {
  }

  /** The state after `defineEnvironment` completes for account `a` and desktop `d`. */
  function EnvState(s: SessionState, trans: Option<Transaction>, a: Account, lang: string, w: World, d: Desktop): SessionState
    requires EnvOk(a, w, s.files)
  {
    SessionState(DefinedEnv(s.userEnv, trans, a, ShellLookup(w.getent, s.files).value, lang, s.hostEnv, d),
      s.hostEnv, EnvFiles(a, w, s.files))
  }

  /**
   * Once the environment is built the user's runtime directory is set and exists, no other path
   * changes, and the display manager's own environment is untouched.
   */
  lemma EnvStateSpec(s: SessionState, trans: Option<Transaction>, a: Account, lang: string, w: World, d: Desktop)
    requires EnvOk(a, w, s.files)
    ensures var r := EnvState(s, trans, a, lang, w, d);
      && r.hostEnv == s.hostEnv
      && EnvXdgRuntimeDir in r.userEnv && r.userEnv[EnvXdgRuntimeDir] == RuntimeDir(a.uid)
      && RuntimeDir(a.uid) in r.files
      && forall p :: p != RuntimeDir(a.uid) ==> (p in r.files <==> p in s.files) && (p in r.files ==> r.files[p] == s.files[p])
  {
    DefinedEnvRuntimeAndPwd(s.userEnv, trans, a, ShellLookup(w.getent, s.files).value, lang, s.hostEnv, d);
  }

  /**
   * Building the environment a second time, as `Start` does after `desktopSelect`, cannot fail once the
   * first build succeeded, and changes nothing.
   */
  lemma EnvStateTwice(s: SessionState, trans: Option<Transaction>, a: Account, lang: string, w: World, d: Desktop)
    requires EnvOk(a, w, s.files)
    ensures EnvOk(a, w, EnvState(s, trans, a, lang, w, d).files)
    ensures EnvState(EnvState(s, trans, a, lang, w, d), trans, a, lang, w, d) == EnvState(s, trans, a, lang, w, d)
  {
    var s1 := EnvState(s, trans, a, lang, w, d);
    EnvStateSpec(s, trans, a, lang, w, d);
    ShellLookupIgnoresRuntimeDir(a, w, s.files);
    DefinedEnvIdempotent(s.userEnv, trans, a, ShellLookup(w.getent, s.files).value, lang, s.hostEnv, d);
    assert EnvFiles(a, w, s1.files) == s1.files;
  }

  /** The state after `startX` with authority file `xauth`: the X variables set, the file removed at the end. */
  function XState(s: SessionState, xauth: string): SessionState {
    var display := DisplayName(FreeDisplay(s.files));
    SessionState(XEnv(s.userEnv, xauth, display), s.hostEnv[EnvXauthority := xauth][EnvDisplay := display], s.files - {xauth})
  }

  /** The state after the display server of desktop `d` for account `a`. */
  function DisplayState(s: SessionState, a: Account, d: Desktop): SessionState {
    if d.env == Xorg then XState(s, XauthPath(RuntimeDir(a.uid)))
    else SessionState(s.userEnv[EnvXdgSessionType := "wayland"], s.hostEnv, s.files)
  }

  /**
   * Under X the user's session type is "x11", and the user and the display manager both name the first
   * free display and the authority file in the runtime directory, which is gone once the session
   * ends. Under Wayland the session type is "wayland" and nothing else changes. No other variable of
   * either environment changes.
   */
  lemma DisplayStateSpec(s: SessionState, a: Account, d: Desktop)
    ensures var r := DisplayState(s, a, d);
      && EnvXdgSessionType in r.userEnv && r.userEnv[EnvXdgSessionType] == (if d.env == Xorg then "x11" else "wayland")
      && (forall k :: k != EnvXdgSessionType && k != EnvXauthority && k != EnvDisplay ==>
            (k in r.userEnv <==> k in s.userEnv) && (k in r.userEnv ==> r.userEnv[k] == s.userEnv[k]))
      && (forall k :: k != EnvXauthority && k != EnvDisplay ==>
            (k in r.hostEnv <==> k in s.hostEnv) && (k in r.hostEnv ==> r.hostEnv[k] == s.hostEnv[k]))
      && (d.env == Xorg ==>
            && EnvDisplay in r.userEnv && EnvDisplay in r.hostEnv && EnvXauthority in r.userEnv && EnvXauthority in r.hostEnv
            && r.userEnv[EnvDisplay] == r.hostEnv[EnvDisplay] == DisplayName(FreeDisplay(s.files))
            && r.userEnv[EnvXauthority] == r.hostEnv[EnvXauthority] == XauthPath(RuntimeDir(a.uid))
            && r.files == s.files - {XauthPath(RuntimeDir(a.uid))})
      && (d.env != Xorg ==> r.userEnv == s.userEnv[EnvXdgSessionType := "wayland"] && r.hostEnv == s.hostEnv && r.files == s.files)
  {
  }

  /** The state after `Start` builds the environment for desktop `d` and runs its display server. */
  function OpenState(s: SessionState, trans: Option<Transaction>, a: Account, lang: string, w: World, d: Desktop): SessionState
    requires EnvOk(a, w, s.files)
  {
    DisplayState(EnvState(s, trans, a, lang, w, d), a, d)
  }

  /**
   * The session `Start` runs after `desktopSelect` built the environment once ends in the same state as
   * if the environment had been built only once.
   */
  lemma OpenStateAfterEnv(s: SessionState, trans: Option<Transaction>, a: Account, lang: string, w: World, d: Desktop)
    requires EnvOk(a, w, s.files)
    ensures EnvOk(a, w, EnvState(s, trans, a, lang, w, d).files)
    ensures OpenState(EnvState(s, trans, a, lang, w, d), trans, a, lang, w, d) == OpenState(s, trans, a, lang, w, d)
  {
    EnvStateTwice(s, trans, a, lang, w, d);
  }

  /**
   * After a session the runtime directory is still set and still exists, and after an X session the
   * authority file is gone.
   */
  lemma OpenStateSpec(s: SessionState, trans: Option<Transaction>, a: Account, lang: string, w: World, d: Desktop)
    requires EnvOk(a, w, s.files)
    ensures var r := OpenState(s, trans, a, lang, w, d);
      && EnvXdgRuntimeDir in r.userEnv && r.userEnv[EnvXdgRuntimeDir] == RuntimeDir(a.uid)
      && RuntimeDir(a.uid) in r.files
      && (d.env == Xorg ==> XauthPath(RuntimeDir(a.uid)) !in r.files)
  {
    var e := EnvState(s, trans, a, lang, w, d);
    EnvStateSpec(s, trans, a, lang, w, d);
    DisplayStateSpec(e, a, d);
    assert RuntimeDir(a.uid) != XauthPath(RuntimeDir(a.uid)) by {
      assert |XauthPath(RuntimeDir(a.uid))| > |RuntimeDir(a.uid)|;
    }
  }

  /** A login session: the user once authenticated, the desktop once resolved, and the configuration. */
  class BaseSession {
    var usr: SysUser?
    var d: Option<Desktop>
    const conf: Config

    /** `NewSession`. */
    constructor NewSession(c: Config)
      ensures conf == c && usr == null && d == None
    {
      conf := c;
      usr := null;
      d := None;
    }

    /** `auth`. `ok` is false when the program stopped. */
    method Auth(pam: Pam, h: Host, o: PamOutcome) returns (ok: bool)
      modifies this`usr, pam`trans, h`events
      ensures h.events == old(h.events) + AuthTrace(conf.pamService, conf.defaultUser, conf.StrTTY(), h.pid, o)
      ensures pam.trans == if o.startOk then Some(Transaction(o.user, o.envList)) else None
      ensures ok <==> !o.startOk || Opens(o)
      ensures usr != null <==> Opens(o)
      ensures usr != null ==> fresh(usr) && usr.env == map[] && AccountOf(usr) == o.account
    {
      usr, ok := pam.AuthUser(conf, h, o);
    }

    /**
     * `desktopSelect`. `ok` is false when the program stopped: there is no user to load a desktop
     * for, or building the environment stopped it.
     */
    method DesktopSelect(pam: Pam, h: Host, choice: DesktopChoice) returns (ok: bool)
      modifies this`d, conf`lang, h`events, h`files, usr
      ensures usr == null ==> !ok && h.events == old(h.events) + [Abort] && h.files == old(h.files)
                              && d == old(d) && conf.lang == old(conf.lang)
      ensures usr != null ==>
        && d == Some(ResolveDesktop(choice.loaded, choice.chosen))
        && conf.lang == ChosenLang(old(conf.lang), choice.userLang)
        && h.events == old(h.events) + SelectEnvTrace(AccountOf(usr), h.world, old(h.files), choice.loaded)
        && h.files == EnvFiles(AccountOf(usr), h.world, old(h.files))
        && (ok <==> EnvOk(AccountOf(usr), h.world, old(h.files)))
        && (ok ==> (SessionState(usr.env, h.env, h.files) ==
              EnvState(SessionState(old(usr.env), old(h.env), old(h.files)), pam.trans, AccountOf(usr), conf.lang, h.world, d.value)))
    {
      if usr == null {
        h.Emit(Abort);
        return false;
      }
      ghost var e0 := h.events;
      ResolveChoice(h, choice);
      AppendAssoc(e0, SelectTrace(choice.loaded), EnvTrace(AccountOf(usr), h.world, h.files));
      ghost var s1 := SessionState(usr.env, h.env, h.files);
      ok := DefineEnvironment(usr, conf, d.value, pam, h);
      if ok {
        assert SessionState(usr.env, h.env, h.files) == EnvState(s1, pam.trans, AccountOf(usr), conf.lang, h.world, d.value);
      }
    }

    /** The desktop and language part of `desktopSelect`. */
    method ResolveChoice(h: Host, choice: DesktopChoice)
      modifies this`d, conf`lang, h`events
      ensures d == Some(ResolveDesktop(choice.loaded, choice.chosen))
      ensures conf.lang == ChosenLang(old(conf.lang), choice.userLang)
      ensures h.events == old(h.events) + SelectTrace(choice.loaded)
    {
      if NeedsChooser(choice.loaded) {
        h.Emit(ChooseDesktop);
      }
      d := Some(ResolveDesktop(choice.loaded, choice.chosen));
      if choice.userLang != "" {
        conf.lang := choice.userLang;
      }
    }

    /** The X variables of `startX`, for the user and for the display manager's own process. */
    method SetXEnvironment(h: Host) returns (xauth: string, display: string)
      requires usr != null
      modifies usr`env, h`env
      ensures xauth == XauthPath(old(usr.Getenv(EnvXdgRuntimeDir)))
      ensures display == DisplayName(FreeDisplay(h.files))
      ensures usr.env == XEnv(old(usr.env), xauth, display)
      ensures h.env == old(h.env)[EnvXauthority := xauth][EnvDisplay := display]
    {
      var n := GetFreeXDisplay(h);
      usr.Setenv(EnvXdgSessionType, "x11");
      usr.Setenv(EnvXauthority, usr.Getenv(EnvXdgRuntimeDir) + "/.emptty-xauth");
      usr.Setenv(EnvDisplay, ":" + Itoa(n));
      h.Setenv(EnvXauthority, usr.Getenv(EnvXauthority));
      h.Setenv(EnvDisplay, usr.Getenv(EnvDisplay));
      xauth, display := usr.Getenv(EnvXauthority), usr.Getenv(EnvDisplay);
    }

    /** The stale authority file is removed, then the cookie made with `mcookie` is added with `xauth`. */
    method MakeAuthority(h: Host, xauth: string, display: string) returns (ok: bool)
      modifies h`events, h`files
      ensures h.events == old(h.events) + AuthorityTrace(xauth, display, h.world)
      ensures h.files == ServerFiles(xauth, h.world, old(h.files))
      ensures ok <==> h.world.cookieOk && h.world.xauthOk
    {
      h.files := h.files - {xauth};
      h.Emit(RemoveFile(xauth));
      h.Emit(GenerateCookie);
      if !h.world.cookieOk {
        h.Emit(Abort);
        return false;
      }
      h.Emit(AddXauth(display));
      if !h.world.xauthOk {
        h.Emit(Abort);
        return false;
      }
      h.files := h.files[xauth := RegularFile];
      ok := true;
    }

    /** Xorg on the session's tty and display, the display opened, and the utmp entry. */
    method LaunchXorg(h: Host, tty: string, display: string) returns (ok: bool)
      requires usr != null
      modifies h`events
      ensures h.events == old(h.events) + XorgTrace(XorgArgs(tty, display, conf.xorgArgs), usr.username, tty, display, h.world)
      ensures ok <==> h.world.xorgPid.Some? && h.world.displayOpens
    {
      var args := ["vt" + tty, display];
      if conf.xorgArgs != "" {
        args := args + Split(conf.xorgArgs, ' ');
      }
      h.Emit(StartXorg(args));
      if h.world.xorgPid.None? {
        h.Emit(Abort);
        return false;
      }
      h.Emit(OpenXDisplay(display));
      if !h.world.displayOpens {
        h.Emit(Abort);
        return false;
      }
      h.Emit(UtmpAdd(usr.username, h.world.xorgPid.value, tty, display));
      ok := true;
    }

    /** The X server part of `startX`. */
    method StartServer(h: Host, tty: string, xauth: string, display: string) returns (ok: bool)
      requires usr != null
      modifies h`events, h`files
      ensures h.events == old(h.events) +
        ServerTrace(xauth, display, XorgArgs(tty, display, conf.xorgArgs), usr.username, tty, h.world)
      ensures h.files == ServerFiles(xauth, h.world, old(h.files))
      ensures ok <==> ServerUp(h.world)
    {
      ghost var e0 := h.events;
      ghost var authority := AuthorityTrace(xauth, display, h.world);
      ghost var xorg := XorgTrace(XorgArgs(tty, display, conf.xorgArgs), usr.username, tty, display, h.world);
      ok := MakeAuthority(h, xauth, display);
      if !ok {
        assert authority + [] == authority;
        return;
      }
      ok := LaunchXorg(h, tty, display);
      AppendAssoc(e0, authority, xorg);
    }

    /** `prepareGuiCommand`, panicking on its error. */
    method LaunchCommand(h: Host) returns (cmd: Command, ok: bool)
      requires usr != null && d.Some?
      modifies h`events
      ensures h.events == old(h.events) + LaunchTrace(usr.uid, PreparedCommand(AccountOf(usr), d.value, conf.xinitrcLaunch, conf.sessionWrapper, h.world, h.files))
      ensures ok <==> PreparedCommand(AccountOf(usr), d.value, conf.xinitrcLaunch, conf.sessionWrapper, h.world, h.files).Some?
      ensures ok ==> cmd == PreparedCommand(AccountOf(usr), d.value, conf.xinitrcLaunch, conf.sessionWrapper, h.world, h.files).value
    {
      var c;
      c, ok := PrepareGuiCommand(usr, d.value, conf, h);
      cmd := Command("", []);
      if !ok {
        return;
      }
      if c.None? {
        h.Emit(Abort);
        return cmd, false;
      }
      cmd := c.value;
    }

    /** The handlers for the client and Xorg, and the client; a failed start interrupts and waits for Xorg. */
    method StartXClient(h: Host, cmd: Command) returns (ok: bool)
      modifies h`events
      ensures h.events == old(h.events) + XClientTrace(cmd, h.world)
      ensures ok <==> h.world.clientPid.Some?
    {
      h.Emit(RegisterInterrupt([SessionCommand, XorgServer]));
      h.Emit(StartClient(cmd));
      if h.world.clientPid.None? {
        h.Emit(Interrupt(XorgServer));
        h.Emit(Wait(XorgServer));
        h.Emit(Abort);
        return false;
      }
      ok := true;
    }

    /** The end of `startX`, once the client is running. */
    method CleanupX(h: Host, xauth: string)
      modifies h`events, h`files
      ensures h.events == old(h.events) + XCleanupTrace(xauth)
      ensures h.files == old(h.files) - {xauth}
    {
      h.Emit(Wait(SessionCommand));
      h.Emit(Interrupt(XorgServer));
      h.Emit(Wait(XorgServer));
      h.files := h.files - {xauth};
      h.Emit(RemoveFile(xauth));
      h.Emit(UtmpEnd);
    }

    /** The X client of `startX`, and the cleanup after it. */
    method RunClient(h: Host, xauth: string) returns (ok: bool)
      requires usr != null && d.Some?
      modifies h`events, h`files
      ensures h.events == old(h.events) +
        ClientTrace(usr.uid, PreparedCommand(AccountOf(usr), d.value, conf.xinitrcLaunch, conf.sessionWrapper, h.world,
          old(h.files)), xauth, h.world)
      ensures ok <==> PreparedCommand(AccountOf(usr), d.value, conf.xinitrcLaunch, conf.sessionWrapper, h.world, old(h.files)).Some?
                      && h.world.clientPid.Some?
      ensures h.files == if ok then old(h.files) - {xauth} else old(h.files)
    {
      ghost var e0 := h.events;
      ghost var launch := LaunchTrace(usr.uid, PreparedCommand(AccountOf(usr), d.value, conf.xinitrcLaunch, conf.sessionWrapper, h.world, h.files));
      var cmd;
      cmd, ok := LaunchCommand(h);
      if !ok {
        assert launch + [] == launch;
        return;
      }
      ghost var client := XClientTrace(cmd, h.world);
      ok := StartXClient(h, cmd);
      if !ok {
        assert client + [] == client;
        AppendAssoc(e0, launch, client);
        return;
      }
      CleanupX(h, xauth);
      AppendAssoc(e0 + launch, client, XCleanupTrace(xauth));
      AppendAssoc(e0, launch, client + XCleanupTrace(xauth));
    }

    /** `startX`. `ok` is false when the program stopped. */
    method StartX(h: Host) returns (ok: bool)
      requires usr != null && d.Some?
      modifies usr`env, h`env, h`events, h`files
      ensures h.events == old(h.events) + XTrace(AccountOf(usr), conf.StrTTY(), conf.xorgArgs,
        old(usr.Getenv(EnvXdgRuntimeDir)), d.value, conf.xinitrcLaunch, conf.sessionWrapper, h.world, old(h.files))
      ensures ok <==> XOk(AccountOf(usr), d.value, conf.xinitrcLaunch, conf.sessionWrapper,
        old(usr.Getenv(EnvXdgRuntimeDir)), h.world, old(h.files))
      ensures usr.env == XEnv(old(usr.env), XauthPath(old(usr.Getenv(EnvXdgRuntimeDir))), DisplayName(FreeDisplay(old(h.files))))
      ensures h.env == old(h.env)[EnvXauthority := XauthPath(old(usr.Getenv(EnvXdgRuntimeDir)))]
                                 [EnvDisplay := DisplayName(FreeDisplay(old(h.files)))]
      ensures ok ==> h.files == old(h.files) - {XauthPath(old(usr.Getenv(EnvXdgRuntimeDir)))}
      ensures var r := XState(SessionState(old(usr.env), old(h.env), old(h.files)), XauthPath(old(usr.Getenv(EnvXdgRuntimeDir))));
        usr.env == r.userEnv && h.env == r.hostEnv && (ok ==> h.files == r.files)
    {
      ghost var e0, files0, w := h.events, h.files, h.world;
      ghost var tty := conf.StrTTY();
      ghost var a := AccountOf(usr);
      ghost var rdir := usr.Getenv(EnvXdgRuntimeDir);
      ghost var xt := XTrace(a, tty, conf.xorgArgs, rdir, d.value, conf.xinitrcLaunch, conf.sessionWrapper, w, files0);
      ghost var n := FreeDisplay(files0);
      var xauth, display := SetXEnvironment(h);
      assert xauth == XauthPath(rdir) && display == DisplayName(n);
      ghost var env1 := h.env;
      ghost var server := ServerTrace(xauth, display, XorgArgs(tty, display, conf.xorgArgs), a.username, tty, w);
      ghost var client := ClientTrace(a.uid, PreparedCommand(a, d.value, conf.xinitrcLaunch, conf.sessionWrapper, w,
        ServerFiles(xauth, w, files0)), xauth, w);
      assert xt == server + if ServerUp(w) then client else [];
      ok := StartServer(h, conf.StrTTY(), xauth, display);
      if !ok {
        assert server + [] == server;
        return;
      }
      ok := RunClient(h, xauth);
      AppendAssoc(e0, server, client);
      assert h.env == env1;
      if ok {
        AuthorityFileGone(xauth, w, files0);
      }
    }

    /** The handler for the compositor, the compositor, and its utmp entry. */
    method RunWayland(h: Host, cmd: Command, tty: string) returns (ok: bool)
      requires usr != null
      modifies h`events
      ensures h.events == old(h.events) + WaylandRunTrace(cmd, usr.username, tty, h.world)
      ensures ok <==> h.world.clientPid.Some?
    {
      h.Emit(RegisterInterrupt([SessionCommand]));
      h.Emit(StartClient(cmd));
      if h.world.clientPid.None? {
        h.Emit(Abort);
        return false;
      }
      h.Emit(UtmpAdd(usr.username, h.world.clientPid.value, tty, ""));
      h.Emit(Wait(SessionCommand));
      h.Emit(UtmpEnd);
      ok := true;
    }

    /** `startWayland`. `ok` is false when the program stopped. */
    method StartWayland(h: Host) returns (ok: bool)
      requires usr != null && d.Some?
      modifies usr`env, h`events
      ensures usr.env == old(usr.env)[EnvXdgSessionType := "wayland"]
      ensures h.events == old(h.events) +
        WaylandTrace(usr.uid, usr.username, conf.StrTTY(), PreparedCommand(AccountOf(usr), d.value, conf.xinitrcLaunch, conf.sessionWrapper, h.world, h.files), h.world)
      ensures ok <==> PreparedCommand(AccountOf(usr), d.value, conf.xinitrcLaunch, conf.sessionWrapper, h.world, h.files).Some?
                      && h.world.clientPid.Some?
    {
      usr.Setenv(EnvXdgSessionType, "wayland");
      ghost var e0 := h.events;
      ghost var launch := LaunchTrace(usr.uid, PreparedCommand(AccountOf(usr), d.value, conf.xinitrcLaunch, conf.sessionWrapper, h.world, h.files));
      var cmd;
      cmd, ok := LaunchCommand(h);
      if !ok {
        assert launch + [] == launch;
        return;
      }
      ok := RunWayland(h, cmd, conf.StrTTY());
      AppendAssoc(e0, launch, WaylandRunTrace(cmd, usr.username, conf.StrTTY(), h.world));
    }

    /** The display server of `Start`: `startX` or `startWayland`, after the desktop's display server. */
    method RunDisplay(h: Host) returns (ok: bool)
      requires usr != null && d.Some?
      requires usr.Getenv(EnvXdgRuntimeDir) == RuntimeDir(usr.uid)
      modifies usr`env, h`env, h`events, h`files
      ensures h.events == old(h.events) + DisplayTrace(SessionConfOf(conf), AccountOf(usr), d.value, h.world, old(h.files))
      ensures ok <==> DisplayOk(SessionConfOf(conf), AccountOf(usr), d.value, h.world, old(h.files))
      ensures var r := DisplayState(SessionState(old(usr.env), old(h.env), old(h.files)), AccountOf(usr), d.value);
        usr.env == r.userEnv && h.env == r.hostEnv && (ok ==> h.files == r.files)
    {
      ghost var c, a, s0 := SessionConfOf(conf), AccountOf(usr), SessionState(usr.env, h.env, h.files);
      assert conf.StrTTY() == c.tty;
      if d.value.env == Xorg {
        ghost var xauth := XauthPath(RuntimeDir(a.uid));
        assert DisplayState(s0, a, d.value) == XState(s0, xauth);
        assert DisplayTrace(c, a, d.value, h.world, s0.files) ==
          XTrace(a, c.tty, c.xorgArgs, RuntimeDir(a.uid), d.value, c.xinitrcLaunch, c.sessionWrapper, h.world, s0.files);
        ok := StartX(h);
        assert h.events == old(h.events) + DisplayTrace(c, a, d.value, h.world, s0.files);
        assert ok <==> DisplayOk(c, a, d.value, h.world, s0.files);
      } else {
        assert DisplayState(s0, a, d.value) == SessionState(s0.userEnv[EnvXdgSessionType := "wayland"], s0.hostEnv, s0.files);
        ok := StartWayland(h);
        assert h.events == old(h.events) + DisplayTrace(c, a, d.value, h.world, s0.files);
        assert ok <==> DisplayOk(c, a, d.value, h.world, s0.files);
      }
    }

    /** The start script and the display server of `Start`. */
    method RunDesktop(h: Host) returns (ok: bool)
      requires usr != null && d.Some?
      requires usr.Getenv(EnvXdgRuntimeDir) == RuntimeDir(usr.uid)
      modifies usr`env, h`env, h`events, h`files
      ensures h.events == old(h.events) + RunTrace(SessionConfOf(conf), AccountOf(usr), d.value, h.world, old(h.files))
      ensures ok <==> DisplayOk(SessionConfOf(conf), AccountOf(usr), d.value, h.world, old(h.files))
      ensures var r := DisplayState(SessionState(old(usr.env), old(h.env), old(h.files)), AccountOf(usr), d.value);
        usr.env == r.userEnv && h.env == r.hostEnv && (ok ==> h.files == r.files)
    {
      ghost var e0 := h.events;
      RunDisplayScript(conf.displayStartScript, h);
      AppendAssoc(e0, ScriptTrace(conf.displayStartScript, h.world.executables),
        DisplayTrace(SessionConfOf(conf), AccountOf(usr), d.value, h.world, h.files));
      ok := RunDisplay(h);
    }

    /** The part of `Start` after `desktopSelect`: the environment again, the start script, the display server. */
    method OpenDesktop(pam: Pam, h: Host) returns (ok: bool)
      requires usr != null && d.Some?
      modifies usr, h`env, h`events, h`files
      ensures h.events == old(h.events) + OpenTrace(SessionConfOf(conf), AccountOf(usr), d.value, h.world, old(h.files))
      ensures ok <==> OpenOk(SessionConfOf(conf), AccountOf(usr), d.value, h.world, old(h.files))
      ensures ok ==> (SessionState(usr.env, h.env, h.files) ==
        OpenState(SessionState(old(usr.env), old(h.env), old(h.files)), pam.trans, AccountOf(usr), conf.lang, h.world, d.value))
    {
      ghost var c := SessionConfOf(conf);
      ghost var a := AccountOf(usr);
      ghost var e0 := h.events;
      ghost var env := EnvTrace(a, h.world, h.files);
      ok := DefineEnvironment(usr, conf, d.value, pam, h);
      if !ok {
        assert env + [] == env;
        return;
      }
      DefinedEnvRuntimeAndPwd(old(usr.env), pam.trans, a, ShellLookup(h.world.getent, old(h.files)).value, conf.lang, h.env, d.value);
      ghost var run := RunTrace(c, a, d.value, h.world, h.files);
      ok := RunDesktop(h);
      AppendAssoc(e0, env, run);
      if !ok {
        assert run + [] == run;
        return;
      }
      h.Emit(SessionDone);
      AppendAssoc(e0 + env, run, [SessionDone]);
      AppendAssoc(e0, env, run + [SessionDone]);
    }

    /** `Start` after authentication opened the session for `usr`. */
    method RunSession(pam: Pam, h: Host, choice: DesktopChoice) returns (ok: bool)
      requires usr != null
      modifies this`d, conf`lang, usr, h`env, h`events, h`files
      ensures h.events == old(h.events) + SessionTrace(old(SessionConfOf(conf)), AccountOf(usr), h.world, old(h.files), choice)
      ensures ok <==> SessionOk(old(SessionConfOf(conf)), AccountOf(usr), h.world, old(h.files), choice)
      ensures d == Some(ResolveDesktop(choice.loaded, choice.chosen))
      ensures conf.lang == ChosenLang(old(conf.lang), choice.userLang)
      ensures ok ==> (SessionState(usr.env, h.env, h.files) ==
        OpenState(EnvState(SessionState(old(usr.env), old(h.env), old(h.files)), pam.trans, AccountOf(usr), conf.lang, h.world, d.value),
          pam.trans, AccountOf(usr), conf.lang, h.world, d.value))
    {
      ghost var e0 := h.events;
      ghost var sel := SelectEnvTrace(AccountOf(usr), h.world, h.files, choice.loaded);
      ghost var s0 := SessionState(usr.env, h.env, h.files);
      ok := DesktopSelect(pam, h, choice);
      if !ok {
        assert sel + [] == sel;
        return;
      }
      ghost var open := OpenTrace(SessionConfOf(conf), AccountOf(usr), d.value, h.world, h.files);
      ok := OpenDesktop(pam, h);
      AppendAssoc(e0, sel, open);
    }

    /** `Start`. `ok` is false when the program stopped. */
    method Start(pam: Pam, h: Host, o: PamOutcome, choice: DesktopChoice) returns (ok: bool)
      modifies this`usr, this`d, conf`lang, pam`trans, h`env, h`events, h`files
      ensures h.events == old(h.events) + StartTrace(old(SessionConfOf(conf)), h.pid, h.world, old(h.files), o, choice)
      ensures ok <==> StartOk(old(SessionConfOf(conf)), h.world, old(h.files), o, choice)
      ensures pam.trans == if o.startOk then Some(Transaction(o.user, o.envList)) else None
      ensures if Opens(o) then
          && usr != null && fresh(usr) && AccountOf(usr) == o.account
          && d == Some(ResolveDesktop(choice.loaded, choice.chosen))
          && conf.lang == ChosenLang(old(conf.lang), choice.userLang)
        else
          && usr == null && d == old(d) && conf.lang == old(conf.lang) && h.env == old(h.env) && h.files == old(h.files)
      ensures ok ==> (SessionState(usr.env, h.env, h.files) ==
        var lang, dv := ChosenLang(old(conf.lang), choice.userLang), ResolveDesktop(choice.loaded, choice.chosen);
        OpenState(EnvState(SessionState(map[], old(h.env), old(h.files)), pam.trans, o.account, lang, h.world, dv),
          pam.trans, o.account, lang, h.world, dv))
    {
      ghost var c := SessionConfOf(conf);
      ghost var e0 := h.events;
      ghost var auth := AuthTrace(c.pamService, c.defaultUser, c.tty, h.pid, o);
      ok := Auth(pam, h, o);
      if !ok {
        assert auth + [] == auth;
        return;
      }
      if usr == null {
        ok := DesktopSelect(pam, h, choice);
        AppendAssoc(e0, auth, [Abort]);
        return;
      }
      assert SessionConfOf(conf) == c;
      ghost var rest := SessionTrace(c, o.account, h.world, h.files, choice);
      ok := RunSession(pam, h, choice);
      AppendAssoc(e0, auth, rest);
    }

    /** `Destory`: closes the PAM session, then runs the stop script. */
    method Destory(pam: Pam, h: Host)
      modifies pam`trans, h`events
      ensures pam.trans == None
      ensures h.events == old(h.events) + (if old(pam.trans).Some? then [PamCloseSession] else []) +
        ScriptTrace(conf.displayStopScript, h.world.executables)
    {
      pam.CloseAuth(h);
      RunDisplayScript(conf.displayStopScript, h);
    }
  }
}
