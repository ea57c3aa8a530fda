/**
 * The effects of a login session (`session.go`) as traces: what desktop selection, `startX`,
 * `startWayland` and `Start` do, in order, given the configuration, the system's answers, PAM's
 * outcome and the desktop choice, and the properties of those traces.
 */
module SessionTraces {
  import opened Wrappers
  import opened Text
  import opened Config
  import opened Os
  import opened Entities
  import opened AuthPam
  import opened Login

  /** What `loadUserDesktop` and `selectDesktop` return: the user's saved desktop and language, and the desktop chosen. */
  datatype DesktopChoice = DesktopChoice(loaded: Option<Desktop>, userLang: string, chosen: Desktop)

  // ---------------------------------------------------------------------------------------------
  // desktopSelect

  /** The chooser runs when no desktop was loaded or the loaded one is a selection entry. */
  predicate NeedsChooser(loaded: Option<Desktop>) {
    loaded.None? || loaded.value.selection
  }

  /**
   * The desktop of the session: the chosen one when none was loaded; a loaded selection entry gets the
   * chosen desktop as its child and takes over the child's display server; any other loaded desktop
   * is kept as it is.
   */
  function ResolveDesktop(loaded: Option<Desktop>, chosen: Desktop): (d: Desktop)
    ensures !NeedsChooser(loaded) ==> d == loaded.value
  {
    if loaded.Some? && loaded.value.selection then loaded.value.(child := Some(chosen), env := chosen.env)
    else if loaded.None? then chosen
    else loaded.value
  }

  /**
   * Whenever the chooser runs, what is started is the chosen desktop with its display server: either
   * the session's desktop is the chosen one, or it is the loaded selection entry (name, path and exec
   * untouched) whose child is the chosen one.
   */
  lemma ResolveDesktopRunsChosen(loaded: Option<Desktop>, chosen: Desktop)
    requires NeedsChooser(loaded)
    ensures var d := ResolveDesktop(loaded, chosen);
      && d.env == chosen.env
      && (loaded.None? ==> d == chosen)
      && (loaded.Some? ==>
            d.selection && d.child == Some(chosen)
            && d.name == loaded.value.name && d.path == loaded.value.path && d.exec == loaded.value.exec)
  {
  }

  /** A non-empty language of the user replaces the configured one. */
  function ChosenLang(lang: string, userLang: string): (r: string)
    ensures userLang != "" ==> r == userLang
    ensures userLang == "" ==> r == lang
  {
    if userLang != "" then userLang else lang
  }

  /** The effect of `desktopSelect` before it builds the environment. */
  function SelectTrace(loaded: Option<Desktop>): seq<Event> {
    if NeedsChooser(loaded) then [ChooseDesktop] else []
  }

  // ---------------------------------------------------------------------------------------------
  // startX

  /** The X authority file in the runtime directory. */
  function XauthPath(runtimeDir: string): string {
    runtimeDir + "/.emptty-xauth"
  }

  /** The name of X display `n`. */
  function DisplayName(n: nat): string {
    ":" + Itoa(n)
  }

  /**
   * The arguments of `/usr/bin/Xorg`: the virtual terminal and the display, then the configured
   * arguments split at single spaces, which are added only when some are configured.
   */
  function XorgArgs(tty: string, display: string, xorgArgs: string): (args: seq<string>)
    ensures |args| >= 2 && args[0] == "vt" + tty && args[1] == display
    ensures xorgArgs == "" ==> |args| == 2
    ensures xorgArgs != "" ==> args[2..] == Split(xorgArgs, ' ') && Join(args[2..], ' ') == xorgArgs
  {
    var args := ["vt" + tty, display];
    if xorgArgs != "" then
      var r := args + Split(xorgArgs, ' ');
      assert r[2..] == Split(xorgArgs, ' ');
      r
    else args
  }

  /** Everything about the X server that starts: cookie and authority file, the server, its display. */
  predicate ServerUp(w: World) {
    w.cookieOk && w.xauthOk && w.xorgPid.Some? && w.displayOpens
  }

  /** The stale authority file is removed, then a cookie generated and added for the display. */
  function AuthorityTrace(xauth: string, display: string, w: World): seq<Event> {
    [RemoveFile(xauth), GenerateCookie] +
    if !w.cookieOk then [Abort] else
    [AddXauth(display)] +
    if !w.xauthOk then [Abort] else []
  }

  /** Xorg is started, its display opened, and a utmp entry added for the user with the server's pid. */
  function XorgTrace(args: seq<string>, username: string, tty: string, display: string, w: World): seq<Event> {
    [StartXorg(args)] +
    if w.xorgPid.None? then [Abort] else
    [OpenXDisplay(display)] +
    if !w.displayOpens then [Abort] else
    [UtmpAdd(username, w.xorgPid.value, tty, display)]
  }

  /** The effects of preparing and starting the X server; each failure stops the program. */
  function ServerTrace(xauth: string, display: string, args: seq<string>, username: string, tty: string, w: World): seq<Event> {
    AuthorityTrace(xauth, display, w) +
    if w.cookieOk && w.xauthOk then XorgTrace(args, username, tty, display, w) else []
  }

  /** The file system after the server steps: the authority file is removed, then created by `xauth add`. */
  function ServerFiles(xauth: string, w: World, files: map<string, FileKind>): map<string, FileKind> {
    if w.cookieOk && w.xauthOk then (files - {xauth})[xauth := RegularFile] else files - {xauth}
  }

  /**
   * Whatever the server steps did to the authority file, removing it afterwards leaves the file system
   * as it was before them, without that file.
   */
  lemma AuthorityFileGone(xauth: string, w: World, files: map<string, FileKind>)
    ensures ServerFiles(xauth, w, files) - {xauth} == files - {xauth}
    ensures xauth !in ServerFiles(xauth, w, files) - {xauth}
  {
    assert (files - {xauth})[xauth := RegularFile] - {xauth} == files - {xauth};
  }

  /**
   * The effects of `prepareGuiCommand` followed by the panic on its error, given the command it
   * returns (None when the shell lookup stopped the program or no shell was found).
   */
  function LaunchTrace(uid: int, cmd: Option<Command>): seq<Event> {
    [Getent(Itoa(uid))] + if cmd.None? then [Abort] else []
  }

  /**
   * The interrupt handler is registered for the client and then Xorg, and the client started; when it
   * does not start, Xorg is interrupted and waited for before the program stops.
   */
  function XClientTrace(cmd: Command, w: World): seq<Event> {
    [RegisterInterrupt([SessionCommand, XorgServer]), StartClient(cmd)] +
    if w.clientPid.None? then [Interrupt(XorgServer), Wait(XorgServer), Abort] else []
  }

  /** After the client ends: Xorg is interrupted and waited for, the authority file removed, the utmp entry ended. */
  function XCleanupTrace(xauth: string): seq<Event> {
    [Wait(SessionCommand), Interrupt(XorgServer), Wait(XorgServer), RemoveFile(xauth), UtmpEnd]
  }

  /** The X client's part of `startX`: the command, the client, and the cleanup after it. */
  function ClientTrace(uid: int, cmd: Option<Command>, xauth: string, w: World): seq<Event> {
    LaunchTrace(uid, cmd) +
    if cmd.Some? then XClientTrace(cmd.value, w) + (if w.clientPid.Some? then XCleanupTrace(xauth) else []) else []
  }

  /** The effects of `startX`, given the account, tty, configured Xorg arguments and runtime directory. */
  function XTrace(a: Account, tty: string, xorgArgs: string, runtimeDir: string, d: Desktop, xinitrcLaunch: bool,
                  wrapper: string, w: World, files: map<string, FileKind>): seq<Event> {
    var display := DisplayName(FreeDisplay(files));
    var xauth := XauthPath(runtimeDir);
    ServerTrace(xauth, display, XorgArgs(tty, display, xorgArgs), a.username, tty, w) +
    if ServerUp(w) then
      ClientTrace(a.uid, PreparedCommand(a, d, xinitrcLaunch, wrapper, w, ServerFiles(xauth, w, files)), xauth, w)
    else []
  }

  /** Every step of `startX` succeeds. */
  predicate XOk(a: Account, d: Desktop, xinitrcLaunch: bool, wrapper: string, runtimeDir: string, w: World,
                files: map<string, FileKind>) {
    ServerUp(w)
    && PreparedCommand(a, d, xinitrcLaunch, wrapper, w, ServerFiles(XauthPath(runtimeDir), w, files)).Some?
    && w.clientPid.Some?
  }

  lemma ServerTraceAborts(xauth: string, display: string, args: seq<string>, username: string, tty: string, w: World)
    ensures var t := ServerTrace(xauth, display, args, username, tty, w);
      AbortOnlyLast(t) && (Aborts(t) <==> !ServerUp(w))
  {
    GuardedAborts(AuthorityTrace(xauth, display, w), XorgTrace(args, username, tty, display, w), w.cookieOk && w.xauthOk);
  }

  lemma LaunchTraceAborts(uid: int, cmd: Option<Command>)
    ensures var t := LaunchTrace(uid, cmd);
      AbortOnlyLast(t) && (Aborts(t) <==> cmd.None?)
  {
  }

  lemma ClientTraceAborts(uid: int, cmd: Option<Command>, xauth: string, w: World)
    ensures var t := ClientTrace(uid, cmd, xauth, w);
      AbortOnlyLast(t) && (Aborts(t) <==> cmd.None? || w.clientPid.None?)
  {
    LaunchTraceAborts(uid, cmd);
    if cmd.Some? {
      var client := XClientTrace(cmd.value, w);
      GuardedAborts(client, XCleanupTrace(xauth), w.clientPid.Some?);
      GuardedAborts(LaunchTrace(uid, cmd), client + (if w.clientPid.Some? then XCleanupTrace(xauth) else []), true);
    } else {
      GuardedAborts(LaunchTrace(uid, cmd), [], false);
    }
  }

  /** `startX` stops the program exactly when one of its steps fails, and nothing follows the stop. */
  lemma XTraceAborts(a: Account, tty: string, xorgArgs: string, runtimeDir: string, d: Desktop, xinitrcLaunch: bool,
                     wrapper: string, w: World, files: map<string, FileKind>)
    ensures var t := XTrace(a, tty, xorgArgs, runtimeDir, d, xinitrcLaunch, wrapper, w, files);
      AbortOnlyLast(t) && (Aborts(t) <==> !XOk(a, d, xinitrcLaunch, wrapper, runtimeDir, w, files))
  {
    var display := DisplayName(FreeDisplay(files));
    var xauth := XauthPath(runtimeDir);
    var args := XorgArgs(tty, display, xorgArgs);
    var cmd := PreparedCommand(a, d, xinitrcLaunch, wrapper, w, ServerFiles(xauth, w, files));
    ServerTraceAborts(xauth, display, args, a.username, tty, w);
    ClientTraceAborts(a.uid, cmd, xauth, w);
    GuardedAborts(ServerTrace(xauth, display, args, a.username, tty, w), ClientTrace(a.uid, cmd, xauth, w), ServerUp(w));
  }

  /** The server steps when every one of them succeeds. */
  lemma ServerTraceUp(xauth: string, display: string, args: seq<string>, username: string, tty: string, w: World)
    requires ServerUp(w)
    ensures ServerTrace(xauth, display, args, username, tty, w) ==
      [RemoveFile(xauth), GenerateCookie, AddXauth(display), StartXorg(args), OpenXDisplay(display),
       UtmpAdd(username, w.xorgPid.value, tty, display)]
  {
    assert AuthorityTrace(xauth, display, w) == [RemoveFile(xauth), GenerateCookie, AddXauth(display)];
    assert XorgTrace(args, username, tty, display, w) ==
      [StartXorg(args), OpenXDisplay(display), UtmpAdd(username, w.xorgPid.value, tty, display)];
  }

  /** The client steps of `startX` when the command is built and the client starts. */
  lemma ClientTraceRuns(uid: int, cmd: Option<Command>, xauth: string, w: World)
    requires cmd.Some? && w.clientPid.Some?
    ensures ClientTrace(uid, cmd, xauth, w) ==
      [Getent(Itoa(uid)), RegisterInterrupt([SessionCommand, XorgServer]), StartClient(cmd.value)] + XCleanupTrace(xauth)
  {
    assert XClientTrace(cmd.value, w) == [RegisterInterrupt([SessionCommand, XorgServer]), StartClient(cmd.value)];
  }

  /** The client steps of `startX` when the command is built but the client does not start. */
  lemma ClientTraceFails(uid: int, cmd: Option<Command>, xauth: string, w: World)
    requires cmd.Some? && w.clientPid.None?
    ensures ClientTrace(uid, cmd, xauth, w) ==
      [Getent(Itoa(uid)), RegisterInterrupt([SessionCommand, XorgServer]), StartClient(cmd.value),
       Interrupt(XorgServer), Wait(XorgServer), Abort]
  {
  }

  /**
   * The order of a successful `startX`: the stale authority file is removed before the cookie is made;
   * then the authority entry, Xorg, the display and the utmp entry; then the shell lookup, the
   * handlers (client first, then Xorg) and the client; after the client ends, Xorg is interrupted and
   * waited for, the authority file removed and the utmp entry ended, in that order and last.
   */
  lemma XTraceOrder(a: Account, tty: string, xorgArgs: string, runtimeDir: string, d: Desktop, xinitrcLaunch: bool,
                    wrapper: string, w: World, files: map<string, FileKind>)
    requires XOk(a, d, xinitrcLaunch, wrapper, runtimeDir, w, files)
    ensures var display := DisplayName(FreeDisplay(files));
      var xauth := XauthPath(runtimeDir);
      var cmd := PreparedCommand(a, d, xinitrcLaunch, wrapper, w, ServerFiles(xauth, w, files)).value;
      XTrace(a, tty, xorgArgs, runtimeDir, d, xinitrcLaunch, wrapper, w, files) ==
        [RemoveFile(xauth), GenerateCookie, AddXauth(display), StartXorg(XorgArgs(tty, display, xorgArgs)),
         OpenXDisplay(display), UtmpAdd(a.username, w.xorgPid.value, tty, display)] +
        [Getent(Itoa(a.uid)), RegisterInterrupt([SessionCommand, XorgServer]), StartClient(cmd)] +
        [Wait(SessionCommand), Interrupt(XorgServer), Wait(XorgServer), RemoveFile(xauth), UtmpEnd]
  {
    var display := DisplayName(FreeDisplay(files));
    var xauth := XauthPath(runtimeDir);
    var cmd := PreparedCommand(a, d, xinitrcLaunch, wrapper, w, ServerFiles(xauth, w, files));
    ServerTraceUp(xauth, display, XorgArgs(tty, display, xorgArgs), a.username, tty, w);
    ClientTraceRuns(a.uid, cmd, xauth, w);
  }

  /**
   * When everything up to the client works but the client does not start, Xorg is interrupted and
   * waited for, then the program stops — without removing the authority file or ending the utmp entry.
   */
  lemma XClientFailure(a: Account, tty: string, xorgArgs: string, runtimeDir: string, d: Desktop, xinitrcLaunch: bool,
                       wrapper: string, w: World, files: map<string, FileKind>)
    requires ServerUp(w) && w.clientPid.None?
    requires PreparedCommand(a, d, xinitrcLaunch, wrapper, w, ServerFiles(XauthPath(runtimeDir), w, files)).Some?
    ensures var cmd := PreparedCommand(a, d, xinitrcLaunch, wrapper, w, ServerFiles(XauthPath(runtimeDir), w, files)).value;
      var display := DisplayName(FreeDisplay(files));
      var xauth := XauthPath(runtimeDir);
      XTrace(a, tty, xorgArgs, runtimeDir, d, xinitrcLaunch, wrapper, w, files) ==
        [RemoveFile(xauth), GenerateCookie, AddXauth(display), StartXorg(XorgArgs(tty, display, xorgArgs)),
         OpenXDisplay(display), UtmpAdd(a.username, w.xorgPid.value, tty, display)] +
        [Getent(Itoa(a.uid)), RegisterInterrupt([SessionCommand, XorgServer]), StartClient(cmd),
         Interrupt(XorgServer), Wait(XorgServer), Abort]
  {
    var display := DisplayName(FreeDisplay(files));
    var xauth := XauthPath(runtimeDir);
    var cmd := PreparedCommand(a, d, xinitrcLaunch, wrapper, w, ServerFiles(xauth, w, files));
    ServerTraceUp(xauth, display, XorgArgs(tty, display, xorgArgs), a.username, tty, w);
    ClientTraceFails(a.uid, cmd, xauth, w);
  }

  // ---------------------------------------------------------------------------------------------
  // startWayland

  /**
   * The handler is registered for the compositor and the compositor started; only then is a utmp
   * entry added, with no display, and it is ended after the compositor is waited for.
   */
  function WaylandRunTrace(cmd: Command, username: string, tty: string, w: World): seq<Event> {
    [RegisterInterrupt([SessionCommand]), StartClient(cmd)] +
    if w.clientPid.None? then [Abort]
    else [UtmpAdd(username, w.clientPid.value, tty, ""), Wait(SessionCommand), UtmpEnd]
  }

  /** The effects of `startWayland`, given the command `prepareGuiCommand` returns. */
  function WaylandTrace(uid: int, username: string, tty: string, cmd: Option<Command>, w: World): seq<Event> {
    LaunchTrace(uid, cmd) + if cmd.Some? then WaylandRunTrace(cmd.value, username, tty, w) else []
  }

  lemma WaylandRunTraceAborts(cmd: Command, username: string, tty: string, w: World)
    ensures var t := WaylandRunTrace(cmd, username, tty, w);
      AbortOnlyLast(t) && (Aborts(t) <==> w.clientPid.None?)
  {
  }

  /** `startWayland` stops the program exactly when no command is built or it does not start. */
  lemma WaylandTraceAborts(uid: int, username: string, tty: string, cmd: Option<Command>, w: World)
    ensures var t := WaylandTrace(uid, username, tty, cmd, w);
      AbortOnlyLast(t) && (Aborts(t) <==> cmd.None? || w.clientPid.None?)
  {
    LaunchTraceAborts(uid, cmd);
    if cmd.Some? {
      WaylandRunTraceAborts(cmd.value, username, tty, w);
      GuardedAborts(LaunchTrace(uid, cmd), WaylandRunTrace(cmd.value, username, tty, w), true);
    } else {
      GuardedAborts(LaunchTrace(uid, cmd), [], false);
    }
  }

  /** A Wayland session uses no X display, adds its utmp entry after the start and ends it after the wait. */
  lemma WaylandOrder(uid: int, username: string, tty: string, cmd: Option<Command>, w: World)
    requires cmd.Some? && w.clientPid.Some?
    ensures WaylandTrace(uid, username, tty, cmd, w) ==
      [Getent(Itoa(uid)), RegisterInterrupt([SessionCommand]), StartClient(cmd.value),
       UtmpAdd(username, w.clientPid.value, tty, ""), Wait(SessionCommand), UtmpEnd]
  {
  }

  // ---------------------------------------------------------------------------------------------
  // Start

  /**
   * The settings `Start` uses: the PAM service and default user, the tty as text, the Xorg arguments,
   * whether `~/.xinitrc` may be launched, the session wrapper and the start script.
   */
  datatype SessionConf = SessionConf(
    pamService: string,
    defaultUser: string,
    tty: string,
    xorgArgs: string,
    xinitrcLaunch: bool,
    sessionWrapper: string,
    displayStartScript: string)

  /** The display-server part of `Start`. */
  function DisplayTrace(c: SessionConf, a: Account, d: Desktop, w: World, files: map<string, FileKind>): seq<Event> {
    if d.env == Xorg then
      XTrace(a, c.tty, c.xorgArgs, RuntimeDir(a.uid), d, c.xinitrcLaunch, c.sessionWrapper, w, files)
    else
      WaylandTrace(a.uid, a.username, c.tty, PreparedCommand(a, d, c.xinitrcLaunch, c.sessionWrapper, w, files), w)
  }

  /** Every step of the display server succeeds. */
  predicate DisplayOk(c: SessionConf, a: Account, d: Desktop, w: World, files: map<string, FileKind>) {
    if d.env == Xorg then XOk(a, d, c.xinitrcLaunch, c.sessionWrapper, RuntimeDir(a.uid), w, files)
    else PreparedCommand(a, d, c.xinitrcLaunch, c.sessionWrapper, w, files).Some? && w.clientPid.Some?
  }

  /** The start script, then the display server. */
  function RunTrace(c: SessionConf, a: Account, d: Desktop, w: World, files: map<string, FileKind>): seq<Event> {
    ScriptTrace(c.displayStartScript, w.executables) + DisplayTrace(c, a, d, w, files)
  }

  /** The session ends: normally, or with the program stopping. */
  predicate Ends(t: seq<Event>) {
    |t| > 0 && (t[|t| - 1] == SessionDone || t[|t| - 1] == Abort)
  }

  /** An effect that starts part of the desktop: the start script, Xorg, or a session command. */
  predicate StartsDesktop(e: Event) {
    e.RunScript? || e.StartXorg? || e.StartClient?
  }

  /** The display server stops the program exactly when one of its steps fails, and nothing follows the stop. */
  lemma DisplayTraceAborts(c: SessionConf, a: Account, d: Desktop, w: World, files: map<string, FileKind>)
    ensures var t := DisplayTrace(c, a, d, w, files);
      AbortOnlyLast(t) && (Aborts(t) <==> !DisplayOk(c, a, d, w, files))
  {
    if d.env == Xorg {
      XTraceAborts(a, c.tty, c.xorgArgs, RuntimeDir(a.uid), d, c.xinitrcLaunch, c.sessionWrapper, w, files);
    } else {
      WaylandTraceAborts(a.uid, a.username, c.tty, PreparedCommand(a, d, c.xinitrcLaunch, c.sessionWrapper, w, files), w);
    }
  }

  /** The start script never stops the program; an abort of the display server is the last effect. */
  lemma RunTraceAborts(c: SessionConf, a: Account, d: Desktop, w: World, files: map<string, FileKind>)
    ensures var t := RunTrace(c, a, d, w, files);
      AbortOnlyLast(t) && (Aborts(t) <==> !DisplayOk(c, a, d, w, files))
  {
    var script := ScriptTrace(c.displayStartScript, w.executables);
    var disp := DisplayTrace(c, a, d, w, files);
    DisplayTraceAborts(c, a, d, w, files);
    PrefixAbortOnlyLast(script, disp);
  }

  /** `desktopSelect` for an authenticated user: the chooser when needed, then the environment. */
  function SelectEnvTrace(a: Account, w: World, files: map<string, FileKind>, loaded: Option<Desktop>): seq<Event> {
    SelectTrace(loaded) + EnvTrace(a, w, files)
  }

  /**
   * `Start` after `desktopSelect`: the environment again; once it is built, the start script and the
   * display server; once that succeeds, the end of the session.
   */
  function OpenTrace(c: SessionConf, a: Account, d: Desktop, w: World, files: map<string, FileKind>): seq<Event> {
    EnvTrace(a, w, files) +
    if EnvOk(a, w, files) then
      RunTrace(c, a, d, w, EnvFiles(a, w, files)) + (if DisplayOk(c, a, d, w, EnvFiles(a, w, files)) then [SessionDone] else [])
    else []
  }

  /** The part after `desktopSelect` goes through. */
  predicate OpenOk(c: SessionConf, a: Account, d: Desktop, w: World, files: map<string, FileKind>) {
    EnvOk(a, w, files) && DisplayOk(c, a, d, w, EnvFiles(a, w, files))
  }

  /** `Start` after the session was opened for account `a`. */
  function SessionTrace(c: SessionConf, a: Account, w: World, files: map<string, FileKind>, choice: DesktopChoice): seq<Event> {
    SelectEnvTrace(a, w, files, choice.loaded) +
    if EnvOk(a, w, files) then OpenTrace(c, a, ResolveDesktop(choice.loaded, choice.chosen), w, EnvFiles(a, w, files)) else []
  }

  /** The session of account `a` goes through. */
  predicate SessionOk(c: SessionConf, a: Account, w: World, files: map<string, FileKind>, choice: DesktopChoice) {
    EnvOk(a, w, files) && OpenOk(c, a, ResolveDesktop(choice.loaded, choice.chosen), w, EnvFiles(a, w, files))
  }

  /**
   * The effects of `Start` from the configuration, this process's pid, the system's answers, the file
   * system, PAM's outcome and the desktop choice: authentication; when PAM did not open the session
   * and did not stop the program (it did not start), the missing user stops it in `desktopSelect`;
   * otherwise desktop selection with the environment, the environment again, the start script, the
   * display server, and the end of the session.
   */
  function StartTrace(c: SessionConf, pid: int, w: World, files: map<string, FileKind>, o: PamOutcome,
                      choice: DesktopChoice): seq<Event> {
    AuthTrace(c.pamService, c.defaultUser, c.tty, pid, o) +
    if Opens(o) then SessionTrace(c, o.account, w, files, choice)
    else if o.startOk then []
    else [Abort]
  }

  /** `Start` goes through. */
  predicate StartOk(c: SessionConf, w: World, files: map<string, FileKind>, o: PamOutcome, choice: DesktopChoice) {
    Opens(o) && SessionOk(c, o.account, w, files, choice)
  }

  /**
   * After desktop selection the session ends, and it stops exactly when building the environment
   * again or the display server fails.
   */
  lemma OpenTraceEnds(c: SessionConf, a: Account, d: Desktop, w: World, files: map<string, FileKind>)
    ensures var t := OpenTrace(c, a, d, w, files);
      AbortOnlyLast(t) && Ends(t) && (Aborts(t) <==> !OpenOk(c, a, d, w, files))
  {
    var env := EnvTrace(a, w, files);
    EnvTraceAborts(a, w, files);
    if EnvOk(a, w, files) {
      var files1 := EnvFiles(a, w, files);
      var run := RunTrace(c, a, d, w, files1);
      RunTraceAborts(c, a, d, w, files1);
      GuardedAborts(run, [SessionDone], DisplayOk(c, a, d, w, files1));
      GuardedAborts(env, run + (if DisplayOk(c, a, d, w, files1) then [SessionDone] else []), true);
    } else {
      GuardedAborts(env, [], false);
    }
  }

  /** The part of `Start` after authentication ends, and it stops exactly when it does not go through. */
  lemma SessionTraceEnds(c: SessionConf, a: Account, w: World, files: map<string, FileKind>, choice: DesktopChoice)
    ensures var t := SessionTrace(c, a, w, files, choice);
      AbortOnlyLast(t) && Ends(t) && (Aborts(t) <==> !SessionOk(c, a, w, files, choice))
  {
    var d := ResolveDesktop(choice.loaded, choice.chosen);
    var sel := SelectEnvTrace(a, w, files, choice.loaded);
    EnvTraceAborts(a, w, files);
    PrefixAbortOnlyLast(SelectTrace(choice.loaded), EnvTrace(a, w, files));
    OpenTraceEnds(c, a, d, w, EnvFiles(a, w, files));
    GuardedAborts(sel, OpenTrace(c, a, d, w, EnvFiles(a, w, files)), EnvOk(a, w, files));
  }

  /**
   * However the session goes, it ends either with the end of the session or with the program
   * stopping, an abort is always the last effect, and it stops exactly when `Start` does not go through.
   */
  lemma StartTraceEnds(c: SessionConf, pid: int, w: World, files: map<string, FileKind>, o: PamOutcome, choice: DesktopChoice)
    ensures var t := StartTrace(c, pid, w, files, o, choice);
      AbortOnlyLast(t) && Ends(t) && (Aborts(t) <==> !StartOk(c, w, files, o, choice))
  {
    var auth := AuthTrace(c.pamService, c.defaultUser, c.tty, pid, o);
    AuthTraceSpec(c.pamService, c.defaultUser, c.tty, pid, o);
    AbortsIffIn(auth);
    if Opens(o) {
      var rest := SessionTrace(c, o.account, w, files, choice);
      SessionTraceEnds(c, o.account, w, files, choice);
      GuardedAborts(auth, rest, true);
    } else if o.startOk {
      GuardedAborts(auth, [], false);
    } else {
      GuardedAborts(auth, [Abort], true);
    }
  }

  /** When PAM opened the session, authentication ended by opening it, and the session's part follows. */
  lemma StartTraceOpened(c: SessionConf, pid: int, w: World, files: map<string, FileKind>, o: PamOutcome,
                         choice: DesktopChoice)
    requires Opens(o)
    ensures var auth := AuthTrace(c.pamService, c.defaultUser, c.tty, pid, o);
      && auth == [PamStart(c.pamService, c.defaultUser), PamAuthenticate, PamAcctMgmt, PamSetTty("tty" + c.tty), PamOpenSession]
      && StartTrace(c, pid, w, files, o, choice) == auth + SessionTrace(c, o.account, w, files, choice)
  {
    assert AuthTrace(c.pamService, c.defaultUser, c.tty, pid, o) ==
      [PamStart(c.pamService, c.defaultUser), PamAuthenticate, PamAcctMgmt, PamSetTty("tty" + c.tty), PamOpenSession];
  }

  /** Authentication starts nothing of the desktop. */
  lemma AuthStartsNothing(service: string, defaultUser: string, tty: string, pid: int, o: PamOutcome)
    ensures forall e :: e in AuthTrace(service, defaultUser, tty, pid, o) ==> !StartsDesktop(e)
  {
  }

  /** Unless PAM opened the session, nothing of the desktop runs. */
  lemma StartTraceNeedsOpenSession(c: SessionConf, pid: int, w: World, files: map<string, FileKind>, o: PamOutcome,
                                   choice: DesktopChoice)
    requires !Opens(o)
    ensures forall e :: e in StartTrace(c, pid, w, files, o, choice) ==> !StartsDesktop(e)
  {
    var auth := AuthTrace(c.pamService, c.defaultUser, c.tty, pid, o);
    AuthStartsNothing(c.pamService, c.defaultUser, c.tty, pid, o);
    if !o.startOk {
      forall e | e in auth + [Abort]
        ensures !StartsDesktop(e)
      {
        if e != Abort {
          assert e in auth;
        }
      }
    } else {
      assert StartTrace(c, pid, w, files, o, choice) == auth;
    }
  }

  /**
   * The session ends normally exactly when the program never stopped, and that needs PAM to have
   * opened the session.
   */
  lemma StartTraceDoneIffNoAbort(c: SessionConf, pid: int, w: World, files: map<string, FileKind>, o: PamOutcome,
                                 choice: DesktopChoice)
    ensures var t := StartTrace(c, pid, w, files, o, choice);
      && |t| > 0
      && (t[|t| - 1] == SessionDone <==> Abort !in t)
      && (Abort !in t ==> Opens(o) && PamOpenSession in t)
  {
    var t := StartTrace(c, pid, w, files, o, choice);
    StartTraceEnds(c, pid, w, files, o, choice);
    AbortsIffIn(t);
    if Opens(o) {
      StartTraceOpened(c, pid, w, files, o, choice);
      assert t[4] == PamOpenSession;
    }
  }

  /** Once the environment is built and the display server succeeds, the part after selection runs through. */
  lemma OpenTraceRuns(c: SessionConf, a: Account, d: Desktop, w: World, files: map<string, FileKind>)
    requires OpenOk(c, a, d, w, files)
    ensures OpenTrace(c, a, d, w, files) == EnvTrace(a, w, files) + RunTrace(c, a, d, w, EnvFiles(a, w, files)) + [SessionDone]
  {
    AppendAssoc(EnvTrace(a, w, files), RunTrace(c, a, d, w, EnvFiles(a, w, files)), [SessionDone]);
  }

  /**
   * When every step goes through, `Start` is: authentication, desktop selection with the environment,
   * the environment again (now only the shell lookup and entering home), the start script and the
   * display server, and the end of the session.
   */
  lemma StartTraceInOrder(c: SessionConf, pid: int, w: World, files: map<string, FileKind>, o: PamOutcome,
                          choice: DesktopChoice)
    requires StartOk(c, w, files, o, choice)
    ensures var a := o.account;
      StartTrace(c, pid, w, files, o, choice) ==
        AuthTrace(c.pamService, c.defaultUser, c.tty, pid, o) + SelectTrace(choice.loaded) + EnvTrace(a, w, files) +
        [Getent(Itoa(a.uid)), Chdir(a.homedir)] +
        RunTrace(c, a, ResolveDesktop(choice.loaded, choice.chosen), w, EnvFiles(a, w, files)) + [SessionDone]
  {
    var a := o.account;
    var files1 := EnvFiles(a, w, files);
    var d := ResolveDesktop(choice.loaded, choice.chosen);
    EnvAgain(a, w, files);
    OpenTraceRuns(c, a, d, w, files1);
    StartTraceOpened(c, pid, w, files, o, choice);
    Flatten(AuthTrace(c.pamService, c.defaultUser, c.tty, pid, o), SelectTrace(choice.loaded), EnvTrace(a, w, files),
      [Getent(Itoa(a.uid)), Chdir(a.homedir)], RunTrace(c, a, d, w, files1), [SessionDone]);
  }
}
