# emptty, modelled in Dafny

emptty is a display manager for the Linux console. It has three jobs:

- It reads its configuration from `/etc/emptty.conf` and the drop-in directory `/etc/emptty.d`, then from the command line.
- It authenticates a user with PAM, resolves the desktop to start, and builds the user's environment.
- It starts the desktop in one of two ways. An X desktop gets a fresh Xorg server, an X authority cookie and a utmp entry. A Wayland desktop runs as a compositor. The session is cleaned up when it ends.

This project models that sequential core and proves its promises:

- the configuration defaults and the "overwrite only when present (and parsable)" loading rules;
- the drop-in filename filter and last-writer-wins merging;
- the command-line scan and the version string;
- the environment the session receives and the command line that starts the desktop;
- the display search, the interrupt order and the display-script guard;
- the PAM conversation and call sequence;
- the exact order of every external effect of a session, including what happens when a step fails.

External effects are values. A `Host` object (module `Os`) holds three things:

- the display manager's own environment;
- the file system, reduced to which paths exist and whether they are directories;
- an ordered trace of `Event`s: PAM calls, accounting records, processes started, signalled and waited for.

Answers the model does not compute are given as fixed outcomes:

- a `World`: the `getent` output, `mcookie`/`xauth` success, the Xorg pid, the X display, whether the client starts, and which paths are executable;
- a `PamOutcome`, for PAM;
- a `DesktopChoice`, for the saved and chosen desktop.

`handleErr`, `handleStrErr` and a panic end the program. In the trace they are an `Abort` event; the method then returns `ok == false` and nothing more happens. Every stateful operation is a method proved against a trace function (`StartTrace`, `XTrace`, `EnvTrace`, …). The lemmas about those functions state the orderings, the failure behaviour and the success conditions.

Modules, in dependency order:

- `Wrappers`: Option.
- `Text`: the Go `strconv`/`strings` functions the code uses.
- `Config`: `src/config.go`.
- `Emptty`: `src/emptty.go`.
- `Os`: the host and the trace.
- `Entities`: desktop, account and user.
- `AuthPam`: `src/auth_pam.go`.
- `Login`: `src/login.go`.
- `SessionTraces`: the traces of `src/session.go` and their properties.
- `Session`: the `BaseSession` class.

Where the code and the design description of the system disagree, the model follows the code:

- **Autologin prompts.** The design says autologin answers prompts "with pre-accepted responses". In the code, both echo prompts `break` out of the `switch` under autologin and return the "unrecognized message style" error (`src/auth_pam.go:32-35`, `42-45`, `63`). `AuthPam.Converse` and `AuthPam.AutologinIgnoresInput` state this.
- **Cleanup after a failure in `startX`.** The design says every step after the display server starts still cleans up: interrupt Xorg, remove the authority file, close the accounting entry.
  - When the X display does not open, the code stops the program without interrupting Xorg (`src/session.go:97`).
  - When the client does not start, the code interrupts and waits for Xorg, then stops, removing neither the authority file nor the utmp entry (`src/session.go:110-115`).
  - `SessionTraces.XClientFailure` states the second case exactly.
- **Side effects of the environment builder.** The design calls it a pure builder. `defineEnvironment` also runs `getent`, creates and chowns the runtime directory, and changes directory (`src/login.go:98-111`). `Start` runs it twice: once inside `desktopSelect` and once more itself (`src/session.go:46`, `168`). `Login.EnvAgain` and `Login.DefinedEnvIdempotent` show that the second run only repeats the shell lookup, enters the home directory and rewrites the same values.
- **The fallback shell.** The design names a single fallback shell. There are two:
  - `SHELL` falls back to `/usr/bin/bash` (`src/login.go:75-77`);
  - the session command instead falls back to `bash` looked up on `PATH`, and fails when there is none (`src/login.go:133-139`).
- **Closing the session.** `Destory` is defined but nothing in the modelled code calls it, so a normal `Start` never closes the PAM session or runs the stop script.

## Model

| member | source | states |
|---|---|---|
| Config.LoggingKeyword | src/config.go:37-39 | exactly the three keywords "disabled", "appending" and "default" are recognised, each as its own policy |
| Config.SetStringValue | src/config.go:190-198 | a present key always overwrites the field, even with ""; an absent key leaves it unchanged |
| Config.SetBoolValue | src/config.go:159-172 | the field is overwritten only when the key is present and its value parses as a bool; otherwise it keeps its prior value |
| Config.SetIntValue | src/config.go:174-188 | the field is overwritten only when the key is present and its value parses as an int; otherwise it keeps its prior value |
| Config.SetLoggingValue | src/config.go:137-146 | a recognised `LOGGING` keyword sets the policy; an unknown value or an absent key keeps the current policy |
| Config.SwitchLogging | src/config.go:139-146 | the `switch` on the raw text selects the keyword's policy and otherwise keeps the current one |
| Config.Config.NewDefault | src/config.go:81-111 | the defaults: minTty 1; switchTTY, printIssue and dbusLaunch true; logging Default; pamService "emptty"; every other bool false and every other string "". lang is the host's non-empty `LANG`, else "en_US.UTF-8" |
| Config.Loaded | src/config.go:126-155 | loading a section never changes daemon mode |
| Config.LoadedTerminal | src/config.go:126-129 | a section with none of the read keys leaves minTty, pamService, switchTTY and printIssue unchanged |
| Config.LoadedLogin | src/config.go:130-133 | a section with none of the read keys leaves defaultUser, autologin, autologinSession and lang unchanged |
| Config.LoadedLaunch | src/config.go:134-146 | a section with none of the read keys leaves dbusLaunch, xinitrcLaunch, verticalSelection and logging unchanged |
| Config.LoadedDisplay | src/config.go:148-151 | a section with none of the read keys leaves xorgArgs, loggingFile, dynamicMotd and fgColor unchanged |
| Config.LoadedScripts | src/config.go:152-155 | a section with none of the read keys leaves bgColor, the two display scripts and sessionWrapper unchanged |
| Config.AutologinFeedsBoth | src/config.go:131-132 | `AUTOLOGIN` sets autologinSession to its raw text and autologin to its bool value, which is kept when the text does not parse |
| Config.OnlyReadKeysMatter | src/config.go:126-155 | a section holding none of the keys `loadConfig` reads changes nothing |
| Config.AutologinSessionIgnored | src/config.go:126-155 | sections that differ only in `AUTOLOGIN_SESSION` load to the same configuration: the key is never read |
| Config.LoadTerminalKeys | src/config.go:126-129 | updates the config object exactly as `LoadedTerminal` |
| Config.LoadLoginKeys | src/config.go:130-133 | updates the config object exactly as `LoadedLogin` |
| Config.LoadLaunchKeys | src/config.go:134-146 | updates the config object exactly as `LoadedLaunch`, including the `LOGGING` switch on a scratch string |
| Config.LoadDisplayKeys | src/config.go:148-151 | updates the config object exactly as `LoadedDisplay` |
| Config.LoadScriptsKeys | src/config.go:152-155 | updates the config object exactly as `LoadedScripts` |
| Config.LoadConfig | src/config.go:114-157 | one of three outcomes: an unreadable file is an error; a file without an `[emptty]` section is a different error; otherwise the section is applied. Errors leave the config untouched |
| Config.LoadedAll | src/config.go:201-225 | the configuration after the sections of several files are loaded one after another, each over the result of the one before |
| Config.LoadedAllAppend | src/config.go:201-225 | loading one list of sections after another is loading the concatenated list |
| Config.LatestWins | src/config.go:201-225 | among successive overrides the last one present wins; with none the prior value stays |
| Config.LoadedAllKeepsDaemonMode | src/config.go:201-225 | no number of loaded files changes daemon mode |
| Config.LoadedAllTerminalFields | src/config.go:201-225 | after several files, each of minTty, pamService, switchTTY and printIssue holds the value from the last file that sets it |
| Config.LoadedAllLoginFields | src/config.go:201-225 | the same for defaultUser, autologin, autologinSession (from `AUTOLOGIN`) and lang |
| Config.LoadedAllLaunchFields | src/config.go:201-225 | the same for dbusLaunch, xinitrcLaunch, verticalSelection and logging |
| Config.LoadedAllDisplayFields | src/config.go:201-225 | the same for xorgArgs, loggingFile, dynamicMotd and fgColor |
| Config.LoadedAllScriptsFields | src/config.go:201-225 | the same for bgColor, displayStartScript, displayStopScript and sessionWrapper |
| Config.ConfigNameMatches | src/config.go:213-218 | the base names `^\d\d_[\S]*.conf$` accepts: two digits, an underscore, non-space characters, any one character other than a newline, then "conf" at the end |
| Config.ConfigNameAccepts | src/config.go:213-217 | every `NN_<stem>.conf` with two digits and a space-free stem passes the filter |
| Config.ConfigNameWithoutDot | src/config.go:213 | the unescaped dot also admits `10_xconf`; `emptty.conf`, `1_a.conf` and `10_a b.conf` are rejected |
| Config.DirSections | src/config.go:202-223 | the sections the walk loads, in walk order: those of each regular file of `/etc/emptty.d` whose base name passes the filter |
| Config.DirSectionsAppend | src/config.go:202-223 | entries later in the walk contribute their sections after the earlier ones, so they override them |
| Config.DirSectionsSkips | src/config.go:207-219 | a sub-directory or a non-matching name contributes nothing, whatever its content |
| Config.LoadConfigDir | src/config.go:201-225 | walks `/etc/emptty.d` whatever `dir` says, loads each matching regular file over the shared config in order, ignores load errors, and always returns no error |
| Config.ParseTTY | src/config.go:228-234 | the sanitized text as a signed 32-bit decimal, and 0 when it is not one |
| Config.ParseLogging | src/config.go:237-248 | a keyword gives its policy and anything else gives Default |
| Config.UnknownLoggingValue | src/config.go:237-248 | an unknown logging keyword is read differently by the two parsers: `loadConfig` (lines 137-146) keeps the current policy, `parseLogging` returns Default |
| Config.Config.StrTTY | src/config.go:251-253 | the decimal rendering of minTty, which `parseTTY`'s parser reads back to minTty |
| Text.Itoa | src/config.go:252 | `strconv.Itoa`: non-empty digits denoting the number, with a leading '-' exactly for negatives |
| Text.ParseInt32 | src/config.go:229 | `strconv.ParseInt(s, 10, 32)`: results lie in the signed 32-bit range; they need a sign or a digit first; every in-range digit string parses to its value |
| Text.ParseItoa | src/config.go:228-253 | parsing the rendering of any 32-bit integer gives that integer back |
| Text.Split | src/login.go:119 | `strings.Split` on one character: at least one piece, no piece holds the separator, and joining the pieces gives the input back |
| Text.SplitJoin | src/login.go:119 | splitting the join of separator-free pieces gives exactly those pieces |
| Text.TrimSuffix | src/login.go:119 | removes the suffix when the text ends with it, and otherwise returns the text unchanged |
| Text.ContainsAt | src/login.go:146 | a substring occurring at any position makes `strings.Contains` true |
| Emptty.TtyOverride | src/emptty.go:39-45 | an argument overrides the tty exactly when it is `-t`/`--tty`, a value follows, and `parseTTY(value, "0")` is positive; the override is that positive 32-bit value |
| Emptty.TtyAfter | src/emptty.go:37-49 | minTty after the loop has seen the first n arguments: the last positive `-t` value among them, else the value before the loop |
| Emptty.ScanArgs | src/emptty.go:37-49 | the loop's tty is the tty after every override in order; daemon mode is on when it was already on or a `-d`/`--daemon` occurs |
| Emptty.ParseArgs | src/emptty.go:37-49 | the scan changes only minTty and daemonMode of the configuration, as `ScanArgs` computes them |
| Emptty.LoadAllConfig | src/emptty.go:26-35 | the program exits exactly when the main file has no loadable `[emptty]` section; otherwise the config is the defaults, then the main file, then the drop-in files |
| Emptty.Startup | src/emptty.go:26-49 | the same, followed by the command-line scan |
| Emptty.NoOverrideKeepsTty | src/emptty.go:39-45 | without a positive `-t` value, minTty keeps what the files gave it |
| Emptty.LastPositiveTtyWins | src/emptty.go:37-49 | of several `-t` flags, the last one with a positive value decides minTty |
| Emptty.TtyAfterRange | src/emptty.go:39-45 | after the scan minTty is either its prior value or a positive 32-bit number |
| Emptty.TtyFlagIgnored | src/emptty.go:40-44 | a trailing `-t` without a value, or with a value that is not positive, does nothing |
| Emptty.CommandLineOverridesFiles | src/emptty.go:26-49 | the command line is applied after both file loads: a positive `-t` decides minTty whatever the files say, and `-d` turns daemon mode on |
| Emptty.DaemonModeOnlyFromArgs | src/emptty.go:26-49 | daemon mode is on exactly when the command line has `-d`/`--daemon`; no file sets it |
| Emptty.GetVersion | src/emptty.go:84-99 | "0.5.0" without a build version; otherwise the build version minus its first character, followed by " (tags)" only when the joined tags are non-empty |
| Emptty.JoinTags | src/emptty.go:85-91 | the text the tag builder holds after the given tags: each non-empty tag appended, after ", " once the text is non-empty |
| Emptty.DropLeadingEmpty | src/emptty.go:86-91 | removes exactly the leading empty tags: the result is a suffix of the tags that starts with a non-empty tag |
| Emptty.JoinTagsIsJoin | src/emptty.go:85-91 | the builder loop is `strings.Join(tags, ", ")` over the tags after their leading empty ones |
| Emptty.JoinTagsAllEmpty | src/emptty.go:92-96 | the joined tags are empty exactly when every tag is empty |
| Emptty.JoinTagsNonEmpty | src/emptty.go:87-89 | the builder is non-empty exactly when a non-empty tag has been seen |
| Emptty.JoinTagsSnoc | src/emptty.go:86-91 | one more tag is preceded by ", " exactly when the text so far is non-empty |
| Emptty.EmptyTagSeparators | src/emptty.go:86-91 | for any non-empty tags a and b: two leading empty tags leave b alone, an empty tag after a still adds ", " after it, and a then b is joined as "a, b" |
| Entities.SysUser.FromAccount | src/auth_pam.go:95-98 | the user carries the looked-up account's uid, gid, name and home, with an empty environment |
| AuthPam.ReadLine | src/auth_pam.go:50 | `ReadString('\n')`: when stdin has a newline, the text up to and including the first newline; otherwise an error |
| AuthPam.Converse | src/auth_pam.go:29-64 | the reply to each message style. Error and info messages are answered with "" and no error. A hidden prompt gets the password read, or an error. A visible prompt gets the first input line without its newline, or an error. Under autologin both prompts, like unknown styles, return the unrecognized-style error |
| AuthPam.AutologinIgnoresInput | src/auth_pam.go:31-45 | under autologin no reply depends on the password or the typed input, and every answer is "" |
| AuthPam.AuthTrace | src/auth_pam.go:25-99 | the effects of `authUser` for a PAM outcome: start, then each call in turn until one fails, with the btmp record and the stop a failure causes |
| AuthPam.AuthTraceSpec | src/auth_pam.go:65-93 | the order authenticate → acct-mgmt → set tty "tty"+tty → open session. The session opens only after every check passes. A failed check stops the program and is the last effect. A failed authentication is recorded in btmp for the PAM user, this pid and the tty just before the stop. A failed start returns without stopping |
| AuthPam.PamEnv | src/auth_pam.go:113-120 | every pair of PAM's list is in the user environment, replacing earlier values; without a handle nothing changes |
| AuthPam.Pam.AuthUser | src/auth_pam.go:25-99 | emits the PAM trace above and keeps the handle once the start succeeds. It returns a user exactly when the session opened, carrying the looked-up account. It reports a stop exactly when PAM started but did not open the session |
| AuthPam.Pam.CloseAuth | src/auth_pam.go:102-110 | closes an open session once and clears the handle; with no handle it does nothing, so a second call emits nothing |
| AuthPam.Pam.DefineSpecificEnvVariables | src/auth_pam.go:113-120 | the loop copies every PAM variable into the user environment, and nothing without a handle |
| Login.ShellLookup | src/login.go:115-127 | the program stops exactly when getent fails or its line has fewer than seven fields. The shell is the seventh field when that path exists and is not a directory, else "" |
| Login.ShellOfEntry | src/login.go:116-126 | for a well-formed newline-ended passwd line, the lookup yields its seventh field when the file is usable and "" otherwise |
| Login.ShellTrace | src/login.go:115-127 | the effects of `getUserShell`: getent for the uid, followed by a stop exactly when the lookup fails |
| Login.GetUserShell | src/login.go:115-127 | runs getent for the uid, stops the program exactly when the lookup fails, and otherwise returns the lookup's shell |
| Login.FixedEnvAt | src/login.go:66-73 | the fixed writes give each fixed key its value and leave every other key alone |
| Login.SessionEnvAt | src/login.go:74-94 | the writes after the shell lookup give each written key its value and leave every other key alone |
| Login.DefinedEnv | src/login.go:63-94 | the environment `defineEnvironment` builds: PAM's variables over the old ones, then the fixed account variables, then the shell, language, path, desktop and D-Bus variables |
| Login.DefinedEnvAt | src/login.go:63-94 | key by key: fixed and session keys get their values whatever PAM said; every other key is PAM's value, else the earlier one |
| Login.FixedValues | src/login.go:66-73 | HOME and PWD are the home directory; USER and LOGNAME the user name; XDG_CONFIG_HOME home+"/.config"; XDG_RUNTIME_DIR "/run/user/"+uid; XDG_SEAT "seat0"; XDG_SESSION_CLASS "user" |
| Login.DefinedEnvShellLangPath | src/login.go:74-80 | SHELL is the looked-up shell, or "/usr/bin/bash" for ""; LANG is the configured language; PATH is the host's, "" when unset |
| Login.DefinedEnvDesktopNames | src/login.go:82-88 | both desktop-name keys are the desktop's name, else its child's non-empty name; otherwise neither key is written |
| Login.DefinedEnvDbus | src/login.go:90-94 | the D-Bus address is the host's when non-empty there; otherwise whatever PAM gave, and absent when nothing did: it is never invented |
| Login.DefinedEnvIdempotent | src/login.go:63-94 | building the environment again from its own result with the same inputs changes nothing |
| Login.DefinedEnvRuntimeAndPwd | src/login.go:66-71 | the built environment's runtime directory is "/run/user/"+uid and its PWD is the home directory |
| Login.ShellTraceAborts | src/login.go:116-120 | the shell lookup stops the program exactly when it fails, as its last effect |
| Login.EnvTraceAborts | src/login.go:63-112 | `defineEnvironment` stops the program exactly when the shell lookup fails or the missing runtime directory cannot be made; the stop is last |
| Login.EnvAgain | src/login.go:98-111 | once the runtime directory exists, building the environment again only runs getent and enters the home directory |
| Login.SetFixedVariables | src/login.go:66-73 | the user environment is updated by exactly the fixed writes |
| Login.SetSessionVariables | src/login.go:74-94 | the user environment is updated by exactly the writes after the shell lookup |
| Login.EnterRuntime | src/login.go:98-111 | a missing runtime directory is made, then chowned, and a failure to make it stops the program; then the home directory is entered. Success is exactly "it existed or mkdir works" |
| Login.EnvTrace | src/login.go:63-112 | the effects of `defineEnvironment`: the shell lookup, then, when it works, the runtime directory steps and entering the home directory |
| Login.WriteEnvironment | src/login.go:63-94 | PAM's variables, then the fixed ones, then the shell lookup and the session variables; it stops exactly when the lookup fails |
| Login.DefineEnvironment | src/login.go:63-112 | the environment is `DefinedEnv` of the inputs, the file system gains the runtime directory, and the effects are `EnvTrace`; it succeeds exactly when `EnvOk` |
| Login.StrExec | src/login.go:182-187 | (exec, true) when exec is non-empty, else (path, false) |
| Login.SessionExec | src/login.go:141-162 | a chosen child under a selection runs as path+" "+child exec, with no prefix. Otherwise "~/.xinitrc " is prefixed only for Xorg with xinitrcLaunch, a non-empty exec, no ".xinitrc" in it and the file present; then the wrapper+" " is prefixed when one is configured |
| Login.SessionExecEndsWithDesktop | src/login.go:143-162 | outside a selection, the desktop's exec line or path is always the tail of the command line |
| Login.NoDoubleXinitrc | src/login.go:146-150 | an exec line that already mentions `.xinitrc`, a desktop with only a path, or a Wayland desktop is never prefixed |
| Login.GuiCommand | src/login.go:132-176 | the command is the shell, or else `bash` from PATH, with arguments `--login -c <command line>`; there is none when neither shell exists |
| Login.PreparedCommand | src/login.go:130-179 | the command `prepareGuiCommand` builds: none when the shell lookup fails, else the shell (or `bash` from PATH) with the session command line |
| Login.PrepareGuiCommand | src/login.go:130-179 | the shell lookup trace; a stop exactly when the lookup fails; otherwise the command `PreparedCommand` describes |
| Login.FirstFreeFrom | src/login.go:191-197 | the loop from index i on: either the least index below 32 that is not locked, with every index before it locked, or 0 when every index from i to 31 is locked |
| Login.FreeDisplay | src/login.go:190-198 | the least display in [0,32) without `/tmp/.X<i>-lock`, or 0 when all 32 exist |
| Login.GetFreeXDisplay | src/login.go:190-198 | the loop's early return gives `FreeDisplay` |
| Login.InterruptTrace | src/login.go:211-214 | two effects per registered process |
| Login.InterruptTraceOrder | src/login.go:211-214 | the k-th registered process is interrupted at step 2k and waited for at step 2k+1, one at a time, in registration order |
| Login.HandleInterrupt | src/login.go:208-215 | once the signal arrives, the loop emits exactly the interrupt trace |
| Login.ScriptTrace | src/login.go:218-229 | a display script runs exactly when it is configured and executable, at most once; its failure is not an abort |
| Login.RunDisplayScript | src/login.go:218-229 | emits exactly the script trace |
| SessionTraces.ResolveDesktop | src/session.go:30-40 | a loaded desktop that is not a selection is kept as it is |
| SessionTraces.ResolveDesktopRunsChosen | src/session.go:32-40 | when the chooser runs, either the chosen desktop is used, or the loaded selection node is kept with the chosen desktop as its child and the child's display server |
| SessionTraces.ChosenLang | src/session.go:42-44 | a non-empty user language replaces the configured one; an empty one keeps it |
| SessionTraces.XorgArgs | src/session.go:80-85 | `vt<tty>` and the display, then the configured arguments split at single spaces, only when some are configured |
| SessionTraces.XTrace | src/session.go:50-133 | the effects of `startX`: the server steps on the first free display, then, when the server is up, the client steps |
| SessionTraces.WaylandTrace | src/session.go:135-161 | the effects of `startWayland`: the command preparation, then, when a command is built, the compositor steps |
| SessionTraces.DisplayTrace | src/session.go:171-176 | the display server `Start` picks: `startX` for an Xorg desktop and `startWayland` otherwise |
| SessionTraces.OpenTrace | src/session.go:168-177 | the effects after `desktopSelect`: the environment again, then the start script, the display server and the end of the session, each only when the step before did not stop |
| SessionTraces.SessionTrace | src/session.go:166-177 | the effects after authentication: the desktop choice with the first environment, then, when it works, `OpenTrace` for the resolved desktop |
| SessionTraces.StartTrace | src/session.go:163-179 | the effects of `Start`: authentication, then the session when PAM opened it; when PAM started but did not open it, the stop `desktopSelect` reaches without a user |
| SessionTraces.AuthorityFileGone | src/session.go:61-126 | the authority file made for the server and removed at the end was its only change: apart from that file the file system is as before, and the file is gone |
| SessionTraces.ServerTraceAborts | src/session.go:61-101 | the server steps stop the program exactly when the cookie, xauth, Xorg or the display fails, as their last effect |
| SessionTraces.LaunchTraceAborts | src/session.go:104-107 | the command preparation panics exactly when no command is built |
| SessionTraces.ClientTraceAborts | src/session.go:104-131 | the client steps stop the program exactly when no command is built or the client does not start |
| SessionTraces.XTraceAborts | src/session.go:50-133 | `startX` stops the program exactly when one of its steps fails, and nothing follows the stop |
| SessionTraces.ServerTraceUp | src/session.go:61-101 | the server's successful order: remove the stale authority file, make the cookie, add it for the display, start Xorg, open the display, add the utmp entry with Xorg's pid |
| SessionTraces.ClientTraceRuns | src/session.go:104-131 | a started client: shell lookup, handlers (client then Xorg), start, then wait, interrupt and wait Xorg, remove the authority file, end the utmp entry |
| SessionTraces.ClientTraceFails | src/session.go:110-115 | a client that does not start: Xorg is interrupted and waited for before the program stops |
| SessionTraces.XTraceOrder | src/session.go:50-133 | the complete effect order of a successful `startX` |
| SessionTraces.XClientFailure | src/session.go:110-115 | when only the client fails, `startX` interrupts and waits Xorg, then stops without removing the authority file or ending the utmp entry |
| SessionTraces.WaylandRunTraceAborts | src/session.go:145-159 | the compositor steps stop the program exactly when it does not start |
| SessionTraces.WaylandTraceAborts | src/session.go:135-161 | `startWayland` stops exactly when no command is built or the compositor does not start |
| SessionTraces.WaylandOrder | src/session.go:141-159 | a Wayland session uses no display; its utmp entry, with an empty display, is added after the compositor starts and ended after it is waited for |
| SessionTraces.DisplayTraceAborts | src/session.go:171-176 | the display server stops the program exactly when `DisplayOk` fails, as the last effect |
| SessionTraces.RunTraceAborts | src/session.go:169-176 | the start script never stops the program; the display server's stop is still last |
| SessionTraces.OpenTraceEnds | src/session.go:168-177 | after desktop selection the session ends normally or with a stop. It stops exactly when rebuilding the environment or the display server fails |
| SessionTraces.SessionTraceEnds | src/session.go:166-177 | after authentication the session ends, stopping exactly when it does not go through |
| SessionTraces.StartTraceEnds | src/session.go:163-179 | every `Start` ends with the end of the session or a stop; a stop is always the last effect, and it happens exactly when `Start` does not go through |
| SessionTraces.StartTraceOpened | src/session.go:163-168 | when PAM opens the session, authentication is exactly start, authenticate, acct-mgmt, set tty, open session, and the session part follows |
| SessionTraces.AuthStartsNothing | src/auth_pam.go:25-99 | authentication starts no script, server or client |
| SessionTraces.StartTraceNeedsOpenSession | src/session.go:163-176 | unless PAM opened the session, nothing of the desktop runs |
| SessionTraces.StartTraceDoneIffNoAbort | src/session.go:163-179 | `Start` ends normally exactly when the program never stopped, and that requires PAM to have opened the session |
| SessionTraces.OpenTraceRuns | src/session.go:168-177 | when everything succeeds, the part after selection is: the environment, the start script, the display server, then the end |
| SessionTraces.StartTraceInOrder | src/session.go:163-179 | a successful `Start` runs, in order: authentication; selection with the environment; the environment again (only getent and entering home now); the start script; the display server; the end |
| Session.XEnv | src/session.go:54-56 | XDG_SESSION_TYPE is "x11", XAUTHORITY the authority file and DISPLAY the display; every other key is unchanged |
| Session.SessionConfOf | src/session.go:163-179 | the configuration values `Start` and its steps read: PAM service, default user, rendered tty, Xorg arguments, xinitrc launch, wrapper and start script |
| Session.ShellLookupIgnoresRuntimeDir | src/session.go:46-168 | making the runtime directory does not change what the second shell lookup finds |
| Session.EnvState | src/session.go:46 | the user environment, host environment and file system after `defineEnvironment`: the built environment and the runtime directory made |
| Session.EnvStateSpec | src/login.go:63-112 | after the environment is built, the runtime directory is set and exists, the host environment is unchanged, and no other path is added or changed |
| Session.EnvStateTwice | src/session.go:46-168 | building the environment a second time from its own result, as `Start` does after `desktopSelect`, gives the same state |
| Session.XState | src/session.go:50-133 | the state after `startX` with a given authority file: the X variables in both environments, the file removed once the session ends |
| Session.DisplayState | src/session.go:50-161 | the state after the display server: the X variables and the authority file gone for Xorg, the session type "wayland" otherwise |
| Session.DisplayStateSpec | src/session.go:50-161 | under X the session type is "x11", user and host agree on DISPLAY (the first free display) and XAUTHORITY (the file in the runtime directory), which is removed; under Wayland only the session type changes; no other variable changes |
| Session.OpenState | src/session.go:168-176 | the state after the environment is built and the display server ran |
| Session.OpenStateAfterEnv | src/session.go:46-176 | the session run after `desktopSelect` already built the environment ends in the same state as if it had been built once |
| Session.OpenStateSpec | src/session.go:163-176 | after a session the runtime directory is still set and exists; after an X session the authority file is gone |
| Session.BaseSession.NewSession | src/session.go:181-187 | a session holds the configuration and has no user or desktop yet |
| Session.BaseSession.Auth | src/session.go:22-25 | stores the user `authUser` returns, with its PAM trace and outcome |
| Session.BaseSession.DesktopSelect | src/session.go:27-48 | with no user the program stops and nothing else changes. Otherwise the desktop and language are resolved, the chooser runs when needed, the environment is built, and it stops exactly when building does; on success the user environment, host environment and file system are `EnvState` of the old ones |
| Session.BaseSession.ResolveChoice | src/session.go:28-44 | the desktop becomes `ResolveDesktop`, the language `ChosenLang`, and the chooser is recorded exactly when it runs |
| Session.BaseSession.SetXEnvironment | src/session.go:51-58 | the user gets the X variables for the runtime directory's authority file and the first free display; the process gets XAUTHORITY and DISPLAY |
| Session.BaseSession.MakeAuthority | src/session.go:61-73 | the stale authority file is removed before the cookie is made. If mcookie or xauth fails the program stops. On success the authority file exists |
| Session.BaseSession.LaunchXorg | src/session.go:80-101 | Xorg on the built arguments, the display opened, the utmp entry; it stops when Xorg or the display fails |
| Session.BaseSession.StartServer | src/session.go:61-101 | the authority steps then Xorg; success is exactly `ServerUp` |
| Session.BaseSession.LaunchCommand | src/session.go:104-107 | `prepareGuiCommand`, panicking exactly when no command is built |
| Session.BaseSession.StartXClient | src/session.go:108-115 | handlers for client and Xorg, the client start; a failed start interrupts and waits for Xorg and then stops |
| Session.BaseSession.CleanupX | src/session.go:117-131 | wait for the client, interrupt and wait for Xorg, remove the authority file, end the utmp entry |
| Session.BaseSession.RunClient | src/session.go:104-131 | the client part of `ClientTrace`; the authority file is gone exactly when the client ran |
| Session.BaseSession.StartX | src/session.go:50-133 | effects `XTrace`; success exactly `XOk`; the user and the process get the X variables; after success the authority file is gone; together, the state is `XState` of the old one |
| Session.BaseSession.RunWayland | src/session.go:145-159 | handler, compositor start, utmp entry with no display, wait, end of entry; it stops when the start fails |
| Session.BaseSession.StartWayland | src/session.go:135-161 | XDG_SESSION_TYPE becomes "wayland"; effects `WaylandTrace`; success exactly when a command is built and starts |
| Session.BaseSession.RunDisplay | src/session.go:171-176 | Xorg desktops go to `startX` and Wayland desktops to `startWayland`; success exactly `DisplayOk`; the environments become `DisplayState` of the old ones, and so does the file system on success |
| Session.BaseSession.RunDesktop | src/session.go:169-176 | the start script, then the display server: effects `RunTrace`, success exactly `DisplayOk`, and the state `DisplayState` as for `RunDisplay` |
| Session.BaseSession.OpenDesktop | src/session.go:168-177 | the environment again, the start script, the display server, then the end of the session; success exactly `OpenOk`; on success the state is `OpenState` of the old one |
| Session.BaseSession.RunSession | src/session.go:166-177 | the session part of `Start` for an authenticated user; effects `SessionTrace` and success exactly `SessionOk`; the desktop is resolved, the language chosen, and on success the state is `OpenState` after `EnvState`, the environment built twice |
| Session.BaseSession.Start | src/session.go:163-179 | the effects of `Start` are `StartTrace` of the configuration it started with, and it goes through exactly when `StartOk`. PAM keeps a handle exactly when it started; there is a user exactly when the session opened; the desktop and language are resolved then and unchanged otherwise, as are the environment and files; on success the state is that of a session built from an empty user environment |
| Session.BaseSession.Destory | src/session.go:189-193 | closes an open PAM session, then runs the stop script when it is configured and executable |

## Left out

- Every call into the PAM library, and `user.Lookup`, which is taken to find the user. Their results are the `PamOutcome`. `getSysuser` and the `sysuser` type are not part of this model: the user is an account plus an environment map, and its uid is rendered with `strconv.Itoa`.
- `readPassword`, the terminal prompts, `os.Hostname` and the `login:` banner. The password read is a parameter, and so is the standard-input text.
- Process spawning and its details, as listed below. Each is an event in the trace, with its outcome taken from the `World`.
  - The processes: Xorg, mcookie, xauth, getent and the session command. Their exit codes are not modelled.
  - `cmdAsUser` credentials and the environment handed to processes, including `xorg.Env` (`src/session.go:88`). The trace records the command but not its environment.
  - The cookie's content.
  - `os.Remove`, `os.Chown` and `os.Chdir` results, which the code ignores.
- `loadUserDesktop` and `selectDesktop`, whose source is not part of this model. Their answers are the `DesktopChoice`, and a desktop is a value rather than a shared pointer.
- `sanitizeValue` and the ini library's `Bool()`/`Int()` conversions. They are parameters, so the model does not fix which texts they accept.
- The ini file format itself. A file is unreadable or a map of sections.
- `filepath.WalkDir`. It is given as the ordered listing of `/etc/emptty.d`, and sub-directories are skipped with their content.
- `addUtmpEntry`, `endUtmpEntry`, `addBtmpEntry` and `openXDisplay`. Each is one event; their record layouts are not modelled.
- The goroutines, the WaitGroup and `signal.Notify` in `login`, `Start` and `registerInterruptHandler`. So is the fact that `handleInterrupt` runs concurrently with the session: the model gives the order it follows once a signal arrives, not when the signal comes. `wg.Done` is the `SessionDone` event.
- The commented-out `dbus-launch` prefix in `prepareGuiCommand`. It builds nothing, so `startScript` and the three identical `cmdAsUser` branches collapse into one command.
- Logging, the message of day, `printHelp`, and the `-h`/`-v` exits of `Main`. The log file policy is stored but not acted upon.
- src/manager.go (a D-Bus service stub) and src/daemon_test.go (tests of terminal output).
- Integers are unbounded. `minTty` comes from ini `Int()` or `parseTTY`. `strTTY` is proved to round-trip only for 32-bit values, and Go's 64-bit `int` limits are not modelled.
- The environment maps have no iteration order. `defineSpecificEnvVariables` ranges over a Go map in random order, and the model proves the result, which does not depend on it.
- Text.ParseInt32: its contract gives the value only for unsigned digit strings in range; signed texts are covered only through `Text.ParseItoa` (every rendered 32-bit integer parses back), not by a full statement of which texts are rejected.
- Byte indexing. Go strings are byte sequences and `buildVersion[1:]` drops one byte; the model's strings are character sequences, so `Emptty.GetVersion` drops one character. The two differ only when the version starts with a multi-byte character.
- State after a stop. The methods from `Session.BaseSession.RunDisplay` up to `Session.BaseSession.Start` state the user environment, host environment and file system only on success (the partial state after an `Abort` is not stated), because the program exits at the stop.
- Config.Loaded: its own contract states only that daemon mode is kept; what it does to each field is stated by the `Config.Set*Value` functions and the `Config.LoadedAll*Fields` lemmas.
