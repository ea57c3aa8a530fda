/**
 * Configuration of the display manager (src/config.go): the built-in defaults, the host `LANG`
 * override, loading of the `[emptty]` section of an ini file with "overwrite only when the key is
 * present (and parses)" semantics, the `/etc/emptty.d` drop-in directory, and the small parsers
 * `parseTTY`, `parseLogging` and `strTTY`.
 *
 * The ini library is foreign: a section is a map from key to raw text, and its `Bool()` and `Int()`
 * conversions are given as partial functions (`IniParsers`). The unshown helper `sanitizeValue` is
 * likewise a parameter (`Sanitizer`).
 */
module Config {
  import opened Wrappers
  import opened Text

  const KeyMinTty := "MIN_TTY"
  const KeyPamService := "PAM_SERVICE"
  const KeySwitchTty := "SWITCH_TTY"
  const KeyPrintIssue := "PRINT_ISSUE"
  const KeyDefaultUser := "DEFAULT_USER"
  const KeyAutologin := "AUTOLOGIN"
  const KeyAutologinSession := "AUTOLOGIN_SESSION"
  const KeyLang := "LANG"
  const KeyDbusLaunch := "DBUS_LAUNCH"
  const KeyXinitrcLaunch := "XINITRC_LAUNCH"
  const KeyVerticalSelection := "VERTICAL_SELECTION"
  const KeyLogging := "LOGGING"
  const KeyXorgArgs := "XORG_ARGS"
  const KeyLoggingFile := "LOGGING_FILE"
  const KeyDynamicMotd := "DYNAMIC_MOTD"
  const KeyFgColor := "FG_COLOR"
  const KeyBgColor := "BG_COLOR"
  const KeyDisplayStartScript := "DISPLAY_START_SCRIPT"
  const KeyDisplayStopScript := "DISPLAY_STOP_SCRIPT"
  const KeySessionWrapper := "SESSION_WRAPPER"

  /** Every key `loadConfig` reads. `AUTOLOGIN_SESSION` is declared in the source but never read. */
  const ReadKeys: set<string> := {
    KeyMinTty, KeyPamService, KeySwitchTty, KeyPrintIssue, KeyDefaultUser, KeyAutologin, KeyLang,
    KeyDbusLaunch, KeyXinitrcLaunch, KeyVerticalSelection, KeyLogging, KeyXorgArgs, KeyLoggingFile,
    KeyDynamicMotd, KeyFgColor, KeyBgColor, KeyDisplayStartScript, KeyDisplayStopScript, KeySessionWrapper
  }

  const PathConfigFile := "/etc/emptty.conf"
  const PathConfigDir := "/etc/emptty.d"
  const SectionName := "emptty"

  const DefaultLang := "en_US.UTF-8"
  const DefaultPamService := "emptty"

  /** `enLogging`: how the log file is handled. */
  datatype Logging = Default | Appending | Disabled

  /** The three keywords both `loadConfig` and `parseLogging` recognise. */
  function LoggingKeyword(s: string): (r: Option<Logging>)
    ensures r.None? <==> s != "disabled" && s != "appending" && s != "default"
    ensures r == Some(Disabled) <==> s == "disabled"
    ensures r == Some(Appending) <==> s == "appending"
    ensures r == Some(Default) <==> s == "default"
  {
    if s == "disabled" then Some(Disabled)
    else if s == "appending" then Some(Appending)
    else if s == "default" then Some(Default)
    else None
  }

  /** One ini section: key to raw value. */
  type Section = map<string, string>

  /** The ini library's `Key.Bool()` and `Key.Int()`: None is a parse error. */
  datatype IniParsers = IniParsers(toBool: string -> Option<bool>, toInt: string -> Option<int>)

  /** The result of `ini.Load` on one path: unreadable, or its sections by name. */
  datatype IniFile = Unreadable | Parsed(sections: map<string, Section>)

  datatype ConfigError = LoadFailed | NoSection

  /** `sanitizeValue(value, defaultValue)`, a helper whose source is not part of this model. */
  type Sanitizer = (string, string) -> string

  /** The value of one key as the setter would write it, or None when the setter leaves the field. */
  function PickString(s: Section, key: string): Option<string> {
    if key in s then Some(s[key]) else None
  }

  function PickBool(s: Section, key: string, ini: IniParsers): Option<bool> {
    if key in s then ini.toBool(s[key]) else None
  }

  function PickInt(s: Section, key: string, ini: IniParsers): Option<int> {
    if key in s then ini.toInt(s[key]) else None
  }

  function PickLogging(s: Section): Option<Logging> {
    if KeyLogging in s then LoggingKeyword(s[KeyLogging]) else None
  }

  /** `setStringValue`: a present key always overwrites, even with ""; an absent key changes nothing. */
  function SetStringValue(prior: string, s: Section, key: string): (v: string)
    ensures key in s ==> v == s[key]
    ensures key !in s ==> v == prior
  {
    PickString(s, key).GetOr(prior)
  }

  /** `setBoolValue`: overwrite only when the key is present and its value parses as a bool. */
  function SetBoolValue(prior: bool, s: Section, key: string, ini: IniParsers): (v: bool)
    ensures key in s && ini.toBool(s[key]).Some? ==> v == ini.toBool(s[key]).value
    ensures key !in s || ini.toBool(s[key]).None? ==> v == prior
  {
    PickBool(s, key, ini).GetOr(prior)
  }

  /** `setIntValue`: overwrite only when the key is present and its value parses as an int. */
  function SetIntValue(prior: int, s: Section, key: string, ini: IniParsers): (v: int)
    ensures key in s && ini.toInt(s[key]).Some? ==> v == ini.toInt(s[key]).value
    ensures key !in s || ini.toInt(s[key]).None? ==> v == prior
  {
    PickInt(s, key, ini).GetOr(prior)
  }

  /**
   * The `LOGGING` switch of `loadConfig`: a recognised keyword sets the policy; an unknown value,
   * or no key at all, leaves the policy as it was.
   */
  function SetLoggingValue(prior: Logging, s: Section): (l: Logging)
    ensures KeyLogging in s && LoggingKeyword(s[KeyLogging]).Some? ==> l == LoggingKeyword(s[KeyLogging]).value
    ensures KeyLogging !in s || LoggingKeyword(s[KeyLogging]).None? ==> l == prior
  {
    PickLogging(s).GetOr(prior)
  }

  /**
   * The `switch` of `loadConfig` on the raw `LOGGING` text: a keyword selects its policy, anything
   * else (including the "" of an absent key) keeps the current one.
   */
  function SwitchLogging(current: Logging, text: string): (l: Logging)
    ensures LoggingKeyword(text).Some? ==> l == LoggingKeyword(text).value
    ensures LoggingKeyword(text).None? ==> l == current
  {
    if text == "disabled" then Disabled
    else if text == "appending" then Appending
    else if text == "default" then Default
    else current
  }

  /** The value of the `config` struct. */
  datatype ConfigValues = ConfigValues(
    daemonMode: bool,
    defaultUser: string,
    autologin: bool,
    autologinSession: string,
    minTty: int,
    pamService: string,
    switchTTY: bool,
    printIssue: bool,
    lang: string,
    dbusLaunch: bool,
    xinitrcLaunch: bool,
    verticalSelection: bool,
    logging: Logging,
    xorgArgs: string,
    loggingFile: string,
    dynamicMotd: bool,
    fgColor: string,
    bgColor: string,
    displayStartScript: string,
    displayStopScript: string,
    sessionWrapper: string)

  /** `newDefaultConfig`'s `LANG`: the host's value when it is set and non-empty. */
  function DefaultLangFor(hostEnv: map<string, string>): string {
    if KeyLang in hostEnv && hostEnv[KeyLang] != "" then hostEnv[KeyLang] else DefaultLang
  }

  /** The value `newDefaultConfig` builds. */
  function DefaultValues(hostEnv: map<string, string>): ConfigValues {
    ConfigValues(
      daemonMode := false, defaultUser := "", autologin := false, autologinSession := "",
      minTty := 1, pamService := DefaultPamService, switchTTY := true, printIssue := true,
      lang := DefaultLangFor(hostEnv), dbusLaunch := true, xinitrcLaunch := false,
      verticalSelection := false, logging := Default, xorgArgs := "", loggingFile := "",
      dynamicMotd := false, fgColor := "", bgColor := "", displayStartScript := "",
      displayStopScript := "", sessionWrapper := "")
  }

  /**
   * The effect of `loadConfig` on the `[emptty]` section `s`: each setter call in source order
   * (taken in five runs of four). Nothing but the keys in `ReadKeys` matters; `AUTOLOGIN` feeds two
   * fields.
   */
  function Loaded(v: ConfigValues, s: Section, ini: IniParsers): (r: ConfigValues)
    ensures r.daemonMode == v.daemonMode
  {
    LoadedScripts(LoadedDisplay(LoadedLaunch(LoadedLogin(LoadedTerminal(v, s, ini), s, ini), s, ini), s, ini), s, ini)
  }

  /** `AUTOLOGIN` feeds both `autologin` (parsed as a bool) and `autologinSession` (raw text). */
  lemma AutologinFeedsBoth(v: ConfigValues, s: Section, ini: IniParsers)
    requires KeyAutologin in s
    ensures Loaded(v, s, ini).autologinSession == s[KeyAutologin]
    ensures ini.toBool(s[KeyAutologin]).Some? ==> Loaded(v, s, ini).autologin == ini.toBool(s[KeyAutologin]).value
    ensures ini.toBool(s[KeyAutologin]).None? ==> Loaded(v, s, ini).autologin == v.autologin
  {
  }

  /** A section holding none of the keys `loadConfig` reads changes nothing. */
  lemma OnlyReadKeysMatter(v: ConfigValues, s: Section, ini: IniParsers)
    requires forall k :: k in s ==> k !in ReadKeys
    ensures Loaded(v, s, ini) == v
  {
  }

  function LoadedTerminal(v: ConfigValues, s: Section, ini: IniParsers): (r: ConfigValues)
    ensures (forall k :: k in s ==> k !in ReadKeys) ==> r == v
  {
    v.(
      minTty := SetIntValue(v.minTty, s, KeyMinTty, ini),
      pamService := SetStringValue(v.pamService, s, KeyPamService),
      switchTTY := SetBoolValue(v.switchTTY, s, KeySwitchTty, ini),
      printIssue := SetBoolValue(v.printIssue, s, KeyPrintIssue, ini))
  }

  function LoadedLogin(v: ConfigValues, s: Section, ini: IniParsers): (r: ConfigValues)
    ensures (forall k :: k in s ==> k !in ReadKeys) ==> r == v
  {
    v.(
      defaultUser := SetStringValue(v.defaultUser, s, KeyDefaultUser),
      autologin := SetBoolValue(v.autologin, s, KeyAutologin, ini),
      autologinSession := SetStringValue(v.autologinSession, s, KeyAutologin),
      lang := SetStringValue(v.lang, s, KeyLang))
  }

  function LoadedLaunch(v: ConfigValues, s: Section, ini: IniParsers): (r: ConfigValues)
    ensures (forall k :: k in s ==> k !in ReadKeys) ==> r == v
  {
    v.(
      dbusLaunch := SetBoolValue(v.dbusLaunch, s, KeyDbusLaunch, ini),
      xinitrcLaunch := SetBoolValue(v.xinitrcLaunch, s, KeyXinitrcLaunch, ini),
      verticalSelection := SetBoolValue(v.verticalSelection, s, KeyVerticalSelection, ini),
      logging := SetLoggingValue(v.logging, s))
  }

  function LoadedDisplay(v: ConfigValues, s: Section, ini: IniParsers): (r: ConfigValues)
    ensures (forall k :: k in s ==> k !in ReadKeys) ==> r == v
  {
    v.(
      xorgArgs := SetStringValue(v.xorgArgs, s, KeyXorgArgs),
      loggingFile := SetStringValue(v.loggingFile, s, KeyLoggingFile),
      dynamicMotd := SetBoolValue(v.dynamicMotd, s, KeyDynamicMotd, ini),
      fgColor := SetStringValue(v.fgColor, s, KeyFgColor))
  }

  function LoadedScripts(v: ConfigValues, s: Section, ini: IniParsers): (r: ConfigValues)
    ensures (forall k :: k in s ==> k !in ReadKeys) ==> r == v
  {
    v.(
      bgColor := SetStringValue(v.bgColor, s, KeyBgColor),
      displayStartScript := SetStringValue(v.displayStartScript, s, KeyDisplayStartScript),
      displayStopScript := SetStringValue(v.displayStopScript, s, KeyDisplayStopScript),
      sessionWrapper := SetStringValue(v.sessionWrapper, s, KeySessionWrapper))
  }

  /** Two sections equal outside key `x` agree on every other key, whichever setter reads it. */
  lemma SameOutside(s: Section, t: Section, x: string, k: string, ini: IniParsers)
    requires s - {x} == t - {x}
    requires k != x
    ensures k in s <==> k in t
    ensures k in s ==> s[k] == t[k]
    ensures PickString(s, k) == PickString(t, k)
    ensures PickBool(s, k, ini) == PickBool(t, k, ini)
    ensures PickInt(s, k, ini) == PickInt(t, k, ini)
  {
    assert k in s <==> k in s - {x};
    assert k in t <==> k in t - {x};
    if k in s {
      assert s[k] == (s - {x})[k];
    }
  }

  /** `AUTOLOGIN_SESSION` is never read: sections that differ only in that key load alike. */
  lemma AutologinSessionIgnored(v: ConfigValues, s: Section, t: Section, ini: IniParsers)
    requires s - {KeyAutologinSession} == t - {KeyAutologinSession}
    ensures Loaded(v, s, ini) == Loaded(v, t, ini)
  {
    LoadedTerminalIgnores(v, s, t, ini);
    var v1 := LoadedTerminal(v, s, ini);
    LoadedLoginIgnores(v1, s, t, ini);
    var v2 := LoadedLogin(v1, s, ini);
    LoadedLaunchIgnores(v2, s, t, ini);
    var v3 := LoadedLaunch(v2, s, ini);
    LoadedDisplayIgnores(v3, s, t, ini);
    var v4 := LoadedDisplay(v3, s, ini);
    LoadedScriptsIgnores(v4, s, t, ini);
  }

  lemma LoadedTerminalIgnores(v: ConfigValues, s: Section, t: Section, ini: IniParsers)
    requires s - {KeyAutologinSession} == t - {KeyAutologinSession}
    ensures LoadedTerminal(v, s, ini) == LoadedTerminal(v, t, ini)
  {
    SameOutside(s, t, KeyAutologinSession, KeyMinTty, ini);
    SameOutside(s, t, KeyAutologinSession, KeyPamService, ini);
    SameOutside(s, t, KeyAutologinSession, KeySwitchTty, ini);
    SameOutside(s, t, KeyAutologinSession, KeyPrintIssue, ini);
  }

  lemma LoadedLoginIgnores(v: ConfigValues, s: Section, t: Section, ini: IniParsers)
    requires s - {KeyAutologinSession} == t - {KeyAutologinSession}
    ensures LoadedLogin(v, s, ini) == LoadedLogin(v, t, ini)
  {
    SameOutside(s, t, KeyAutologinSession, KeyDefaultUser, ini);
    SameOutside(s, t, KeyAutologinSession, KeyAutologin, ini);
    SameOutside(s, t, KeyAutologinSession, KeyLang, ini);
  }

  lemma LoadedLaunchIgnores(v: ConfigValues, s: Section, t: Section, ini: IniParsers)
    requires s - {KeyAutologinSession} == t - {KeyAutologinSession}
    ensures LoadedLaunch(v, s, ini) == LoadedLaunch(v, t, ini)
  {
    SameOutside(s, t, KeyAutologinSession, KeyDbusLaunch, ini);
    SameOutside(s, t, KeyAutologinSession, KeyXinitrcLaunch, ini);
    SameOutside(s, t, KeyAutologinSession, KeyVerticalSelection, ini);
    SameOutside(s, t, KeyAutologinSession, KeyLogging, ini);
  }

  lemma LoadedDisplayIgnores(v: ConfigValues, s: Section, t: Section, ini: IniParsers)
    requires s - {KeyAutologinSession} == t - {KeyAutologinSession}
    ensures LoadedDisplay(v, s, ini) == LoadedDisplay(v, t, ini)
  {
    SameOutside(s, t, KeyAutologinSession, KeyXorgArgs, ini);
    SameOutside(s, t, KeyAutologinSession, KeyLoggingFile, ini);
    SameOutside(s, t, KeyAutologinSession, KeyDynamicMotd, ini);
    SameOutside(s, t, KeyAutologinSession, KeyFgColor, ini);
  }

  lemma LoadedScriptsIgnores(v: ConfigValues, s: Section, t: Section, ini: IniParsers)
    requires s - {KeyAutologinSession} == t - {KeyAutologinSession}
    ensures LoadedScripts(v, s, ini) == LoadedScripts(v, t, ini)
  {
    SameOutside(s, t, KeyAutologinSession, KeyBgColor, ini);
    SameOutside(s, t, KeyAutologinSession, KeyDisplayStartScript, ini);
    SameOutside(s, t, KeyAutologinSession, KeyDisplayStopScript, ini);
    SameOutside(s, t, KeyAutologinSession, KeySessionWrapper, ini);
  }

  /** Folding the sections of several files over a config, in order; later files override earlier ones. */
  function LoadedAll(v: ConfigValues, secs: seq<Section>, ini: IniParsers): ConfigValues {
    if secs == [] then v else Loaded(LoadedAll(v, secs[..|secs| - 1], ini), secs[|secs| - 1], ini)
  }

  lemma {:induction false} LoadedAllAppend(v: ConfigValues, a: seq<Section>, b: seq<Section>, ini: IniParsers)
    ensures LoadedAll(v, a + b, ini) == LoadedAll(LoadedAll(v, a, ini), b, ini)
  {
    if b == [] {
      assert a + b == a;
    } else {
      LoadedAllAppend(v, a, b[..|b| - 1], ini);
      assert (a + b)[..|a + b| - 1] == a + b[..|b| - 1];
    }
  }

  /** The last `Some` in `picks` wins; with none, `prior` stays. */
  function Latest<T>(prior: T, picks: seq<Option<T>>): T {
    if picks == [] then prior else picks[|picks| - 1].GetOr(Latest(prior, picks[..|picks| - 1]))
  }

  lemma {:induction false} LatestWins<T>(prior: T, picks: seq<Option<T>>)
    ensures (forall i :: 0 <= i < |picks| ==> picks[i].None?) ==> Latest(prior, picks) == prior
    ensures forall i :: 0 <= i < |picks| && picks[i].Some? && (forall j :: i < j < |picks| ==> picks[j].None?) ==>
      Latest(prior, picks) == picks[i].value
  {
    if picks != [] {
      var init := picks[..|picks| - 1];
      LatestWins(prior, init);
      assert forall i :: 0 <= i < |init| ==> init[i] == picks[i];
    }
  }

  function PickStrings(secs: seq<Section>, key: string): (r: seq<Option<string>>)
    ensures |r| == |secs| && forall i :: 0 <= i < |secs| ==> r[i] == PickString(secs[i], key)
  {
    if secs == [] then [] else PickStrings(secs[..|secs| - 1], key) + [PickString(secs[|secs| - 1], key)]
  }

  function PickBools(secs: seq<Section>, key: string, ini: IniParsers): (r: seq<Option<bool>>)
    ensures |r| == |secs| && forall i :: 0 <= i < |secs| ==> r[i] == PickBool(secs[i], key, ini)
  {
    if secs == [] then [] else PickBools(secs[..|secs| - 1], key, ini) + [PickBool(secs[|secs| - 1], key, ini)]
  }

  function PickInts(secs: seq<Section>, key: string, ini: IniParsers): (r: seq<Option<int>>)
    ensures |r| == |secs| && forall i :: 0 <= i < |secs| ==> r[i] == PickInt(secs[i], key, ini)
  {
    if secs == [] then [] else PickInts(secs[..|secs| - 1], key, ini) + [PickInt(secs[|secs| - 1], key, ini)]
  }

  function PickLoggings(secs: seq<Section>): (r: seq<Option<Logging>>)
    ensures |r| == |secs| && forall i :: 0 <= i < |secs| ==> r[i] == PickLogging(secs[i])
  {
    if secs == [] then [] else PickLoggings(secs[..|secs| - 1]) + [PickLogging(secs[|secs| - 1])]
  }

  /**
   * Last writer wins, field by field: after loading `secs` in order, each field holds the value from
   * the last section that sets it (see `LatestWins`), or its prior value if none does. One lemma per
   * run of setter calls; `daemonMode` is never loaded.
   */
  lemma {:induction false} LoadedAllKeepsDaemonMode(v: ConfigValues, secs: seq<Section>, ini: IniParsers)
    ensures LoadedAll(v, secs, ini).daemonMode == v.daemonMode
  {
    if secs != [] {
      LoadedAllKeepsDaemonMode(v, secs[..|secs| - 1], ini);
    }
  }

  lemma {:induction false} LoadedAllTerminalFields(v: ConfigValues, secs: seq<Section>, ini: IniParsers)
    ensures var r := LoadedAll(v, secs, ini);
      && r.minTty == Latest(v.minTty, PickInts(secs, KeyMinTty, ini))
      && r.pamService == Latest(v.pamService, PickStrings(secs, KeyPamService))
      && r.switchTTY == Latest(v.switchTTY, PickBools(secs, KeySwitchTty, ini))
      && r.printIssue == Latest(v.printIssue, PickBools(secs, KeyPrintIssue, ini))
  {
    if secs != [] {
      LoadedAllTerminalFields(v, secs[..|secs| - 1], ini);
    }
  }

  lemma {:induction false} LoadedAllLoginFields(v: ConfigValues, secs: seq<Section>, ini: IniParsers)
    ensures var r := LoadedAll(v, secs, ini);
      && r.defaultUser == Latest(v.defaultUser, PickStrings(secs, KeyDefaultUser))
      && r.autologin == Latest(v.autologin, PickBools(secs, KeyAutologin, ini))
      && r.autologinSession == Latest(v.autologinSession, PickStrings(secs, KeyAutologin))
      && r.lang == Latest(v.lang, PickStrings(secs, KeyLang))
  {
    if secs != [] {
      LoadedAllLoginFields(v, secs[..|secs| - 1], ini);
    }
  }

  lemma {:induction false} LoadedAllLaunchFields(v: ConfigValues, secs: seq<Section>, ini: IniParsers)
    ensures var r := LoadedAll(v, secs, ini);
      && r.dbusLaunch == Latest(v.dbusLaunch, PickBools(secs, KeyDbusLaunch, ini))
      && r.xinitrcLaunch == Latest(v.xinitrcLaunch, PickBools(secs, KeyXinitrcLaunch, ini))
      && r.verticalSelection == Latest(v.verticalSelection, PickBools(secs, KeyVerticalSelection, ini))
      && r.logging == Latest(v.logging, PickLoggings(secs))
  {
    if secs != [] {
      LoadedAllLaunchFields(v, secs[..|secs| - 1], ini);
    }
  }

  lemma {:induction false} LoadedAllDisplayFields(v: ConfigValues, secs: seq<Section>, ini: IniParsers)
    ensures var r := LoadedAll(v, secs, ini);
      && r.xorgArgs == Latest(v.xorgArgs, PickStrings(secs, KeyXorgArgs))
      && r.loggingFile == Latest(v.loggingFile, PickStrings(secs, KeyLoggingFile))
      && r.dynamicMotd == Latest(v.dynamicMotd, PickBools(secs, KeyDynamicMotd, ini))
      && r.fgColor == Latest(v.fgColor, PickStrings(secs, KeyFgColor))
  {
    if secs != [] {
      LoadedAllDisplayFields(v, secs[..|secs| - 1], ini);
    }
  }

  lemma {:induction false} LoadedAllScriptsFields(v: ConfigValues, secs: seq<Section>, ini: IniParsers)
    ensures var r := LoadedAll(v, secs, ini);
      && r.bgColor == Latest(v.bgColor, PickStrings(secs, KeyBgColor))
      && r.displayStartScript == Latest(v.displayStartScript, PickStrings(secs, KeyDisplayStartScript))
      && r.displayStopScript == Latest(v.displayStopScript, PickStrings(secs, KeyDisplayStopScript))
      && r.sessionWrapper == Latest(v.sessionWrapper, PickStrings(secs, KeySessionWrapper))
  {
    if secs != [] {
      LoadedAllScriptsFields(v, secs[..|secs| - 1], ini);
    }
  }

  /** `parseTTY`: the sanitized text as a base-10 signed 32-bit integer, 0 when it is not one. */
  function ParseTTY(tty: string, defaultValue: string, sanitize: Sanitizer): (n: int)
    ensures MinInt32 <= n <= MaxInt32
    ensures ParseInt32(sanitize(tty, defaultValue)).None? ==> n == 0
    ensures ParseInt32(sanitize(tty, defaultValue)).Some? ==> n == ParseInt32(sanitize(tty, defaultValue)).value
  {
    ParseInt32(sanitize(tty, defaultValue)).GetOr(0)
  }

  /** `parseLogging`: like the `LOGGING` key, except that an unknown value means `Default`. */
  function ParseLogging(strLogging: string, defaultValue: string, sanitize: Sanitizer): (l: Logging)
    ensures LoggingKeyword(sanitize(strLogging, defaultValue)).Some? ==> l == LoggingKeyword(sanitize(strLogging, defaultValue)).value
    ensures LoggingKeyword(sanitize(strLogging, defaultValue)).None? ==> l == Default
  {
    LoggingKeyword(sanitize(strLogging, defaultValue)).GetOr(Default)
  }

  /**
   * The two readings of an unknown logging value differ: `loadConfig` keeps the current policy,
   * `parseLogging` falls back to `Default`.
   */
  lemma UnknownLoggingValue(v: ConfigValues, s: Section, ini: IniParsers, d: string, sanitize: Sanitizer)
    requires KeyLogging in s && LoggingKeyword(s[KeyLogging]).None?
    requires sanitize(s[KeyLogging], d) == s[KeyLogging]
    ensures Loaded(v, s, ini).logging == v.logging
    ensures ParseLogging(s[KeyLogging], d, sanitize) == Default
  {
  }

  /** The `config` struct, shared by pointer between `Main`, the session and the helpers. */
  class Config {
    var daemonMode: bool
    var defaultUser: string
    var autologin: bool
    var autologinSession: string
    var minTty: int
    var pamService: string
    var switchTTY: bool
    var printIssue: bool
    var lang: string
    var dbusLaunch: bool
    var xinitrcLaunch: bool
    var verticalSelection: bool
    var logging: Logging
    var xorgArgs: string
    var loggingFile: string
    var dynamicMotd: bool
    var fgColor: string
    var bgColor: string
    var displayStartScript: string
    var displayStopScript: string
    var sessionWrapper: string

    /** The current value of all fields. */
    function Values(): ConfigValues
      reads this
    {
      ConfigValues(daemonMode, defaultUser, autologin, autologinSession, minTty, pamService, switchTTY,
        printIssue, lang, dbusLaunch, xinitrcLaunch, verticalSelection, logging, xorgArgs, loggingFile,
        dynamicMotd, fgColor, bgColor, displayStartScript, displayStopScript, sessionWrapper)
    }

    /** `newDefaultConfig`, given the host environment it reads `LANG` from. */
    constructor NewDefault(hostEnv: map<string, string>)
      ensures Values() == DefaultValues(hostEnv)
      ensures minTty == 1 && switchTTY && printIssue && dbusLaunch && logging == Default
      ensures pamService == "emptty"
      ensures !daemonMode && !autologin && !xinitrcLaunch && !verticalSelection && !dynamicMotd
      ensures defaultUser == autologinSession == xorgArgs == loggingFile == fgColor == bgColor == ""
      ensures displayStartScript == displayStopScript == sessionWrapper == ""
      ensures lang == (if "LANG" in hostEnv && hostEnv["LANG"] != "" then hostEnv["LANG"] else "en_US.UTF-8")
    {
      daemonMode := false;
      minTty := 1;
      switchTTY := true;
      printIssue := true;
      defaultUser := "";
      autologin := false;
      autologinSession := "";
      lang := DefaultLang;
      dbusLaunch := true;
      xinitrcLaunch := false;
      verticalSelection := false;
      logging := Default;
      xorgArgs := "";
      loggingFile := "";
      dynamicMotd := false;
      fgColor := "";
      bgColor := "";
      displayStartScript := "";
      displayStopScript := "";
      sessionWrapper := "";
      pamService := DefaultPamService;
      new;
      if KeyLang in hostEnv && hostEnv[KeyLang] != "" {
        lang := hostEnv[KeyLang];
      }
    }

    /** `strTTY`: the decimal rendering of `minTty`, which `parseTTY` reads back. */
    function StrTTY(): (s: string)
      reads this
      ensures MinInt32 <= minTty <= MaxInt32 ==> ParseInt32(s) == Some(minTty)
    {
      if MinInt32 <= minTty <= MaxInt32 then ParseItoa(minTty); Itoa(minTty) else Itoa(minTty)
    }
  }

  /** The `[emptty]` section of the file at `path`, when it loads and has one. */
  function SectionOf(path: string, files: map<string, IniFile>): seq<Section> {
    if path in files && files[path].Parsed? && SectionName in files[path].sections
    then [files[path].sections[SectionName]] else []
  }

  /**
   * `loadConfig(c, path)`. `files` gives what `ini.Load` finds at each path (a missing path is
   * unreadable). Errors leave the config untouched.
   */
  method LoadConfig(c: Config, path: string, files: map<string, IniFile>, ini: IniParsers) returns (err: Option<ConfigError>)
    modifies c
    ensures (path !in files || files[path].Unreadable?) ==> err == Some(LoadFailed)
    ensures path in files && files[path].Parsed? && SectionName !in files[path].sections ==> err == Some(NoSection)
    ensures err.None? <==> SectionOf(path, files) != []
    ensures err.Some? ==> c.Values() == old(c.Values())
    ensures err.None? ==> c.Values() == Loaded(old(c.Values()), files[path].sections[SectionName], ini)
  {
    if path !in files || files[path].Unreadable? {
      return Some(LoadFailed);
    }
    var file := files[path];
    if SectionName !in file.sections {
      return Some(NoSection);
    }
    var s := file.sections[SectionName];
    ghost var v0 := c.Values();
    LoadTerminalKeys(c, s, ini);
    LoadLoginKeys(c, s, ini);
    LoadLaunchKeys(c, s, ini);
    LoadDisplayKeys(c, s, ini);
    LoadScriptsKeys(c, s, ini);
    assert c.Values() == Loaded(v0, s, ini);
    return None;
  }

  /*
   * The setter calls of `loadConfig`, in source order, in five consecutive runs named after what
   * their keys configure: the terminal, the login, the launch of the session, the display and the
   * scripts.
   */

  method LoadTerminalKeys(c: Config, s: Section, ini: IniParsers)
    modifies c
    ensures c.Values() == LoadedTerminal(old(c.Values()), s, ini)
  {
    c.minTty := SetIntValue(c.minTty, s, KeyMinTty, ini);
    c.pamService := SetStringValue(c.pamService, s, KeyPamService);
    c.switchTTY := SetBoolValue(c.switchTTY, s, KeySwitchTty, ini);
    c.printIssue := SetBoolValue(c.printIssue, s, KeyPrintIssue, ini);
  }

  method LoadLoginKeys(c: Config, s: Section, ini: IniParsers)
    modifies c
    ensures c.Values() == LoadedLogin(old(c.Values()), s, ini)
  {
    c.defaultUser := SetStringValue(c.defaultUser, s, KeyDefaultUser);
    c.autologin := SetBoolValue(c.autologin, s, KeyAutologin, ini);
    c.autologinSession := SetStringValue(c.autologinSession, s, KeyAutologin);
    c.lang := SetStringValue(c.lang, s, KeyLang);
  }

  /** Includes the `LOGGING` switch, which reads the raw text into a scratch string first. */
  method LoadLaunchKeys(c: Config, s: Section, ini: IniParsers)
    modifies c
    ensures c.Values() == LoadedLaunch(old(c.Values()), s, ini)
  {
    c.dbusLaunch := SetBoolValue(c.dbusLaunch, s, KeyDbusLaunch, ini);
    c.xinitrcLaunch := SetBoolValue(c.xinitrcLaunch, s, KeyXinitrcLaunch, ini);
    c.verticalSelection := SetBoolValue(c.verticalSelection, s, KeyVerticalSelection, ini);
    var varString := "";
    varString := SetStringValue(varString, s, KeyLogging);
    c.logging := SwitchLogging(c.logging, varString);
  }

  method LoadDisplayKeys(c: Config, s: Section, ini: IniParsers)
    modifies c
    ensures c.Values() == LoadedDisplay(old(c.Values()), s, ini)
  {
    c.xorgArgs := SetStringValue(c.xorgArgs, s, KeyXorgArgs);
    c.loggingFile := SetStringValue(c.loggingFile, s, KeyLoggingFile);
    c.dynamicMotd := SetBoolValue(c.dynamicMotd, s, KeyDynamicMotd, ini);
    c.fgColor := SetStringValue(c.fgColor, s, KeyFgColor);
  }

  method LoadScriptsKeys(c: Config, s: Section, ini: IniParsers)
    modifies c
    ensures c.Values() == LoadedScripts(old(c.Values()), s, ini)
  {
    c.bgColor := SetStringValue(c.bgColor, s, KeyBgColor);
    c.displayStartScript := SetStringValue(c.displayStartScript, s, KeyDisplayStartScript);
    c.displayStopScript := SetStringValue(c.displayStopScript, s, KeyDisplayStopScript);
    c.sessionWrapper := SetStringValue(c.sessionWrapper, s, KeySessionWrapper);
  }

  /** RE2's `\s`: tab, newline, form feed, carriage return and space. */
  predicate IsSpace(c: char) {
    c == ' ' || c == '\t' || c == '\n' || c == '\r' || c as int == 12
  }

  /**
   * The drop-in file-name filter `^\d\d_[\S]*.conf$`: two digits, an underscore, a run of
   * non-space characters, then ANY one character except newline (the dot is not escaped), then
   * `conf` at the very end.
   */
  predicate ConfigNameMatches(name: string) {
    && |name| >= 8
    && IsDigit(name[0]) && IsDigit(name[1]) && name[2] == '_'
    && (forall i :: 3 <= i < |name| - 5 ==> !IsSpace(name[i]))
    && name[|name| - 5] != '\n'
    && name[|name| - 4..] == "conf"
  }

  /** Every `NN_<stem>.conf` with a space-free stem passes the filter. */
  lemma ConfigNameAccepts(d1: char, d2: char, stem: string)
    requires IsDigit(d1) && IsDigit(d2)
    requires forall i :: 0 <= i < |stem| ==> !IsSpace(stem[i])
    ensures ConfigNameMatches([d1, d2, '_'] + stem + ".conf")
  {
    var name := [d1, d2, '_'] + stem + ".conf";
    assert name[|name| - 4..] == "conf";
    assert name[|name| - 5] == '.';
    forall i | 3 <= i < |name| - 5
      ensures !IsSpace(name[i])
    {
      assert name[i] == stem[i - 3];
    }
  }

  /** Because the dot is unescaped, a name with no dot before `conf` also passes. */
  lemma ConfigNameWithoutDot()
    ensures ConfigNameMatches("10_xconf")
    ensures !ConfigNameMatches("emptty.conf") && !ConfigNameMatches("1_a.conf") && !ConfigNameMatches("10_a b.conf")
  {
    assert "10_a b.conf"[4] == ' ';
  }

  /** One entry of the `/etc/emptty.d` listing, in the lexical order `filepath.WalkDir` visits. */
  datatype DirEntry = DirEntry(name: string, isDir: bool)

  /** The sections `loadConfigDir` applies, in order: matching regular files that load. */
  function DirSections(entries: seq<DirEntry>, files: map<string, IniFile>): seq<Section> {
    if entries == [] then []
    else
      var init := DirSections(entries[..|entries| - 1], files);
      var e := entries[|entries| - 1];
      if !e.isDir && ConfigNameMatches(e.name) then init + SectionOf(PathConfigDir + "/" + e.name, files) else init
  }

  /** Files listed later contribute later sections, so they override earlier ones. */
  lemma {:induction false} DirSectionsAppend(a: seq<DirEntry>, b: seq<DirEntry>, files: map<string, IniFile>)
    ensures DirSections(a + b, files) == DirSections(a, files) + DirSections(b, files)
  {
    if b == [] {
      assert a + b == a;
    } else {
      DirSectionsAppend(a, b[..|b| - 1], files);
      assert (a + b)[..|a + b| - 1] == a + b[..|b| - 1];
    }
  }

  /** A sub-directory or a non-matching name contributes nothing, whatever the file holds. */
  lemma DirSectionsSkips(entries: seq<DirEntry>, e: DirEntry, files: map<string, IniFile>)
    requires e.isDir || !ConfigNameMatches(e.name)
    ensures DirSections(entries + [e], files) == DirSections(entries, files)
  {
    assert (entries + [e])[..|entries|] == entries;
  }

  /**
   * `loadConfigDir(c, dir)`: walks `/etc/emptty.d` (not `dir`, which is ignored), skips
   * sub-directories, loads each matching file over the shared config, ignores load errors and
   * always returns nil.
   */
  method LoadConfigDir(c: Config, dir: string, entries: seq<DirEntry>, files: map<string, IniFile>, ini: IniParsers)
      returns (err: Option<ConfigError>)
    modifies c
    ensures err.None?
    ensures c.Values() == LoadedAll(old(c.Values()), DirSections(entries, files), ini)
  {
    ghost var v0 := c.Values();
    for i := 0 to |entries|
      invariant c.Values() == LoadedAll(v0, DirSections(entries[..i], files), ini)
    {
      var e := entries[i];
      assert entries[..i + 1][..i] == entries[..i];
      if e.isDir {
        continue;
      }
      if !ConfigNameMatches(e.name) {
        continue;
      }
      ghost var before := DirSections(entries[..i], files);
      var path := PathConfigDir + "/" + e.name;
      var _ := LoadConfig(c, path, files, ini);
      if SectionOf(path, files) == [] {
        assert before + SectionOf(path, files) == before;
      } else {
        ghost var after := before + SectionOf(path, files);
        assert after[..|after| - 1] == before;
      }
    }
    assert entries[..|entries|] == entries;
    return None;
  }
}
