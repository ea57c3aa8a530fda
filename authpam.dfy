/**
 * PAM authentication (`auth_pam.go`): the conversation callback that answers PAM's prompts, the
 * sequence of PAM calls that authenticates the user and opens their session, closing that session,
 * and copying PAM's environment list into the user's environment.
 *
 * The PAM library itself is not modelled: which of its calls succeed, the user name it settles on,
 * the environment list it provides and the account the user database returns for that user are
 * given as a `PamOutcome`.
 */
module AuthPam {
  import opened Wrappers
  import opened Config
  import opened Os
  import opened Entities

  /** The message styles of a PAM conversation; any other style is `OtherStyle`. */
  datatype Style = PromptEchoOff | PromptEchoOn | ErrorMsg | TextInfo | OtherStyle(code: int)

  datatype ConvError = UnrecognizedStyle | ReadFailed

  /** The answer of the conversation callback to one message. */
  datatype Reply = Reply(answer: string, err: Option<ConvError>)

  /**
   * `bufio.Reader.ReadString('\n')` on standard input: the text up to and including the first
   * newline, or an error (None) when the input ends before a newline.
   */
  function ReadLine(stdin: string): (line: Option<string>)
    ensures line.Some? <==> '\n' in stdin
    ensures line.Some? ==> |line.value| > 0 && line.value <= stdin
    ensures line.Some? ==> line.value[|line.value| - 1] == '\n'
    ensures line.Some? ==> '\n' !in line.value[..|line.value| - 1]
  {
    if stdin == [] then None
    else if stdin[0] == '\n' then Some("\n")
    else
      match ReadLine(stdin[1..])
      case None => None
      case Some(rest) =>
        var l := [stdin[0]] + rest;
        assert l[..|l| - 1] == [stdin[0]] + rest[..|rest| - 1];
        Some(l)
  }

  /**
   * The conversation callback given to `pam.StartFunc`. A hidden prompt is answered with what
   * `readPassword` reads (`password`, None when reading fails), a visible prompt with the next line of
   * standard input without its newline. Error and information messages are answered with "".
   * Under autologin the callback leaves the `switch` on a prompt without answering, so every prompt
   * falls through to the "unrecognized message style" error, as unknown styles do.
   */
  function Converse(style: Style, autologin: bool, password: Option<string>, stdin: string): (r: Reply)
    ensures (style.PromptEchoOff? || style.PromptEchoOn?) && autologin ==> r == Reply("", Some(UnrecognizedStyle))
    ensures style.OtherStyle? ==> r == Reply("", Some(UnrecognizedStyle))
    ensures style.ErrorMsg? || style.TextInfo? ==> r == Reply("", None)
    ensures style.PromptEchoOff? && !autologin ==>
      r == (if password.Some? then Reply(password.value, None) else Reply("", Some(ReadFailed)))
    ensures style.PromptEchoOn? && !autologin && '\n' in stdin ==>
      r.err == None && r.answer + "\n" <= stdin && '\n' !in r.answer
    ensures style.PromptEchoOn? && !autologin && '\n' !in stdin ==> r == Reply("", Some(ReadFailed))
  {
    match style
    case PromptEchoOff =>
      if autologin then Reply("", Some(UnrecognizedStyle))
      else if password.Some? then Reply(password.value, None)
      else Reply("", Some(ReadFailed))
    case PromptEchoOn =>
      if autologin then Reply("", Some(UnrecognizedStyle))
      else
        var line := ReadLine(stdin);
        if line.None? then Reply("", Some(ReadFailed))
        else
          var input := line.value;
          assert input[..|input| - 1] + "\n" == input;
          Reply(input[..|input| - 1], None)
    case ErrorMsg => Reply("", None)
    case TextInfo => Reply("", None)
    case OtherStyle(_) => Reply("", Some(UnrecognizedStyle))
  }

  /** Under autologin no answer depends on what the user could type. */
  lemma AutologinIgnoresInput(style: Style, pw1: Option<string>, in1: string, pw2: Option<string>, in2: string)
    ensures Converse(style, true, pw1, in1) == Converse(style, true, pw2, in2)
    ensures Converse(style, true, pw1, in1).answer == ""
  {
  }

  /** What PAM does with the calls the program makes. */
  datatype PamOutcome = PamOutcome(
    startOk: bool,
    authOk: bool,
    acctOk: bool,
    setTtyOk: bool,
    openOk: bool,
    /** The `PAM_USER` item once authentication has started. */
    user: string,
    /** `GetEnvList`. */
    envList: map<string, string>,
    /** `user.Lookup` of `user`. */
    account: Account)

  /** An open PAM handle: the user it authenticated and its environment list. */
  datatype Transaction = Transaction(user: string, envList: map<string, string>)

  /** Every check passed and the PAM session was opened. */
  predicate Opens(o: PamOutcome) {
    o.startOk && o.authOk && o.acctOk && o.setTtyOk && o.openOk
  }

  /** The effects of `authUser`, given the service, default user, tty and process id it uses. */
  function AuthTrace(service: string, defaultUser: string, tty: string, pid: int, o: PamOutcome): seq<Event> {
    [PamStart(service, defaultUser)] +
    if !o.startOk then [] else
    [PamAuthenticate] +
    if !o.authOk then [BtmpEntry(o.user, pid, tty), Abort] else
    [PamAcctMgmt] +
    if !o.acctOk then [PamChangeAuthTok, Abort] else
    [PamSetTty("tty" + tty)] +
    if !o.setTtyOk then [Abort] else
    [PamOpenSession] +
    if !o.openOk then [Abort] else []
  }

  /**
   * What `authUser` promises: the session is opened only after every check passed; a failed
   * check aborts and is the last thing that happens; a failed authentication is first recorded in
   * btmp for the PAM user, this process and the tty; a failed start returns without aborting.
   */
  lemma AuthTraceSpec(service: string, defaultUser: string, tty: string, pid: int, o: PamOutcome)
    ensures var t := AuthTrace(service, defaultUser, tty, pid, o);
      && t[0] == PamStart(service, defaultUser)
      && AbortOnlyLast(t)
      && (PamOpenSession in t <==> o.startOk && o.authOk && o.acctOk && o.setTtyOk)
      && (Opens(o) <==> PamOpenSession in t && Abort !in t)
      && (Abort in t <==> o.startOk && !Opens(o))
      && (Abort in t ==> t[|t| - 1] == Abort)
      && (BtmpEntry(o.user, pid, tty) in t <==> o.startOk && !o.authOk)
      && (o.startOk && !o.authOk ==> t[|t| - 2] == BtmpEntry(o.user, pid, tty))
  {
    var t := AuthTrace(service, defaultUser, tty, pid, o);
    var s0 := PamStart(service, defaultUser);
    if !o.startOk {
      assert t == [s0];
    } else if !o.authOk {
      assert t == [s0, PamAuthenticate, BtmpEntry(o.user, pid, tty), Abort];
    } else if !o.acctOk {
      assert t == [s0, PamAuthenticate, PamAcctMgmt, PamChangeAuthTok, Abort];
    } else if !o.setTtyOk {
      assert t == [s0, PamAuthenticate, PamAcctMgmt, PamSetTty("tty" + tty), Abort];
    } else if !o.openOk {
      assert t == [s0, PamAuthenticate, PamAcctMgmt, PamSetTty("tty" + tty), PamOpenSession, Abort];
    } else {
      assert t == [s0, PamAuthenticate, PamAcctMgmt, PamSetTty("tty" + tty), PamOpenSession];
    }
  }

  /** The user environment after PAM's environment list is copied into it. */
  function PamEnv(env: map<string, string>, trans: Option<Transaction>): (r: map<string, string>)
    ensures forall k :: k in r <==> k in env || (trans.Some? && k in trans.value.envList)
    ensures forall k :: k in r ==> r[k] == if trans.Some? && k in trans.value.envList then trans.value.envList[k] else env[k]
  {
    if trans.Some? then env + trans.value.envList else env
  }

  /** The PAM handle the program keeps between authentication and the end of the session. */
  class Pam {
    var trans: Option<Transaction>

    constructor ()
      ensures trans == None
    {
      trans := None;
    }

    /**
     * `authUser`. Returns the user when the session is opened, null otherwise; `ok` is false when the
     * program aborted.
     */
    method AuthUser(conf: Config, h: Host, o: PamOutcome) returns (usr: SysUser?, ok: bool)
      modifies this`trans, h`events
      ensures h.events == old(h.events) + AuthTrace(conf.pamService, conf.defaultUser, conf.StrTTY(), h.pid, o)
      ensures trans == if o.startOk then Some(Transaction(o.user, o.envList)) else None
      ensures ok <==> !o.startOk || Opens(o)
      ensures usr != null <==> Opens(o)
      ensures usr != null ==> fresh(usr) && usr.env == map[]
      ensures usr != null ==> usr.uid == o.account.uid && usr.gid == o.account.gid
      ensures usr != null ==> usr.username == o.account.username && usr.homedir == o.account.homedir
    {
      h.Emit(PamStart(conf.pamService, conf.defaultUser));
      if !o.startOk {
        trans := None;
        return null, true;
      }
      trans := Some(Transaction(o.user, o.envList));
      h.Emit(PamAuthenticate);
      if !o.authOk {
        h.Emit(BtmpEntry(o.user, h.pid, conf.StrTTY()));
        h.Emit(Abort);
        return null, false;
      }
      h.Emit(PamAcctMgmt);
      if !o.acctOk {
        h.Emit(PamChangeAuthTok);
        h.Emit(Abort);
        return null, false;
      }
      h.Emit(PamSetTty("tty" + conf.StrTTY()));
      if !o.setTtyOk {
        h.Emit(Abort);
        return null, false;
      }
      h.Emit(PamOpenSession);
      if !o.openOk {
        h.Emit(Abort);
        return null, false;
      }
      usr := new SysUser.FromAccount(o.account);
      ok := true;
    }

    /** `closeAuth`: closes an open PAM session once; its error is only logged. */
    method CloseAuth(h: Host)
      modifies this`trans, h`events
      ensures trans == None
      ensures h.events == old(h.events) + if old(trans).Some? then [PamCloseSession] else []
    {
      if trans.Some? {
        h.Emit(PamCloseSession);
        trans := None;
      }
    }

    /** `defineSpecificEnvVariables`: every variable of PAM's environment list is set for the user. */
    method DefineSpecificEnvVariables(usr: SysUser)
      modifies usr`env
      ensures usr.env == PamEnv(old(usr.env), trans)
    {
      if trans.Some? {
        var envs := trans.value.envList;
        var rest := envs.Keys;
        while rest != {}
          invariant rest <= envs.Keys
          invariant usr.env == old(usr.env) + map k | k in envs.Keys - rest :: envs[k]
          decreases rest
        {
          var key :| key in rest;
          usr.Setenv(key, envs[key]);
          rest := rest - {key};
        }
        assert envs.Keys - rest == envs.Keys;
        assert (map k | k in envs.Keys :: envs[k]) == envs;
      }
    }
  }
}
