/**
 * The operating system as the display manager sees it: the process environment, the file system
 * (only which paths exist and whether they are directories), and an ordered trace of the external
 * effects the program causes — PAM calls, accounting records, processes started, signalled and
 * waited for. Calls whose results the model does not compute are answered by a `World` of fixed
 * outcomes.
 */
module Os {
  import opened Wrappers

  datatype FileKind = RegularFile | Directory

  /** The processes a session supervises. */
  datatype Proc = XorgServer | SessionCommand

  /** A command line: the program and its arguments. */
  datatype Command = Command(path: string, args: seq<string>)

  datatype Event =
    | PamStart(service: string, user: string)
    | PamAuthenticate
    | BtmpEntry(user: string, pid: int, tty: string)
    | PamAcctMgmt
    | PamChangeAuthTok
    | PamSetTty(tty: string)
    | PamOpenSession
    | PamCloseSession
    | ChooseDesktop
    | Getent(uid: string)
    | MakeDir(path: string)
    | Chown(path: string, owner: int, group: int)
    | Chdir(path: string)
    | RunScript(path: string)
    | RemoveFile(path: string)
    | GenerateCookie
    | AddXauth(display: string)
    | StartXorg(args: seq<string>)
    | OpenXDisplay(display: string)
    | UtmpAdd(user: string, pid: int, tty: string, display: string)
    | UtmpEnd
    | RegisterInterrupt(procs: seq<Proc>)
    | StartClient(cmd: Command)
    | Interrupt(p: Proc)
    | Wait(p: Proc)
    | SessionDone
    /** `handleErr`, `handleStrErr` or a panic: the program stops here. */
    | Abort

  /**
   * The answers of calls the model does not interpret: the output of `getent passwd <uid>` (None
   * when it fails), `exec.LookPath("bash")`, whether `os.MkdirAll` succeeds, which paths are
   * executable, whether `mcookie` and `xauth add` succeed, the pid of a running Xorg (None when it
   * did not start), whether the X display opens, and the pid of a started session command (None
   * when it fails to start).
   */
  datatype World = World(
    getent: Option<string>,
    bashPath: Option<string>,
    mkdirOk: bool,
    executables: set<string>,
    cookieOk: bool,
    xauthOk: bool,
    xorgPid: Option<int>,
    displayOpens: bool,
    clientPid: Option<int>)

  class Host {
    /** The environment of the display manager's own process. */
    var env: map<string, string>
    /** The paths that exist. */
    var files: map<string, FileKind>
    /** Every external effect so far, in order. */
    var events: seq<Event>
    const pid: int
    const world: World

    constructor (env0: map<string, string>, files0: map<string, FileKind>, pid0: int, world0: World)
      ensures env == env0 && files == files0 && events == [] && pid == pid0 && world == world0
    {
      env, files, events := env0, files0, [];
      pid, world := pid0, world0;
    }

    /** `os.Getenv`: "" for a missing key. */
    function Getenv(key: string): (v: string)
      reads this
      ensures key in env ==> v == env[key]
      ensures key !in env ==> v == ""
    {
      if key in env then env[key] else ""
    }

    /** `os.LookupEnv` with a non-empty value. */
    predicate HasNonEmpty(key: string)
      reads this
    {
      key in env && env[key] != ""
    }

    /** `os.Setenv`. */
    method Setenv(key: string, value: string)
      modifies this`env
      ensures env == old(env)[key := value]
    {
      env := env[key := value];
    }

    method Emit(e: Event)
      modifies this`events
      ensures events == old(events) + [e]
    {
      events := events + [e];
    }
  }

  /** An abort, if any, is the last effect of a trace. */
  predicate AbortOnlyLast(t: seq<Event>) {
    forall i :: 0 <= i < |t| - 1 ==> t[i] != Abort
  }

  /** The trace ends with the program stopping. */
  predicate Aborts(t: seq<Event>) {
    |t| > 0 && t[|t| - 1] == Abort
  }

  lemma AppendAssoc(e: seq<Event>, a: seq<Event>, b: seq<Event>)
    ensures e + (a + b) == e + a + b
  {
  }

  lemma Flatten(a: seq<Event>, b: seq<Event>, c: seq<Event>, d: seq<Event>, e: seq<Event>, f: seq<Event>)
    ensures a + ((b + c) + (d + e + f)) == a + b + c + d + e + f
  {
  }

  /** Prefixing a trace with one that has no abort keeps every abort last. */
  lemma PrefixAbortOnlyLast(a: seq<Event>, b: seq<Event>)
    requires Abort !in a && AbortOnlyLast(b)
    ensures AbortOnlyLast(a + b) && (b != [] ==> (a + b)[|a + b| - 1] == b[|b| - 1])
  {
    if b == [] {
      assert a + b == a;
    } else {
      forall i | 0 <= i < |a + b| - 1
        ensures (a + b)[i] != Abort
      {
        if i >= |a| {
          assert (a + b)[i] == b[i - |a|];
        } else {
          assert (a + b)[i] == a[i];
        }
      }
    }
  }

  /**
   * A trace `a`, continued with `b` only when `g` holds — and `a` did not stop the program then —
   * keeps an abort last; when continued it stops exactly when `b` does and ends as `b` ends.
   */
  lemma GuardedAborts(a: seq<Event>, b: seq<Event>, g: bool)
    requires AbortOnlyLast(a) && AbortOnlyLast(b) && (g ==> !Aborts(a))
    ensures var t := a + if g then b else [];
      && AbortOnlyLast(t)
      && (!g ==> t == a)
      && (g ==> (Aborts(t) <==> Aborts(b)))
      && (g && b != [] ==> t[|t| - 1] == b[|b| - 1])
  {
    if g {
      assert Abort !in a by {
        if |a| > 0 {
          assert a[|a| - 1] != Abort;
        }
      }
      PrefixAbortOnlyLast(a, b);
      if b == [] {
        assert a + b == a;
      }
    } else {
      assert a + [] == a;
    }
  }

  /** In such a trace, the program stops exactly when an abort occurs at all. */
  lemma AbortsIffIn(t: seq<Event>)
    requires AbortOnlyLast(t)
    ensures Aborts(t) <==> Abort in t
  {
  }
}
