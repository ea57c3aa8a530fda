/**
 * The entities a login session works with: the desktop to start, the account of the user who logged
 * in, and the user's own environment (the one the session's processes receive).
 */
module Entities {
  import opened Wrappers
  import opened Text

  /** The display server a desktop runs on. */
  datatype DisplayEnv = Xorg | Wayland

  /**
   * A desktop entry. A `selection` entry stands for "choose a desktop now"; once chosen, the
   * choice becomes its `child`.
   */
  datatype Desktop = Desktop(
    name: string,
    exec: string,
    path: string,
    env: DisplayEnv,
    selection: bool,
    child: Option<Desktop>)

  /** What the system's user database says about an account. */
  datatype Account = Account(uid: int, gid: int, username: string, homedir: string)

  /** The logged-in user together with the environment prepared for their session. */
  class SysUser {
    const uid: int
    const gid: int
    const username: string
    const homedir: string
    var env: map<string, string>

    constructor FromAccount(a: Account)
      ensures uid == a.uid && gid == a.gid && username == a.username && homedir == a.homedir
      ensures env == map[]
    {
      uid, gid, username, homedir := a.uid, a.gid, a.username, a.homedir;
      env := map[];
    }

    /** The value of `key` in the user's environment, "" when it is not set. */
    function Getenv(key: string): (v: string)
      reads this
      ensures key in env ==> v == env[key]
      ensures key !in env ==> v == ""
    {
      if key in env then env[key] else ""
    }

    method Setenv(key: string, value: string)
      modifies this`env
      ensures env == old(env)[key := value]
    {
      env := env[key := value];
    }

    /** The uid in decimal. */
    function StrUid(): string {
      Itoa(uid)
    }
  }
}
