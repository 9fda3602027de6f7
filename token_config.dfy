/** The lazily configured backend client (src/util/token_config.py): the first time
    `configured` is asked while a token file exists, the client is handed the token and
    tries to log in; an expired token deletes the file. The file system is modelled as
    a map from path to content. */
module TokenConfig {
  import opened Wrappers
  import opened Text

  /** The files the client can see. */
  class FileStore {
    var files: map<string, string>

    constructor(files: map<string, string>)
      ensures this.files == files
    {
      this.files := files;
    }

    /** Path(path).is_file() */
    function IsFile(path: string): (b: bool)
      reads this
      ensures b <==> path in files
    {
      path in files
    }

    /** os.remove(path); FileNotFoundError when there is no such file. */
    method Remove(path: string) returns (found: bool)
      modifies this
      ensures found <==> path in old(files)
      ensures files == old(files) - {path}
    {
      found := path in files;
      files := files - {path};
    }
  }

  /** What the two hooks a concrete client implements do when they are called:
      configure_client raises (the base class's hook does), or it returns and then
      try_log_in returns, raises TokenExpiredError, or raises anything else. */
  datatype LoginOutcome = ConfigureFailed(message: string) | LoggedIn | TokenExpired | LoginFailed(message: string)

  /** The hooks the property calls, in the order it calls them. */
  datatype HookCall = ConfigureClient(token: string) | TryLogIn

  /** The part of the world `configured` reads and changes. */
  datatype Snapshot = Snapshot(configured: bool, files: map<string, string>, calls: seq<HookCall>)

  /** The `configured` property as a transition: the new snapshot and what the property
      returns or raises. */
  function Configured(s: Snapshot, tokenPath: string, login: LoginOutcome): (Snapshot, Result<bool, string>)
  {
    if s.configured || tokenPath !in s.files then (s, Ok(s.configured))
    else if login.ConfigureFailed? then
      (Snapshot(false, s.files, s.calls + [ConfigureClient(Strip(s.files[tokenPath]))]), Err(login.message))
    else
      var calls := s.calls + [ConfigureClient(Strip(s.files[tokenPath])), TryLogIn];
      match login
      case LoggedIn => (Snapshot(true, s.files, calls), Ok(true))
      case TokenExpired => (Snapshot(false, s.files - {tokenPath}, calls), Ok(false))
      case LoginFailed(message) => (Snapshot(false, s.files, calls), Err(message))
  }

  /** Once configured, the property answers true and touches nothing: no file is read
      and no hook is called. */
  lemma ConfiguredIsSticky(s: Snapshot, tokenPath: string, login: LoginOutcome)
    requires s.configured
    ensures Configured(s, tokenPath, login) == (s, Ok(true))
  {
  }

  /** Without a token file it answers false and nothing changes. */
  lemma NoTokenFileNoChange(s: Snapshot, tokenPath: string, login: LoginOutcome)
    requires !s.configured && tokenPath !in s.files
    ensures Configured(s, tokenPath, login) == (s, Ok(false))
  {
  }

  /** With a token file the stripped token is handed to the client, and only if that
      returns is the login tried; the outcome decides the flag and the file, and any
      exception other than an expired token propagates. */
  lemma TokenFileOutcomes(s: Snapshot, tokenPath: string, login: LoginOutcome)
    requires !s.configured && tokenPath in s.files
    ensures var (t, r) := Configured(s, tokenPath, login);
      t.calls == s.calls + [ConfigureClient(Strip(s.files[tokenPath]))] +
                 (if login.ConfigureFailed? then [] else [TryLogIn]) &&
      (t.configured <==> login.LoggedIn?) &&
      (r == Ok(true) <==> login.LoggedIn?) &&
      (r == Ok(false) <==> login.TokenExpired?) &&
      (r.Err? <==> login.LoginFailed? || login.ConfigureFailed?) &&
      (tokenPath in t.files <==> !login.TokenExpired?) &&
      t.files == (if login.TokenExpired? then s.files - {tokenPath} else s.files)
  {
    var calls := s.calls + [ConfigureClient(Strip(s.files[tokenPath])), TryLogIn];
    var (t, r) := Configured(s, tokenPath, login);
    match login
    case ConfigureFailed(m) =>
      assert t == Snapshot(false, s.files, s.calls + [ConfigureClient(Strip(s.files[tokenPath]))]) && r == Err(m);
      assert t.files == s.files && tokenPath in t.files;
    case LoggedIn =>
      assert t == Snapshot(true, s.files, calls) && r == Ok(true);
      assert t.files == s.files && tokenPath in t.files;
    case TokenExpired =>
      assert t == Snapshot(false, s.files - {tokenPath}, calls) && r == Ok(false);
      assert tokenPath !in t.files;
    case LoginFailed(m) =>
      assert t == Snapshot(false, s.files, calls) && r == Err(m);
      assert t.files == s.files && tokenPath in t.files;
  }

  /** Asking repeatedly, with any login outcomes: the final answer and flag. */
  function AskAll(s: Snapshot, tokenPath: string, logins: seq<LoginOutcome>): Snapshot
    decreases |logins|
  {
    if logins == [] then s
    else
      var (t, r) := Configured(s, tokenPath, logins[0]);
      AskAll(t, tokenPath, logins[1..])
  }

  /** A configured client stays configured however often it is asked, and the token
      is never read again. */
  lemma {:induction false} ConfiguredStaysConfigured(s: Snapshot, tokenPath: string, logins: seq<LoginOutcome>)
    requires s.configured
    ensures AskAll(s, tokenPath, logins) == s
    decreases |logins|
  {
    if logins != [] {
      ConfiguredIsSticky(s, tokenPath, logins[0]);
      ConfiguredStaysConfigured(s, tokenPath, logins[1..]);
    }
  }

  /** Once the token file is gone the client can never become configured, whatever
      the logins would do. */
  lemma {:induction false} NoFileNeverConfigured(s: Snapshot, tokenPath: string, logins: seq<LoginOutcome>)
    requires !s.configured && tokenPath !in s.files
    ensures AskAll(s, tokenPath, logins) == s
    decreases |logins|
  {
    if logins != [] {
      NoTokenFileNoChange(s, tokenPath, logins[0]);
      NoFileNeverConfigured(s, tokenPath, logins[1..]);
    }
  }

  /** TokenConfiguredClient: the `_configured` flag, the token path and the file
      system. The hooks a subclass implements are recorded in `calls`; what they
      do is passed to each call. */
  class TokenConfiguredClient {
    var configured: bool
    const tokenPath: string
    const store: FileStore
    var calls: seq<HookCall>

    constructor(tokenPath: string, store: FileStore)
      ensures !configured && this.tokenPath == tokenPath && this.store == store && calls == []
    {
      configured := false;
      this.tokenPath := tokenPath;
      this.store := store;
      calls := [];
    }

    function State(): Snapshot
      reads this, store
    {
      Snapshot(configured, store.files, calls)
    }

    /** The `configured` property. */
    method IsConfigured(login: LoginOutcome) returns (r: Result<bool, string>)
      modifies this, store
      ensures (State(), r) == Configured(old(State()), tokenPath, login)
    {
      if !configured && store.IsFile(tokenPath) {
        ghost var before := State();
        var token := Strip(store.files[tokenPath]);
        if login.ConfigureFailed? {
          calls := calls + [ConfigureClient(token)];
          assert State() == Configured(before, tokenPath, login).0;
          return Err(login.message);
        }
        calls := calls + [ConfigureClient(token), TryLogIn];
        match login {
          case LoggedIn =>
            configured := true;
            assert State() == Configured(before, tokenPath, login).0;
          case TokenExpired =>
            var _ := store.Remove(tokenPath);
            configured := false;
            assert State() == Configured(before, tokenPath, login).0;
          case LoginFailed(message) =>
            assert State() == Configured(before, tokenPath, login).0;
            return Err(message);
        }
      }
      return Ok(configured);
    }

    /** The require_configured wrapper around a method whose result is `result`: the
        default when the client is not configured (the method is not called), else
        the method's result. A failing login propagates. */
    method RequireConfigured<T>(login: LoginOutcome, result: T, defaultValue: T) returns (r: Result<T, string>, called: bool)
      modifies this, store
      ensures var (s, c) := Configured(old(State()), tokenPath, login);
        State() == s &&
        (c.Err? ==> r == Err(c.error) && !called) &&
        (c == Ok(false) ==> r == Ok(defaultValue) && !called) &&
        (c == Ok(true) ==> r == Ok(result) && called)
    {
      var c := IsConfigured(login);
      if c.Err? {
        return Err(c.error), false;
      }
      if !c.value {
        return Ok(defaultValue), false;
      }
      return Ok(result), true;
    }
  }
}
