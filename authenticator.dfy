/** The guards of `OpenbisAuthenticator` in
    src/python/JupyterBis/jupyterbis/auth.py: the default port, the
    username pattern, the blank-password check, and the order in which
    `authenticate` applies them before it contacts openBIS. */
module Authenticator {
  import opened Wrappers

  /** The configurable traits the guards read. `serverPort` is `None`
      while the port has not been configured, in which case traitlets asks
      `_server_port_default`. */
  datatype Config = Config(serverAddress: string, serverPort: Option<int>, useSsl: bool)

  /** `use_ssl = Bool(True, ...)` */
  const DefaultUseSsl: bool := true

  /** The configuration before anything but the server address is set. */
  function DefaultConfig(serverAddress: string): Config {
    Config(serverAddress, None, DefaultUseSsl)
  }

  /** `_server_port_default()`: the openBIS port for the chosen scheme. */
  function ServerPortDefault(useSsl: bool): int {
    if useSsl then 443 else 80
  }

  /** The value of `server_port`: as configured, or else its default. */
  function ServerPort(cfg: Config): int {
    match cfg.serverPort
    case Some(port) => port
    case None => ServerPortDefault(cfg.useSsl)
  }

  /** An unconfigured port is 443 with SSL and 80 without, SSL is on by
      default, and a configured port is used as given. */
  lemma ServerPortDefaults(serverAddress: string, useSsl: bool, port: int)
    ensures ServerPort(DefaultConfig(serverAddress)) == 443
    ensures ServerPort(Config(serverAddress, None, useSsl)) == (if useSsl then 443 else 80)
    ensures ServerPort(Config(serverAddress, Some(port), useSsl)) == port
  {
  }

  // ---- the username pattern r'^[a-z][.a-z0-9_-]*$' ----

  predicate IsLowerLetter(c: char) {
    'a' <= c <= 'z'
  }

  /** The character class `[.a-z0-9_-]`. */
  predicate InTailClass(c: char) {
    c == '.' || IsLowerLetter(c) || '0' <= c <= '9' || c == '_' || c == '-'
  }

  /** A lowercase letter followed only by characters of the tail class. */
  predicate IsUsernameBody(s: string) {
    |s| >= 1 && IsLowerLetter(s[0]) && forall i :: 1 <= i < |s| ==> InTailClass(s[i])
  }

  /** The strings the pattern accepts with `re.match`: a username body,
      optionally followed by one newline, since Python's `$` also matches
      just before a newline that ends the string. */
  predicate IsAcceptedUsername(s: string) {
    || IsUsernameBody(s)
    || (|s| >= 1 && s[|s| - 1] == '\n' && IsUsernameBody(s[..|s| - 1]))
  }

  /** Where the greedy `[.a-z0-9_-]*` that starts at `i` stops. */
  function TailRunEnd(s: string, i: nat): (j: nat)
    requires i <= |s|
    ensures i <= j <= |s|
    ensures forall k :: i <= k < j ==> InTailClass(s[k])
    ensures j < |s| ==> !InTailClass(s[j])
    decreases |s| - i
  {
    if i == |s| || !InTailClass(s[i]) then i else TailRunEnd(s, i + 1)
  }

  /** `re.match(r'^[a-z][.a-z0-9_-]*$', s)` succeeds: one lowercase letter,
      the greedy tail run, then `$` at the end of the string or before a
      final newline. Backtracking into the run cannot help, because `$`
      needs the end of the string or a newline, and no character of the
      run is a newline. */
  function MatchesUsernamePattern(s: string): bool {
    && |s| >= 1
    && IsLowerLetter(s[0])
    && var j := TailRunEnd(s, 1);
       j == |s| || (j == |s| - 1 && s[j] == '\n')
  }

  /** The matcher accepts exactly the strings described by the pattern. */
  lemma MatchesUsernamePatternIff(s: string)
    ensures MatchesUsernamePattern(s) <==> IsAcceptedUsername(s)
  {
    if |s| >= 1 && IsLowerLetter(s[0]) {
      var j := TailRunEnd(s, 1);
      var body := s[..|s| - 1];
      assert forall k :: 1 <= k < |s| - 1 ==> body[k] == s[k];
      if |s| >= 2 && s[|s| - 1] == '\n' && IsUsernameBody(body) {
        assert !InTailClass(s[|s| - 1]);
      }
    }
  }

  // ---- the password check `password is None or password.strip() == ''` ----

  /** Python 3's `str.isspace()` for one character: the characters that
      `str.strip()` removes. */
  predicate IsSpace(c: char) {
    || c == ' ' || c == '\t' || c == '\n' || c == '\r'
    || c == '\U{0B}' || c == '\U{0C}'
    || '\U{1C}' <= c <= '\U{1F}'
    || c == '\U{85}' || c == '\U{A0}' || c == '\U{1680}'
    || '\U{2000}' <= c <= '\U{200A}'
    || c == '\U{2028}' || c == '\U{2029}' || c == '\U{202F}' || c == '\U{205F}' || c == '\U{3000}'
  }

  /** `s.lstrip()` */
  function StripLeft(s: string): (r: string)
    ensures |r| <= |s| && r == s[|s| - |r|..]
    ensures forall i :: 0 <= i < |s| - |r| ==> IsSpace(s[i])
    ensures r != [] ==> !IsSpace(r[0])
  {
    if s != [] && IsSpace(s[0]) then StripLeft(s[1..]) else s
  }

  /** `s.rstrip()` */
  function StripRight(s: string): (r: string)
    ensures |r| <= |s| && r == s[..|r|]
    ensures forall i :: |r| <= i < |s| ==> IsSpace(s[i])
    ensures r != [] ==> !IsSpace(r[|r| - 1])
  {
    if s != [] && IsSpace(s[|s| - 1]) then StripRight(s[..|s| - 1]) else s
  }

  /** `s.strip()` */
  function Strip(s: string): string {
    StripRight(StripLeft(s))
  }

  /** Stripping an all-whitespace string leaves nothing. */
  lemma StripAllSpace(s: string)
    requires forall i :: 0 <= i < |s| ==> IsSpace(s[i])
    ensures StripLeft(s) == []
  {
    var l := StripLeft(s);
  }

  /** A character that is not whitespace survives stripping. */
  lemma StripKeepsNonSpace(s: string, k: nat)
    requires k < |s| && !IsSpace(s[k])
    ensures Strip(s) != ""
  {
    var l := StripLeft(s);
    var k' := k - (|s| - |l|);
    assert 0 <= k' < |l| && l[k'] == s[k];
    var r := StripRight(l);
    assert k' < |r|;
  }

  /** A string strips to the empty string exactly when it is all whitespace. */
  lemma StripEmptyIff(s: string)
    ensures Strip(s) == "" <==> forall i :: 0 <= i < |s| ==> IsSpace(s[i])
  {
    if forall i :: 0 <= i < |s| ==> IsSpace(s[i]) {
      StripAllSpace(s);
    } else {
      var k :| 0 <= k < |s| && !IsSpace(s[k]);
      StripKeepsNonSpace(s, k);
    }
  }

  /** The password is missing, empty, or whitespace only. */
  predicate IsBlankPassword(password: Option<string>) {
    password == None || forall i :: 0 <= i < |password.value| ==> IsSpace(password.value[i])
  }

  /** The guard `password is None or password.strip() == ''` holds exactly
      for blank passwords. */
  lemma BlankPasswordIff(password: Option<string>)
    ensures IsBlankPassword(password) <==> password == None || Strip(password.value) == ""
  {
    if password != None {
      StripEmptyIff(password.value);
    }
  }

  // ---- authenticate ----

  /** What `authenticate` returns: the username, `None`, or the exception
      that escapes it. */
  datatype Verdict = Accepted(username: string) | Rejected | Raised

  /** The verdict, and the address passed to `Openbis(...)` when it was
      called (`None` when no guard let the request reach that call). */
  datatype Decision = Decision(verdict: Verdict, contacted: Option<string>)

  /** `str(n)` for an integer. */
  function IntToString(n: int): string
    decreases if n < 0 then 1 - n else n
  {
    if n < 0 then "-" + IntToString(-n)
    else if n < 10 then [['0','1','2','3','4','5','6','7','8','9'][n]]
    else IntToString(n / 10) + IntToString(n % 10)
  }

  /** `self.server_address + ":" + str(self.server_port)` */
  function OpenbisAddress(cfg: Config): string {
    cfg.serverAddress + ":" + IntToString(ServerPort(cfg))
  }

  /** `authenticate(handler, data)` for `data['username'] == username` and
      `data['password'] == password`. The username check comes first, then
      the password check; neither contacts openBIS. Only then is
      `Openbis(...)` called, outside the `try`: `openbisRaises` says whether
      that external call raises, in which case the exception escapes.
      Building the credentials inside the `try` cannot fail, so the
      `except` branch is never taken. */
  function Authenticate(cfg: Config, username: string, password: Option<string>, openbisRaises: bool): (r: Decision)
    ensures !IsAcceptedUsername(username) ==> r == Decision(Rejected, None)
    ensures IsAcceptedUsername(username) && IsBlankPassword(password) ==> r == Decision(Rejected, None)
    ensures r.contacted != None <==> IsAcceptedUsername(username) && !IsBlankPassword(password)
    ensures r.contacted != None ==> r.contacted.value == OpenbisAddress(cfg)
    ensures r.verdict.Accepted? <==> r.contacted != None && !openbisRaises
    ensures r.verdict.Accepted? ==> r.verdict.username == username
    ensures r.verdict.Raised? <==> r.contacted != None && openbisRaises
  {
    MatchesUsernamePatternIff(username);
    BlankPasswordIff(password);
    if !MatchesUsernamePattern(username) then
      Decision(Rejected, None)
    else if password == None || Strip(password.value) == "" then
      Decision(Rejected, None)
    else
      var address := OpenbisAddress(cfg);
      if openbisRaises then Decision(Raised, Some(address))
      else Decision(Accepted(username), Some(address))
  }
}
