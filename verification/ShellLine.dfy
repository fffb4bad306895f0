/**
 * The copy-paste `docker run` line of a node agent, and the shell that reads
 * it: token recognition and quote removal of the POSIX.1-2017 Shell Command
 * Language (sections 2.2, 2.3 and 2.6.7).
 */
module ShellLine {
  import opened JsText
  import opened Optional

  // ---------------------------------------------------------------------
  // The shell
  // ---------------------------------------------------------------------

  /**
   * The characters that mean something to a shell outside quotes: those
   * section 2.2 lists, and those of globs, braces, history and comments.
   */
  predicate IsSpecial(c: char) {
    || c == '|' || c == '&' || c == ';' || c == '<' || c == '>' || c == '(' || c == ')' || c == '$' || c == '`'
    || c == '\\' || c == '"' || c == '\'' || c == ' ' || c == '\t' || c == '\r' || c == '\n'
    || c == '*' || c == '?' || c == '[' || c == '#' || c == '~' || c == '!' || c == '{' || c == '}'
  }

  predicate AllPlain(s: string) {
    forall i :: 0 <= i < |s| ==> !IsSpecial(s[i])
  }

  datatype Mode = Outside | InDouble | InSingle

  function Finished(word: Option<string>): seq<string> {
    if word.Some? then [word.value] else []
  }

  function Extended(word: Option<string>, more: string): Option<string> {
    match word
    case None => Some(more)
    case Some(w) => Some(w + more)
  }

  /**
   * The words of a line, or `None` when it is more than one command of plain
   * words: an operator, an expansion, a glob, or an open quote.
   */
  function Lex(mode: Mode, word: Option<string>, s: string): Option<seq<string>>
    decreases |s|
  {
    if s == [] then (if mode.Outside? then Some(Finished(word)) else None)
    else
      match mode
      case Outside =>
        if s[0] == ' ' || s[0] == '\t' then Preceded(Finished(word), Lex(Outside, None, s[1..]))
        else if s[0] == '"' then Lex(InDouble, Extended(word, ""), s[1..])
        else if s[0] == '\'' then Lex(InSingle, Extended(word, ""), s[1..])
        else if s[0] == '\\' then
          if |s| == 1 then None
          else if s[1] == '\n' then Lex(Outside, word, s[2..])
          else Lex(Outside, Extended(word, [s[1]]), s[2..])
        else if IsSpecial(s[0]) then None
        else Lex(Outside, Extended(word, [s[0]]), s[1..])
      case InSingle =>
        if s[0] == '\'' then Lex(Outside, word, s[1..]) else Lex(InSingle, Extended(word, [s[0]]), s[1..])
      case InDouble =>
        if s[0] == '"' then Lex(Outside, word, s[1..])
        else if s[0] == '$' || s[0] == '`' then None
        else if s[0] == '\\' && |s| > 1 && s[1] == '\n' then Lex(InDouble, word, s[2..])
        else if s[0] == '\\' && |s| > 1 && IsEscapable(s[1]) then Lex(InDouble, Extended(word, [s[1]]), s[2..])
        else Lex(InDouble, Extended(word, [s[0]]), s[1..])
  }

  function Preceded(words: seq<string>, rest: Option<seq<string>>): Option<seq<string>> {
    match rest
    case None => None
    case Some(more) => Some(words + more)
  }

  /** The characters a backslash still quotes inside double quotes. */
  predicate IsEscapable(c: char) {
    c == '"' || c == '$' || c == '`' || c == '\\'
  }

  // ---------------------------------------------------------------------
  // The printer
  // ---------------------------------------------------------------------

  /** `[\w.:/=-]` */
  predicate IsBareChar(c: char) {
    || 'A' <= c <= 'Z' || 'a' <= c <= 'z' || '0' <= c <= '9'
    || c == '_' || c == '.' || c == ':' || c == '/' || c == '=' || c == '-'
  }

  predicate IsBare(s: string) {
    s != [] && forall i :: 0 <= i < |s| ==> IsBareChar(s[i])
  }

  function Escaped(s: string): string {
    if s == [] then [] else (if IsEscapable(s[0]) then ['\\', s[0]] else [s[0]]) + Escaped(s[1..])
  }

  function ShellValue(value: string): string {
    if IsBare(value) then value else ['"'] + Escaped(value) + ['"']
  }

  const AGENT_HOME := "/var/lib/ninedeploy-agent"
  const AGENT_CONTAINER_PORT := "4600"
  const AGENT_IMAGE_REPO := "ghcr.io/ninedeploy/ninedeploy"
  const SOCKET := "/var/run/docker.sock"

  /** Absent strings are empty, as the printer treats them. */
  datatype Options = Options(
    hostPort: nat, imageTag: string, tokenSha256: string, masterUrl: string,
    enrolmentToken: string, requireRekey: bool, bindAddress: string)

  function IfGiven(value: string, entry: string): seq<string> {
    if value != "" then [entry] else []
  }

  /** The environment entries, `NAME=value`. */
  function Environment(opts: Options): seq<string> {
    ["NINEDEPLOY_AGENT=1", "NINEDEPLOY_AGENT_PORT=" + AGENT_CONTAINER_PORT]
    + IfGiven(opts.tokenSha256, "NINEDEPLOY_AGENT_TOKEN=" + opts.tokenSha256)
    + IfGiven(opts.masterUrl, "NINEDEPLOY_MASTER_URL=" + opts.masterUrl)
    + IfGiven(opts.enrolmentToken, "NINEDEPLOY_ENROLMENT_TOKEN=" + opts.enrolmentToken)
    + (if opts.requireRekey then ["NINEDEPLOY_AGENT_REKEY_REQUIRED=1"] else [])
  }

  function IndexOf(s: string, c: char): (i: nat)
    requires c in s
    ensures i < |s| && s[i] == c && c !in s[..i]
  {
    if s[0] == c then 0 else 1 + IndexOf(s[1..], c)
  }

  /** An entry on the line: its name as it is, its value quoted where needed. */
  function RenderedEntry(entry: string): string
    requires '=' in entry
  {
    var eq := IndexOf(entry, '=');
    entry[..eq] + "=" + ShellValue(entry[eq + 1..])
  }

  function Join(words: seq<string>): string {
    if words == [] then "" else if |words| == 1 then words[0] else words[0] + [' '] + Join(words[1..])
  }

  /** The published port, on one address only when one is given. */
  function Published(opts: Options): string {
    (if opts.bindAddress != "" then opts.bindAddress + ":" else "")
    + Decimal(opts.hostPort) + ":" + AGENT_CONTAINER_PORT
  }

  function Front(opts: Options): seq<string> {
    ["docker", "run", "-d", "--name", "ninedeploy-agent", "--restart", "unless-stopped",
     "--user", "0:0",
     "-p", Published(opts),
     "-v", SOCKET + ":" + SOCKET, "-v", AGENT_HOME + ":" + AGENT_HOME, "-w", AGENT_HOME]
  }

  function Back(opts: Options): seq<string> {
    [AGENT_IMAGE_REPO + ":" + opts.imageTag, "node", "/app/apps/server/dist/agent.js"]
  }

  /** `-e` before each entry, as it is meant. */
  function Flagged(entries: seq<string>): seq<string> {
    if entries == [] then [] else ["-e", entries[0]] + Flagged(entries[1..])
  }

  function AllNamed(entries: seq<string>): bool {
    forall i :: 0 <= i < |entries| ==> '=' in entries[i]
  }

  /** ... and as it is printed. */
  function FlaggedRendered(entries: seq<string>): seq<string>
    requires AllNamed(entries)
  {
    if entries == [] then [] else ["-e", RenderedEntry(entries[0])] + FlaggedRendered(entries[1..])
  }

  function AgentDockerRunCommand(opts: Options): string
    requires AllNamed(Environment(opts))
  {
    Join(Front(opts) + FlaggedRendered(Environment(opts)) + Back(opts))
  }

  /** The arguments the line is meant to pass. */
  function IntendedArgv(opts: Options): seq<string> {
    Front(opts) + Flagged(Environment(opts)) + Back(opts)
  }

  // ---------------------------------------------------------------------
  // Reading it back
  // ---------------------------------------------------------------------

  lemma {:induction false} PlainIsRead(word: Option<string>, w: string, rest: string)
    requires AllPlain(w) && (w != [] || word.Some?)
    ensures Lex(Outside, word, w + rest) == Lex(Outside, Extended(word, w), rest)
    decreases w
  {
    if w == [] {
      assert w + rest == rest && word.value + w == word.value;
    } else {
      assert (w + rest)[1..] == w[1..] + rest;
      PlainIsRead(Extended(word, [w[0]]), w[1..], rest);
      assert [w[0]] + w[1..] == w;
      if word.Some? {
        assert (word.value + [w[0]]) + w[1..] == word.value + w;
      }
    }
  }

  /** Inside double quotes the escaped text is read as the text itself, whatever it is. */
  lemma {:induction false} EscapedIsRead(w: string, v: string, rest: string)
    ensures Lex(InDouble, Some(w), Escaped(v) + ['"'] + rest) == Lex(Outside, Some(w + v), rest)
    decreases v
  {
    var s := Escaped(v) + ['"'] + rest;
    if v == [] {
      assert s[1..] == rest && w + v == w;
    } else {
      var tail := Escaped(v[1..]) + ['"'] + rest;
      assert w + [v[0]] + v[1..] == w + v;
      EscapedIsRead(w + [v[0]], v[1..], rest);
      if IsEscapable(v[0]) {
        assert s == ['\\', v[0]] + tail && s[2..] == tail;
      } else {
        assert s == [v[0]] + tail && s[1..] == tail;
      }
    }
  }

  lemma {:induction false} QuoteOpens(w: string, rest: string)
    ensures Lex(Outside, Some(w), ['"'] + rest) == Lex(InDouble, Some(w), rest)
  {
    assert (['"'] + rest)[1..] == rest && w + "" == w;
  }

  /** A printed value, behind its name, is read as the value. */
  lemma {:induction false} ValueIsRead(w: string, value: string, rest: string)
    ensures Lex(Outside, Some(w), ShellValue(value) + rest) == Lex(Outside, Some(w + value), rest)
  {
    if IsBare(value) {
      PlainIsRead(Some(w), value, rest);
    } else {
      var quoted := Escaped(value) + ['"'] + rest;
      assert ShellValue(value) + rest == ['"'] + quoted;
      QuoteOpens(w, quoted);
      EscapedIsRead(w, value, rest);
    }
  }

  /** A rendered word, read up to its end, is the word meant. */
  ghost predicate ReadsAs(text: string, word: string) {
    forall rest: string :: Lex(Outside, None, text + rest) == Lex(Outside, Some(word), rest)
  }

  lemma {:induction false} PlainReadsAsItself(w: string)
    requires w != [] && AllPlain(w)
    ensures ReadsAs(w, w)
  {
    forall rest: string ensures Lex(Outside, None, w + rest) == Lex(Outside, Some(w), rest) {
      PlainIsRead(None, w, rest);
      assert Extended(None, w) == Some(w);
    }
  }

  lemma {:induction false} EntryIsRead(name: string, value: string, rest: string)
    requires name != "" && AllPlain(name)
    ensures Lex(Outside, None, name + ShellValue(value) + rest) == Lex(Outside, Some(name + value), rest)
  {
    assert name + ShellValue(value) + rest == name + (ShellValue(value) + rest);
    PlainIsRead(None, name, ShellValue(value) + rest);
    ValueIsRead(name, value, rest);
  }

  lemma {:induction false} EntryReadsAsItself(entry: string)
    requires '=' in entry && AllPlain(entry[..IndexOf(entry, '=')])
    ensures ReadsAs(RenderedEntry(entry), entry)
  {
    var eq := IndexOf(entry, '=');
    var name, value := entry[..eq] + "=", entry[eq + 1..];
    assert name + value == entry && AllPlain(name);
    forall rest: string ensures Lex(Outside, None, RenderedEntry(entry) + rest) == Lex(Outside, Some(entry), rest) {
      EntryIsRead(name, value, rest);
    }
  }

  /** Words that read as what they mean, joined by blanks, are read as those words. */
  lemma {:induction false} JoinedIsRead(texts: seq<string>, words: seq<string>)
    requires |texts| == |words| > 0
    requires forall i :: 0 <= i < |texts| ==> ReadsAs(texts[i], words[i])
    ensures Lex(Outside, None, Join(texts)) == Some(words)
    decreases |texts|
  {
    if |texts| == 1 {
      assert texts[0] + "" == texts[0];
      assert ReadsAs(texts[0], words[0]);
      assert words == [words[0]];
    } else {
      var rest := [' '] + Join(texts[1..]);
      assert Join(texts) == texts[0] + rest && rest[1..] == Join(texts[1..]);
      assert ReadsAs(texts[0], words[0]);
      JoinedIsRead(texts[1..], words[1..]);
      assert [words[0]] + words[1..] == words;
    }
  }

  // ---------------------------------------------------------------------
  // The line
  // ---------------------------------------------------------------------

  predicate IsShellSafe(s: string) {
    AllPlain(s)
  }

  lemma {:induction false} BareJoin(a: string, b: string)
    requires IsBare(a) && IsBare(b)
    ensures IsBare(a + b)
  {
  }

  lemma {:induction false} BareReadsAsItself(w: string)
    requires IsBare(w)
    ensures ReadsAs(w, w)
  {
    PlainReadsAsItself(w);
  }

  /** The texts of a part of the line read as its words. */
  ghost predicate AllRead(texts: seq<string>, words: seq<string>) {
    |texts| == |words| && forall i :: 0 <= i < |texts| ==> ReadsAs(texts[i], words[i])
  }

  lemma {:induction false} ReadConcat(a: seq<string>, x: seq<string>, b: seq<string>, y: seq<string>)
    requires AllRead(a, x) && AllRead(b, y)
    ensures AllRead(a + b, x + y)
  {
  }

  lemma {:induction false} PathsAreBare()
    ensures IsBare(SOCKET) && IsBare(SOCKET + ":" + SOCKET)
    ensures IsBare(AGENT_HOME) && IsBare(AGENT_HOME + ":" + AGENT_HOME)
  {
    assert IsBare(SOCKET) && IsBare(AGENT_HOME) && IsBare(":");
    BareJoin(SOCKET, ":");
    BareJoin(SOCKET + ":", SOCKET);
    BareJoin(AGENT_HOME, ":");
    BareJoin(AGENT_HOME + ":", AGENT_HOME);
  }

  lemma {:induction false} PublishedReads(opts: Options)
    requires IsShellSafe(opts.bindAddress)
    ensures ReadsAs(Published(opts), Published(opts))
  {
    assert IsDigits(Decimal(opts.hostPort)) && IsBare(":" + AGENT_CONTAINER_PORT);
    PlainReadsAsItself(Published(opts));
  }

  const RUN: seq<string> := ["docker", "run", "-d", "--name", "ninedeploy-agent"]
  const RESTART: seq<string> := ["--restart", "unless-stopped", "--user", "0:0", "-p"]

  predicate AllBare(words: seq<string>) {
    forall i :: 0 <= i < |words| ==> IsBare(words[i])
  }

  lemma {:induction false} AllBareRead(words: seq<string>)
    requires AllBare(words)
    ensures AllRead(words, words)
  {
    forall i | 0 <= i < |words| ensures ReadsAs(words[i], words[i]) {
      BareReadsAsItself(words[i]);
    }
  }

  lemma {:induction false} FlagsAreBare()
    ensures AllBare(RUN) && AllBare(RESTART)
  {
  }

  lemma {:induction false} MountsRead()
    ensures var mounts := ["-v", SOCKET + ":" + SOCKET, "-v", AGENT_HOME + ":" + AGENT_HOME, "-w", AGENT_HOME];
      AllRead(mounts, mounts)
  {
    PathsAreBare();
    BareReadsAsItself("-v");
    BareReadsAsItself("-w");
    BareReadsAsItself(SOCKET + ":" + SOCKET);
    BareReadsAsItself(AGENT_HOME + ":" + AGENT_HOME);
    BareReadsAsItself(AGENT_HOME);
  }

  lemma {:induction false} FrontReads(opts: Options)
    requires IsShellSafe(opts.bindAddress)
    ensures AllRead(Front(opts), Front(opts))
  {
    var mounts := ["-v", SOCKET + ":" + SOCKET, "-v", AGENT_HOME + ":" + AGENT_HOME, "-w", AGENT_HOME];
    FlagsAreBare();
    AllBareRead(RUN);
    AllBareRead(RESTART);
    PublishedReads(opts);
    MountsRead();
    ReadConcat(RUN, RUN, RESTART, RESTART);
    ReadConcat(RUN + RESTART, RUN + RESTART, [Published(opts)], [Published(opts)]);
    ReadConcat(RUN + RESTART + [Published(opts)], RUN + RESTART + [Published(opts)], mounts, mounts);
    assert Front(opts) == RUN + RESTART + [Published(opts)] + mounts;
  }

  lemma {:induction false} ImageReads(tag: string)
    requires IsShellSafe(tag)
    ensures ReadsAs(AGENT_IMAGE_REPO + ":" + tag, AGENT_IMAGE_REPO + ":" + tag)
  {
    assert IsBare(AGENT_IMAGE_REPO) && IsBare(":");
    BareJoin(AGENT_IMAGE_REPO, ":");
    PlainReadsAsItself(AGENT_IMAGE_REPO + ":" + tag);
  }

  lemma {:induction false} BackReads(opts: Options)
    requires IsShellSafe(opts.imageTag)
    ensures AllRead(Back(opts), Back(opts))
  {
    ImageReads(opts.imageTag);
    BareReadsAsItself("node");
    BareReadsAsItself("/app/apps/server/dist/agent.js");
  }

  /** `NAME=value` with a bare name. */
  ghost predicate IsEntry(entry: string) {
    exists name: string, value: string {:trigger Entry(name, value)} ::
      IsBare(name) && '=' !in name && entry == Entry(name, value)
  }

  function Entry(name: string, value: string): string {
    name + "=" + value
  }

  /** A name without `=` ends at the first one. */
  lemma {:induction false} NameEndsAtFirst(name: string, value: string)
    requires '=' !in name
    ensures '=' in Entry(name, value) && IndexOf(Entry(name, value), '=') == |name|
  {
    var entry := Entry(name, value);
    assert entry[|name|] == '=';
    if name != [] {
      assert entry[0] == name[0] && entry[1..] == Entry(name[1..], value);
      NameEndsAtFirst(name[1..], value);
    }
  }

  lemma {:induction false} EntryReads(entry: string)
    requires IsEntry(entry)
    ensures '=' in entry && ReadsAs(RenderedEntry(entry), entry)
  {
    var name: string, value: string :| IsBare(name) && '=' !in name && entry == Entry(name, value);
    NameEndsAtFirst(name, value);
    assert entry[..|name|] == name;
    EntryReadsAsItself(entry);
  }

  lemma {:induction false} EntriesRead(entries: seq<string>)
    requires AllEntries(entries)
    ensures AllNamed(entries) && AllRead(FlaggedRendered(entries), Flagged(entries))
  {
    forall i | 0 <= i < |entries| ensures '=' in entries[i] {
      EntryReads(entries[i]);
    }
    if entries != [] {
      EntryReads(entries[0]);
      BareReadsAsItself("-e");
      EntriesRead(entries[1..]);
      ReadConcat(["-e", RenderedEntry(entries[0])], ["-e", entries[0]],
                 FlaggedRendered(entries[1..]), Flagged(entries[1..]));
    }
  }

  /** An entry list all of whose members are entries. */
  ghost predicate AllEntries(entries: seq<string>) {
    forall i :: 0 <= i < |entries| ==> IsEntry(entries[i])
  }

  lemma {:induction false} IsEntryOf(name: string, value: string, entry: string)
    requires IsBare(name) && '=' !in name && entry == name + "=" + value
    ensures IsEntry(entry)
  {
    assert entry == Entry(name, value);
  }

  lemma {:induction false} EntriesConcat(a: seq<string>, b: seq<string>)
    requires AllEntries(a) && AllEntries(b)
    ensures AllEntries(a + b)
  {
  }

  lemma {:induction false} FixedEntries()
    ensures AllEntries(["NINEDEPLOY_AGENT=1", "NINEDEPLOY_AGENT_PORT=" + AGENT_CONTAINER_PORT])
  {
    IsEntryOf("NINEDEPLOY_AGENT", "1", "NINEDEPLOY_AGENT=1");
    IsEntryOf("NINEDEPLOY_AGENT_PORT", AGENT_CONTAINER_PORT, "NINEDEPLOY_AGENT_PORT=" + AGENT_CONTAINER_PORT);
  }

  lemma {:induction false} RekeyEntry()
    ensures AllEntries(["NINEDEPLOY_AGENT_REKEY_REQUIRED=1"])
  {
    IsEntryOf("NINEDEPLOY_AGENT_REKEY_REQUIRED", "1", "NINEDEPLOY_AGENT_REKEY_REQUIRED=1");
  }

  lemma {:induction false} TokenEntry(v: string)
    ensures AllEntries(IfGiven(v, "NINEDEPLOY_AGENT_TOKEN=" + v))
  {
    IsEntryOf("NINEDEPLOY_AGENT_TOKEN", v, "NINEDEPLOY_AGENT_TOKEN=" + v);
  }

  lemma {:induction false} MasterEntry(v: string)
    ensures AllEntries(IfGiven(v, "NINEDEPLOY_MASTER_URL=" + v))
  {
    IsEntryOf("NINEDEPLOY_MASTER_URL", v, "NINEDEPLOY_MASTER_URL=" + v);
  }

  lemma {:induction false} EnrolmentEntry(v: string)
    ensures AllEntries(IfGiven(v, "NINEDEPLOY_ENROLMENT_TOKEN=" + v))
  {
    IsEntryOf("NINEDEPLOY_ENROLMENT_TOKEN", v, "NINEDEPLOY_ENROLMENT_TOKEN=" + v);
  }

  lemma {:induction false} EnvironmentIsEntries(opts: Options)
    ensures AllEntries(Environment(opts))
  {
    FixedEntries();
    RekeyEntry();
    TokenEntry(opts.tokenSha256);
    MasterEntry(opts.masterUrl);
    EnrolmentEntry(opts.enrolmentToken);
    var fixed := ["NINEDEPLOY_AGENT=1", "NINEDEPLOY_AGENT_PORT=" + AGENT_CONTAINER_PORT];
    var token := IfGiven(opts.tokenSha256, "NINEDEPLOY_AGENT_TOKEN=" + opts.tokenSha256);
    var master := IfGiven(opts.masterUrl, "NINEDEPLOY_MASTER_URL=" + opts.masterUrl);
    var enrolment := IfGiven(opts.enrolmentToken, "NINEDEPLOY_ENROLMENT_TOKEN=" + opts.enrolmentToken);
    var rekey := if opts.requireRekey then ["NINEDEPLOY_AGENT_REKEY_REQUIRED=1"] else [];
    EntriesConcat(fixed, token);
    EntriesConcat(fixed + token, master);
    EntriesConcat(fixed + token + master, enrolment);
    EntriesConcat(fixed + token + master + enrolment, rekey);
  }

  /**
   * Whatever the environment values are, the shell reads the line as exactly
   * the arguments meant: one command, no expansion, each `-e` followed by its
   * `NAME=value` verbatim.
   */
  lemma {:induction false} ShellReadsIntendedArgv(opts: Options)
    requires IsShellSafe(opts.imageTag) && IsShellSafe(opts.bindAddress)
    ensures AllNamed(Environment(opts))
    ensures Lex(Outside, None, AgentDockerRunCommand(opts)) == Some(IntendedArgv(opts))
  {
    EnvironmentIsEntries(opts);
    var env := Environment(opts);
    EntriesRead(env);
    FrontReads(opts);
    BackReads(opts);
    ReadConcat(Front(opts), Front(opts), FlaggedRendered(env), Flagged(env));
    ReadConcat(Front(opts) + FlaggedRendered(env), Front(opts) + Flagged(env), Back(opts), Back(opts));
    JoinedIsRead(Front(opts) + FlaggedRendered(env) + Back(opts), IntendedArgv(opts));
  }

  lemma {:induction false} PortsMean(port: nat)
    ensures SplitOn(Decimal(port) + [':'] + AGENT_CONTAINER_PORT, ':') == [Decimal(port), AGENT_CONTAINER_PORT]
  {
    assert ':' !in Decimal(port) && ':' !in AGENT_CONTAINER_PORT;
    SplitOnce(Decimal(port), ':', AGENT_CONTAINER_PORT);
    SplitOnNothing(AGENT_CONTAINER_PORT, ':');
  }

  /** The fields of the published port: an address if one is given, the host's port, the container's. */
  lemma {:induction false} PublishedMeans(opts: Options)
    ensures var fields := SplitOn(Published(opts), ':');
      var n := |fields| - 2;
      && n >= 0 && fields[n + 1] == AGENT_CONTAINER_PORT
      && IsDigits(fields[n]) && DigitsValue(fields[n]) == opts.hostPort
      && fields[..n] == (if opts.bindAddress == "" then [] else SplitOn(opts.bindAddress, ':'))
  {
    var ports := Decimal(opts.hostPort) + [':'] + AGENT_CONTAINER_PORT;
    PortsMean(opts.hostPort);
    DecimalRoundTrip(opts.hostPort);
    if opts.bindAddress == "" {
      assert Published(opts) == ports;
    } else {
      assert Published(opts) == opts.bindAddress + [':'] + ports;
      SplitOnJoined(opts.bindAddress, ':', ports);
    }
  }

  /** The name and the value of an environment entry that the options ask for. */
  predicate Asked(opts: Options, name: string, value: string) {
    || (name == "NINEDEPLOY_AGENT" && value == "1")
    || (name == "NINEDEPLOY_AGENT_PORT" && value == AGENT_CONTAINER_PORT)
    || (name == "NINEDEPLOY_AGENT_TOKEN" && value == opts.tokenSha256 != "")
    || (name == "NINEDEPLOY_MASTER_URL" && value == opts.masterUrl != "")
    || (name == "NINEDEPLOY_ENROLMENT_TOKEN" && value == opts.enrolmentToken != "")
    || (name == "NINEDEPLOY_AGENT_REKEY_REQUIRED" && value == "1" && opts.requireRekey)
  }

  lemma {:induction false} EntriesDiffer(name: string, value: string, other: string, v: string)
    requires '=' !in name && '=' !in other
    ensures Entry(name, value) == Entry(other, v) <==> name == other && value == v
  {
    NameEndsAtFirst(name, value);
    NameEndsAtFirst(other, v);
    assert Entry(name, value)[..|name|] == name && Entry(name, value)[|name| + 1..] == value;
    assert Entry(other, v)[..|other|] == other && Entry(other, v)[|other| + 1..] == v;
  }

  lemma {:induction false} GivenIff(entry: string, value: string, given: string)
    ensures entry in IfGiven(value, given) <==> value != "" && entry == given
  {
  }

  /** An entry of the environment is a fixed one or one of those given. */
  predicate IsListed(opts: Options, entry: string) {
    || entry == "NINEDEPLOY_AGENT=1" || entry == "NINEDEPLOY_AGENT_PORT=" + AGENT_CONTAINER_PORT
    || (opts.tokenSha256 != "" && entry == "NINEDEPLOY_AGENT_TOKEN=" + opts.tokenSha256)
    || (opts.masterUrl != "" && entry == "NINEDEPLOY_MASTER_URL=" + opts.masterUrl)
    || (opts.enrolmentToken != "" && entry == "NINEDEPLOY_ENROLMENT_TOKEN=" + opts.enrolmentToken)
    || (opts.requireRekey && entry == "NINEDEPLOY_AGENT_REKEY_REQUIRED=1")
  }

  lemma {:induction false} ListedIff(opts: Options, entry: string)
    ensures entry in Environment(opts) <==> IsListed(opts, entry)
  {
    GivenIff(entry, opts.tokenSha256, "NINEDEPLOY_AGENT_TOKEN=" + opts.tokenSha256);
    GivenIff(entry, opts.masterUrl, "NINEDEPLOY_MASTER_URL=" + opts.masterUrl);
    GivenIff(entry, opts.enrolmentToken, "NINEDEPLOY_ENROLMENT_TOKEN=" + opts.enrolmentToken);
  }

  /** The environment holds exactly the entries the options ask for. */
  lemma {:induction false} EnvironmentIff(opts: Options, name: string, value: string)
    requires '=' !in name
    ensures Entry(name, value) in Environment(opts) <==> Asked(opts, name, value)
  {
    ListedIff(opts, Entry(name, value));
    FixedAre();
    EntriesDiffer(name, value, "NINEDEPLOY_AGENT", "1");
    EntriesDiffer(name, value, "NINEDEPLOY_AGENT_PORT", AGENT_CONTAINER_PORT);
    EntriesDiffer(name, value, "NINEDEPLOY_AGENT_TOKEN", opts.tokenSha256);
    EntriesDiffer(name, value, "NINEDEPLOY_MASTER_URL", opts.masterUrl);
    EntriesDiffer(name, value, "NINEDEPLOY_ENROLMENT_TOKEN", opts.enrolmentToken);
    EntriesDiffer(name, value, "NINEDEPLOY_AGENT_REKEY_REQUIRED", "1");
    assert forall other: string, v: string :: Entry(other, v) == (other + "=") + v;
    assert "NINEDEPLOY_AGENT_TOKEN" + "=" == "NINEDEPLOY_AGENT_TOKEN=";
    assert "NINEDEPLOY_MASTER_URL" + "=" == "NINEDEPLOY_MASTER_URL=";
    assert "NINEDEPLOY_ENROLMENT_TOKEN" + "=" == "NINEDEPLOY_ENROLMENT_TOKEN=";
    assert "NINEDEPLOY_AGENT_PORT" + "=" == "NINEDEPLOY_AGENT_PORT=";
  }

  lemma {:induction false} FixedAre()
    ensures Entry("NINEDEPLOY_AGENT", "1") == "NINEDEPLOY_AGENT=1"
    ensures Entry("NINEDEPLOY_AGENT_REKEY_REQUIRED", "1") == "NINEDEPLOY_AGENT_REKEY_REQUIRED=1"
  {
  }

  lemma {:induction false} FlaggedAt(entries: seq<string>, k: nat)
    requires k < |entries|
    ensures |Flagged(entries)| == 2 * |entries|
    ensures Flagged(entries)[2 * k] == "-e" && Flagged(entries)[2 * k + 1] == entries[k]
  {
    if k > 0 {
      FlaggedAt(entries[1..], k - 1);
    } else if |entries| > 1 {
      FlaggedAt(entries[1..], 0);
    }
  }

  const PUBLISH_AT := 9
  const ENTRIES_AT := 17

  /** Where the shell's words carry the options: the port behind `-p`, each entry behind an `-e`, the image's tag. */
  lemma {:induction false} ArgvCarriesOptions(opts: Options)
    ensures var argv, env := IntendedArgv(opts), Environment(opts);
      && |argv| == ENTRIES_AT + 2 * |env| + 3
      && argv[PUBLISH_AT] == "-p" && argv[PUBLISH_AT + 1] == Published(opts)
      && (forall k :: 0 <= k < |env| ==> argv[ENTRIES_AT + 2 * k] == "-e" && argv[ENTRIES_AT + 2 * k + 1] == env[k])
      && argv[ENTRIES_AT + 2 * |env|] == AGENT_IMAGE_REPO + ":" + opts.imageTag
  {
    var env := Environment(opts);
    FlaggedAt(env, 0);
    forall k | 0 <= k < |env|
      ensures Flagged(env)[2 * k] == "-e" && Flagged(env)[2 * k + 1] == env[k]
    {
      FlaggedAt(env, k);
    }
  }

  /**
   * The printer itself, pushing the entries one by one: its line is read back
   * as `docker run`, the fixed flags, every entry verbatim, and the image.
   */
  method PrintAgentDockerRun(opts: Options) returns (line: string)
    requires IsShellSafe(opts.imageTag) && IsShellSafe(opts.bindAddress)
    ensures Lex(Outside, None, line) == Some(IntendedArgv(opts))
  {
    var env := ["NINEDEPLOY_AGENT=1", "NINEDEPLOY_AGENT_PORT=" + AGENT_CONTAINER_PORT];
    if opts.tokenSha256 != "" {
      env := env + ["NINEDEPLOY_AGENT_TOKEN=" + opts.tokenSha256];
    }
    if opts.masterUrl != "" {
      env := env + ["NINEDEPLOY_MASTER_URL=" + opts.masterUrl];
    }
    if opts.enrolmentToken != "" {
      env := env + ["NINEDEPLOY_ENROLMENT_TOKEN=" + opts.enrolmentToken];
    }
    if opts.requireRekey {
      env := env + ["NINEDEPLOY_AGENT_REKEY_REQUIRED=1"];
    }
    assert env == Environment(opts);
    ShellReadsIntendedArgv(opts);
    line := Join(Front(opts) + FlaggedRendered(env) + Back(opts));
  }
}
