/**
 * The node agent's symlink walk over repository paths, against a file-system
 * tree, and the Dockerfile a node builds.
 */
module Workspace {
  import opened JsText
  import opened Optional

  /** A place in the tree: the names from the file-system root down. */
  type Location = seq<string>

  datatype Kind = File | Directory | Link(absolute: bool, target: seq<string>)

  type Fs = map<Location, Kind>

  predicate IsDirectory(fs: Fs, at: Location) {
    at == [] || (at in fs && fs[at] == Directory)
  }

  /** Whatever exists hangs below a directory. */
  ghost predicate Tree(fs: Fs) {
    forall at :: at in fs && at != [] ==> IsDirectory(fs, at[..|at| - 1])
  }

  // ---------------------------------------------------------------------
  // Path resolution as the operating system does it
  // ---------------------------------------------------------------------

  datatype Walked = Reached(at: Location) | Missing | TooManyLinks

  function Follow(fs: Fs, cwd: Location, parts: seq<string>, links: nat): Walked
    decreases links, |parts|
  {
    if parts == [] then Reached(cwd)
    else if !IsDirectory(fs, cwd) then Missing
    else if parts[0] == "" || parts[0] == "." then Follow(fs, cwd, parts[1..], links)
    else if parts[0] == ".." then Follow(fs, if cwd == [] then [] else cwd[..|cwd| - 1], parts[1..], links)
    else
      var next := cwd + [parts[0]];
      if next !in fs then Missing
      else if fs[next].Link? then
        if links == 0 then TooManyLinks
        else Follow(fs, if fs[next].absolute then [] else cwd, fs[next].target + parts[1..], links - 1)
      else Follow(fs, next, parts[1..], links)
  }

  const MAX_LINKS: nat := 40

  datatype Stat = Found(kind: Kind) | NotFound | OtherError

  /** `lstat`: every component but the last is followed. */
  function Lstat(fs: Fs, root: Location, names: seq<string>): Stat
    requires names != []
  {
    match Follow(fs, root, names[..|names| - 1], MAX_LINKS)
    case Missing => NotFound
    case TooManyLinks => OtherError
    case Reached(dir) =>
      var at := dir + [names[|names| - 1]];
      if IsDirectory(fs, dir) && at in fs then Found(fs[at]) else NotFound
  }

  // ---------------------------------------------------------------------
  // Lexical paths
  // ---------------------------------------------------------------------

  /** `path.resolve(root, value)`, on the components. */
  function Normalize(stack: Location, parts: seq<string>): Location
    decreases parts
  {
    if parts == [] then stack
    else if parts[0] == "" || parts[0] == "." then Normalize(stack, parts[1..])
    else if parts[0] == ".." then Normalize(if stack == [] then [] else stack[..|stack| - 1], parts[1..])
    else Normalize(stack + [parts[0]], parts[1..])
  }

  predicate IsName(part: string) {
    part != "" && part != "." && part != ".."
  }

  predicate AllNames(names: seq<string>) {
    forall i :: 0 <= i < |names| ==> IsName(names[i])
  }

  /** The components that name something. */
  function Names(parts: seq<string>): seq<string> {
    if parts == [] then []
    else if parts[0] == "" || parts[0] == "." then Names(parts[1..])
    else [parts[0]] + Names(parts[1..])
  }

  lemma {:induction false} NameIsPushed(stack: Location, name: string, names: seq<string>)
    ensures stack + [name] + names == stack + ([name] + names)
    ensures IsName(name) && AllNames(names) ==> AllNames([name] + names)
  {
  }

  lemma {:induction false} NormalizeWithoutDotDot(stack: Location, parts: seq<string>)
    requires ".." !in parts
    ensures Normalize(stack, parts) == stack + Names(parts)
    ensures AllNames(Names(parts))
    decreases parts
  {
    if parts != [] {
      var rest := parts[1..];
      if parts[0] == "" || parts[0] == "." {
        NormalizeWithoutDotDot(stack, rest);
      } else {
        assert parts[0] in parts;
        NormalizeWithoutDotDot(stack + [parts[0]], rest);
        NameIsPushed(stack, parts[0], Names(rest));
      }
    }
  }

  /** Names never enter the stack unless they name something. */
  lemma {:induction false} NormalizeKeepsNames(stack: Location, parts: seq<string>)
    requires AllNames(stack)
    ensures AllNames(Normalize(stack, parts))
    decreases parts
  {
    if parts != [] {
      var next :=
        if parts[0] == "" || parts[0] == "." then stack
        else if parts[0] != ".." then stack + [parts[0]]
        else if stack == [] then [] else stack[..|stack| - 1];
      NormalizeKeepsNames(next, parts[1..]);
    }
  }

  // ---------------------------------------------------------------------
  // The walk
  // ---------------------------------------------------------------------

  datatype Verdict = Accepted | Outside | ThroughLink | LstatFailed

  function Resolve(root: Location, value: string): Location {
    Normalize(root, SplitOn(value, '/'))
  }

  predicate StaysInside(root: Location, value: string) {
    && !(value != [] && value[0] == '/') && '\\' !in value
    && root <= Resolve(root, value)
  }

  /** No prefix of the lexical path is a symlink. */
  ghost predicate NoLinkOn(fs: Fs, at: Location, names: seq<string>) {
    forall k {:trigger names[..k]} :: 0 < k <= |names| && at + names[..k] in fs ==> !fs[at + names[..k]].Link?
  }

  /** Nothing exists below a missing place or a file. */
  lemma {:induction false} NothingBelow(fs: Fs, at: Location, names: seq<string>)
    requires Tree(fs) && names != [] && !IsDirectory(fs, at)
    ensures at + names !in fs
    decreases |names|
  {
    var up := names[..|names| - 1];
    assert (at + names)[..|at + names| - 1] == at + up;
    if up == [] {
      assert at + up == at;
    } else {
      NothingBelow(fs, at, up);
    }
  }

  /** An existing place with no link on the way to it is reached by following its names. */
  lemma {:induction false} FollowExisting(fs: Fs, at: Location, names: seq<string>, links: nat)
    requires Tree(fs) && NoLinkOn(fs, at, names) && (names != [] ==> at + names in fs)
    requires AllNames(names)
    ensures Follow(fs, at, names, links) == Reached(at + names)
    decreases |names|
  {
    if names == [] {
      assert at + names == at;
    } else {
      var next, rest := at + [names[0]], names[1..];
      assert at + names == next + rest;
      if !IsDirectory(fs, at) {
        NothingBelow(fs, at, names);
      }
      assert names[..1] == [names[0]];
      if next !in fs && rest != [] {
        NothingBelow(fs, next, rest);
      }
      assert rest == [] ==> next + rest == next;
      LinkFreeBelow(fs, at, names);
      FollowExisting(fs, next, rest, links);
    }
  }

  lemma {:induction false} LinkFreeBelow(fs: Fs, at: Location, names: seq<string>)
    requires names != [] && NoLinkOn(fs, at, names)
    ensures NoLinkOn(fs, at + [names[0]], names[1..])
    ensures at + [names[0]] in fs ==> !fs[at + [names[0]]].Link?
  {
    assert names[..1] == [names[0]];
    forall k | 0 < k <= |names[1..]| && at + [names[0]] + names[1..][..k] in fs
      ensures !fs[at + [names[0]] + names[1..][..k]].Link?
    {
      assert at + [names[0]] + names[1..][..k] == at + names[..k + 1];
    }
  }

  /**
   * `assertPathInWorkspace`: lstat every component of the resolved path from
   * the root down, stopping at the first that is missing.
   */
  method AssertPathInWorkspace(fs: Fs, root: Location, value: string) returns (verdict: Verdict)
    requires Tree(fs) && (root in fs ==> fs[root] == Directory)
    requires AllNames(root)
    ensures verdict == Accepted <==>
      StaysInside(root, value) && NoLinkOn(fs, root, Resolve(root, value)[|root|..])
    ensures verdict == Outside <==> !StaysInside(root, value)
    ensures verdict != LstatFailed
  {
    if (value != [] && value[0] == '/') || '\\' in value {
      return Outside;
    }
    var resolved := Resolve(root, value);
    NormalizeKeepsNames(root, SplitOn(value, '/'));
    if !(root <= resolved) {
      return Outside;
    }
    var names := resolved[|root|..];
    var current := root;
    for i := 0 to |names|
      invariant current == root + names[..i]
      invariant NoLinkOn(fs, root, names[..i]) && (i > 0 ==> current in fs)
    {
      var stat := Lstat(fs, root, names[..i + 1]);
      StatMeaning(fs, root, names, i);
      OneMoreLinkFree(fs, root, names, i);
      current := current + [names[i]];
      if stat == NotFound {
        RestIsMissing(fs, root, names, i);
        return Accepted;
      }
      if stat.kind.Link? {
        return ThroughLink;
      }
    }
    assert names[..|names|] == names;
    return Accepted;
  }

  /** With no link so far, lstat says what stands at the lexical place. */
  lemma {:induction false} LstatMeaning(fs: Fs, root: Location, front: seq<string>, name: string)
    requires Tree(fs) && NoLinkOn(fs, root, front) && AllNames(front)
    requires front != [] ==> root + front in fs
    ensures var at := root + front + [name];
      Lstat(fs, root, front + [name]) == if at in fs then Found(fs[at]) else NotFound
  {
    var names, at := front + [name], root + front + [name];
    assert names[..|names| - 1] == front;
    FollowExisting(fs, root, front, MAX_LINKS);
    assert at[..|at| - 1] == root + front;
  }

  lemma {:induction false} StatMeaning(fs: Fs, root: Location, names: seq<string>, i: nat)
    requires Tree(fs) && i < |names| && NoLinkOn(fs, root, names[..i]) && AllNames(names)
    requires i > 0 ==> root + names[..i] in fs
    ensures root + names[..i + 1] == root + names[..i] + [names[i]]
    ensures Lstat(fs, root, names[..i + 1])
      == if root + names[..i + 1] in fs then Found(fs[root + names[..i + 1]]) else NotFound
  {
    assert names[..i + 1] == names[..i] + [names[i]];
    assert root + names[..i + 1] == root + names[..i] + [names[i]];
    LstatMeaning(fs, root, names[..i], names[i]);
  }

  /** One component more is free of links exactly when it is none itself; a free path is free up to there. */
  lemma {:induction false} OneMoreLinkFree(fs: Fs, root: Location, names: seq<string>, i: nat)
    requires i < |names| && NoLinkOn(fs, root, names[..i])
    ensures NoLinkOn(fs, root, names[..i + 1]) <==> root + names[..i + 1] in fs ==> !fs[root + names[..i + 1]].Link?
    ensures NoLinkOn(fs, root, names) ==> NoLinkOn(fs, root, names[..i + 1])
  {
    var upTo := names[..i + 1];
    assert upTo[..i] == names[..i] && upTo[..i + 1] == upTo;
    PrefixLinkFree(fs, root, upTo, i);
    PrefixLinkFree(fs, root, names, i + 1);
  }

  /** Link-freeness, prefix by prefix. */
  lemma {:induction false} PrefixLinkFree(fs: Fs, root: Location, names: seq<string>, i: nat)
    requires i <= |names|
    ensures NoLinkOn(fs, root, names) ==> NoLinkOn(fs, root, names[..i])
    ensures |names| == i + 1 && NoLinkOn(fs, root, names[..i]) && (root + names in fs ==> !fs[root + names].Link?)
      ==> NoLinkOn(fs, root, names)
  {
    var front := names[..i];
    assert forall k :: 0 < k <= i ==> front[..k] == names[..k];
    assert names[..|names|] == names;
  }

  lemma {:induction false} MissingBelow(fs: Fs, root: Location, names: seq<string>, i: nat, k: nat)
    requires Tree(fs) && i <= k <= |names| && root + names[..i] !in fs && root + names[..i] != []
    ensures root + names[..k] !in fs
  {
    if i < k {
      NothingBelow(fs, root + names[..i], names[i..k]);
      assert root + names[..i] + names[i..k] == root + names[..k];
    }
  }

  lemma {:induction false} RestIsMissing(fs: Fs, root: Location, names: seq<string>, i: nat)
    requires Tree(fs) && i < |names| && NoLinkOn(fs, root, names[..i])
    requires root + names[..i + 1] !in fs
    ensures NoLinkOn(fs, root, names)
  {
    var front := names[..i];
    assert forall k :: 0 < k <= i ==> front[..k] == names[..k];
    forall k | i + 1 <= k <= |names| ensures root + names[..k] !in fs {
      MissingBelow(fs, root, names, i + 1, k);
    }
  }

  // ---------------------------------------------------------------------
  // What acceptance is worth
  // ---------------------------------------------------------------------

  /** RE_PATH, the validator every operand passes before the walk. */
  predicate RePath(value: string) {
    && value != []
    && (forall i :: 0 <= i < |value| ==> IsPathChar(value[i]))
    && value[0] != '-'
    && ".." !in SplitOn(value, '/')
  }

  predicate IsPathChar(c: char) {
    'A' <= c <= 'Z' || 'a' <= c <= 'z' || '0' <= c <= '9' || c in "@._/-"
  }

  ghost predicate Passes(fs: Fs, root: Location, value: string) {
    StaysInside(root, value) && NoLinkOn(fs, root, Resolve(root, value)[|root|..])
  }

  lemma {:induction false} FollowLinkFree(fs: Fs, at: Location, parts: seq<string>, links: nat)
    requires ".." !in parts && NoLinkOn(fs, at, Names(parts))
    ensures Follow(fs, at, parts, links) in {Missing, Reached(at + Names(parts))}
    decreases parts
  {
    if parts == [] {
      assert at + Names(parts) == at;
    } else {
      assert parts == [parts[0]] + parts[1..];
      if parts[0] == "" || parts[0] == "." {
        FollowLinkFree(fs, at, parts[1..], links);
      } else {
        var names := Names(parts);
        assert names[1..] == Names(parts[1..]);
        LinkFreeBelow(fs, at, names);
        FollowLinkFree(fs, at + [parts[0]], parts[1..], links);
        assert at + [parts[0]] + Names(parts[1..]) == at + names;
      }
    }
  }

  /**
   * A path without `..` that passes the walk, followed as the operating system
   * follows it: it hits something missing or ends at its lexical place below
   * the root, however many links the system is willing to follow.
   */
  lemma {:induction false} AcceptedStaysLexical(fs: Fs, root: Location, value: string, links: nat)
    requires ".." !in SplitOn(value, '/') && Passes(fs, root, value)
    ensures Follow(fs, root, SplitOn(value, '/'), links) in {Missing, Reached(root + Names(SplitOn(value, '/')))}
  {
    var parts := SplitOn(value, '/');
    NormalizeWithoutDotDot(root, parts);
    assert Resolve(root, value)[|root|..] == Names(parts);
    FollowLinkFree(fs, root, parts, links);
  }

  // ---------------------------------------------------------------------
  // Which paths the walk settles
  // ---------------------------------------------------------------------

  predicate OnTheWay(at: Location, root: Location, goal: Location) {
    at <= root || at <= goal
  }

  /** Does the path, read lexically, only enter places on the way to the root or to its goal? */
  predicate KeepsToTheWay(stack: Location, parts: seq<string>, root: Location, goal: Location)
    decreases parts
  {
    if parts == [] then true
    else if parts[0] == "" || parts[0] == "." then KeepsToTheWay(stack, parts[1..], root, goal)
    else if parts[0] == ".." then KeepsToTheWay(Up(stack), parts[1..], root, goal)
    else
      OnTheWay(stack + [parts[0]], root, goal) && KeepsToTheWay(stack + [parts[0]], parts[1..], root, goal)
  }

  function Up(stack: Location): Location {
    if stack == [] then [] else stack[..|stack| - 1]
  }

  /** The first place off the way. */
  function FirstStray(stack: Location, parts: seq<string>, root: Location, goal: Location): Location
    requires !KeepsToTheWay(stack, parts, root, goal)
    decreases parts
  {
    if parts[0] == "" || parts[0] == "." then FirstStray(stack, parts[1..], root, goal)
    else if parts[0] == ".." then FirstStray(Up(stack), parts[1..], root, goal)
    else if OnTheWay(stack + [parts[0]], root, goal) then FirstStray(stack + [parts[0]], parts[1..], root, goal)
    else stack + [parts[0]]
  }

  lemma {:induction false} AncestorsAreDirectories(fs: Fs, at: Location, k: nat)
    requires Tree(fs) && IsDirectory(fs, at) && k <= |at|
    ensures IsDirectory(fs, at[..k])
    decreases |at|
  {
    if k < |at| {
      AncestorsAreDirectories(fs, at[..|at| - 1], k);
      assert at[..|at| - 1][..k] == at[..k];
    } else {
      assert at[..k] == at;
    }
  }

  /** A place on the way is no symlink, if the walk found none. */
  lemma {:induction false} NoLinkOnTheWay(fs: Fs, root: Location, goal: Location, at: Location)
    requires Tree(fs) && IsDirectory(fs, root) && root <= goal && NoLinkOn(fs, root, goal[|root|..])
    requires OnTheWay(at, root, goal) && at in fs && at != []
    ensures !fs[at].Link?
  {
    if |at| <= |root| {
      AncestorsAreDirectories(fs, root, |at|);
      assert at == root[..|at|];
    } else {
      var names := goal[|root|..];
      assert root + names[..|at| - |root|] == at;
    }
  }

  lemma {:induction false} FollowOnTheWay(fs: Fs, root: Location, goal: Location, cwd: Location,
        parts: seq<string>, links: nat)
    requires Tree(fs) && IsDirectory(fs, root) && root <= goal && NoLinkOn(fs, root, goal[|root|..])
    requires KeepsToTheWay(cwd, parts, root, goal)
    ensures Follow(fs, cwd, parts, links) in {Missing, Reached(Normalize(cwd, parts))}
    decreases parts
  {
    if parts != [] && IsDirectory(fs, cwd) {
      if parts[0] == "" || parts[0] == "." {
        FollowOnTheWay(fs, root, goal, cwd, parts[1..], links);
      } else if parts[0] == ".." {
        FollowOnTheWay(fs, root, goal, Up(cwd), parts[1..], links);
      } else if cwd + [parts[0]] in fs {
        NoLinkOnTheWay(fs, root, goal, cwd + [parts[0]]);
        FollowOnTheWay(fs, root, goal, cwd + [parts[0]], parts[1..], links);
      }
    }
  }

  /** A tree in which the ways to the root and to the goal are there, and one place off them is a link to itself. */
  ghost predicate IsLoop(fs: Fs, root: Location, goal: Location, stray: Location) {
    && (forall at :: OnTheWay(at, root, goal) ==> at in fs && fs[at] == Directory)
    && stray in fs && fs[stray] == Link(true, stray)
    && forall at :: at in fs ==> at == stray || OnTheWay(at, root, goal)
  }

  predicate IsStray(stray: Location, root: Location, goal: Location) {
    && stray != [] && AllNames(stray)
    && !OnTheWay(stray, root, goal) && OnTheWay(stray[..|stray| - 1], root, goal)
  }

  lemma {:induction false} LoopExists(root: Location, goal: Location, stray: Location) returns (fs: Fs)
    requires IsStray(stray, root, goal)
    ensures Tree(fs) && IsLoop(fs, root, goal, stray)
  {
    var ways := (set k | 0 <= k <= |root| :: root[..k]) + (set k | 0 <= k <= |goal| :: goal[..k]);
    forall at ensures at in ways <==> OnTheWay(at, root, goal) {
      if at <= root {
        assert at == root[..|at|];
      }
      if at <= goal {
        assert at == goal[..|at|];
      }
    }
    fs := (map at | at in ways :: Directory)[stray := Link(true, stray)];
    forall at | at in fs && at != [] ensures IsDirectory(fs, at[..|at| - 1]) {
      assert OnTheWay(at[..|at| - 1], root, goal);
    }
  }

  /** One name further along a stray place; its link leads back to the file-system root. */
  lemma {:induction false} LoopStep(fs: Fs, root: Location, goal: Location, stray: Location,
        j: nat, rest: seq<string>, links: nat)
    requires IsLoop(fs, root, goal, stray) && IsStray(stray, root, goal) && j < |stray|
    ensures j + 1 < |stray| ==>
      Follow(fs, stray[..j], stray[j..] + rest, links) == Follow(fs, stray[..j + 1], stray[j + 1..] + rest, links)
    ensures j + 1 == |stray| ==>
      Follow(fs, stray[..j], stray[j..] + rest, links) ==
        if links == 0 then TooManyLinks else Follow(fs, [], stray + rest, links - 1)
  {
    var parts := stray[j..] + rest;
    assert parts[0] == stray[j] && parts[1..] == stray[j + 1..] + rest && stray[..j] + [stray[j]] == stray[..j + 1];
    assert OnTheWay(stray[..j], root, goal) by {
      assert stray[..j] == stray[..|stray| - 1][..j];
    }
    if j + 1 < |stray| {
      assert stray[..j + 1] == stray[..|stray| - 1][..j + 1];
    } else {
      assert stray[..j + 1] == stray && [] + rest == rest;
    }
  }

  /** From any place above the stray one, its link is followed for ever. */
  lemma {:induction false} LoopGoesOn(fs: Fs, root: Location, goal: Location, stray: Location,
        j: nat, rest: seq<string>, links: nat)
    requires IsLoop(fs, root, goal, stray) && IsStray(stray, root, goal) && j < |stray|
    ensures Follow(fs, stray[..j], stray[j..] + rest, links) == TooManyLinks
    decreases links, |stray| - j
  {
    LoopStep(fs, root, goal, stray, j, rest, links);
    if j + 1 < |stray| {
      LoopGoesOn(fs, root, goal, stray, j + 1, rest, links);
    } else if links > 0 {
      LoopGoesOn(fs, root, goal, stray, 0, rest, links - 1);
      assert stray[..0] == [] && stray[0..] == stray;
    }
  }

  lemma {:induction false} UpIsOnTheWay(at: Location, root: Location, goal: Location)
    requires OnTheWay(at, root, goal)
    ensures OnTheWay(Up(at), root, goal)
  {
  }

  lemma {:induction false} FirstStrayIsStray(stack: Location, parts: seq<string>, root: Location, goal: Location)
    requires OnTheWay(stack, root, goal) && AllNames(stack) && !KeepsToTheWay(stack, parts, root, goal)
    ensures IsStray(FirstStray(stack, parts, root, goal), root, goal)
    decreases parts
  {
    if parts[0] == "" || parts[0] == "." {
      FirstStrayIsStray(stack, parts[1..], root, goal);
    } else if parts[0] == ".." {
      UpIsOnTheWay(stack, root, goal);
      FirstStrayIsStray(Up(stack), parts[1..], root, goal);
    } else if OnTheWay(stack + [parts[0]], root, goal) {
      FirstStrayIsStray(stack + [parts[0]], parts[1..], root, goal);
    } else {
      assert (stack + [parts[0]])[..|stack|] == stack;
    }
  }

  lemma {:induction false} StrayLoops(fs: Fs, root: Location, goal: Location, cwd: Location,
        parts: seq<string>, links: nat)
    requires OnTheWay(cwd, root, goal) && AllNames(cwd) && !KeepsToTheWay(cwd, parts, root, goal)
    requires IsLoop(fs, root, goal, FirstStray(cwd, parts, root, goal))
    ensures Follow(fs, cwd, parts, links) == TooManyLinks
    decreases parts
  {
    assert IsDirectory(fs, cwd);
    if parts[0] == "" || parts[0] == "." {
      StrayLoops(fs, root, goal, cwd, parts[1..], links);
    } else if parts[0] == ".." {
      UpIsOnTheWay(cwd, root, goal);
      StrayLoops(fs, root, goal, Up(cwd), parts[1..], links);
    } else if OnTheWay(cwd + [parts[0]], root, goal) {
      StrayLoops(fs, root, goal, cwd + [parts[0]], parts[1..], links);
    } else {
      var stray := cwd + [parts[0]];
      FirstStrayIsStray(cwd, parts, root, goal);
      assert stray[..|cwd|] == cwd && stray[|cwd|..] + parts[1..] == parts;
      LoopGoesOn(fs, root, goal, stray, |cwd|, parts[1..], links);
    }
  }

  /** Whatever tree accepts the path, following it hits something missing or ends where the path says. */
  ghost predicate Settles(root: Location, value: string) {
    forall fs: Fs, links: nat :: Tree(fs) && Passes(fs, root, value) ==>
      Follow(fs, root, SplitOn(value, '/'), links) in {Missing, Reached(Resolve(root, value))}
  }

  /**
   * For every path inside the root: the walk's acceptance settles where the
   * path leads, over all trees, if and only if the path itself never enters a
   * place off the way to the root or to its goal.
   */
  lemma {:induction false} SettlesIff(root: Location, value: string)
    requires AllNames(root) && StaysInside(root, value)
    ensures Settles(root, value) <==> KeepsToTheWay(root, SplitOn(value, '/'), root, Resolve(root, value))
  {
    var parts, goal := SplitOn(value, '/'), Resolve(root, value);
    if KeepsToTheWay(root, parts, root, goal) {
      forall fs: Fs, links: nat | Tree(fs) && Passes(fs, root, value)
        ensures Follow(fs, root, parts, links) in {Missing, Reached(goal)}
      {
        if IsDirectory(fs, root) {
          FollowOnTheWay(fs, root, goal, root, parts, links);
        }
      }
    } else {
      var fs := StrayEscapesWalk(root, value);
    }
  }

  /** Off the way a link may stand that the walk does not see. */
  lemma {:induction false} StrayEscapesWalk(root: Location, value: string) returns (fs: Fs)
    requires AllNames(root) && StaysInside(root, value)
    requires !KeepsToTheWay(root, SplitOn(value, '/'), root, Resolve(root, value))
    ensures Tree(fs) && IsDirectory(fs, root) && Passes(fs, root, value)
    ensures Follow(fs, root, SplitOn(value, '/'), MAX_LINKS) == TooManyLinks
  {
    var parts, goal := SplitOn(value, '/'), Resolve(root, value);
    var stray := FirstStray(root, parts, root, goal);
    FirstStrayIsStray(root, parts, root, goal);
    fs := LoopExists(root, goal, stray);
    StrayLoops(fs, root, goal, root, parts, MAX_LINKS);
    var names := goal[|root|..];
    forall k | 0 < k <= |names| && root + names[..k] in fs ensures !fs[root + names[..k]].Link? {
      assert root + names[..k] == goal[..|root| + k];
    }
  }

  lemma {:induction false} TrapPathParts()
    ensures SplitOn("l/../x", '/') == ["l", "..", "x"]
  {
    SplitOnce("l", '/', "../x");
    SplitOnce("..", '/', "x");
    SplitOnNothing("x", '/');
    assert "l" + ['/'] + "../x" == "l/../x" && ".." + ['/'] + "x" == "../x";
  }

  /** A workspace whose link `l` leads to the file-system root. */
  ghost predicate IsTrap(fs: Fs, root: Location) {
    && root != [] && IsDirectory(fs, root) && root in fs
    && root + ["l"] in fs && fs[root + ["l"]] == Link(true, [])
    && root + ["x"] !in fs
    && ["x"] in fs && fs[["x"]] == File
  }

  lemma {:induction false} TrapPasses(fs: Fs, root: Location)
    requires IsTrap(fs, root)
    ensures Passes(fs, root, "l/../x")
  {
    TrapPathParts();
    var parts := ["l", "..", "x"];
    assert parts[1..] == ["..", "x"] && ["..", "x"][1..] == ["x"] && ["x"][1..] == [];
    assert (root + ["l"])[..|root + ["l"]| - 1] == root;
    assert Normalize(root, parts) == Normalize(root + ["l"], ["..", "x"]);
    assert Normalize(root + ["l"], ["..", "x"]) == Normalize(root, ["x"]);
    assert Normalize(root, ["x"]) == Normalize(root + ["x"], []);
    assert (root + ["x"])[|root|..] == ["x"] && ["x"][..1] == ["x"];
  }

  lemma {:induction false} TrapLeadsOut(fs: Fs, root: Location)
    requires IsTrap(fs, root)
    ensures Follow(fs, root, SplitOn("l/../x", '/'), MAX_LINKS) == Reached(["x"])
  {
    TrapPathParts();
    var parts := ["l", "..", "x"];
    assert parts[1..] == ["..", "x"] && ["..", "x"][1..] == ["x"] && ["x"][1..] == [];
    assert [] + ["..", "x"] == ["..", "x"] && [] + ["x"] == ["x"];
    var left: nat := MAX_LINKS - 1;
    assert Follow(fs, root, parts, MAX_LINKS) == Follow(fs, [], ["..", "x"], left);
    assert Follow(fs, [], ["..", "x"], left) == Follow(fs, [], ["x"], left);
    assert Follow(fs, [], ["x"], left) == Follow(fs, ["x"], [], left);
  }

  lemma {:induction false} TrapExists(name: string) returns (fs: Fs)
    requires IsName(name) && name != "x"
    ensures Tree(fs) && IsTrap(fs, [name])
  {
    var root, link, file, out := [name], [name, "l"], [name, "x"], ["x"];
    assert root + ["l"] == link && root + ["x"] == file;
    assert link[1] == "l" && file[1] == "x" && "l"[0] != "x"[0];
    assert root[0] != out[0];
    fs := map[root := Directory, link := Link(true, []), out := File];
    assert link[..|link| - 1] == root;
  }

  /** With a `..` acceptance is worth nothing: here a path passes and leads out of the workspace. */
  lemma {:induction false} DotDotEscapes(name: string) returns (fs: Fs)
    requires IsName(name) && name != "x"
    ensures Tree(fs) && IsDirectory(fs, [name]) && Passes(fs, [name], "l/../x")
    ensures Follow(fs, [name], SplitOn("l/../x", '/'), MAX_LINKS) == Reached(["x"])
  {
    fs := TrapExists(name);
    TrapPasses(fs, [name]);
    TrapLeadsOut(fs, [name]);
  }

  // ---------------------------------------------------------------------
  // The Dockerfile a node builds
  // ---------------------------------------------------------------------

  /** `existsSync(join(base, value))`, for a path that stays below the base. */
  predicate Exists(fs: Fs, base: Location, value: string) {
    base <= Resolve(base, value) && Follow(fs, base, Resolve(base, value)[|base|..], MAX_LINKS).Reached?
  }

  function WithoutTrailingSlashes(s: string): string {
    if s == [] || s[|s| - 1] != '/' then s else WithoutTrailingSlashes(s[..|s| - 1])
  }

  function UnderContext(context: string, dockerfile: string): string {
    WithoutTrailingSlashes(context) + "/" + dockerfile
  }

  lemma {:induction false} NormalizeOn(stack: Location, a: seq<string>, b: seq<string>)
    ensures Normalize(stack, a + b) == Normalize(Normalize(stack, a), b)
    decreases |a|
  {
    if a == [] {
      assert a + b == b;
    } else {
      assert (a + b)[1..] == a[1..] + b;
      if a[0] == "" || a[0] == "." {
        NormalizeOn(stack, a[1..], b);
      } else if a[0] == ".." {
        NormalizeOn(if stack == [] then [] else stack[..|stack| - 1], a[1..], b);
      } else {
        NormalizeOn(stack + [a[0]], a[1..], b);
      }
    }
  }

  lemma {:induction false} TrailingSlashesNameNothing(base: Location, s: string)
    ensures Resolve(base, WithoutTrailingSlashes(s)) == Resolve(base, s)
  {
    if s != [] && s[|s| - 1] == '/' {
      var front := s[..|s| - 1];
      TrailingSlashesNameNothing(base, front);
      assert s == front + ['/'] + [];
      SplitOnJoined(front, '/', []);
      NormalizeOn(base, SplitOn(front, '/'), [""]);
      assert Normalize(Resolve(base, front), [""]) == Normalize(Resolve(base, front), [""][1..]);
    }
  }

  /** The file under the context is the Dockerfile's own path, taken from the context's place. */
  lemma {:induction false} UnderContextResolves(base: Location, context: string, dockerfile: string)
    ensures Resolve(base, UnderContext(context, dockerfile)) == Resolve(Resolve(base, context), dockerfile)
  {
    var front := WithoutTrailingSlashes(context);
    TrailingSlashesNameNothing(base, context);
    assert UnderContext(context, dockerfile) == front + ['/'] + dockerfile;
    SplitOnJoined(front, '/', dockerfile);
    NormalizeOn(base, SplitOn(front, '/'), SplitOn(dockerfile, '/'));
  }

  /** Operands that are valid paths leave only names below where they start ... */
  lemma {:induction false} ValidPathGoesDown(base: Location, value: string)
    requires RePath(value)
    ensures base <= Resolve(base, value) && AllNames(Resolve(base, value)[|base|..])
  {
    NormalizeWithoutDotDot(base, SplitOn(value, '/'));
    assert Resolve(base, value)[|base|..] == Names(SplitOn(value, '/'));
  }

  /** ... and so does the file under the context, which is itself a valid path. */
  lemma {:induction false} UnderContextIsPath(context: string, dockerfile: string)
    requires RePath(context) && RePath(dockerfile)
    ensures RePath(UnderContext(context, dockerfile))
  {
    var front, value := WithoutTrailingSlashes(context), UnderContext(context, dockerfile);
    FrontIsPath(context);
    assert value == front + ['/'] + dockerfile;
    SplitOnJoined(front, '/', dockerfile);
    forall i | 0 <= i < |value| ensures IsPathChar(value[i]) {
      if i > |front| {
        assert value[i] == dockerfile[i - |front| - 1];
      }
    }
  }

  lemma {:induction false} FrontIsPath(s: string)
    requires ".." !in SplitOn(s, '/') && forall i :: 0 <= i < |s| ==> IsPathChar(s[i])
    ensures var front := WithoutTrailingSlashes(s);
      && front <= s && ".." !in SplitOn(front, '/')
      && forall i :: 0 <= i < |front| ==> IsPathChar(front[i])
  {
    if s != [] && s[|s| - 1] == '/' {
      var front := s[..|s| - 1];
      assert s == front + ['/'] + [];
      SplitOnJoined(front, '/', []);
      FrontIsPath(front);
    }
  }

  /** The repo-relative file if it exists, otherwise one under the context; `None` when a walk refuses. */
  method NodeDockerfile(fs: Fs, base: Location, dockerfile: string, context: string) returns (r: Option<string>)
    requires Tree(fs) && (base in fs ==> fs[base] == Directory)
    requires AllNames(base)
    ensures r.Some? ==> Passes(fs, base, r.value) && Passes(fs, base, dockerfile) && Passes(fs, base, context)
    ensures r.Some? && r.value != dockerfile ==>
      && r.value == UnderContext(context, dockerfile) && RePath(r.value)
      && !Exists(fs, base, dockerfile) && Exists(fs, base, r.value)
    ensures r.Some? && Exists(fs, base, dockerfile) ==> r.value == dockerfile
    ensures r.Some? && context != "." && RePath(UnderContext(context, dockerfile))
      && !Exists(fs, base, dockerfile) && Exists(fs, base, UnderContext(context, dockerfile))
      ==> r.value == UnderContext(context, dockerfile)
    ensures r.None? ==>
      || !Passes(fs, base, dockerfile) || !Passes(fs, base, context)
      || !Passes(fs, base, UnderContext(context, dockerfile))
  {
    var verdict := AssertPathInWorkspace(fs, base, dockerfile);
    if verdict != Accepted {
      return None;
    }
    verdict := AssertPathInWorkspace(fs, base, context);
    if verdict != Accepted {
      return None;
    }
    if context == "." || Exists(fs, base, dockerfile) {
      return Some(dockerfile);
    }
    var underContext := UnderContext(context, dockerfile);
    if !RePath(underContext) {
      return Some(dockerfile);
    }
    verdict := AssertPathInWorkspace(fs, base, underContext);
    if verdict != Accepted {
      return None;
    }
    return Some(if Exists(fs, base, underContext) then underContext else dockerfile);
  }

  /** A file that exists below a base it passed the walk for is the plain lexical one. */
  lemma {:induction false} BuiltFileIsInside(fs: Fs, base: Location, value: string)
    requires ".." !in SplitOn(value, '/') && Passes(fs, base, value) && Exists(fs, base, value)
    ensures Follow(fs, base, Resolve(base, value)[|base|..], MAX_LINKS) == Reached(base + Names(SplitOn(value, '/')))
  {
    var parts := SplitOn(value, '/');
    NormalizeWithoutDotDot(base, parts);
    var names := Names(parts);
    assert Resolve(base, value)[|base|..] == names;
    NamesOfNames(names);
    FollowLinkFree(fs, base, names, MAX_LINKS);
  }

  lemma {:induction false} NamesOfNames(names: seq<string>)
    requires AllNames(names)
    ensures Names(names) == names
  {
    if names != [] {
      NamesOfNames(names[1..]);
      assert [names[0]] + names[1..] == names;
    }
  }
}
