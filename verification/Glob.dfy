/**
 * The glob walk over a directory graph that may contain cycles (symbolic links are followed by `stat`).
 *
 * A path is the list of entry names below the starting directory. Whether one pattern segment matches one
 * name is a parameter: nothing here depends on how segments become regular expressions.
 */
module Glob {
  import opened Wrappers

  type DirId = nat
  type Key = (int, int)
  type Path = seq<string>
  type Matcher = (string, string) -> bool

  /** What `stat` says about an entry. */
  datatype Target = Unstatable | NonDirectory | Directory(id: DirId)

  datatype Entry = Entry(name: string, target: Target)

  /** A directory: its identity, and its listing unless `readdir` fails. */
  datatype Dir = Dir(dev: int, ino: int, entries: Option<seq<Entry>>)

  type Fs = map<DirId, Dir>

  const STARS := "**"

  function CycleKey(d: Dir): Option<Key> {
    if d.ino == 0 then None else Some((d.dev, d.ino))
  }

  function Listing(d: Dir): seq<Entry> {
    d.entries.GetOr([])
  }

  function Keys(fs: Fs): set<Key> {
    set u | u in fs && CycleKey(fs[u]).Some? :: CycleKey(fs[u]).value
  }

  ghost predicate Closed(fs: Fs) {
    forall u, e :: u in fs && e in Listing(fs[u]) && e.target.Directory? ==> e.target.id in fs
  }

  /**
   * No cycle consists only of directories without an inode number: `rank` goes down on the way into such a
   * directory. With inode numbers everywhere this says nothing, whatever cycles there are.
   */
  ghost predicate Ranked(fs: Fs, rank: DirId -> nat) {
    && Closed(fs)
    && forall u, e :: u in fs && e in Listing(fs[u]) && e.target.Directory? && fs[e.target.id].ino == 0 ==>
                        rank(e.target.id) < rank(u)
  }

  predicate Fresh(d: Dir, visited: set<Key>) {
    CycleKey(d).Some? ==> CycleKey(d).value !in visited
  }

  function Enter(d: Dir, visited: set<Key>): set<Key> {
    if CycleKey(d).Some? then visited + {CycleKey(d).value} else visited
  }

  lemma EnterShrinks(fs: Fs, u: DirId, visited: set<Key>)
    requires u in fs && Fresh(fs[u], visited) && CycleKey(fs[u]).Some?
    ensures |Keys(fs) - Enter(fs[u], visited)| < |Keys(fs) - visited|
  {
    var key := CycleKey(fs[u]).value;
    assert key in Keys(fs);
    assert Keys(fs) - Enter(fs[u], visited) == (Keys(fs) - visited) - {key};
  }

  function Prefix(name: string, paths: seq<Path>): (r: seq<Path>)
    ensures |r| == |paths| && forall i :: 0 <= i < |r| ==> r[i] == [name] + paths[i]
  {
    if paths == [] then [] else [[name] + paths[0]] + Prefix(name, paths[1..])
  }

  // ---------- The walk ----------

  /** What `_globWalk` yields, in order. */
  function Walk(fs: Fs, m: Matcher, ghost rank: DirId -> nat, u: DirId, parts: seq<string>,
                visited: set<Key>): seq<Path>
    requires Ranked(fs, rank) && u in fs
    decreases |Keys(fs) - visited|, rank(u), |parts|, 3, 0
  {
    if parts == [] then []
    else
      (if parts[0] != STARS then []
       else if |parts| == 1 then [[]]
       else Walk(fs, m, rank, u, parts[1..], visited))
      + VisitAll(fs, m, rank, u, parts, visited, Listing(fs[u]))
  }

  function VisitAll(fs: Fs, m: Matcher, ghost rank: DirId -> nat, u: DirId, parts: seq<string>, visited: set<Key>,
                    es: seq<Entry>): seq<Path>
    requires Ranked(fs, rank) && u in fs && parts != []
    requires forall e :: e in es ==> e in Listing(fs[u])
    decreases |Keys(fs) - visited|, rank(u), |parts|, 2, |es|
  {
    if es == [] then []
    else Visit(fs, m, rank, u, parts, visited, es[0]) + VisitAll(fs, m, rank, u, parts, visited, es[1..])
  }

  /** The loop body for one entry: what is yielded for it and below it. */
  function Visit(fs: Fs, m: Matcher, ghost rank: DirId -> nat, u: DirId, parts: seq<string>, visited: set<Key>,
                 e: Entry): seq<Path>
    requires Ranked(fs, rank) && u in fs && parts != []
    requires e in Listing(fs[u])
    decreases |Keys(fs) - visited|, rank(u), |parts|, 1, 0
  {
    if parts[0] == STARS then
      match e.target
      case Unstatable => []
      case NonDirectory => if |parts| == 1 then [[e.name]] else []
      case Directory(v) =>
        if Fresh(fs[v], visited) then Descend(fs, m, rank, u, e, parts, visited) else []
    else if !m(parts[0], e.name) then []
    else if |parts| == 1 then [[e.name]]
    else if e.target.Directory? && Fresh(fs[e.target.id], visited)
    then Descend(fs, m, rank, u, e, parts[1..], visited)
    else []
  }

  function Descend(fs: Fs, m: Matcher, ghost rank: DirId -> nat, u: DirId, e: Entry, parts: seq<string>,
                   visited: set<Key>): seq<Path>
    requires Ranked(fs, rank) && u in fs
    requires e in Listing(fs[u]) && e.target.Directory? && Fresh(fs[e.target.id], visited)
    decreases |Keys(fs) - visited|, rank(u), |parts|, 0, 0
  {
    var v := e.target.id;
    if CycleKey(fs[v]).Some? then
      EnterShrinks(fs, v, visited);
      Prefix(e.name, Walk(fs, m, rank, v, parts, Enter(fs[v], visited)))
    else Prefix(e.name, Walk(fs, m, rank, v, parts, Enter(fs[v], visited)))
  }

  // ---------- What the walk is to yield ----------

  /** The language of a pattern: `**` stands for any number of names, any other segment for one that it matches. */
  ghost predicate Matches(m: Matcher, parts: seq<string>, names: seq<string>)
    decreases |parts|
  {
    if parts == [] then names == []
    else if parts[0] == "**" then exists k :: 0 <= k <= |names| && Matches(m, parts[1..], names[k..])
    else names != [] && m(parts[0], names[0]) && Matches(m, parts[1..], names[1..])
  }

  /** What the last name of a path has to be. */
  datatype Last = AsDirectory | AsFile | AsAny

  ghost predicate IsEntry(d: Dir, name: string, last: Last) {
    exists e :: e in Listing(d) && e.name == name && (last == AsFile ==> e.target == NonDirectory)
  }

  /** The path leads from `u` through directories, no identity of which occurs twice, to something of kind `last`. */
  ghost predicate Leads(fs: Fs, u: DirId, visited: set<Key>, path: Path, last: Last)
    requires Closed(fs) && u in fs
    decreases |path|
  {
    if path == [] then last == AsDirectory
    else if |path| == 1 && last != AsDirectory then IsEntry(fs[u], path[0], last)
    else exists e :: e in Listing(fs[u]) && LeadsBy(fs, u, e, visited, path, last)
  }

  ghost predicate LeadsBy(fs: Fs, u: DirId, e: Entry, visited: set<Key>, path: Path, last: Last)
    requires Closed(fs) && u in fs && path != [] && e in Listing(fs[u])
    decreases |path|, 0
  {
    && e.name == path[0] && e.target.Directory? && Fresh(fs[e.target.id], visited)
    && Leads(fs, e.target.id, Enter(fs[e.target.id], visited), path[1..], last)
  }

  /** Selection in the walk's own terms, with the set of visited keys. */
  ghost predicate Selects(fs: Fs, m: Matcher, u: DirId, parts: seq<string>, visited: set<Key>, path: Path)
    requires Closed(fs) && u in fs
  {
    parts != []
    && if parts[|parts| - 1] == "**" then
         || (Matches(m, parts, path) && Leads(fs, u, visited, path, AsDirectory))
         || (path != [] && Matches(m, parts, path[..|path| - 1]) && Leads(fs, u, visited, path, AsFile))
       else Matches(m, parts, path) && Leads(fs, u, visited, path, AsAny)
  }

  // ---------- The walk yields what the pattern selects ----------

  lemma MatchesStars(m: Matcher, parts: seq<string>, names: seq<string>)
    requires parts != [] && parts[0] == STARS
    ensures Matches(m, parts, names)
            <==> Matches(m, parts[1..], names) || (names != [] && Matches(m, parts, names[1..]))
  {
    assert names[0..] == names;
    if Matches(m, parts, names) {
      var k :| 0 <= k <= |names| && Matches(m, parts[1..], names[k..]);
      if k > 0 {
        assert names[1..][k - 1..] == names[k..];
      }
    }
    if names != [] && Matches(m, parts, names[1..]) {
      var k :| 0 <= k <= |names[1..]| && Matches(m, parts[1..], names[1..][k..]);
      assert names[1..][k..] == names[k + 1..];
    }
  }

  lemma {:induction false} PlainEndNeedsName(m: Matcher, parts: seq<string>)
    requires parts != [] && parts[|parts| - 1] != STARS
    ensures !Matches(m, parts, [])
    decreases |parts|
  {
    if |parts| > 1 {
      assert parts[1..][|parts| - 2] == parts[|parts| - 1];
      PlainEndNeedsName(m, parts[1..]);
      if parts[0] == STARS {
        MatchesStars(m, parts, []);
      }
    }
  }

  lemma {:induction false} InVisitAll(fs: Fs, m: Matcher, rank: DirId -> nat, u: DirId, parts: seq<string>,
                                      visited: set<Key>, es: seq<Entry>, path: Path)
    requires Ranked(fs, rank) && u in fs && parts != []
    requires forall e :: e in es ==> e in Listing(fs[u])
    ensures path in VisitAll(fs, m, rank, u, parts, visited, es)
            <==> exists e :: e in es && path in Visit(fs, m, rank, u, parts, visited, e)
    decreases |es|
  {
    if es != [] {
      InVisitAll(fs, m, rank, u, parts, visited, es[1..], path);
      if path in Visit(fs, m, rank, u, parts, visited, es[0]) {
        assert es[0] in es;
      } else if e :| e in es && path in Visit(fs, m, rank, u, parts, visited, e) {
        assert e in es[1..];
      }
    }
  }

  lemma InDescend(fs: Fs, m: Matcher, rank: DirId -> nat, u: DirId, e: Entry, parts: seq<string>, visited: set<Key>,
                  path: Path)
    requires Ranked(fs, rank) && u in fs
    requires e in Listing(fs[u]) && e.target.Directory? && Fresh(fs[e.target.id], visited)
    ensures path in Descend(fs, m, rank, u, e, parts, visited)
            <==> && path != [] && path[0] == e.name
                 && path[1..] in Walk(fs, m, rank, e.target.id, parts, Enter(fs[e.target.id], visited))
  {
    var below := Walk(fs, m, rank, e.target.id, parts, Enter(fs[e.target.id], visited));
    if path != [] && path[0] == e.name && path[1..] in below {
      var i :| 0 <= i < |below| && below[i] == path[1..];
      assert Prefix(e.name, below)[i] == [e.name] + below[i] == path;
    }
  }

  /** The pattern selects the path through entry `e`, whose directory is entered with the pattern `parts`. */
  ghost predicate SelectsBelow(fs: Fs, m: Matcher, u: DirId, e: Entry, parts: seq<string>, visited: set<Key>,
                               path: Path)
    requires Closed(fs) && u in fs && e in Listing(fs[u])
  {
    && path != [] && e.name == path[0] && e.target.Directory? && Fresh(fs[e.target.id], visited)
    && Selects(fs, m, e.target.id, parts, Enter(fs[e.target.id], visited), path[1..])
  }

  /** The pattern has one segment left and `e` answers it. */
  ghost predicate SelectsHere(e: Entry, m: Matcher, parts: seq<string>, path: Path)
    requires parts != []
  {
    |parts| == 1 && path == [e.name] && if parts[0] == STARS then e.target == NonDirectory else m(parts[0], e.name)
  }

  /** What entry `e` contributes to the selected paths: the loop body, in terms of selection. */
  ghost predicate SelectsBy(fs: Fs, m: Matcher, u: DirId, e: Entry, parts: seq<string>, visited: set<Key>, path: Path)
    requires Closed(fs) && u in fs && e in Listing(fs[u]) && parts != []
  {
    || SelectsHere(e, m, parts, path)
    || (parts[0] == STARS && SelectsBelow(fs, m, u, e, parts, visited, path))
    || (parts[0] != STARS && |parts| > 1 && m(parts[0], e.name) && SelectsBelow(fs, m, u, e, parts[1..], visited, path))
  }

  lemma LeadsThrough(fs: Fs, u: DirId, visited: set<Key>, path: Path, last: Last) returns (e: Entry)
    requires Closed(fs) && u in fs && path != [] && Leads(fs, u, visited, path, last)
    requires last == AsDirectory || |path| >= 2
    ensures e in Listing(fs[u]) && LeadsBy(fs, u, e, visited, path, last)
  {
    e :| e in Listing(fs[u]) && LeadsBy(fs, u, e, visited, path, last);
  }

  lemma LeadsTo(fs: Fs, u: DirId, visited: set<Key>, path: Path, last: Last) returns (e: Entry)
    requires Closed(fs) && u in fs && |path| == 1 && last != AsDirectory && Leads(fs, u, visited, path, last)
    ensures e in Listing(fs[u]) && e.name == path[0] && (last == AsFile ==> e.target == NonDirectory)
  {
    e :| e in Listing(fs[u]) && e.name == path[0] && (last == AsFile ==> e.target == NonDirectory);
  }

  /** Dropping the last name and dropping the first commute. */
  lemma MiddleOf(path: Path)
    requires |path| >= 2
    ensures path[..|path| - 1] != [] && path[..|path| - 1][0] == path[0]
    ensures path[..|path| - 1][1..] == path[1..][..|path[1..]| - 1]
  {
  }

  /** A selected path whose first segment is a name goes through an entry that the loop takes. */
  lemma SelectedByName(fs: Fs, m: Matcher, u: DirId, parts: seq<string>, visited: set<Key>, path: Path)
    returns (e: Entry)
    requires Closed(fs) && u in fs && parts != [] && parts[0] != STARS
    requires Selects(fs, m, u, parts, visited, path)
    ensures e in Listing(fs[u]) && SelectsBy(fs, m, u, e, parts, visited, path)
  {
    if |parts| == 1 {
      assert parts[1..] == [] && Matches(m, parts[1..], path[1..]);
      e := LeadsTo(fs, u, visited, path, AsAny);
    } else {
      assert parts[1..][|parts| - 2] == parts[|parts| - 1];
      if parts[|parts| - 1] != STARS {
        PlainEndNeedsName(m, parts[1..]);
        assert Matches(m, parts[1..], path[1..]);
        assert path[1..] != [];
        e := LeadsThrough(fs, u, visited, path, AsAny);
      } else if Matches(m, parts, path) && Leads(fs, u, visited, path, AsDirectory) {
        e := LeadsThrough(fs, u, visited, path, AsDirectory);
      } else {
        MiddleOf(path);
        e := LeadsThrough(fs, u, visited, path, AsFile);
      }
    }
  }

  lemma SelectedBelowName(fs: Fs, m: Matcher, u: DirId, parts: seq<string>, visited: set<Key>, path: Path, e: Entry)
    requires Closed(fs) && u in fs && parts != [] && parts[0] != STARS
    requires e in Listing(fs[u]) && SelectsBy(fs, m, u, e, parts, visited, path)
    ensures Selects(fs, m, u, parts, visited, path)
  {
    if |parts| == 1 {
      assert path[1..] == [] && parts[1..] == [];
      assert IsEntry(fs[u], path[0], AsAny);
    } else {
      assert parts[1..][|parts| - 2] == parts[|parts| - 1];
      var below, v := path[1..], e.target.id;
      var inside := Enter(fs[v], visited);
      if parts[|parts| - 1] != STARS {
        assert LeadsBy(fs, u, e, visited, path, AsAny);
      } else if Matches(m, parts[1..], below) && Leads(fs, v, inside, below, AsDirectory) {
        assert LeadsBy(fs, u, e, visited, path, AsDirectory);
      } else {
        MiddleOf(path);
        assert LeadsBy(fs, u, e, visited, path, AsFile);
      }
    }
  }

  /** A path selected by a pattern that begins with `**` is selected here by the rest, or goes through an entry. */
  lemma SelectedByStars(fs: Fs, m: Matcher, u: DirId, parts: seq<string>, visited: set<Key>, path: Path)
    returns (e: Option<Entry>)
    requires Closed(fs) && u in fs && parts != [] && parts[0] == STARS
    requires Selects(fs, m, u, parts, visited, path)
    ensures e.None? ==> if |parts| == 1 then path == [] else Selects(fs, m, u, parts[1..], visited, path)
    ensures e.Some? ==> e.value in Listing(fs[u]) && SelectsBy(fs, m, u, e.value, parts, visited, path)
  {
    e := None;
    if |parts| > 1 { assert parts[1..][|parts| - 2] == parts[|parts| - 1]; }
    MatchesStars(m, parts, path);
    if parts[|parts| - 1] != STARS {
      if !Matches(m, parts[1..], path) {
        PlainEndNeedsName(m, parts);
        var x := LeadsThrough(fs, u, visited, path, AsAny);
        e := Some(x);
      }
    } else if Matches(m, parts, path) && Leads(fs, u, visited, path, AsDirectory) {
      if path != [] && Matches(m, parts, path[1..]) {
        var x := LeadsThrough(fs, u, visited, path, AsDirectory);
        e := Some(x);
      }
    } else {
      MatchesStars(m, parts, path[..|path| - 1]);
      if |path| >= 2 {
        MiddleOf(path);
        if Matches(m, parts, path[1..][..|path[1..]| - 1]) {
          var x := LeadsThrough(fs, u, visited, path, AsFile);
          e := Some(x);
        }
      } else if |parts| == 1 {
        var x := LeadsTo(fs, u, visited, path, AsFile);
        e := Some(x);
      }
    }
  }

  lemma SelectedBelowStars(fs: Fs, m: Matcher, u: DirId, parts: seq<string>, visited: set<Key>, path: Path, e: Entry)
    requires Closed(fs) && u in fs && parts != [] && parts[0] == STARS
    requires e in Listing(fs[u]) && SelectsBy(fs, m, u, e, parts, visited, path)
    ensures Selects(fs, m, u, parts, visited, path)
  {
    MatchesStars(m, parts, path);
    if SelectsHere(e, m, parts, path) {
      AllMatchStars(m, parts, path[..|path| - 1]);
      assert IsEntry(fs[u], path[0], AsFile);
    } else {
      var below, v := path[1..], e.target.id;
      var inside := Enter(fs[v], visited);
      if parts[|parts| - 1] != STARS {
        assert LeadsBy(fs, u, e, visited, path, AsAny);
      } else if Matches(m, parts, below) && Leads(fs, v, inside, below, AsDirectory) {
        assert LeadsBy(fs, u, e, visited, path, AsDirectory);
      } else {
        MiddleOf(path);
        MatchesStars(m, parts, path[..|path| - 1]);
        assert LeadsBy(fs, u, e, visited, path, AsFile);
      }
    }
  }

  lemma AllMatchStars(m: Matcher, parts: seq<string>, names: seq<string>)
    requires |parts| == 1 && parts[0] == STARS
    ensures Matches(m, parts, names)
  {
    assert names[|names|..] == [] && parts[1..] == [];
    assert Matches(m, parts[1..], names[|names|..]);
  }

  lemma SelectedHereByStars(fs: Fs, m: Matcher, u: DirId, parts: seq<string>, visited: set<Key>, path: Path)
    requires Closed(fs) && u in fs && parts != [] && parts[0] == STARS
    requires if |parts| == 1 then path == [] else Selects(fs, m, u, parts[1..], visited, path)
    ensures Selects(fs, m, u, parts, visited, path)
  {
    if |parts| == 1 {
      AllMatchStars(m, parts, path);
    } else {
      assert parts[1..][|parts| - 2] == parts[|parts| - 1];
      MatchesStars(m, parts, path);
      if path != [] { MatchesStars(m, parts, path[..|path| - 1]); }
    }
  }

  /** What the loop yields for one entry is what the pattern selects by it, if so it is one level down. */
  lemma VisitYieldsSelected(fs: Fs, m: Matcher, rank: DirId -> nat, u: DirId, parts: seq<string>, visited: set<Key>,
                            e: Entry, path: Path)
    requires Ranked(fs, rank) && u in fs && parts != [] && e in Listing(fs[u])
    ensures path in Visit(fs, m, rank, u, parts, visited, e) <==> SelectsBy(fs, m, u, e, parts, visited, path)
    decreases |path|, |parts|, 0
  {
    if e.target.Directory? && Fresh(fs[e.target.id], visited) {
      var below := if parts[0] == STARS then parts else parts[1..];
      InDescend(fs, m, rank, u, e, below, visited, path);
      if path != [] {
        WalkYieldsSelects(fs, m, rank, e.target.id, below, Enter(fs[e.target.id], visited), path[1..]);
      }
    }
  }

  lemma WalkYieldsSelects(fs: Fs, m: Matcher, rank: DirId -> nat, u: DirId, parts: seq<string>,
                           visited: set<Key>, path: Path)
    requires Ranked(fs, rank) && u in fs
    ensures path in Walk(fs, m, rank, u, parts, visited) <==> Selects(fs, m, u, parts, visited, path)
    decreases |path|, |parts|, 1
  {
    if parts != [] {
      InVisitAll(fs, m, rank, u, parts, visited, Listing(fs[u]), path);
      forall e | e in Listing(fs[u])
        ensures path in Visit(fs, m, rank, u, parts, visited, e) <==> SelectsBy(fs, m, u, e, parts, visited, path)
      {
        VisitYieldsSelected(fs, m, rank, u, parts, visited, e, path);
      }
      if parts[0] == STARS && |parts| > 1 {
        WalkYieldsSelects(fs, m, rank, u, parts[1..], visited, path);
      }
      if Selects(fs, m, u, parts, visited, path) {
        SelectedIsYielded(fs, m, rank, u, parts, visited, path);
      } else {
        UnselectedIsNotYielded(fs, m, rank, u, parts, visited, path);
      }
    }
  }

  /** One level: the entries answer as they should, and so does the rest of the pattern after `**`. */
  ghost predicate LevelYieldsSelected(fs: Fs, m: Matcher, rank: DirId -> nat, u: DirId, parts: seq<string>,
                                      visited: set<Key>, path: Path)
    requires Ranked(fs, rank) && u in fs && parts != []
  {
    && (path in VisitAll(fs, m, rank, u, parts, visited, Listing(fs[u]))
        <==> exists e :: e in Listing(fs[u]) && SelectsBy(fs, m, u, e, parts, visited, path))
    && (parts[0] == STARS && |parts| > 1 ==>
          (path in Walk(fs, m, rank, u, parts[1..], visited) <==> Selects(fs, m, u, parts[1..], visited, path)))
  }

  lemma SelectedIsYielded(fs: Fs, m: Matcher, rank: DirId -> nat, u: DirId, parts: seq<string>,
                          visited: set<Key>, path: Path)
    requires Ranked(fs, rank) && u in fs && parts != [] && LevelYieldsSelected(fs, m, rank, u, parts, visited, path)
    requires Selects(fs, m, u, parts, visited, path)
    ensures path in Walk(fs, m, rank, u, parts, visited)
  {
    if parts[0] == STARS {
      var e := SelectedByStars(fs, m, u, parts, visited, path);
    } else {
      var e := SelectedByName(fs, m, u, parts, visited, path);
    }
  }

  lemma UnselectedIsNotYielded(fs: Fs, m: Matcher, rank: DirId -> nat, u: DirId, parts: seq<string>,
                               visited: set<Key>, path: Path)
    requires Ranked(fs, rank) && u in fs && parts != [] && LevelYieldsSelected(fs, m, rank, u, parts, visited, path)
    requires !Selects(fs, m, u, parts, visited, path)
    ensures path !in Walk(fs, m, rank, u, parts, visited)
  {
    if parts[0] == STARS {
      if (if |parts| == 1 then path == [] else Selects(fs, m, u, parts[1..], visited, path)) {
        SelectedHereByStars(fs, m, u, parts, visited, path);
      }
    }
    if e :| e in Listing(fs[u]) && SelectsBy(fs, m, u, e, parts, visited, path) {
      if parts[0] == STARS {
        SelectedBelowStars(fs, m, u, parts, visited, path, e);
      } else {
        SelectedBelowName(fs, m, u, parts, visited, path, e);
      }
    }
  }

  // ---------- The same with the directories spelled out ----------

  /** The same directory under both ids, as far as `stat` can tell. */
  ghost predicate Identical(a: Dir, b: Dir) {
    a.ino != 0 && b.ino != 0 && a.dev == b.dev && a.ino == b.ino
  }

  ghost predicate Lists(d: Dir, e: Entry) {
    d.entries.Some? && e in d.entries.value
  }

  /** The directories `dirs` lie along `names`, from `u` on: each lists the next under the next name. */
  ghost predicate Descent(fs: Fs, u: DirId, dirs: seq<DirId>, names: seq<string>) {
    && |dirs| == |names| + 1 && dirs[0] == u
    && (forall i :: 0 <= i < |dirs| ==> dirs[i] in fs)
    && (forall i :: 0 <= i < |names| ==> Lists(fs[dirs[i]], Entry(names[i], Directory(dirs[i + 1]))))
  }

  ghost predicate NoneTwice(fs: Fs, dirs: seq<DirId>) {
    forall i, j :: 0 <= i < j < |dirs| && dirs[i] in fs && dirs[j] in fs ==> !Identical(fs[dirs[i]], fs[dirs[j]])
  }

  /** The directory holds what the path is to end with. */
  ghost predicate EndsWith(d: Dir, name: string, last: Last) {
    exists e :: Lists(d, e) && e.name == name && (last == AsFile ==> e.target == NonDirectory)
  }

  /** The names of a path that are to be directories. */
  function Stem(path: Path, last: Last): Path {
    if last == AsDirectory || path == [] then path else path[..|path| - 1]
  }

  ghost predicate Along(fs: Fs, u: DirId, dirs: seq<DirId>, path: Path, last: Last) {
    && (last == AsDirectory || path != [])
    && Descent(fs, u, dirs, Stem(path, last))
    && (last != AsDirectory ==> EndsWith(fs[dirs[|dirs| - 1]], path[|path| - 1], last))
  }

  /** The path descends from `root` through directories of which no two are the same. */
  ghost predicate Descends(fs: Fs, root: DirId, path: Path, last: Last) {
    exists dirs :: Along(fs, root, dirs, path, last) && NoneTwice(fs, dirs)
  }

  /**
   * The paths a pattern selects: those in its language that descend through different directories. A pattern that
   * ends in `**` selects directories that it matches, and files whose directory it matches.
   */
  ghost predicate Selected(fs: Fs, m: Matcher, root: DirId, parts: seq<string>, path: Path) {
    parts != []
    && if parts[|parts| - 1] == "**" then
         || (Matches(m, parts, path) && Descends(fs, root, path, AsDirectory))
         || (path != [] && Matches(m, parts, path[..|path| - 1]) && Descends(fs, root, path, AsFile))
       else Matches(m, parts, path) && Descends(fs, root, path, AsAny)
  }

  /** Below the first, the directories are not among the visited ones, and no two of them are the same. */
  ghost predicate Unvisited(fs: Fs, dirs: seq<DirId>, visited: set<Key>) {
    && (forall i :: 1 <= i < |dirs| && dirs[i] in fs && fs[dirs[i]].ino != 0 ==>
          (fs[dirs[i]].dev, fs[dirs[i]].ino) !in visited)
    && (forall i, j :: 1 <= i < j < |dirs| && dirs[i] in fs && dirs[j] in fs ==>
          !Identical(fs[dirs[i]], fs[dirs[j]]))
  }

  lemma UnvisitedBelow(fs: Fs, u: DirId, below: seq<DirId>, visited: set<Key>)
    requires below != [] && forall i :: 0 <= i < |below| ==> below[i] in fs
    ensures Unvisited(fs, [u] + below, visited)
       <==> Fresh(fs[below[0]], visited) && Unvisited(fs, below, Enter(fs[below[0]], visited))
  {
    var dirs, d := [u] + below, fs[below[0]];
    assert forall i :: 1 <= i < |dirs| ==> dirs[i] == below[i - 1];
    if Unvisited(fs, dirs, visited) {
      assert dirs[1] == below[0];
      forall i | 1 <= i < |below| && fs[below[i]].ino != 0
        ensures (fs[below[i]].dev, fs[below[i]].ino) !in Enter(d, visited)
      {
        assert dirs[i + 1] == below[i] && !Identical(fs[dirs[1]], fs[dirs[i + 1]]);
      }
      forall i, j | 1 <= i < j < |below| ensures !Identical(fs[below[i]], fs[below[j]]) {
        assert dirs[i + 1] == below[i] && dirs[j + 1] == below[j];
      }
    }
    if Fresh(d, visited) && Unvisited(fs, below, Enter(d, visited)) {
      forall i, j | 1 <= i < j < |dirs| ensures !Identical(fs[dirs[i]], fs[dirs[j]]) {
        if i == 1 {
          var other := fs[below[j - 1]];
          assert other.ino != 0 ==> (other.dev, other.ino) !in Enter(d, visited);
        }
      }
    }
  }

  lemma StemBelow(path: Path, last: Last)
    requires path != [] && (last == AsDirectory || |path| > 1)
    ensures Stem(path, last) != [] && Stem(path, last)[0] == path[0] && Stem(path, last)[1..] == Stem(path[1..], last)
  {
  }

  /** A descent is a first step and a descent from there. */
  lemma DescentBelow(fs: Fs, u: DirId, below: seq<DirId>, path: Path, last: Last)
    requires u in fs && below != [] && path != [] && (last == AsDirectory || |path| > 1)
    ensures Along(fs, u, [u] + below, path, last)
       <==> Lists(fs[u], Entry(path[0], Directory(below[0]))) && Along(fs, below[0], below, path[1..], last)
  {
    var dirs, stem := [u] + below, Stem(path, last);
    StemBelow(path, last);
    if Along(fs, u, dirs, path, last) {
      assert forall i :: 0 <= i < |below| ==> below[i] == dirs[i + 1];
      forall i | 0 <= i < |stem[1..]| ensures Lists(fs[below[i]], Entry(stem[1..][i], Directory(below[i + 1]))) {
        assert Lists(fs[dirs[i + 1]], Entry(stem[i + 1], Directory(dirs[i + 2])));
      }
    }
    if Lists(fs[u], Entry(path[0], Directory(below[0]))) && Along(fs, below[0], below, path[1..], last) {
      forall i | 0 <= i < |stem| ensures Lists(fs[dirs[i]], Entry(stem[i], Directory(dirs[i + 1]))) {
        if i > 0 { assert Lists(fs[below[i - 1]], Entry(stem[1..][i - 1], Directory(below[i]))); }
      }
    }
  }

  lemma LeadsGivesDescent(fs: Fs, u: DirId, visited: set<Key>, path: Path, last: Last) returns (dirs: seq<DirId>)
    requires Closed(fs) && u in fs && Leads(fs, u, visited, path, last)
    ensures Along(fs, u, dirs, path, last) && Unvisited(fs, dirs, visited)
    decreases |path|
  {
    if path == [] || (|path| == 1 && last != AsDirectory) {
      dirs := [u];
      if path != [] {
        var e := LeadsTo(fs, u, visited, path, last);
        assert Lists(fs[u], e);
      }
    } else {
      var e := LeadsThrough(fs, u, visited, path, last);
      var v := e.target.id;
      var below := LeadsGivesDescent(fs, v, Enter(fs[v], visited), path[1..], last);
      assert e == Entry(path[0], Directory(v)) && Lists(fs[u], e);
      dirs := [u] + below;
      DescentBelow(fs, u, below, path, last);
      UnvisitedBelow(fs, u, below, visited);
    }
  }

  lemma DescentLeads(fs: Fs, u: DirId, visited: set<Key>, path: Path, last: Last, dirs: seq<DirId>)
    requires Closed(fs) && u in fs && Along(fs, u, dirs, path, last) && Unvisited(fs, dirs, visited)
    ensures Leads(fs, u, visited, path, last)
    decreases |path|
  {
    if path == [] || (|path| == 1 && last != AsDirectory) {
      if path != [] {
        var e :| Lists(fs[u], e) && e.name == path[0] && (last == AsFile ==> e.target == NonDirectory);
        assert e in Listing(fs[u]);
      }
    } else {
      StemBelow(path, last);
      var below, v := dirs[1..], dirs[1];
      assert dirs == [u] + below;
      DescentBelow(fs, u, below, path, last);
      UnvisitedBelow(fs, u, below, visited);
      DescentLeads(fs, v, Enter(fs[v], visited), path[1..], last, below);
      var e := Entry(path[0], Directory(v));
      assert e in Listing(fs[u]) && LeadsBy(fs, u, e, visited, path, last);
    }
  }

  /** With the root visited from the start, nothing visited comes again exactly if no two directories are the same. */
  lemma RootIsVisited(fs: Fs, root: DirId, dirs: seq<DirId>)
    requires root in fs && dirs != [] && dirs[0] == root && forall i :: 0 <= i < |dirs| ==> dirs[i] in fs
    ensures Unvisited(fs, dirs, Enter(fs[root], {})) <==> NoneTwice(fs, dirs)
  {
    if Unvisited(fs, dirs, Enter(fs[root], {})) {
      forall i, j | 0 <= i < j < |dirs| ensures !Identical(fs[dirs[i]], fs[dirs[j]]) {
        if i == 0 && fs[root].ino != 0 && fs[dirs[j]].ino != 0 {
          assert (fs[root].dev, fs[root].ino) in Enter(fs[root], {});
        }
      }
    }
    if NoneTwice(fs, dirs) {
      forall i | 1 <= i < |dirs| && fs[dirs[i]].ino != 0
        ensures (fs[dirs[i]].dev, fs[dirs[i]].ino) !in Enter(fs[root], {})
      {
        assert !Identical(fs[dirs[0]], fs[dirs[i]]);
      }
    }
  }

  lemma LeadsIffDescends(fs: Fs, root: DirId, path: Path, last: Last)
    requires Closed(fs) && root in fs
    ensures Leads(fs, root, Enter(fs[root], {}), path, last) <==> Descends(fs, root, path, last)
  {
    if Leads(fs, root, Enter(fs[root], {}), path, last) {
      var dirs := LeadsGivesDescent(fs, root, Enter(fs[root], {}), path, last);
      RootIsVisited(fs, root, dirs);
    }
    if dirs :| Along(fs, root, dirs, path, last) && NoneTwice(fs, dirs) {
      RootIsVisited(fs, root, dirs);
      DescentLeads(fs, root, Enter(fs[root], {}), path, last, dirs);
    }
  }

  /** From a root the walk yields exactly the selected paths: nothing else, and none is missed. */
  lemma WalkYieldsSelected(fs: Fs, m: Matcher, rank: DirId -> nat, root: DirId, parts: seq<string>, path: Path)
    requires Ranked(fs, rank) && root in fs
    ensures path in Walk(fs, m, rank, root, parts, Enter(fs[root], {})) <==> Selected(fs, m, root, parts, path)
  {
    WalkYieldsSelects(fs, m, rank, root, parts, Enter(fs[root], {}), path);
    LeadsIffDescends(fs, root, path, AsDirectory);
    LeadsIffDescends(fs, root, path, AsFile);
    LeadsIffDescends(fs, root, path, AsAny);
  }

  // ---------- No path twice ----------

  ghost predicate Distinct<T>(s: seq<T>) {
    forall i, j :: 0 <= i < j < |s| ==> s[i] != s[j]
  }

  ghost predicate DistinctNames(es: seq<Entry>) {
    forall i, j :: 0 <= i < j < |es| ==> es[i].name != es[j].name
  }

  function Plain(parts: seq<string>): nat {
    if parts == [] then 0 else (if parts[0] == "**" then 0 else 1) + Plain(parts[1..])
  }

  lemma {:induction false} PlainAtMost(parts: seq<string>)
    ensures Plain(parts) <= |parts|
  {
    if parts != [] { PlainAtMost(parts[1..]); }
  }

  lemma {:induction false} MatchLength(m: Matcher, parts: seq<string>, names: seq<string>)
    requires Matches(m, parts, names)
    ensures Plain(parts) <= |names| && (Plain(parts) == |parts| ==> |names| == |parts|)
    decreases |parts|
  {
    if parts != [] {
      PlainAtMost(parts[1..]);
      if parts[0] == STARS {
        var k :| 0 <= k <= |names| && Matches(m, parts[1..], names[k..]);
        MatchLength(m, parts[1..], names[k..]);
      } else {
        MatchLength(m, parts[1..], names[1..]);
      }
    }
  }

  lemma YieldLength(fs: Fs, m: Matcher, rank: DirId -> nat, u: DirId, parts: seq<string>, visited: set<Key>, path: Path)
    requires Ranked(fs, rank) && u in fs && path in Walk(fs, m, rank, u, parts, visited)
    ensures Plain(parts) <= |path| && (Plain(parts) == |parts| ==> |path| == |parts|)
  {
    WalkYieldsSelects(fs, m, rank, u, parts, visited, path);
    if Matches(m, parts, path) {
      MatchLength(m, parts, path);
    } else {
      MatchLength(m, parts, path[..|path| - 1]);
      LastIsNotPlain(parts);
    }
  }

  lemma {:induction false} LastIsNotPlain(parts: seq<string>)
    requires parts != [] && parts[|parts| - 1] == STARS
    ensures Plain(parts) < |parts|
  {
    if |parts| > 1 {
      assert parts[1..][|parts| - 2] == parts[|parts| - 1];
      LastIsNotPlain(parts[1..]);
    }
  }

  lemma VisitStartsWithName(fs: Fs, m: Matcher, rank: DirId -> nat, u: DirId, parts: seq<string>, visited: set<Key>,
                            e: Entry, path: Path)
    requires Ranked(fs, rank) && u in fs && parts != [] && e in Listing(fs[u])
    requires path in Visit(fs, m, rank, u, parts, visited, e)
    ensures path != [] && path[0] == e.name
    ensures parts[0] == STARS && Plain(parts[1..]) == |parts[1..]| > 0 ==> |path| > |parts[1..]|
  {
    if e.target.Directory? && Fresh(fs[e.target.id], visited) {
      var below := if parts[0] == STARS then parts else parts[1..];
      InDescend(fs, m, rank, u, e, below, visited, path);
      if path != [] && path[0] == e.name && parts[0] == STARS {
        YieldLength(fs, m, rank, e.target.id, below, Enter(fs[e.target.id], visited), path[1..]);
      }
    }
  }

  lemma DistinctAppend<T>(a: seq<T>, b: seq<T>)
    requires Distinct(a) && Distinct(b) && forall x :: x in a ==> x !in b
    ensures Distinct(a + b)
  {
    forall i, j | 0 <= i < j < |a + b| ensures (a + b)[i] != (a + b)[j] {
      if i < |a| <= j {
        assert a[i] in a && b[j - |a|] in b;
      }
    }
  }

  lemma DistinctPrefix(name: string, paths: seq<Path>)
    requires Distinct(paths)
    ensures Distinct(Prefix(name, paths))
  {
    forall i, j | 0 <= i < j < |paths| ensures [name] + paths[i] != [name] + paths[j] {
      assert ([name] + paths[i])[1..] == paths[i] && ([name] + paths[j])[1..] == paths[j];
    }
  }

  /** At most one `**`, given where the pattern stands. */
  predicate OneStars(parts: seq<string>) {
    Plain(parts) + 1 >= |parts|
  }

  ghost predicate AtMostOneStars(parts: seq<string>) {
    forall i, j :: 0 <= i < j < |parts| ==> parts[i] != "**" || parts[j] != "**"
  }

  lemma {:induction false} NoStarsArePlain(parts: seq<string>)
    requires forall i :: 0 <= i < |parts| ==> parts[i] != "**"
    ensures Plain(parts) == |parts|
  {
    if parts != [] { NoStarsArePlain(parts[1..]); }
  }

  lemma {:induction false} AtMostOneIsOne(parts: seq<string>)
    requires AtMostOneStars(parts)
    ensures OneStars(parts)
  {
    if parts != [] {
      if parts[0] == "**" {
        forall i | 0 <= i < |parts[1..]| ensures parts[1..][i] != "**" { assert parts[i + 1] != "**"; }
        NoStarsArePlain(parts[1..]);
      } else {
        assert forall i :: 0 <= i < |parts[1..]| ==> parts[1..][i] == parts[i + 1];
        AtMostOneIsOne(parts[1..]);
      }
    }
  }

  /** With at most one `**` in the pattern and no name twice in a directory, no path is yielded twice. */
  lemma WalkIsDistinct(fs: Fs, m: Matcher, rank: DirId -> nat, u: DirId, parts: seq<string>, visited: set<Key>)
    requires Ranked(fs, rank) && u in fs && AtMostOneStars(parts)
    requires forall d :: d in fs && fs[d].entries.Some? ==> DistinctNames(fs[d].entries.value)
    ensures Distinct(Walk(fs, m, rank, u, parts, visited))
  {
    AtMostOneIsOne(parts);
    OneStarsIsDistinct(fs, m, rank, u, parts, visited);
  }

  lemma {:induction false} OneStarsIsDistinct(fs: Fs, m: Matcher, rank: DirId -> nat, u: DirId, parts: seq<string>,
                                              visited: set<Key>)
    requires Ranked(fs, rank) && u in fs
    requires OneStars(parts) && forall d :: d in fs ==> DistinctNames(Listing(fs[d]))
    ensures Distinct(Walk(fs, m, rank, u, parts, visited))
    decreases |Keys(fs) - visited|, rank(u), |parts|, 3, 0
  {
    if parts != [] {
      var es := Listing(fs[u]);
      VisitAllIsDistinct(fs, m, rank, u, parts, visited, es);
      if parts[0] == STARS {
        PlainAtMost(parts[1..]);
        var here := if |parts| == 1 then [[]] else Walk(fs, m, rank, u, parts[1..], visited);
        if |parts| > 1 {
          OneStarsIsDistinct(fs, m, rank, u, parts[1..], visited);
        }
        forall path | path in here ensures path !in VisitAll(fs, m, rank, u, parts, visited, es) {
          if path in VisitAll(fs, m, rank, u, parts, visited, es) {
            InVisitAll(fs, m, rank, u, parts, visited, es, path);
            var e :| e in es && path in Visit(fs, m, rank, u, parts, visited, e);
            VisitStartsWithName(fs, m, rank, u, parts, visited, e, path);
            if |parts| > 1 { YieldLength(fs, m, rank, u, parts[1..], visited, path); }
          }
        }
        DistinctAppend(here, VisitAll(fs, m, rank, u, parts, visited, es));
      }
    }
  }

  lemma {:induction false} VisitAllIsDistinct(fs: Fs, m: Matcher, rank: DirId -> nat, u: DirId, parts: seq<string>,
                                              visited: set<Key>, es: seq<Entry>)
    requires Ranked(fs, rank) && u in fs && parts != []
    requires forall e :: e in es ==> e in Listing(fs[u])
    requires DistinctNames(es)
    requires OneStars(parts) && forall d :: d in fs ==> DistinctNames(Listing(fs[d]))
    ensures Distinct(VisitAll(fs, m, rank, u, parts, visited, es))
    decreases |Keys(fs) - visited|, rank(u), |parts|, 2, |es|
  {
    if es != [] {
      var first := Visit(fs, m, rank, u, parts, visited, es[0]);
      var rest := VisitAll(fs, m, rank, u, parts, visited, es[1..]);
      VisitIsDistinct(fs, m, rank, u, parts, visited, es[0]);
      VisitAllIsDistinct(fs, m, rank, u, parts, visited, es[1..]);
      forall path | path in first ensures path !in rest {
        VisitStartsWithName(fs, m, rank, u, parts, visited, es[0], path);
        InVisitAll(fs, m, rank, u, parts, visited, es[1..], path);
        if e :| e in es[1..] && path in Visit(fs, m, rank, u, parts, visited, e) {
          VisitStartsWithName(fs, m, rank, u, parts, visited, e, path);
        }
      }
      DistinctAppend(first, rest);
    }
  }

  lemma {:induction false} VisitIsDistinct(fs: Fs, m: Matcher, rank: DirId -> nat, u: DirId, parts: seq<string>,
                                           visited: set<Key>, e: Entry)
    requires Ranked(fs, rank) && u in fs && parts != [] && e in Listing(fs[u])
    requires OneStars(parts) && forall d :: d in fs ==> DistinctNames(Listing(fs[d]))
    ensures Distinct(Visit(fs, m, rank, u, parts, visited, e))
    decreases |Keys(fs) - visited|, rank(u), |parts|, 1, 0
  {
    if e.target.Directory? && Fresh(fs[e.target.id], visited) {
      var v, inside := e.target.id, Enter(fs[e.target.id], visited);
      if CycleKey(fs[v]).Some? { EnterShrinks(fs, v, visited); }
      PlainAtMost(parts[1..]);
      var below := if parts[0] == STARS then parts else parts[1..];
      OneStarsIsDistinct(fs, m, rank, v, below, inside);
      DistinctPrefix(e.name, Walk(fs, m, rank, v, below, inside));
    }
  }

  const TWO_DIRS: Fs := map[0 := Dir(1, 1, Some([Entry("a", Directory(1))])), 1 := Dir(1, 2, Some([]))]

  lemma WalkTwoDirs(m: Matcher, rank: DirId -> nat, parts: seq<string>)
    requires parts != [] && parts[0] == STARS
    ensures Ranked(TWO_DIRS, rank)
    ensures VisitAll(TWO_DIRS, m, rank, 0, parts, {(1, 1)}, Listing(TWO_DIRS[0]))
            == Prefix("a", Walk(TWO_DIRS, m, rank, 1, parts, {(1, 1), (1, 2)}))
  {
    var e := Entry("a", Directory(1));
    var es := Listing(TWO_DIRS[0]);
    assert es == [e] && es[1..] == [];
    assert Fresh(TWO_DIRS[1], {(1, 1)});
    assert Enter(TWO_DIRS[1], {(1, 1)}) == {(1, 1), (1, 2)};
    assert Visit(TWO_DIRS, m, rank, 0, parts, {(1, 1)}, e) == Descend(TWO_DIRS, m, rank, 0, e, parts, {(1, 1)});
  }

  /** With two `**` a path can come twice: the one entry of a directory, under the pattern of two such segments. */
  lemma TwoStarsRepeat(m: Matcher, rank: DirId -> nat)
    ensures Ranked(TWO_DIRS, rank) && !Distinct(Walk(TWO_DIRS, m, rank, 0, ["**", "**"], Enter(TWO_DIRS[0], {})))
  {
    assert Enter(TWO_DIRS[0], {}) == {(1, 1)};
    var both := {(1, 1), (1, 2)};
    var two := [STARS, STARS];
    assert two[1..] == [STARS];
    WalkTwoDirs(m, rank, [STARS]);
    WalkTwoDirs(m, rank, two);
    assert Walk(TWO_DIRS, m, rank, 1, [STARS], both) == [[]];
    assert Walk(TWO_DIRS, m, rank, 1, two, both) == [[]];
    assert Prefix("a", [[]]) == [["a"]] by { assert "a" + [] == "a"; assert ["a"] + [] == ["a"]; }
    assert Walk(TWO_DIRS, m, rank, 0, [STARS], {(1, 1)}) == [[], ["a"]];
    var all := Walk(TWO_DIRS, m, rank, 0, two, {(1, 1)});
    assert all == [[], ["a"], ["a"]];
    assert all[1] == all[2];
  }

  // ---------- The SSH walk, which has no visited set ----------

  /** A listing over SFTP has `.` and `..` in it, which the walk skips. */
  predicate Dot(name: string) {
    name == "." || name == ".."
  }

  /** Directories nest: apart from the dots, every entry leads to a directory of lower rank. */
  ghost predicate Nested(fs: Fs, rank: DirId -> nat) {
    && Closed(fs)
    && forall u, e :: u in fs && e in Listing(fs[u]) && e.target.Directory? && e.name != "." && e.name != ".." ==>
                        rank(e.target.id) < rank(u)
  }

  function SshWalk(fs: Fs, m: Matcher, ghost rank: DirId -> nat, u: DirId, parts: seq<string>): seq<Path>
    requires Nested(fs, rank) && u in fs
    decreases rank(u), |parts|, 3, 0
  {
    if parts == [] then []
    else
      (if parts[0] != STARS then []
       else if |parts| == 1 then [[]]
       else SshWalk(fs, m, rank, u, parts[1..]))
      + SshVisitAll(fs, m, rank, u, parts, Listing(fs[u]))
  }

  function SshVisitAll(fs: Fs, m: Matcher, ghost rank: DirId -> nat, u: DirId, parts: seq<string>,
                       es: seq<Entry>): seq<Path>
    requires Nested(fs, rank) && u in fs && parts != []
    requires forall e :: e in es ==> e in Listing(fs[u])
    decreases rank(u), |parts|, 2, |es|
  {
    if es == [] then []
    else SshVisit(fs, m, rank, u, parts, es[0]) + SshVisitAll(fs, m, rank, u, parts, es[1..])
  }

  function SshVisit(fs: Fs, m: Matcher, ghost rank: DirId -> nat, u: DirId, parts: seq<string>, e: Entry): seq<Path>
    requires Nested(fs, rank) && u in fs && parts != []
    requires e in Listing(fs[u])
    decreases rank(u), |parts|, 1, 0
  {
    if Dot(e.name) then []
    else if parts[0] == STARS then
      if e.target.Directory? then Prefix(e.name, SshWalk(fs, m, rank, e.target.id, parts))
      else if |parts| == 1 then [[e.name]] else []
    else if !m(parts[0], e.name) then []
    else if |parts| == 1 then [[e.name]]
    else if e.target.Directory? then Prefix(e.name, SshWalk(fs, m, rank, e.target.id, parts[1..]))
    else []
  }

  /** A nest of directories without links, every entry of which can be stat'ed; a key belongs to one directory. */
  ghost predicate LinkFree(fs: Fs, rank: DirId -> nat) {
    && Nested(fs, rank)
    && (forall u, e :: u in fs && e in Listing(fs[u]) ==>
          e.name != "." && e.name != ".." && e.target != Unstatable)
    && (forall u, v :: u in fs && v in fs && Identical(fs[u], fs[v]) ==> u == v)
  }

  /** All visited directories lie at or above `u`. */
  ghost predicate VisitedAbove(fs: Fs, rank: DirId -> nat, u: DirId, visited: set<Key>) {
    u in fs
    && forall d :: d in fs && CycleKey(fs[d]).Some? && CycleKey(fs[d]).value in visited ==> rank(d) >= rank(u)
  }

  /** On such directories both walks yield the same paths in the same order. */
  lemma {:induction false} LocalWalkIsSshWalk(fs: Fs, m: Matcher, rank: DirId -> nat, u: DirId, parts: seq<string>,
                                              visited: set<Key>)
    requires LinkFree(fs, rank) && VisitedAbove(fs, rank, u, visited)
    ensures Ranked(fs, rank)
    ensures Walk(fs, m, rank, u, parts, visited) == SshWalk(fs, m, rank, u, parts)
    decreases rank(u), |parts|, 3, 0
  {
    if parts != [] {
      LocalVisitAllIsSshVisitAll(fs, m, rank, u, parts, visited, Listing(fs[u]));
      if parts[0] == STARS && |parts| > 1 {
        LocalWalkIsSshWalk(fs, m, rank, u, parts[1..], visited);
      }
    }
  }

  lemma {:induction false} LocalVisitAllIsSshVisitAll(fs: Fs, m: Matcher, rank: DirId -> nat, u: DirId,
                                                      parts: seq<string>, visited: set<Key>, es: seq<Entry>)
    requires LinkFree(fs, rank) && VisitedAbove(fs, rank, u, visited) && parts != []
    requires forall e :: e in es ==> e in Listing(fs[u])
    ensures Ranked(fs, rank)
    ensures VisitAll(fs, m, rank, u, parts, visited, es) == SshVisitAll(fs, m, rank, u, parts, es)
    decreases rank(u), |parts|, 2, |es|
  {
    if es != [] {
      LocalVisitIsSshVisit(fs, m, rank, u, parts, visited, es[0]);
      LocalVisitAllIsSshVisitAll(fs, m, rank, u, parts, visited, es[1..]);
    }
  }

  lemma {:induction false} LocalVisitIsSshVisit(fs: Fs, m: Matcher, rank: DirId -> nat, u: DirId, parts: seq<string>,
                                                visited: set<Key>, e: Entry)
    requires LinkFree(fs, rank) && VisitedAbove(fs, rank, u, visited) && parts != []
    requires e in Listing(fs[u])
    ensures Ranked(fs, rank)
    ensures Visit(fs, m, rank, u, parts, visited, e) == SshVisit(fs, m, rank, u, parts, e)
    decreases rank(u), |parts|, 1, 0
  {
    if e.target.Directory? {
      var v := e.target.id;
      var below := if parts[0] == STARS then parts else parts[1..];
      assert Fresh(fs[v], visited);
      assert VisitedAbove(fs, rank, v, Enter(fs[v], visited));
      LocalWalkIsSshWalk(fs, m, rank, v, below, Enter(fs[v], visited));
    }
  }

  /** A listing as `readdir` gives it, without the two dots. */
  function Undotted(es: seq<Entry>): seq<Entry> {
    if es == [] then []
    else (if es[0].name == "." || es[0].name == ".." then [] else [es[0]]) + Undotted(es[1..])
  }

  function WithoutDots(fs: Fs): Fs {
    map u | u in fs :: if fs[u].entries.Some? then fs[u].(entries := Some(Undotted(fs[u].entries.value))) else fs[u]
  }

  lemma {:induction false} UndottedHolds(es: seq<Entry>, e: Entry)
    ensures e in Undotted(es) <==> e in es && e.name != "." && e.name != ".."
  {
    if es != [] { UndottedHolds(es[1..], e); }
  }

  lemma WithoutDotsIsNested(fs: Fs, rank: DirId -> nat)
    requires Nested(fs, rank)
    ensures Nested(WithoutDots(fs), rank)
    ensures forall u :: u in fs ==> u in WithoutDots(fs) && Listing(WithoutDots(fs)[u]) == Undotted(Listing(fs[u]))
  {
    forall u, e | u in fs && e in Listing(WithoutDots(fs)[u]) ensures e in Listing(fs[u]) {
      UndottedHolds(fs[u].entries.value, e);
    }
  }

  /** The SSH walk takes no notice of the dots in its listings. */
  lemma {:induction false} SshWalkSkipsDots(fs: Fs, m: Matcher, rank: DirId -> nat, u: DirId, parts: seq<string>)
    requires Nested(fs, rank) && u in fs
    ensures Nested(WithoutDots(fs), rank) && u in WithoutDots(fs)
    ensures SshWalk(fs, m, rank, u, parts) == SshWalk(WithoutDots(fs), m, rank, u, parts)
    decreases rank(u), |parts|, 3, 0
  {
    WithoutDotsIsNested(fs, rank);
    if parts != [] {
      SshVisitAllSkipsDots(fs, m, rank, u, parts, Listing(fs[u]));
      if parts[0] == STARS && |parts| > 1 { SshWalkSkipsDots(fs, m, rank, u, parts[1..]); }
    }
  }

  lemma {:induction false} SshVisitAllSkipsDots(fs: Fs, m: Matcher, rank: DirId -> nat, u: DirId, parts: seq<string>,
                                                es: seq<Entry>)
    requires Nested(fs, rank) && u in fs && parts != []
    requires forall e :: e in es ==> e in Listing(fs[u])
    ensures Nested(WithoutDots(fs), rank) && u in WithoutDots(fs)
    ensures forall e :: e in Undotted(es) ==> e in Listing(WithoutDots(fs)[u])
    ensures SshVisitAll(fs, m, rank, u, parts, es) == SshVisitAll(WithoutDots(fs), m, rank, u, parts, Undotted(es))
    decreases rank(u), |parts|, 2, |es|
  {
    WithoutDotsIsNested(fs, rank);
    forall e | e in Undotted(es) ensures e in Listing(WithoutDots(fs)[u]) {
      UndottedHolds(es, e);
      UndottedHolds(Listing(fs[u]), e);
    }
    if es != [] {
      var e, rest := es[0], es[1..];
      SshVisitAllSkipsDots(fs, m, rank, u, parts, rest);
      if e.name == "." || e.name == ".." {
        assert Undotted(es) == Undotted(rest);
      } else {
        assert Undotted(es) == [e] + Undotted(rest) && Undotted(es)[1..] == Undotted(rest);
        assert e in Undotted(es);
        if e.target.Directory? {
          SshWalkSkipsDots(fs, m, rank, e.target.id, if parts[0] == STARS then parts else parts[1..]);
        }
      }
    }
  }

  /**
   * The two `glob` entry points agree, the SSH one with dots in its listings and the local one without: the local
   * one starts with the root's own key visited.
   */
  lemma GlobAgreesWithSsh(fs: Fs, m: Matcher, rank: DirId -> nat, root: DirId, parts: seq<string>)
    requires Nested(fs, rank) && LinkFree(WithoutDots(fs), rank) && root in fs
    ensures Ranked(WithoutDots(fs), rank) && root in WithoutDots(fs)
    ensures Walk(WithoutDots(fs), m, rank, root, parts, Enter(WithoutDots(fs)[root], {}))
         == SshWalk(fs, m, rank, root, parts)
  {
    var local := WithoutDots(fs);
    LocalWalkIsSshWalk(local, m, rank, root, parts, Enter(local[root], {}));
    SshWalkSkipsDots(fs, m, rank, root, parts);
  }

  // ---------- The generators ----------

  /** `_globWalk`: the recursion with its loop over the entries; `yield` appends to the output. */
  method GlobWalk(fs: Fs, m: Matcher, ghost rank: DirId -> nat, u: DirId, parts: seq<string>, visited: set<Key>)
    returns (out: seq<Path>)
    requires Ranked(fs, rank) && u in fs
    ensures out == Walk(fs, m, rank, u, parts, visited)
    decreases |Keys(fs) - visited|, rank(u), |parts|, 1
  {
    out := [];
    if parts == [] {
      return;
    }
    if parts[0] == STARS {
      if |parts| > 1 {
        out := GlobWalk(fs, m, rank, u, parts[1..], visited);
      } else {
        out := [[]];
      }
    }
    var todo := Listing(fs[u]);
    ghost var all := Walk(fs, m, rank, u, parts, visited);
    while todo != []
      invariant forall e :: e in todo ==> e in Listing(fs[u])
      invariant all == out + VisitAll(fs, m, rank, u, parts, visited, todo)
      decreases |todo|
    {
      var below := GlobEntry(fs, m, rank, u, parts, visited, todo[0]);
      ghost var later := VisitAll(fs, m, rank, u, parts, visited, todo[1..]);
      assert out + (below + later) == (out + below) + later;
      out := out + below;
      todo := todo[1..];
    }
  }

  /** The body of that loop. */
  method GlobEntry(fs: Fs, m: Matcher, ghost rank: DirId -> nat, u: DirId, parts: seq<string>, visited: set<Key>,
                   e: Entry)
    returns (out: seq<Path>)
    requires Ranked(fs, rank) && u in fs && parts != [] && e in Listing(fs[u])
    ensures out == Visit(fs, m, rank, u, parts, visited, e)
    decreases |Keys(fs) - visited|, rank(u), |parts|, 0
  {
    var stars := parts[0] == STARS;
    if !stars && !m(parts[0], e.name) {
      return [];
    }
    if !stars && |parts| == 1 {
      return [[e.name]];
    }
    if e.target.Directory? {
      var dir := fs[e.target.id];
      if !Fresh(dir, visited) {
        return [];
      }
      if CycleKey(dir).Some? { EnterShrinks(fs, e.target.id, visited); }
      out := GlobWalk(fs, m, rank, e.target.id, if stars then parts else parts[1..], Enter(dir, visited));
      return Prefix(e.name, out);
    }
    if stars && e.target == NonDirectory && |parts| == 1 {
      return [[e.name]];
    }
    return [];
  }

  /** `glob`: the root's own key is visited from the start, so a link back to the root is not followed even once. */
  method GlobFrom(fs: Fs, m: Matcher, ghost rank: DirId -> nat, root: DirId, parts: seq<string>)
    returns (out: seq<Path>)
    requires Ranked(fs, rank) && root in fs
    ensures forall path :: path in out <==> Selected(fs, m, root, parts, path)
  {
    var initVisited := Enter(fs[root], {});
    out := GlobWalk(fs, m, rank, root, parts, initVisited);
    forall path ensures path in out <==> Selected(fs, m, root, parts, path) {
      WalkYieldsSelected(fs, m, rank, root, parts, path);
    }
  }
}
