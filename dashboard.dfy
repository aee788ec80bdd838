/**
 * components/Dashboard.tsx: the project search and style filter, the rank
 * earned by the number of projects, the favourite style, the recent-activity
 * list, the most-recent-first ordering, the achievement bar and the base URL
 * the connection test posts to.
 */
module Dashboard {
  import opened Common
  import opened Text
  import opened Storage
  import opened Prompt

  // ---------------------------------------------------------------------
  // Search and filter
  // ---------------------------------------------------------------------

  /** `filterStyle`'s value that accepts every style. */
  const AllStyles: string := "all"

  /**
   * Whether a project is shown: the lower-cased query occurs in its
   * lower-cased title or content, and the style filter is "all" or its style.
   * `lower` stands for `toLowerCase`.
   */
  predicate Shown(p: CloudProject, query: string, filterStyle: string, lower: string -> string) {
    (Contains(lower(p.title), lower(query)) || Contains(lower(p.content), lower(query)))
    && (filterStyle == AllStyles || p.style == filterStyle)
  }

  /** `filteredProjects`: exactly the shown projects, in their original order. */
  function FilteredProjects(projects: seq<CloudProject>, query: string, filterStyle: string, lower: string -> string): (r: seq<CloudProject>)
    ensures forall p :: p in r <==> p in projects && Shown(p, query, filterStyle, lower)
    ensures IsSubsequence(r, projects)
    ensures forall p :: multiset(r)[p] == if Shown(p, query, filterStyle, lower) then multiset(projects)[p] else 0
  {
    var keep := (p: CloudProject) => Shown(p, query, filterStyle, lower);
    FilterMembers(projects, keep);
    FilterIsSubsequence(projects, keep);
    FilterCounts(projects, keep);
    Filter(projects, keep)
  }

  /** With an empty query and the "all" filter nothing is hidden. */
  lemma ClearedFiltersShowAll(projects: seq<CloudProject>, lower: string -> string)
    requires lower("") == ""
    ensures FilteredProjects(projects, "", AllStyles, lower) == projects
  {
    var keep := (p: CloudProject) => Shown(p, "", AllStyles, lower);
    forall p | p in projects
      ensures keep(p)
    {
      assert OccursAt(lower(p.title), "", 0);
    }
    FilterAllKept(projects, keep);
  }

  // ---------------------------------------------------------------------
  // Rank, favourite style, activity and progress
  // ---------------------------------------------------------------------

  datatype Rank = Rookie | Underground | Superstar | RapGod

  /** The rank's position, lowest first. */
  function Level(r: Rank): nat {
    match r
    case Rookie => 0
    case Underground => 1
    case Superstar => 2
    case RapGod => 3
  }

  /** `userRank`: more than 50 projects, more than 20, more than 5, or fewer. */
  function UserRank(count: nat): (r: Rank)
    ensures r == RapGod <==> count > 50
    ensures r == Superstar <==> 20 < count <= 50
    ensures r == Underground <==> 5 < count <= 20
    ensures r == Rookie <==> count <= 5
  {
    if count > 50 then RapGod
    else if count > 20 then Superstar
    else if count > 5 then Underground
    else Rookie
  }

  /** More projects never lower the rank. */
  lemma RankMonotone(c1: nat, c2: nat)
    requires c1 <= c2
    ensures Level(UserRank(c1)) <= Level(UserRank(c2))
  {
  }

  /** The styles of the projects, in order. */
  function Styles(projects: seq<CloudProject>): (r: seq<string>)
    ensures |r| == |projects|
    ensures forall k :: 0 <= k < |r| ==> r[k] == projects[k].style
  {
    seq(|projects|, k requires 0 <= k < |projects| => projects[k].style)
  }

  /** How many times `x` occurs in `xs`. */
  function Occ(xs: seq<string>, x: string): nat {
    multiset(xs)[x]
  }

  /** The distinct elements of `xs` in order of first appearance: the key order of a JS object filled from `xs`. */
  function FirstSeen(xs: seq<string>): (keys: seq<string>)
    ensures forall x :: x in keys <==> x in xs
    ensures forall a, b :: 0 <= a < b < |keys| ==> keys[a] != keys[b]
  {
    if xs == [] then []
    else
      var front := FirstSeen(xs[..|xs| - 1]);
      var last := xs[|xs| - 1];
      assert xs == xs[..|xs| - 1] + [last];
      front + (if last in front then [] else [last])
  }

  lemma FirstSeenAppend(xs: seq<string>, s: string)
    ensures FirstSeen(xs + [s]) == FirstSeen(xs) + (if s in xs then [] else [s])
  {
    var ys := xs + [s];
    assert ys[..|ys| - 1] == xs;
  }

  lemma OccAppend(xs: seq<string>, s: string, x: string)
    ensures Occ(xs + [s], x) == Occ(xs, x) + (if x == s then 1 else 0)
  {
    assert multiset(xs + [s]) == multiset(xs) + multiset{s};
  }

  const NoFavourite: string := "---"

  /** `counts` and its key order are those of a JS object filled from `xs`. */
  ghost predicate Counted(xs: seq<string>, counts: map<string, nat>, keys: seq<string>) {
    && keys == FirstSeen(xs)
    && (forall s :: s in counts <==> s in xs)
    && (forall s :: s in counts ==> counts[s] == Occ(xs, s))
  }

  /** One `counts[style] = (counts[style] || 0) + 1` extends the count by one style. */
  lemma CountStep(xs: seq<string>, s: string, counts: map<string, nat>, keys: seq<string>)
    requires Counted(xs, counts, keys)
    ensures Counted(xs + [s], counts[s := (if s in counts then counts[s] else 0) + 1],
                    if s in counts then keys else keys + [s])
  {
    var ys := xs + [s];
    var c := counts[s := (if s in counts then counts[s] else 0) + 1];
    assert (if s in counts then keys else keys + [s]) == FirstSeen(ys) by {
      FirstSeenAppend(xs, s);
    }
    forall x
      ensures x in c <==> x in ys
    {
      assert x in ys <==> x in xs || x == s;
    }
    forall x | x in c
      ensures c[x] == Occ(ys, x)
    {
      CountAt(xs, s, counts, x);
    }
  }

  lemma CountAt(xs: seq<string>, s: string, counts: map<string, nat>, x: string)
    requires forall y :: y in counts <==> y in xs
    requires forall y :: y in counts ==> counts[y] == Occ(xs, y)
    requires x in xs || x == s
    ensures counts[s := (if s in counts then counts[s] else 0) + 1][x] == Occ(xs + [s], x)
  {
    OccAppend(xs, s, x);
    if x == s && s !in counts {
      assert Occ(xs, s) == 0;
    }
  }

  /**
   * The `forEach` of `favoriteStyle`: `counts[style] = (counts[style] || 0) + 1`
   * for every project, with the key order the object then has.
   */
  method CountStyles(styles: seq<string>) returns (counts: map<string, nat>, keys: seq<string>)
    ensures keys == FirstSeen(styles)
    ensures forall s :: s in counts <==> s in styles
    ensures forall s :: s in counts ==> counts[s] == Occ(styles, s)
  {
    counts := map[];
    keys := [];
    var i := 0;
    assert styles[..0] == [];
    while i < |styles|
      invariant 0 <= i <= |styles|
      invariant Counted(styles[..i], counts, keys)
    {
      var s := styles[i];
      assert styles[..i + 1] == styles[..i] + [s];
      CountStep(styles[..i], s, counts, keys);
      if s !in counts {
        keys := keys + [s];
      }
      counts := counts[s := (if s in counts then counts[s] else 0) + 1];
      i := i + 1;
    }
    assert styles[..i] == styles;
  }

  /**
   * `Object.keys(counts).reduce((a, b) => counts[a] > counts[b] ? a : b)`:
   * a key of maximal count after which no key has that count.
   */
  method TopKey(keys: seq<string>, counts: map<string, nat>) returns (top: string)
    requires keys != [] && forall k :: k in keys ==> k in counts
    ensures top in counts
    ensures forall q :: 0 <= q < |keys| ==> counts[keys[q]] <= counts[top]
    ensures exists t :: 0 <= t < |keys| && keys[t] == top && forall q :: t < q < |keys| ==> counts[keys[q]] < counts[top]
  {
    top := keys[0];
    ghost var t := 0;
    var j := 1;
    while j < |keys|
      invariant 1 <= j <= |keys|
      invariant 0 <= t < j && keys[t] == top
      invariant forall q :: 0 <= q < j ==> counts[keys[q]] <= counts[top]
      invariant forall q :: t < q < j ==> counts[keys[q]] < counts[top]
    {
      if !(counts[top] > counts[keys[j]]) {
        top := keys[j];
        t := j;
      }
      j := j + 1;
    }
  }

  /**
   * `favoriteStyle`: "---" and 0 without projects; otherwise a style of
   * maximal count with its true count, such that no style first seen later
   * has that count.
   */
  method FavoriteStyle(projects: seq<CloudProject>) returns (name: string, count: nat)
    ensures projects == [] ==> name == NoFavourite && count == 0
    ensures projects != [] ==>
      var styles := Styles(projects);
      var keys := FirstSeen(styles);
      && name in styles && count == Occ(styles, name)
      && (forall s :: s in styles ==> Occ(styles, s) <= count)
      && exists i :: 0 <= i < |keys| && keys[i] == name && forall j :: i < j < |keys| ==> Occ(styles, keys[j]) < count
  {
    if |projects| == 0 {
      return NoFavourite, 0;
    }
    var styles := Styles(projects);
    var counts, keys := CountStyles(styles);
    assert keys != [] by {
      assert styles[0] in styles;
    }
    var top := TopKey(keys, counts);
    name, count := top, counts[top];
    forall s | s in styles
      ensures Occ(styles, s) <= count
    {
      var q :| 0 <= q < |keys| && keys[q] == s;
    }
  }

  /** One entry of the recent-activity list. */
  datatype ActivityEntry = ActivityEntry(kind: string, description: string, time: int, style: string)

  const MaxActivity: nat := 5

  /** `activityLogs`: one entry per project for at most the first five, in order. */
  function ActivityLogs(projects: seq<CloudProject>): (r: seq<ActivityEntry>)
    ensures |r| == if |projects| < MaxActivity then |projects| else MaxActivity
    ensures forall k :: 0 <= k < |r| ==>
      r[k] == ActivityEntry("project", "ساخت پروژه: " + projects[k].title, projects[k].lastModified, projects[k].style)
  {
    var recent := if |projects| < MaxActivity then projects else projects[..MaxActivity];
    seq(|recent|, k requires 0 <= k < |recent| =>
      ActivityEntry("project", "ساخت پروژه: " + recent[k].title, recent[k].lastModified, recent[k].style))
  }

  /** The width, in percent, of the achievement bar: `Math.min(100, projects.length)`. */
  function ProgressWidth(count: nat): (w: nat)
    ensures w <= 100
    ensures w == count || (w == 100 && count > 100)
  {
    if count < 100 then count else 100
  }

  // ---------------------------------------------------------------------
  // Most recent first
  // ---------------------------------------------------------------------

  predicate MostRecentFirst(ps: seq<CloudProject>) {
    forall a, b :: 0 <= a < b < |ps| ==> ps[a].lastModified >= ps[b].lastModified
  }

  /** `p` placed before the first project that is not more recent than it. */
  function Insert(p: CloudProject, sorted: seq<CloudProject>): (r: seq<CloudProject>)
    requires MostRecentFirst(sorted)
    ensures MostRecentFirst(r)
    ensures multiset(r) == multiset(sorted) + multiset{p}
  {
    if sorted == [] || sorted[0].lastModified <= p.lastModified then
      ConsSorted(p, sorted);
      [p] + sorted
    else
      var rest := Insert(p, sorted[1..]);
      assert sorted == [sorted[0]] + sorted[1..];
      RestBelowHead(sorted, p, rest);
      ConsSorted(sorted[0], rest);
      [sorted[0]] + rest
  }

  /** A project at least as recent as everything after it can lead an ordered list. */
  lemma ConsSorted(x: CloudProject, rest: seq<CloudProject>)
    requires MostRecentFirst(rest)
    requires rest == [] || rest[0].lastModified <= x.lastModified
    ensures MostRecentFirst([x] + rest)
  {
    var r := [x] + rest;
    forall a, b | 0 <= a < b < |r|
      ensures r[a].lastModified >= r[b].lastModified
    {
      if a == 0 && b > 1 {
        assert r[1] == rest[0] && r[b] == rest[b - 1];
      }
    }
  }

  /** What is inserted behind the head of an ordered list starts no later than that head. */
  lemma RestBelowHead(sorted: seq<CloudProject>, p: CloudProject, rest: seq<CloudProject>)
    requires MostRecentFirst(sorted) && sorted != [] && p.lastModified < sorted[0].lastModified
    requires multiset(rest) == multiset(sorted[1..]) + multiset{p}
    ensures rest == [] || rest[0].lastModified <= sorted[0].lastModified
  {
    if rest != [] {
      assert rest[0] in multiset(rest);
      if rest[0] != p {
        assert rest[0] in multiset(sorted[1..]);
        var k :| 0 <= k < |sorted[1..]| && sorted[1..][k] == rest[0];
        assert sorted[k + 1] == rest[0];
      }
    }
  }

  /** `sort((a, b) => b.lastModified - a.lastModified)`: the same projects, most recent first. */
  function SortByRecent(ps: seq<CloudProject>): (r: seq<CloudProject>)
    ensures MostRecentFirst(r)
    ensures multiset(r) == multiset(ps)
  {
    if ps == [] then []
    else
      assert ps == [ps[0]] + ps[1..];
      Insert(ps[0], SortByRecent(ps[1..]))
  }

  // ---------------------------------------------------------------------
  // Connection test
  // ---------------------------------------------------------------------

  /**
   * The base URL of the connection test: the setting trimmed, or the
   * default endpoint when that leaves nothing, then trailing slashes and
   * one "/chat/completions" removed.
   */
  function TestConnectionBaseUrl(url: Option<string>): (r: string)
    ensures url.None? || AllSpace(url.value) ==> r == DefaultBaseUrl
    ensures url.Some? && !AllSpace(url.value) ==> r == DropEndpoint(Trim(url.value))
  {
    var trimmed := if url.Some? then Trim(url.value) else "";
    TrimEmptyIffAllSpace(if url.Some? then url.value else "");
    DefaultIsClean();
    DropEndpoint(if trimmed == "" then DefaultBaseUrl else trimmed)
  }

  lemma DefaultIsClean()
    ensures DropEndpoint(DefaultBaseUrl) == DefaultBaseUrl
  {
    var d := DefaultBaseUrl;
    assert d[|d| - 1] == '1';
    assert !EndsWith(d, ChatSuffix) by {
      assert ChatSuffix[|ChatSuffix| - 1] == 's';
    }
  }

  /**
   * The connection test and the generator post to the same base URL except
   * for a non-empty setting made only of white space, where the test falls
   * back to the default and the generator does not.
   */
  lemma TestUrlAgreesWithGenerator(url: Option<string>)
    ensures TestConnectionBaseUrl(url) == SanitizeBaseUrl(url) <==> !(url.Some? && url.value != "" && AllSpace(url.value))
  {
    DefaultIsClean();
    if url.Some? {
      TrimEmptyIffAllSpace(url.value);
      if url.value != "" && AllSpace(url.value) {
        WhitespaceBaseUrlIsEmpty(url.value);
      }
    }
  }
}
