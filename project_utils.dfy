/**
 * Grouping the catalogue's projects into tag categories: every project is
 * placed in the category of each of its tags (once per project id), the
 * projects of each category are put in display order, and the categories are
 * ordered with the featured ("priority") ones first, each group by title.
 */
module ProjectUtils {
  import opened Wrappers
  import opened Order
  import opened StableSort
  import opened Projects

  /** `priorityCategories`: the tags whose categories are featured. */
  const PriorityCategories: seq<string> := [
    "ai", "aurora-virtual-chain", "borrowing-lending", "dex", "education", "game",
    "launchpad", "liquid-staking", "memecoin", "nft", "wallet"
  ]

  /**
   * `categoryColors[tag] || "bg-gray-500"`: the background colour class of
   * each known tag (no class in the table is empty), grey for any other.
   */
  function ColorFor(tag: string): (r: string)
    ensures r != ""
  {
    match tag
    case "community" => "bg-violet-600"
    case "dapp" => "bg-blue-600"
    case "defi" => "bg-indigo-600"
    case "dex" => "bg-purple-600"
    case "infrastructure" => "bg-emerald-600"
    case "launchpad" => "bg-pink-600"
    case "nft" => "bg-fuchsia-600"
    case "other" => "bg-gray-600"
    case "utilities" => "bg-slate-600"
    case "aurora-virtual-chain" => "bg-amber-600"
    case "bitcoin" => "bg-orange-600"
    case "accelerator" => "bg-red-600"
    case "ai" => "bg-cyan-600"
    case "analytics" => "bg-teal-600"
    case "asset-management" => "bg-sky-600"
    case "audit" => "bg-rose-600"
    case "aurora" => "bg-yellow-600"
    case "borrowing-lending" => "bg-lime-600"
    case "bos" => "bg-green-500"
    case "bot" => "bg-blue-500"
    case "bounty" => "bg-purple-500"
    case "bridge" => "bg-indigo-500"
    case "cex" => "bg-violet-500"
    case "chain-abstraction" => "bg-fuchsia-500"
    case "compliance" => "bg-pink-500"
    case "cross-chain-router" => "bg-rose-500"
    case "custodian" => "bg-orange-500"
    case "dao" => "bg-amber-500"
    case "data-availability" => "bg-emerald-500"
    case "desci" => "bg-cyan-500"
    case "developer-support" => "bg-teal-500"
    case "developer-tooling" => "bg-sky-500"
    case "education" => "bg-blue-700"
    case "enterprise" => "bg-indigo-700"
    case "event" => "bg-violet-700"
    case "explorer" => "bg-purple-700"
    case "funding-node" => "bg-fuchsia-700"
    case "game" => "bg-pink-700"
    case "identity" => "bg-rose-700"
    case "indexer" => "bg-orange-700"
    case "liquid-staking" => "bg-amber-700"
    case "loyalty" => "bg-yellow-700"
    case "marketplace" => "bg-lime-700"
    case "memecoin" => "bg-green-700"
    case "messaging" => "bg-emerald-700"
    case "mobile" => "bg-teal-700"
    case "music" => "bg-cyan-700"
    case "on-off-ramp" => "bg-sky-700"
    case "oracles" => "bg-blue-800"
    case "payment" => "bg-indigo-800"
    case "privacy" => "bg-violet-800"
    case "productivity-tool" => "bg-purple-800"
    case "regional-hub" => "bg-fuchsia-800"
    case "restaking" => "bg-pink-800"
    case "rpc" => "bg-rose-800"
    case "rwa" => "bg-orange-800"
    case "security" => "bg-amber-800"
    case "service-provider" => "bg-yellow-800"
    case "social" => "bg-lime-800"
    case "sport" => "bg-green-800"
    case "stablecoin" => "bg-emerald-800"
    case "storage" => "bg-teal-800"
    case "validator" => "bg-cyan-800"
    case "wallet" => "bg-sky-800"
    case "zero-knowledge" => "bg-blue-900"
    case _ => "bg-gray-500"
  }

  /** `priorityCategories.includes(tag)`. */
  predicate IsPriorityTag(tag: string) {
    tag in PriorityCategories
  }

  /** The key of the comparator `Object.keys(b.tags).length - Object.keys(a.tags).length`. */
  function TagCountKey(p: Project): SortKey {
    SortKey(-|p.tags|, "")
  }

  /** The order in which projects are distributed: by non-increasing number of tags. */
  function ProcessingOrder(projectsData: seq<Project>): (r: seq<Project>)
    ensures multiset(r) == multiset(projectsData)
    ensures forall i, j :: 0 <= i < j < |r| ==> |r[i].tags| >= |r[j].tags|
    ensures forall k :: WithKey(r, TagCountKey, k) == WithKey(projectsData, TagCountKey, k)
  {
    SortByKey(projectsData, TagCountKey)
  }

  /** One step of the nested `forEach`: a project together with one of its tags. */
  datatype Placement = Placement(project: Project, tag: Tag)

  /** The steps of the inner `forEach`: the project with each of its tags, in tag order. */
  function TagPlacements(p: Project): (r: seq<Placement>)
    ensures |r| == |p.tags|
    ensures forall j :: 0 <= j < |r| ==> r[j] == Placement(p, p.tags[j])
    ensures forall x :: x in r <==> x.project == p && x.tag in p.tags
  {
    var r := seq(|p.tags|, j requires 0 <= j < |p.tags| => Placement(p, p.tags[j]));
    assert forall t | t in p.tags :: Placement(p, t) in r by {
      forall t | t in p.tags
        ensures Placement(p, t) in r
      {
        var j :| 0 <= j < |p.tags| && p.tags[j] == t;
        assert r[j] == Placement(p, t);
      }
    }
    r
  }

  /** The steps of the nested `forEach` over `ps`, in the order they are taken. */
  function Placements(ps: seq<Project>): seq<Placement> {
    if ps == [] then [] else Placements(ps[..|ps| - 1]) + TagPlacements(ps[|ps| - 1])
  }

  lemma {:induction false} PlacementsMembers(ps: seq<Project>, x: Placement)
    ensures x in Placements(ps) <==> x.project in ps && x.tag in x.project.tags
  {
    if ps != [] {
      var pre, last := ps[..|ps| - 1], ps[|ps| - 1];
      PlacementsMembers(pre, x);
      assert ps == pre + [last];
      if x.project == last && x.tag in last.tags {
        var j :| 0 <= j < |last.tags| && last.tags[j] == x.tag;
        assert TagPlacements(last)[j] == x;
      }
    }
  }

  function TagKeys(xs: seq<Placement>): set<string> {
    set x | x in xs :: x.tag.key
  }

  /** The position of the first step whose tag has key `k`. */
  function FirstWith(xs: seq<Placement>, k: string): (r: nat)
    requires k in TagKeys(xs)
    ensures r < |xs| && xs[r].tag.key == k
    ensures forall j :: 0 <= j < r ==> xs[j].tag.key != k
  {
    if xs[0].tag.key == k then 0
    else
      assert k in TagKeys(xs[1..]) by {
        var x :| x in xs && x.tag.key == k;
        assert x in xs[1..];
      }
      1 + FirstWith(xs[1..], k)
  }

  /** The `categories` dictionary under construction: its keys in insertion order and its values. */
  datatype Dict = Dict(keys: seq<string>, cats: map<string, Category>)

  ghost predicate WellFormed(d: Dict) {
    && (forall i, j :: 0 <= i < j < |d.keys| ==> d.keys[i] != d.keys[j])
    && (forall k | k in d.cats :: k in d.keys)
    && (forall i | 0 <= i < |d.keys| :: d.keys[i] in d.cats)
  }

  /** `categories[tag].projects.find((p) => p.id === project.id)` is defined. */
  predicate HasId(ps: seq<Project>, id: string) {
    exists q :: q in ps && q.id == id
  }

  /** No two projects of `ps` share an id. */
  ghost predicate UniqueIds(ps: seq<Project>) {
    forall i, j :: 0 <= i < j < |ps| ==> ps[i].id != ps[j].id
  }

  function NewCategory(tag: Tag): Category {
    Category(tag.value, ColorFor(tag.key), [], IsPriorityTag(tag.key))
  }

  /** `push` the project onto the category unless a project with its id is there. */
  function Pushed(c: Category, p: Project): (r: Category)
    ensures r.title == c.title && r.color == c.color && r.isPriority == c.isPriority
    ensures forall q | q in c.projects :: q in r.projects
    ensures HasId(r.projects, p.id)
    ensures HasId(c.projects, p.id) ==> r == c
    ensures c.projects <= r.projects && |r.projects| <= |c.projects| + 1
  {
    if HasId(c.projects, p.id) then c else c.(projects := c.projects + [p])
  }

  /** One step: create the tag's category if it is missing, then push the project. */
  function Place(d: Dict, x: Placement): Dict {
    var key := x.tag.key;
    var c := if key in d.cats then d.cats[key] else NewCategory(x.tag);
    Dict(if key in d.cats then d.keys else d.keys + [key], d.cats[key := Pushed(c, x.project)])
  }

  /**
   * One step creates the tag's category when it is missing (header from the
   * tag), pushes the project onto it, and leaves every other category alone.
   */
  lemma PlaceEffect(d: Dict, x: Placement)
    ensures var r, key := Place(d, x), x.tag.key;
      && key in r.cats
      && (key in d.cats ==> r.keys == d.keys && r.cats[key] == Pushed(d.cats[key], x.project))
      && (key !in d.cats ==> r.keys == d.keys + [key] && r.cats[key] == Category(x.tag.value, ColorFor(key), [x.project], IsPriorityTag(key)))
      && (forall k | k != key :: (k in r.cats <==> k in d.cats) && (k in d.cats ==> r.cats[k] == d.cats[k]))
  {
    var key := x.tag.key;
    if key !in d.cats {
      assert !HasId(NewCategory(x.tag).projects, x.project.id);
    }
  }

  /** The dictionary after the steps `xs`, starting from `{}`. */
  function Distribute(xs: seq<Placement>): (d: Dict)
    ensures WellFormed(d)
    ensures forall k :: k in d.cats <==> k in TagKeys(xs)
  {
    if xs == [] then Dict([], map[])
    else
      var pre, x := xs[..|xs| - 1], xs[|xs| - 1];
      var d0 := Distribute(pre);
      assert xs == pre + [x];
      TagKeysSnoc(pre, x);
      PlaceWellFormed(d0, x);
      Place(d0, x)
  }

  lemma TagKeysSnoc(xs: seq<Placement>, x: Placement)
    ensures TagKeys(xs + [x]) == TagKeys(xs) + {x.tag.key}
  {
    assert x in xs + [x];
    assert forall y | y in xs :: y in xs + [x];
  }

  lemma PlaceWellFormed(d: Dict, x: Placement)
    requires WellFormed(d)
    ensures WellFormed(Place(d, x))
    ensures Place(d, x).cats.Keys == d.cats.Keys + {x.tag.key}
  {
    var key := x.tag.key;
    if key !in d.cats {
      var keys := d.keys + [key];
      forall i, j | 0 <= i < j < |keys|
        ensures keys[i] != keys[j]
      {
        if j == |keys| - 1 {
          assert keys[i] in d.cats;
        }
      }
    }
  }

  /** Every step leaves its project (or one with the same id) in the category of its tag. */
  lemma {:induction false} DistributeMembership(xs: seq<Placement>)
    ensures forall x | x in xs :: HasId(Distribute(xs).cats[x.tag.key].projects, x.project.id)
  {
    if xs != [] {
      var pre, y := xs[..|xs| - 1], xs[|xs| - 1];
      DistributeMembership(pre);
      assert xs == pre + [y];
      DistributeSnoc(pre, y);
      PlaceMembership(Distribute(pre), pre, y);
    }
  }

  lemma PlaceMembership(d: Dict, pre: seq<Placement>, y: Placement)
    requires forall x | x in pre :: x.tag.key in d.cats && HasId(d.cats[x.tag.key].projects, x.project.id)
    ensures forall x | x in pre + [y] :: HasId(Place(d, y).cats[x.tag.key].projects, x.project.id)
  {
    var d' := Place(d, y);
    forall x | x in pre + [y]
      ensures HasId(d'.cats[x.tag.key].projects, x.project.id)
    {
      if x in pre && x.tag.key == y.tag.key {
        var q :| q in d.cats[x.tag.key].projects && q.id == x.project.id;
        assert q in d'.cats[x.tag.key].projects;
      } else if x in pre {
        assert d'.cats[x.tag.key] == d.cats[x.tag.key];
      }
    }
  }

  /** A category holds only projects that carry its tag. */
  lemma {:induction false} DistributeSound(xs: seq<Placement>)
    ensures forall k, q | k in Distribute(xs).cats && q in Distribute(xs).cats[k].projects ::
      q in CarriersOf(xs, k)
  {
    if xs != [] {
      var pre, y := xs[..|xs| - 1], xs[|xs| - 1];
      DistributeSound(pre);
      assert xs == pre + [y];
      ProjectsSnoc(pre, y);
    }
  }

  /** The projects of the steps whose tag has key `k`. */
  function CarriersOf(xs: seq<Placement>, k: string): set<Project> {
    set x | x in xs && x.tag.key == k :: x.project
  }

  lemma ProjectsSnoc(xs: seq<Placement>, y: Placement)
    ensures forall k :: CarriersOf(xs + [y], k) == CarriersOf(xs, k) + (if y.tag.key == k then {y.project} else {})
  {
  }

  /** Within a category no two projects share an id, and no category is empty. */
  lemma {:induction false} DistributeCategories(xs: seq<Placement>)
    ensures forall k | k in Distribute(xs).cats ::
      UniqueIds(Distribute(xs).cats[k].projects) && |Distribute(xs).cats[k].projects| > 0
  {
    if xs != [] {
      var pre, y := xs[..|xs| - 1], xs[|xs| - 1];
      DistributeCategories(pre);
      assert xs == pre + [y];
      DistributeSnoc(pre, y);
      PlaceCategories(Distribute(pre), y);
    }
  }

  lemma PlaceCategories(d: Dict, y: Placement)
    requires forall k | k in d.cats :: UniqueIds(d.cats[k].projects) && |d.cats[k].projects| > 0
    ensures forall k | k in Place(d, y).cats :: UniqueIds(Place(d, y).cats[k].projects) && |Place(d, y).cats[k].projects| > 0
  {
    var key := y.tag.key;
    var c := if key in d.cats then d.cats[key] else NewCategory(y.tag);
    assert Place(d, y).cats[key] == Pushed(c, y.project);
    if !HasId(c.projects, y.project.id) {
      var ps := c.projects + [y.project];
      forall i, j | 0 <= i < j < |ps|
        ensures ps[i].id != ps[j].id
      {
        if j == |ps| - 1 {
          assert ps[i] in c.projects;
        }
      }
    }
  }

  /** Appending a step does not move the first step of a key already seen. */
  lemma FirstWithSnoc(pre: seq<Placement>, y: Placement, k: string)
    requires k in TagKeys(pre + [y])
    ensures k in TagKeys(pre) ==> FirstWith(pre + [y], k) == FirstWith(pre, k)
    ensures k !in TagKeys(pre) ==> FirstWith(pre + [y], k) == |pre|
  {
    var xs := pre + [y];
    var a := FirstWith(xs, k);
    if k in TagKeys(pre) {
      var b := FirstWith(pre, k);
      assert xs[b] == pre[b];
      assert !(a < b);
    }
  }

  /** Distributing one more step is placing it in the dictionary built so far. */
  lemma DistributeSnoc(xs: seq<Placement>, x: Placement)
    ensures Distribute(xs + [x]) == Place(Distribute(xs), x)
  {
    assert (xs + [x])[..|xs|] == xs;
  }

  /** A category's title, colour and featured flag: the tag's value at its first step, its colour, its priority. */
  lemma {:induction false} DistributeHeaders(xs: seq<Placement>)
    ensures forall k | k in Distribute(xs).cats ::
      && Distribute(xs).cats[k].title == xs[FirstWith(xs, k)].tag.value
      && Distribute(xs).cats[k].color == ColorFor(k)
      && Distribute(xs).cats[k].isPriority == IsPriorityTag(k)
  {
    if xs != [] {
      var pre, y := xs[..|xs| - 1], xs[|xs| - 1];
      DistributeHeaders(pre);
      assert xs == pre + [y];
      DistributeSnoc(pre, y);
      PlaceHeaders(Distribute(pre), pre, y);
    }
  }

  lemma PlaceHeaders(d: Dict, pre: seq<Placement>, y: Placement)
    requires forall k :: k in d.cats <==> k in TagKeys(pre)
    requires forall k | k in d.cats ::
      && d.cats[k].title == pre[FirstWith(pre, k)].tag.value
      && d.cats[k].color == ColorFor(k)
      && d.cats[k].isPriority == IsPriorityTag(k)
    ensures forall k | k in Place(d, y).cats ::
      && k in TagKeys(pre + [y])
      && Place(d, y).cats[k].title == (pre + [y])[FirstWith(pre + [y], k)].tag.value
      && Place(d, y).cats[k].color == ColorFor(k)
      && Place(d, y).cats[k].isPriority == IsPriorityTag(k)
  {
    var xs, d' := pre + [y], Place(d, y);
    TagKeysSnoc(pre, y);
    forall k | k in d'.cats
      ensures k in TagKeys(xs)
      ensures d'.cats[k].title == xs[FirstWith(xs, k)].tag.value
      ensures d'.cats[k].color == ColorFor(k)
      ensures d'.cats[k].isPriority == IsPriorityTag(k)
    {
      FirstWithSnoc(pre, y, k);
      if k in d.cats {
        assert xs[FirstWith(pre, k)] == pre[FirstWith(pre, k)];
      }
    }
  }

  /** The reordering applied to each category's projects: any permutation. */
  ghost predicate Permutes(arrange: seq<Project> -> seq<Project>) {
    forall ps :: multiset(arrange(ps)) == multiset(ps)
  }

  /** Every category with its projects put in display order by `arrange`. */
  function Arranged(cats: map<string, Category>, arrange: seq<Project> -> seq<Project>): (r: map<string, Category>)
    ensures r.Keys == cats.Keys
    ensures forall k | k in r :: r[k] == cats[k].(projects := arrange(cats[k].projects))
  {
    map k | k in cats :: cats[k].(projects := arrange(cats[k].projects))
  }

  /**
   * With a display ordering that only permutes, arranging keeps every
   * category's header and the multiset of its projects.
   */
  lemma ArrangedPermutes(cats: map<string, Category>, arrange: seq<Project> -> seq<Project>)
    requires Permutes(arrange)
    ensures var r := Arranged(cats, arrange);
      forall k | k in r ::
        && r[k].title == cats[k].title && r[k].color == cats[k].color && r[k].isPriority == cats[k].isPriority
        && multiset(r[k].projects) == multiset(cats[k].projects)
  {
  }

  /** `Object.entries(categories)`: the categories in key insertion order. */
  function EntriesOf(keys: seq<string>, cats: map<string, Category>): (r: seq<Entry>)
    requires forall i | 0 <= i < |keys| :: keys[i] in cats
    ensures |r| == |keys|
    ensures forall i :: 0 <= i < |r| ==> r[i] == Entry(keys[i], cats[keys[i]])
  {
    seq(|keys|, i requires 0 <= i < |keys| => Entry(keys[i], cats[keys[i]]))
  }

  /** The key of the final comparator: featured categories first, then by title. */
  function PriorityTitleKey(e: Entry): SortKey {
    SortKey(if IsPriorityTag(e.key) then 0 else 1, e.category.title)
  }

  /** The steps of the nested `forEach` of `categorizeProjects`. */
  function Steps(projectsData: seq<Project>): seq<Placement> {
    Placements(ProcessingOrder(projectsData))
  }

  /** The `categories` dictionary once every project has been distributed. */
  function Grouped(projectsData: seq<Project>): Dict {
    Distribute(Steps(projectsData))
  }

  /** Every tag key of every project. */
  function AllTagKeys(projectsData: seq<Project>): set<string> {
    set p, t | p in projectsData && t in p.tags :: t.key
  }

  /** The tag keys of one project. */
  function TagKeysOf(p: Project): set<string> {
    set t | t in p.tags :: t.key
  }

  /**
   * What `categorizeProjects` returns: the categories, featured ones first and
   * each group in title order, with no key twice.
   */
  function Categorized(projectsData: seq<Project>, arrange: seq<Project> -> seq<Project>): (r: seq<Entry>)
    ensures DistinctKeys(r)
  {
    var r := SortByKey(GroupedEntries(projectsData, arrange), PriorityTitleKey);
    PermutationKeepsDistinctKeys(GroupedEntries(projectsData, arrange), r);
    r
  }

  /** All featured categories come first, and each group is in title order. */
  lemma CategorizedOrder(projectsData: seq<Project>, arrange: seq<Project> -> seq<Project>)
    ensures var r := Categorized(projectsData, arrange);
      && (forall i, j | 0 <= i < j < |r| :: IsPriorityTag(r[j].key) ==> IsPriorityTag(r[i].key))
      && (forall i, j | 0 <= i < j < |r| && IsPriorityTag(r[i].key) == IsPriorityTag(r[j].key) ::
            StrLe(r[i].category.title, r[j].category.title))
  {
    PriorityOrder(Categorized(projectsData, arrange));
  }

  /** The entries of the grouped dictionary, projects arranged, in insertion order. */
  function GroupedEntries(projectsData: seq<Project>, arrange: seq<Project> -> seq<Project>): (r: seq<Entry>)
    ensures DistinctKeys(r)
    ensures forall e :: e in r <==>
      var d := Grouped(projectsData);
      e.key in d.cats && e.category == d.cats[e.key].(projects := arrange(d.cats[e.key].projects))
  {
    var d := Grouped(projectsData);
    var cats := Arranged(d.cats, arrange);
    DictEntries(d, cats);
    EntriesOf(d.keys, cats)
  }

  /** The entries of a well-formed dictionary: one per key, with that key's value. */
  lemma DictEntries(d: Dict, cats: map<string, Category>)
    requires WellFormed(d) && cats.Keys == d.cats.Keys
    ensures var r := EntriesOf(d.keys, cats);
      && DistinctKeys(r)
      && forall e :: e in r <==> e.key in cats && e.category == cats[e.key]
  {
    var r := EntriesOf(d.keys, cats);
    forall e
      ensures e in r <==> e.key in cats && e.category == cats[e.key]
    {
      if e.key in cats && e.category == cats[e.key] {
        var i :| 0 <= i < |d.keys| && d.keys[i] == e.key;
        assert r[i] == e;
      }
    }
  }

  lemma PriorityOrder(r: seq<Entry>)
    requires SortedBy(r, PriorityTitleKey)
    ensures forall i, j | 0 <= i < j < |r| :: IsPriorityTag(r[j].key) ==> IsPriorityTag(r[i].key)
    ensures forall i, j | 0 <= i < j < |r| && IsPriorityTag(r[i].key) == IsPriorityTag(r[j].key) ::
      StrLe(r[i].category.title, r[j].category.title)
  {
    forall i, j | 0 <= i < j < |r|
      ensures IsPriorityTag(r[j].key) ==> IsPriorityTag(r[i].key)
      ensures IsPriorityTag(r[i].key) == IsPriorityTag(r[j].key) ==> StrLe(r[i].category.title, r[j].category.title)
    {
      assert KeyLe(PriorityTitleKey(r[i]), PriorityTitleKey(r[j]));
    }
  }

  /** An entry of the result is a grouped category with its projects arranged. */
  lemma CategorizedEntry(projectsData: seq<Project>, arrange: seq<Project> -> seq<Project>, e: Entry)
    ensures e in Categorized(projectsData, arrange) <==>
      var d := Grouped(projectsData);
      e.key in d.cats && e.category == d.cats[e.key].(projects := arrange(d.cats[e.key].projects))
  {
    SortedMembers(GroupedEntries(projectsData, arrange), PriorityTitleKey, e);
  }

  lemma ProcessedTagKeys(projectsData: seq<Project>)
    ensures TagKeys(Steps(projectsData)) == AllTagKeys(projectsData)
  {
    var ps := ProcessingOrder(projectsData);
    var xs := Placements(ps);
    forall k | k in TagKeys(xs)
      ensures k in AllTagKeys(projectsData)
    {
      var x :| x in xs && x.tag.key == k;
      PlacementsMembers(ps, x);
      assert x.project in multiset(ps);
    }
    forall k | k in AllTagKeys(projectsData)
      ensures k in TagKeys(xs)
    {
      var p, t :| p in projectsData && t in p.tags && t.key == k;
      assert p in multiset(ps);
      PlacementsMembers(ps, Placement(p, t));
    }
  }

  /** The result has one category per tag key that some project carries. */
  lemma CategorizedKeys(projectsData: seq<Project>, arrange: seq<Project> -> seq<Project>)
    ensures KeySet(Categorized(projectsData, arrange)) == AllTagKeys(projectsData)
  {
    var r := Categorized(projectsData, arrange);
    var d := Grouped(projectsData);
    ProcessedTagKeys(projectsData);
    forall k | k in AllTagKeys(projectsData)
      ensures k in KeySet(r)
    {
      CategorizedEntry(projectsData, arrange, Entry(k, d.cats[k].(projects := arrange(d.cats[k].projects))));
    }
    forall e | e in r
      ensures e.key in AllTagKeys(projectsData)
    {
      CategorizedEntry(projectsData, arrange, e);
    }
  }

  /** A step is taken for exactly the pairs of a project and one of its tags. */
  lemma StepsMembers(projectsData: seq<Project>, x: Placement)
    ensures x in Steps(projectsData) <==> x.project in projectsData && x.tag in x.project.tags
  {
    var ps := ProcessingOrder(projectsData);
    PlacementsMembers(ps, x);
    assert x.project in ps <==> x.project in multiset(ps);
  }

  /** Every project is (by its id) in the category of each of its tags. */
  lemma CategorizedMembership(projectsData: seq<Project>, arrange: seq<Project> -> seq<Project>)
    requires Permutes(arrange)
    ensures forall e, p, t | e in Categorized(projectsData, arrange) && p in projectsData && t in p.tags && t.key == e.key ::
      HasId(e.category.projects, p.id)
  {
    var r := Categorized(projectsData, arrange);
    var d := Grouped(projectsData);
    DistributeMembership(Steps(projectsData));
    forall e, p, t | e in r && p in projectsData && t in p.tags && t.key == e.key
      ensures HasId(e.category.projects, p.id)
    {
      CategorizedEntry(projectsData, arrange, e);
      StepsMembers(projectsData, Placement(p, t));
      var q :| q in d.cats[e.key].projects && q.id == p.id;
      assert q in multiset(d.cats[e.key].projects);
      assert q in e.category.projects;
    }
  }

  /** Every project of category `e` is in the catalogue and carries the tag `e.key`. */
  ghost predicate OnlyCarriers(projectsData: seq<Project>, e: Entry) {
    forall q | q in e.category.projects :: q in projectsData && e.key in TagKeysOf(q)
  }

  /** A category holds only catalogue projects that carry its tag. */
  lemma CategorizedSound(projectsData: seq<Project>, arrange: seq<Project> -> seq<Project>)
    requires Permutes(arrange)
    ensures forall e | e in Categorized(projectsData, arrange) :: OnlyCarriers(projectsData, e)
  {
    forall e | e in Categorized(projectsData, arrange)
      ensures OnlyCarriers(projectsData, e)
    {
      forall q | q in e.category.projects
        ensures q in projectsData && e.key in TagKeysOf(q)
      {
        SoundEntry(projectsData, arrange, e, q);
      }
    }
  }

  lemma SoundEntry(projectsData: seq<Project>, arrange: seq<Project> -> seq<Project>, e: Entry, q: Project)
    requires Permutes(arrange)
    requires e in Categorized(projectsData, arrange) && q in e.category.projects
    ensures q in projectsData && e.key in TagKeysOf(q)
  {
    var d := Grouped(projectsData);
    CategorizedEntry(projectsData, arrange, e);
    assert q in multiset(arrange(d.cats[e.key].projects));
    assert q in d.cats[e.key].projects;
    DistributeSound(Steps(projectsData));
    assert q in CarriersOf(Steps(projectsData), e.key);
    var x :| x in Steps(projectsData) && x.tag.key == e.key && x.project == q;
    StepsMembers(projectsData, x);
  }

  function IdOf(p: Project): string {
    p.id
  }

  /** No category is empty, and none holds two projects with the same id. */
  lemma CategorizedCategories(projectsData: seq<Project>, arrange: seq<Project> -> seq<Project>)
    requires Permutes(arrange)
    ensures forall e | e in Categorized(projectsData, arrange) ::
      |e.category.projects| > 0 && UniqueIds(e.category.projects)
  {
    var r := Categorized(projectsData, arrange);
    var d := Grouped(projectsData);
    DistributeCategories(Steps(projectsData));
    forall e | e in r
      ensures |e.category.projects| > 0 && UniqueIds(e.category.projects)
    {
      CategorizedEntry(projectsData, arrange, e);
      var ps := d.cats[e.key].projects;
      assert |multiset(arrange(ps))| == |multiset(ps)|;
      assert InjectiveOn(ps, IdOf);
      PermutationKeepsInjective(ps, arrange(ps), IdOf);
      assert InjectiveOn(arrange(ps), IdOf);
    }
  }

  /**
   * A category's title is the tag's value at the first step carrying the tag;
   * its colour is the table's colour for the tag (grey when absent) and it is
   * featured exactly when the tag is a priority tag.
   */
  lemma CategorizedHeaders(projectsData: seq<Project>, arrange: seq<Project> -> seq<Project>)
    ensures forall e | e in Categorized(projectsData, arrange) ::
      && e.key in TagKeys(Steps(projectsData))
      && e.category.title == Steps(projectsData)[FirstWith(Steps(projectsData), e.key)].tag.value
      && e.category.color == ColorFor(e.key)
      && e.category.isPriority == IsPriorityTag(e.key)
  {
    var xs := Steps(projectsData);
    var d := Grouped(projectsData);
    DistributeHeaders(xs);
    forall e | e in Categorized(projectsData, arrange)
      ensures e.key in TagKeys(xs)
      ensures e.category.title == xs[FirstWith(xs, e.key)].tag.value
      ensures e.category.color == ColorFor(e.key)
      ensures e.category.isPriority == IsPriorityTag(e.key)
    {
      CategorizedEntry(projectsData, arrange, e);
      assert e.key in d.cats;
    }
  }

  /** The callback of the inner `forEach`: one tag of one project. */
  method PlaceStep(keys: seq<string>, categories: map<string, Category>, project: Project, tag: Tag)
    returns (keys': seq<string>, categories': map<string, Category>)
    ensures Dict(keys', categories') == Place(Dict(keys, categories), Placement(project, tag))
  {
    keys', categories' := keys, categories;
    if tag.key !in categories' {
      categories' := categories'[tag.key := NewCategory(tag)];
      keys' := keys' + [tag.key];
    }
    if !HasId(categories'[tag.key].projects, project.id) {
      categories' := categories'[tag.key := categories'[tag.key].(projects := categories'[tag.key].projects + [project])];
    }
  }

  /** Distributing `done` and the first `j + 1` steps of `steps` is placing step `j` after the first `j`. */
  lemma DistributeNext(done: seq<Placement>, steps: seq<Placement>, j: nat)
    requires j < |steps|
    ensures Distribute(done + steps[..j + 1]) == Place(Distribute(done + steps[..j]), steps[j])
  {
    var before := done + steps[..j];
    assert before + [steps[j]] == done + steps[..j + 1];
    DistributeSnoc(before, steps[j]);
  }

  /** The inner `forEach`: every tag of one project, after the steps `done`. */
  method PlaceTags(keys: seq<string>, categories: map<string, Category>, project: Project, ghost done: seq<Placement>)
    returns (keys': seq<string>, categories': map<string, Category>)
    requires Dict(keys, categories) == Distribute(done)
    ensures Dict(keys', categories') == Distribute(done + TagPlacements(project))
  {
    keys', categories' := keys, categories;
    ghost var steps := TagPlacements(project);
    assert done + steps[..0] == done;
    var j := 0;
    while j < |project.tags|
      invariant 0 <= j <= |project.tags|
      invariant Dict(keys', categories') == Distribute(done + steps[..j])
    {
      DistributeNext(done, steps, j);
      assert steps[j] == Placement(project, project.tags[j]);
      keys', categories' := PlaceStep(keys', categories', project, project.tags[j]);
      j := j + 1;
    }
    assert steps[..j] == steps;
  }

  /** The outer `forEach` of `categorizeProjects`, over the projects in processing order. */
  method DistributeProjects(sortedProjects: seq<Project>)
    returns (keys: seq<string>, categories: map<string, Category>)
    ensures Dict(keys, categories) == Distribute(Placements(sortedProjects))
  {
    keys, categories := [], map[];
    var i := 0;
    while i < |sortedProjects|
      invariant 0 <= i <= |sortedProjects|
      invariant Dict(keys, categories) == Distribute(Placements(sortedProjects[..i]))
    {
      keys, categories := PlaceTags(keys, categories, sortedProjects[i], Placements(sortedProjects[..i]));
      assert sortedProjects[..i + 1][..i] == sortedProjects[..i];
      i := i + 1;
    }
    assert sortedProjects[..i] == sortedProjects;
  }

  /** The categories with those of the keys in `done` arranged, the others as they were. */
  ghost predicate ArrangedUpTo(arranged: map<string, Category>, categories: map<string, Category>, done: seq<string>,
                               arrange: seq<Project> -> seq<Project>) {
    && arranged.Keys == categories.Keys
    && forall m | m in arranged ::
         arranged[m] == if m in done then categories[m].(projects := arrange(categories[m].projects)) else categories[m]
  }

  /** Arranging the category of the next key, not yet arranged, extends the arranged keys by it. */
  lemma ArrangeOneMore(arranged: map<string, Category>, categories: map<string, Category>, keys: seq<string>, k: nat,
                       arrange: seq<Project> -> seq<Project>)
    requires WellFormed(Dict(keys, categories)) && k < |keys|
    requires ArrangedUpTo(arranged, categories, keys[..k], arrange)
    ensures keys[k] in arranged
    ensures ArrangedUpTo(arranged[keys[k] := arranged[keys[k]].(projects := arrange(arranged[keys[k]].projects))],
                         categories, keys[..k + 1], arrange)
  {
    KeyNotBefore(keys, k);
    assert keys[..k + 1] == keys[..k] + [keys[k]];
  }

  /** With distinct keys, the key at `k` is not among those before it. */
  lemma KeyNotBefore(keys: seq<string>, k: nat)
    requires forall i, j :: 0 <= i < j < |keys| ==> keys[i] != keys[j]
    requires k < |keys|
    ensures keys[k] !in keys[..k]
  {
  }

  /** Once every key is arranged, the categories are `Arranged`. */
  lemma ArrangedAll(arranged: map<string, Category>, categories: map<string, Category>, keys: seq<string>,
                    arrange: seq<Project> -> seq<Project>)
    requires ArrangedUpTo(arranged, categories, keys, arrange)
    requires forall m | m in categories :: m in keys
    ensures arranged == Arranged(categories, arrange)
  {
  }

  /** `Object.values(categories).forEach(...)`: every category's projects put in display order. */
  method ArrangeCategories(keys: seq<string>, categories: map<string, Category>, arrange: seq<Project> -> seq<Project>)
    returns (arranged: map<string, Category>)
    requires WellFormed(Dict(keys, categories))
    ensures arranged == Arranged(categories, arrange)
  {
    arranged := categories;
    var k := 0;
    while k < |keys|
      invariant 0 <= k <= |keys|
      invariant ArrangedUpTo(arranged, categories, keys[..k], arrange)
    {
      var key := keys[k];
      ArrangeOneMore(arranged, categories, keys, k, arrange);
      arranged := arranged[key := arranged[key].(projects := arrange(arranged[key].projects))];
      k := k + 1;
    }
    assert keys[..k] == keys;
    ArrangedAll(arranged, categories, keys, arrange);
  }

  /**
   * `categorizeProjects`: distributes the projects, most tags first, over the
   * categories of their tags, arranges each category's projects and orders the
   * categories, featured first and each group by title.
   */
  method CategorizeProjects(projectsData: seq<Project>, arrange: seq<Project> -> seq<Project>)
    returns (result: seq<Entry>)
    ensures result == Categorized(projectsData, arrange)
  {
    var sortedProjects := ProcessingOrder(projectsData);
    var keys, categories := DistributeProjects(sortedProjects);
    categories := ArrangeCategories(keys, categories, arrange);
    result := SortByKey(EntriesOf(keys, categories), PriorityTitleKey);
  }
}
