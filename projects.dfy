/**
 * The shapes of the catalogue: projects, the categories they are grouped
 * into, and a categorised catalogue as the ordered entries of a dictionary
 * from category key to category (a JavaScript object keeps its string keys
 * in insertion order).
 */
module Projects {
  import opened Wrappers
  import opened Order
  import opened StableSort

  /** One entry of a project's `tags` dictionary: tag key and its display label `value`. */
  datatype Tag = Tag(key: string, value: string)

  /** A project; `phase` is one of "mainnet", "inactive", "still building", or absent. */
  datatype Project = Project(
    id: string,
    name: string,
    description: Option<string>,
    phase: Option<string>,
    tags: seq<Tag>)

  datatype Category = Category(title: string, color: string, projects: seq<Project>, isPriority: bool)

  /** One `[key, category]` pair of `Object.entries` of a categorised catalogue. */
  datatype Entry = Entry(key: string, category: Category)

  /** The entries come from an object, so no key occurs twice. */
  ghost predicate DistinctKeys(c: seq<Entry>) {
    forall i, j :: 0 <= i < j < |c| ==> c[i].key != c[j].key
  }

  function KeyOf(e: Entry): string {
    e.key
  }

  /** Reordering the entries keeps their keys distinct. */
  lemma PermutationKeepsDistinctKeys(a: seq<Entry>, b: seq<Entry>)
    requires multiset(a) == multiset(b)
    requires DistinctKeys(a)
    ensures DistinctKeys(b)
  {
    assert InjectiveOn(a, KeyOf);
    PermutationKeepsInjective(a, b, KeyOf);
    assert InjectiveOn(b, KeyOf);
  }

  function KeySet(c: seq<Entry>): set<string> {
    set e | e in c :: e.key
  }

  /** JavaScript truthiness of `visibleCategories[key]`: a missing key reads as `undefined`. */
  predicate Visible(visible: map<string, bool>, key: string) {
    key in visible && visible[key]
  }

  /** The phase test `showInactive || project.phase !== 'inactive'`. */
  predicate KeepsPhase(showInactive: bool, p: Project) {
    showInactive || p.phase != Some("inactive")
  }

  /**
   * The projects that pass the phase test; how often each is kept is
   * `WithoutInactiveCounts`, the order `WithoutInactiveAppend`.
   */
  function WithoutInactive(ps: seq<Project>, showInactive: bool): (r: seq<Project>)
    ensures |r| <= |ps|
    ensures forall p | p in r :: p in ps && KeepsPhase(showInactive, p)
    ensures forall p | p in ps && KeepsPhase(showInactive, p) :: p in r
  {
    if ps == [] then []
    else
      assert ps == [ps[0]] + ps[1..];
      (if KeepsPhase(showInactive, ps[0]) then [ps[0]] else []) + WithoutInactive(ps[1..], showInactive)
  }

  /** Each project that passes is kept as often as it occurs, the others never. */
  lemma {:induction false} WithoutInactiveCounts(ps: seq<Project>, showInactive: bool, p: Project)
    ensures multiset(WithoutInactive(ps, showInactive))[p] == if KeepsPhase(showInactive, p) then multiset(ps)[p] else 0
  {
    if ps != [] {
      assert ps == [ps[0]] + ps[1..];
      WithoutInactiveCounts(ps[1..], showInactive, p);
    }
  }

  /** Filtering a concatenation filters each part and keeps them in order. */
  lemma {:induction false} WithoutInactiveAppend(a: seq<Project>, b: seq<Project>, showInactive: bool)
    ensures WithoutInactive(a + b, showInactive) == WithoutInactive(a, showInactive) + WithoutInactive(b, showInactive)
  {
    if a == [] {
      assert a + b == b;
    } else {
      assert (a + b)[0] == a[0] && (a + b)[1..] == a[1..] + b;
      WithoutInactiveAppend(a[1..], b, showInactive);
    }
  }

  /** The key of a comparator `a.title.localeCompare(b.title)`. */
  function TitleKey(e: Entry): SortKey {
    SortKey(0, e.category.title)
  }
}
