# NEAR ecosystem explorer: categories, visibility, cards and poster layout

This project models the core of the NEAR Protocol ecosystem explorer, a web
app that lists the ecosystem's projects grouped into tag categories. The
model covers:

- **Grouping** (`src/utils/projectUtils.ts`). `categorizeProjects` places
  each project, most tags first, in the category of each of its tags, once
  per project id. The first tag seen gives a category its title, colour and
  featured ("priority") flag. The categories come out featured first, each
  group ordered by title.
- **Home page state** (`src/routes/_index.tsx`). This covers the
  visible-categories map and its initial value, `toggleCategory`,
  `toggleFeatured` and the show-inactive switch. It also covers the
  title-sorted category list, and the filtered list that search, visibility
  and the phase test leave.
- **The controls** (`src/components/CategoryControls.tsx`). A tag click
  toggles one category. A featured click emits the sequence of toggles that
  brings every listed category to its new visibility, then flips the
  featured switch.
- **A category card** (`src/components/CategoryCard.tsx`). The featured
  badge, the first nine projects with their cleaned names, and "+k more".
  Also how the home page renders a card for each listed category.
- **The shared visibility context** (`src/contexts/CategoriesContext.tsx`).
  It is initialised once, from an empty map. `useCategories` fails outside
  a provider.
- **The share poster** (`src/components/SharePreview.tsx`). This covers
  the categories it shows and the corpus-wide icon cap. It also covers each
  panel's area weight, the icon grid inside a panel, and the poster's
  stricter name cleaning. The panels are put together from `visibleCats` to
  each panel's grid and placed projects.
- **Phase ordering** (`src/utils/sorting.ts`) and **name cleaning**
  (`sanitizeName` in `src/lib/utils.ts`).

A JavaScript object with string keys keeps them in insertion order. It is
modelled as a sequence of `Entry(key, category)` with distinct keys; the
dictionary under construction is `Dict(keys, cats)`.

Reading a missing key of `visibleCategories` gives `undefined`, which is
falsy. The model reads visibility as `key in m && m[key]`.

`Array.prototype.sort` is stable, as ES2019 requires. It is modelled as a
stable insertion sort on a `SortKey(rank, text)`, whose text part compares
code points lexicographically.

Points worth knowing:

- **The poster's icon scale factor is always 1.** The base icon size is the
  smaller of the two cell dimensions, so one of the two empty-space ratios is
  exactly 0. Their minimum is therefore 0 (`EmptySpaceRatio`), and the
  "scale up when there is empty space" factor is exactly 1 (`IconScaleIsOne`).
  This holds in exact arithmetic.
- **Small categories get their cap, below the nominal minimum.** With the
  poster's constants, the minimum panel area is 2% of the grid area
  3,800·2,020, that is 153,520. The cap for a category of n projects is the
  smaller of a quarter of the grid area (1,919,000) and 12,480·n. For n of at
  most 12 the cap is below the minimum, and the code applies the cap last, so
  such a category asks for exactly 12,480·n, whatever its boost or penalty
  (`FinalWeight`).
- **A two-category example.** With 100 and 5 projects, the large one is not
  more than twice the average of 52.5, so it gets no boost. The two weights
  come out at exactly 20 : 1 (`TwoCategoryWeights`): both are capped, at
  1,248,000 (12,480·100) and 62,400 (12,480·5).
- **A featured click ends in the same state either way.** The controls walk
  the title-sorted categories, while `toggleFeatured` walks the catalogue in
  its own order. Overlaying the settings in any order gives the same map
  (`OverlayPermuted`), so the click's toggles produce the same visibility as
  `toggleFeatured` does on its own (`FeaturedClickOnPage`). It does not
  matter which of the two state updates React applies last.

## Model

| member | source | states |
|---|---|---|
| Projects.WithoutInactive | src/components/CategoryCard.tsx:21 | keeps exactly the projects with `showInactive` or a phase other than "inactive", and never more than the input |
| Projects.WithoutInactiveCounts | src/components/CategoryCard.tsx:21 | a project that passes is kept exactly as often as it occurs, any other never |
| Projects.WithoutInactiveAppend | src/components/SharePreview.tsx:20-22 | filtering a concatenation is the concatenation of the filtered parts, so the input order is kept |
| Projects.PermutationKeepsDistinctKeys | src/utils/projectUtils.ts:129-140 | reordering the entries of an object keeps their keys distinct |
| Order.StrLeTotal | src/utils/projectUtils.ts:135 | the string order standing in for `localeCompare` compares any two titles |
| Order.StrLeTransitive | src/utils/projectUtils.ts:135 | that order is transitive |
| Order.StrLeAntisymmetric | src/utils/projectUtils.ts:135 | strings that are ordered both ways are equal |
| StableSort.SortByKey | src/utils/projectUtils.ts:129-140 | the result is a permutation of the input, sorted by the key, and stable: equal keys keep their input order |
| Sorting.PhaseRank | src/utils/sorting.ts:3-12 | ranks lie in [0, 3]: exactly mainnet ranks 0 and exactly inactive ranks 3; an absent or unlisted phase (so "still building") ranks 2 |
| Sorting.SortProjectsByPhase | src/utils/sorting.ts:9-15 | returns a permutation of the projects, ordered by phase rank, with projects of equal rank in their input order |
| Sanitize.AllowedPrefix | src/lib/utils.ts:9-10 | `split(...)[0]` is the longest prefix made only of word characters, whitespace, `$` (and `.` where allowed) |
| Sanitize.TrimStart | src/lib/utils.ts:10 | removes exactly the leading JavaScript whitespace, leaving a suffix |
| Sanitize.TrimEnd | src/lib/utils.ts:10 | removes exactly the trailing JavaScript whitespace, leaving a prefix |
| Sanitize.Trim | src/lib/utils.ts:10 | `trim()` keeps a prefix of the left-trimmed string, removes from it only white space, and leaves no whitespace at either end |
| Sanitize.SanitizeWith | src/lib/utils.ts:8-11 | a cleaned name has only allowed characters and no whitespace at either end |
| Sanitize.SanitizeName | src/lib/utils.ts:8-11 | `sanitizeName` gives a name made only of word characters, whitespace, `$` and `.`, with no whitespace at either end |
| Sanitize.StartsDisallowed | src/lib/utils.ts:9-10 | a name that begins with a disallowed character cleans to the empty string |
| Sanitize.AllAllowed | src/lib/utils.ts:8-11 | a name made only of allowed characters is only trimmed |
| Sanitize.TrimmedStaysPut | src/lib/utils.ts:10 | trimming a string without whitespace at its ends changes nothing |
| Sanitize.SanitizeIdempotent | src/lib/utils.ts:8-11 | cleaning an already cleaned name changes nothing |
| Sanitize.CleanWithoutDot | src/components/SharePreview.tsx:223-226 | a name cleaned without `.` among the allowed characters contains no `.` |
| ProjectUtils.ProcessingOrder | src/utils/projectUtils.ts:97-99 | projects are distributed in a permutation of the catalogue with non-increasing tag counts; equal counts keep catalogue order |
| ProjectUtils.TagPlacements | src/utils/projectUtils.ts:103 | one step per tag of the project, in tag order; a step is listed exactly when it pairs the project with one of its tags |
| ProjectUtils.PlacementsMembers | src/utils/projectUtils.ts:102-103 | the nested loops visit exactly the (project, tag) pairs of the catalogue |
| ProjectUtils.FirstWith | src/utils/projectUtils.ts:104 | the first step carrying a tag key is the one that creates its category |
| ProjectUtils.ColorFor | src/utils/projectUtils.ts:107 | `categoryColors[tag] \|\| "bg-gray-500"` is a non-empty colour class for every tag |
| ProjectUtils.Pushed | src/utils/projectUtils.ts:113-119 | pushing keeps the category's header; with the id already present nothing changes, otherwise the old projects stay a prefix and at most one project is added, and afterwards a project with the id is present |
| ProjectUtils.PlaceEffect | src/utils/projectUtils.ts:104-119 | one step creates the tag's category (title from the label, the tag's colour and featured flag, just this project) when the key is new and appends the key; otherwise it pushes onto the existing category; every other category is unchanged |
| ProjectUtils.Distribute | src/utils/projectUtils.ts:94-121 | the dictionary is well formed and has a category exactly for each tag key seen |
| ProjectUtils.PlaceWellFormed | src/utils/projectUtils.ts:104-119 | one step keeps the dictionary well formed and adds only the step's tag key |
| ProjectUtils.DistributeMembership | src/utils/projectUtils.ts:113-119 | every project ends up in the category of each of its tags |
| ProjectUtils.DistributeSound | src/utils/projectUtils.ts:113-119 | a category holds only projects that carry its tag |
| ProjectUtils.DistributeCategories | src/utils/projectUtils.ts:113-119 | no category is empty, and none holds two projects with the same id |
| ProjectUtils.DistributeHeaders | src/utils/projectUtils.ts:104-111 | a category's title is the label of the first step with its key; its colour is the table's and its featured flag is list membership |
| ProjectUtils.DistributeSnoc | src/utils/projectUtils.ts:102-120 | distributing one more step is placing it on the dictionary built so far |
| ProjectUtils.PlaceStep | src/utils/projectUtils.ts:103-120 | the callback of the inner loop is exactly one placement step |
| ProjectUtils.PlaceTags | src/utils/projectUtils.ts:103-120 | the inner loop places every tag of the project on the dictionary built so far |
| ProjectUtils.DistributeProjects | src/utils/projectUtils.ts:101-121 | the outer loop builds the dictionary that distributing all steps defines |
| ProjectUtils.ArrangedPermutes | src/utils/projectUtils.ts:124-126 | with a permuting display order, every category keeps its key, its header and the multiset of its projects |
| ProjectUtils.ArrangeCategories | src/utils/projectUtils.ts:123-126 | the loop over the categories puts each one's projects in display order and touches nothing else |
| ProjectUtils.DictEntries | src/utils/projectUtils.ts:129-130 | the entries of a well-formed dictionary have distinct keys and are exactly its key/category pairs |
| ProjectUtils.Categorized | src/utils/projectUtils.ts:91-141 | the result of `categorizeProjects` has no key twice |
| ProjectUtils.GroupedEntries | src/utils/projectUtils.ts:123-130 | the entries before the final sort are exactly the grouped categories with arranged projects |
| ProjectUtils.PriorityOrder | src/utils/projectUtils.ts:130-139 | sorting by (featured first, title) puts every featured category before every other one and orders each group by title |
| ProjectUtils.CategorizedOrder | src/utils/projectUtils.ts:128-140 | featured categories come first, and each group is in title order |
| ProjectUtils.CategorizedEntry | src/utils/projectUtils.ts:91-141 | an entry is in the result exactly when it is a grouped category with its projects arranged |
| ProjectUtils.ProcessedTagKeys | src/utils/projectUtils.ts:97-103 | the steps carry exactly the tag keys of the catalogue |
| ProjectUtils.CategorizedKeys | src/utils/projectUtils.ts:91-141 | there is a category for exactly each tag key in the catalogue |
| ProjectUtils.CategorizedMembership | src/utils/projectUtils.ts:102-126 | each project appears, by id, in the category of each of its tags |
| ProjectUtils.CategorizedSound | src/utils/projectUtils.ts:102-126 | each category holds only catalogue projects that carry its tag |
| ProjectUtils.CategorizedCategories | src/utils/projectUtils.ts:113-126 | no category is empty, and none holds two projects with the same id |
| ProjectUtils.CategorizedHeaders | src/utils/projectUtils.ts:104-111 | each category's title is the first label seen for its key, its colour is `categoryColors[key] \|\| "bg-gray-500"`, and its featured flag is membership of `priorityCategories` |
| ProjectUtils.CategorizeProjects | src/utils/projectUtils.ts:91-141 | the imperative `categorizeProjects` returns exactly the specified categorisation |
| IndexRoute.Overlay | src/routes/_index.tsx:97-109 | after the loop, the map's keys are the old keys plus the category keys |
| IndexRoute.OverlayAt | src/routes/_index.tsx:99-109 | each category key ends up with its own setting |
| IndexRoute.OverlayOutside | src/routes/_index.tsx:97-109 | keys that are not category keys keep their value, present or absent |
| IndexRoute.OverlayPermuted | src/routes/_index.tsx:97-109 | overlaying the settings of a reordering of the categories gives the same map |
| IndexRoute.Toggle | src/routes/_index.tsx:86-91 | flips the visibility of the key, where a missing key counts as hidden, and leaves every other key alone |
| IndexRoute.ToggleTwice | src/routes/_index.tsx:86-91 | toggling a key twice restores every visibility |
| IndexRoute.Lower | src/routes/_index.tsx:125-126 | `toLowerCase` keeps the length and lowers exactly the ASCII capitals |
| IndexRoute.Matching | src/routes/_index.tsx:123-134 | keeps exactly the projects that pass both the search test and the phase test, each as often as it occurs |
| IndexRoute.MatchingAppend | src/routes/_index.tsx:123-134 | filtering a concatenation is the concatenation of the filtered parts, so the input order is kept |
| IndexRoute.SearchIgnoresCase | src/routes/_index.tsx:124-126 | a query and its lower-case form match the same projects |
| IndexRoute.PhaseTestStricter | src/routes/_index.tsx:130-131 | a project the home page's phase test keeps is kept by the cards' test too; with inactive projects hidden, one without a phase is kept by the cards but not by the home page |
| IndexRoute.FilterCats | src/routes/_index.tsx:120-140 | lists only visible categories that keep at least one project, and only projects that pass both tests |
| IndexRoute.FilterCatsMembers | src/routes/_index.tsx:120-140 | a category is listed exactly when it is visible and keeps a matching project, narrowed to those projects |
| IndexRoute.FilterCatsOrdered | src/routes/_index.tsx:120-140 | filtering keeps the title order |
| IndexRoute.IndexPage.constructor | src/routes/_index.tsx:66-76 | for a catalogue with distinct keys, every category starts visible exactly when it is featured; the page starts featured-only, with inactive projects hidden |
| IndexRoute.IndexPage.ToggleCategory | src/routes/_index.tsx:86-91 | flips one category and leaves both switches alone |
| IndexRoute.IndexPage.ToggleFeatured | src/routes/_index.tsx:93-112 | flips the featured switch and sets every category key to its setting, leaving other keys alone; afterwards a category is visible exactly when the switch is off or it is featured |
| IndexRoute.IndexPage.ToggleInactive | src/routes/_index.tsx:174 | flips only the show-inactive switch |
| IndexRoute.IndexPage.SortedCategories | src/routes/_index.tsx:114-118 | a permutation of the categories, in title order, with equal titles in catalogue order |
| IndexRoute.IndexPage.FilteredCategories | src/routes/_index.tsx:120-140 | the listed categories are in title order and visible; each is non-empty, and all its projects match the search and the phase test (only mainnet or still-building ones unless inactive ones are shown) |
| IndexRoute.ToggleFeaturedSettings | src/routes/_index.tsx:99-109 | after `toggleFeatured`, a category is visible exactly when it is featured (switching on), or always (switching off) |
| CategoryControls.Toggles | src/components/CategoryControls.tsx:50-66 | a featured click toggles at most one category per entry and only through `onToggleCategory` |
| CategoryControls.HandleTagClick | src/components/CategoryControls.tsx:39-41 | a tag click toggles exactly that category |
| CategoryControls.HandleFeaturedClick | src/components/CategoryControls.tsx:43-69 | the category toggles, in list order, are followed by one `onToggleFeatured` |
| CategoryControls.TogglesExactly | src/components/CategoryControls.tsx:50-66 | a key is toggled exactly when it is hidden (switching to all), or when its visibility differs from its featured flag (switching to featured) |
| CategoryControls.ToggledOthers | src/components/CategoryControls.tsx:50-66 | keys outside the list keep their visibility |
| CategoryControls.ToggledVisibility | src/components/CategoryControls.tsx:50-66 | after the toggles, a listed category is visible exactly when switching to all, or when it is featured |
| CategoryControls.ApplyAppend | src/components/CategoryControls.tsx:52-65 | the toggles take effect one after the other |
| CategoryControls.TogglesAgreeWithToggleFeatured | src/components/CategoryControls.tsx:43-69 | the click's toggles leave the same visibility for every key as `toggleFeatured` does on its own |
| CategoryControls.FeaturedClickOnPage | src/routes/_index.tsx:93-112 | on the page, the click's toggles over the title-sorted categories leave every key with the visibility `toggleFeatured` gives it walking the catalogue |
| CategoryCard.RenderCard | src/components/CategoryCard.tsx:18-82 | badge exactly when featured, missing meaning not featured; at most nine tiles; the tiles are the first nine of the filtered, ordered list, or all of it; names are cleaned; "+k more" exactly when over nine, with k the rest |
| CategoryCard.CardAccounts | src/components/CategoryCard.tsx:20-82 | with a permuting order, the tiles are projects of the card that pass the phase test; all of them are shown when at most nine pass; tiles plus k count exactly those that pass |
| CategoriesContext.CategoriesProvider.constructor | src/contexts/CategoriesContext.tsx:13 | the state starts as the empty map |
| CategoriesContext.CategoriesProvider.SetVisibleCategories | src/contexts/CategoriesContext.tsx:13 | replaces the whole map |
| CategoriesContext.CategoriesProvider.InitializeVisibleCategories | src/contexts/CategoriesContext.tsx:15-23 | a non-empty map is left alone; an empty one becomes the map from each key to its featured flag |
| CategoriesContext.InitialMap | src/contexts/CategoriesContext.tsx:17-20 | that map has exactly the catalogue's keys, each mapped to its featured flag, and is non-empty once the catalogue is, so later initialisations do nothing |
| CategoriesContext.UseCategories | src/contexts/CategoriesContext.tsx:38-44 | succeeds with the provider exactly when there is one, and otherwise fails with the provider error message |
| SharePreview.Shown | src/components/SharePreview.tsx:16-25 | lists only visible categories that keep at least one project, and only projects that pass the phase test |
| SharePreview.ShownMembers | src/components/SharePreview.tsx:16-25 | a category is listed exactly when it is visible and keeps a project after the phase filter |
| SharePreview.VisibleCats | src/components/SharePreview.tsx:16-26 | the same categories, in title order, with equal titles in their original order |
| SharePreview.VisibleCatsMembers | src/components/SharePreview.tsx:16-26 | membership is unchanged by the sort |
| SharePreview.MaxIconSize | src/components/SharePreview.tsx:56-62 | the icon cap lies in [96, 200], and is 200 with no project (division by zero gives Infinity) |
| SharePreview.MaxIconSizeMonotone | src/components/SharePreview.tsx:56-62 | more projects never give a larger cap |
| SharePreview.ThousandProjectsCap | src/components/SharePreview.tsx:56-62 | 1000 projects give the minimum cap of 96 |
| SharePreview.PosterName | src/components/SharePreview.tsx:223-226 | the poster's cleaned name has only word characters, whitespace and `$`, with no whitespace at either end |
| SharePreview.PosterNameDotFree | src/components/SharePreview.tsx:223-226 | the poster's cleaned name contains no `.` |
| PosterWeights.ScaleFactor | src/components/SharePreview.tsx:84-86 | non-negative, and at least 1 above the average |
| PosterWeights.AdjustedWeight | src/components/SharePreview.tsx:102-111 | the weight is never below 0.7 of the category's share of the area, and above the share only for a category over twice the average |
| PosterWeights.WeightBranches | src/components/SharePreview.tsx:102-111 | the weight rises exactly above twice the average, by at least 1.5 times; it falls exactly below half the average, to 0.7 times |
| PosterWeights.FinalWeight | src/components/SharePreview.tsx:113-128 | the value is the adjusted weight when it lies between the minimum and the cap, the cap when the weight reaches it, and the minimum when the weight is below it and the cap allows; it never exceeds the cap, is positive, and is 12,480·n for a category of n ≤ 12 projects |
| PosterWeights.TotalProjects | src/components/SharePreview.tsx:51 | the total is at least each category's count, and at least the number of categories when none is empty |
| PosterWeights.Weights | src/components/SharePreview.tsx:100-130 | one weight per category, in order: the final weight of its project count, with the total over all panels and the average per panel; each positive, within its cap, and not below the minimum where the cap allows |
| PosterWeights.TwoCategoryWeights | src/components/SharePreview.tsx:99-130 | with 100 and 5 projects the large category gets no boost, and the values are 1,248,000 and 62,400 |
| PosterGrid.Columns | src/components/SharePreview.tsx:175-181 | at least one column, and at least two on a tall panel |
| PosterGrid.Rows | src/components/SharePreview.tsx:182 | the fewest rows whose cells hold every project |
| PosterGrid.WidthFits | src/components/SharePreview.tsx:189-200 | icons no wider than a cell fit the width, and icons exactly a cell wide fill it |
| PosterGrid.HeightFits | src/components/SharePreview.tsx:190-201 | icons no taller than a cell fit the height, and icons exactly a cell tall fill it |
| PosterGrid.BaseIconSize | src/components/SharePreview.tsx:194-197 | the base icon size is the largest that fits a cell: no larger than the cell width or height, and equal to one of them |
| PosterGrid.IconScale | src/components/SharePreview.tsx:212 | the scale factor never exceeds 1.3 |
| PosterGrid.EmptySpaceRatio | src/components/SharePreview.tsx:199-209 | the empty-space ratio at the base icon size is always 0 |
| PosterGrid.IconScaleIsOne | src/components/SharePreview.tsx:206-212 | hence the scale factor is always exactly 1 |
| PosterGrid.IconSize | src/components/SharePreview.tsx:215-218 | the icon size lies in [48, cap] and is the floor of the scaled base size whenever that floor is in range |
| PosterGrid.FontSize | src/components/SharePreview.tsx:221 | the font size lies in [10, 13]: 10 up to icon size 49, 13 from 59 |
| PosterGrid.FontSizeMonotone | src/components/SharePreview.tsx:221 | larger icons never get smaller labels |
| PosterGrid.CardGrid | src/components/SharePreview.tsx:160-221 | the panel grid has enough cells for every project and no spare row; its icon and font sizes are in range |
| PosterGrid.GridFits | src/components/SharePreview.tsx:194-218 | when the base size is at least the minimum icon, the icons with their gaps and labels fit the panel |
| PosterGrid.IconsFit | src/components/SharePreview.tsx:160-218 | the same, for the grid chosen for a panel |
| PosterGrid.Placed | src/components/SharePreview.tsx:239 | `slice(0, columns * rows)` is a prefix of the projects, never more than the cells: all of them when the cells suffice, otherwise exactly as many as the cells |
| PosterGrid.AllPlaced | src/components/SharePreview.tsx:239 | every project of a panel gets a cell |
| Poster.PosterPanelsSound | src/components/SharePreview.tsx:51-260 | panel i of the poster shows the i-th category of `visibleCats`, a visible one, with icons between 48 and the cap computed from the whole poster's project count, labels between 10 and 13, and a cell for each of its projects, in order |
| PageCards.WithoutInactiveKeepsAll | src/components/CategoryCard.tsx:20-22 | the card's phase filter keeps, in order, a list whose projects all pass it |
| PageCards.ListedInactiveDropped | src/routes/_index.tsx:192-200 | as written, with inactive projects shown, the page lists a category whose only project is inactive, and its card shows no tile |
| PageCards.PageCardShowsListed | src/routes/_index.tsx:192-200 | with the switch passed on, a card's tiles plus "+k more" count exactly the projects the page lists for it, and all are tiles when at most nine |

## Left out

- The d3 treemap (`SharePreview.tsx:133-144`) and all DOM and HTML output are not modelled. A panel's card size is a parameter of `PosterGrid.CardGrid`, and the card rectangles are a parameter of `Poster.PosterPanels`, one per panel.
- Floating point is modelled as exact real arithmetic. `Math.sqrt` and `Math.log2` are function parameters constrained by `IsSqrt` (a non-negative square root) and `IsLog2` (non-negative from 1 on). `IconScaleIsOne` and `EmptySpaceRatio` hold in exact arithmetic; in floating point the ratio can be a rounding error away from 0.
- `maxProjects`, `idealArea`, `areaRatio`, `targetColumns` and `targetRows` (`SharePreview.tsx:52`, `75-81`) are computed but never used, so they are not modelled.
- `localeCompare` is modelled as lexicographic code-point order (`Order.StrLe`). Locale collation is not modelled.
- `toLowerCase` is modelled on ASCII letters only.
- `sortProjectsByScoreAndPhase` is imported from `src/utils/sorting.ts`, but that file defines only `sortProjectsByPhase`. The display order is therefore a parameter `arrange`. The lemmas that need it to be a permutation require `Permutes(arrange)`.
- ProjectUtils.CategorizedMembership: stated by project id, which is what the source's `find` checks, not by project value.
- JavaScript objects list integer-like keys before other keys. The model keeps plain insertion order.
- Inherited `Object.prototype` names are not modelled as keys. For a tag such as "constructor" or "toString", `categories[tag]` is the inherited value, so no category is created, and `categories[tag].projects.find` then throws a TypeError; the model creates the category instead.
- PosterGrid.CardGrid: requires a positive card interior (width over 32, height over 80), which the source does not check; the treemap is not modelled, so its card sizes are not known.
- PosterGrid.Placed: requires a non-negative cell count. JavaScript's `slice(0, end)` with a negative end counts from the end of the list; CardGrid always has at least one column and one row, so that input does not arise.
- IndexRoute.IndexPage: requires a catalogue with distinct keys, which the loader's `Object.entries` guarantees.
- `fetchProjects`, `getCategories`, the Remix loader and its error fallback are I/O and are not modelled.
- The debounce of the search box is not modelled: `FilteredCategories` takes the debounced query as a parameter.
- The selected category with `ProjectsGrid`, the share dialog, the tokens switch and the animations are not part of this model.
- React's scheduling of state updates is not modelled. `FeaturedClickOnPage` shows that on the page a featured click ends in the same visibility whichever update is applied last: the controls' toggles walk the title-sorted list, `toggleFeatured` walks the catalogue's entries, and both give every key the same visibility (through `OverlayPermuted`).
- `categoryColors` is modelled as a `match` on the tag with the same 65 entries. No entry is an empty string, so `|| "bg-gray-500"` falls back only for unknown tags.
- `cn` (`src/lib/utils.ts:4-6`) only merges CSS class names and is not modelled.

## Findings

| source | as written | input that shows it | evidently intended | confidence | as-written member | corrected member |
|---|---|---|---|---|---|---|
| src/routes/_index.tsx:192-200 | the page renders `CategoryCard` without the required `showInactive` prop (CategoryCard.tsx:15), so the card reads `undefined` and drops inactive projects | "show inactive" on, and a visible category whose only matching project is inactive: the page lists the category, its card shows no tile | pass the page's `showInactive` to each card, so the card keeps what the page lists | high; not executed | PageCards.ListedInactiveDropped | PageCards.PageCardShowsListed |
