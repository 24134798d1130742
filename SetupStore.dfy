/** The setup store: the system modules, the menu the current user may see (active modules
    their role reaches, by display order), that menu grouped by category for the sidebar, and
    the administrator's optimistic switch of a module's status. */
module SetupStore {
  import opened Prelude
  import opened Sorting

  datatype SystemModule = SystemModule(
    moduleId: int,
    moduleKey: string,
    legend: string,
    route: string,
    icon: string,
    minRoleLevel: int,
    isActive: bool,
    displayOrder: int,
    category: string)

  /** `ROLE_LEVELS`: the three roles and their lower-case aliases. */
  const RoleLevels: map<string, int> := map[
    "User" := 1, "General" := 2, "Admin" := 3,
    "user" := 1, "general" := 2, "admin" := 3]

  /** The level of the signed-in user's role: a missing or empty role reads as `User`, and a
      role without a level gets level 1. */
  function UserLevel(role: Option<string>): (level: int)
    ensures 1 <= level <= 3
  {
    var roleName := if Truthy(role) then role.value else "User";
    if roleName in RoleLevels && RoleLevels[roleName] != 0 then RoleLevels[roleName] else 1
  }

  lemma UserLevelMeaning(role: Option<string>)
    ensures 1 <= UserLevel(role) <= 3
    ensures !Truthy(role) ==> UserLevel(role) == 1
    ensures Truthy(role) && role.value !in RoleLevels ==> UserLevel(role) == 1
    ensures Truthy(role) && role.value in RoleLevels ==> UserLevel(role) == RoleLevels[role.value]
    ensures role == Some("Admin") || role == Some("admin") ==> UserLevel(role) == 3
  {
  }

  function VisibleTo(level: int): SystemModule -> Option<SystemModule>
  {
    (m: SystemModule) => if m.isActive && m.minRoleLevel <= level then Some(m) else None
  }

  predicate ByDisplayOrder(a: SystemModule, b: SystemModule)
  {
    a.displayOrder <= b.displayOrder
  }

  /** `userMenu`: the active modules the user's level reaches, sorted by display order. */
  function UserMenu(modules: seq<SystemModule>, role: Option<string>): seq<SystemModule>
  {
    Sort(Collect(modules, VisibleTo(UserLevel(role))), ByDisplayOrder)
  }

  /** The menu holds exactly the active modules whose minimum level the user reaches, each as
      often as in the module list, in ascending display order. */
  lemma UserMenuMeaning(modules: seq<SystemModule>, role: Option<string>)
    ensures var menu := UserMenu(modules, role);
      && (forall m :: m in menu <==> m in modules && m.isActive && m.minRoleLevel <= UserLevel(role))
      && multiset(menu) == multiset(Collect(modules, VisibleTo(UserLevel(role))))
      && forall i, j :: 0 <= i < j < |menu| ==> menu[i].displayOrder <= menu[j].displayOrder
  {
    var f := VisibleTo(UserLevel(role));
    var menu := UserMenu(modules, role);
    assert TotalPreorder(ByDisplayOrder);
    SortSorted(Collect(modules, f), ByDisplayOrder);
    SameMembers(menu, Collect(modules, f));
    forall m
      ensures m in Collect(modules, f) <==> m in modules && m.isActive && m.minRoleLevel <= UserLevel(role)
    {
      VisibleMember(modules, UserLevel(role), m);
    }
  }

  lemma VisibleMember(modules: seq<SystemModule>, level: int, m: SystemModule)
    ensures m in Collect(modules, VisibleTo(level)) <==> m in modules && m.isActive && m.minRoleLevel <= level
  {
    CollectMembership(modules, VisibleTo(level), m);
    if m in modules && m.isActive && m.minRoleLevel <= level {
      var k :| 0 <= k < |modules| && modules[k] == m;
      assert VisibleTo(level)(modules[k]) == Some(m);
    }
  }

  // ---------------------------------------------------------------------------------------
  // Grouping by category
  // ---------------------------------------------------------------------------------------

  datatype Group = Group(category: string, modules: seq<SystemModule>)

  /** `m.Category || 'Otro'`. */
  function CategoryOf(m: SystemModule): string
  {
    if m.category == "" then "Otro" else m.category
  }

  const CategoryOrder: seq<string> := ["Analítica", "Gestión", "Sistema", "Otro"]

  /** Position of a category in the sidebar: the fixed categories first, in their order, then
      every other category. */
  function Rank(category: string): (r: nat)
    ensures r <= 4
  {
    if category == "Analítica" then 0
    else if category == "Gestión" then 1
    else if category == "Sistema" then 2
    else if category == "Otro" then 3
    else 4
  }

  /** The first group of a category, or -1. */
  function IndexOfCategory(groups: seq<Group>, category: string): (k: int)
    ensures -1 <= k < |groups|
    ensures k >= 0 ==> groups[k].category == category && forall i :: 0 <= i < k ==> groups[i].category != category
    ensures k < 0 ==> forall i :: 0 <= i < |groups| ==> groups[i].category != category
  {
    FirstIndex(groups, (g: Group) => g.category == category)
  }

  /** The modules of `menu` in a category, in menu order. */
  function OfCategory(menu: seq<SystemModule>, category: string): (r: seq<SystemModule>)
    ensures forall m :: m in r <==> m in menu && CategoryOf(m) == category
  {
    if menu == [] then []
    else
      var last := menu[|menu| - 1];
      assert forall m :: m in menu <==> m in menu[..|menu| - 1] || m == last;
      OfCategory(menu[..|menu| - 1], category) + (if CategoryOf(last) == category then [last] else [])
  }

  /** One step of the grouping loop: the module joins its category's group, which is created
      at the end when it is the first of its category. */
  function AddToGroups(groups: seq<Group>, m: SystemModule): seq<Group>
  {
    var k := IndexOfCategory(groups, CategoryOf(m));
    if k < 0 then groups + [Group(CategoryOf(m), [m])]
    else groups[k := groups[k].(modules := groups[k].modules + [m])]
  }

  /** The `groups` dictionary after the loop over `menu`. */
  function Groups(menu: seq<SystemModule>): seq<Group>
  {
    if menu == [] then [] else AddToGroups(Groups(menu[..|menu| - 1]), menu[|menu| - 1])
  }

  /** Every group holds the non-empty list of the modules of `menu` in its category. */
  ghost predicate GroupsHold(groups: seq<Group>, menu: seq<SystemModule>)
  {
    forall i :: 0 <= i < |groups| ==> groups[i].modules == OfCategory(menu, groups[i].category) && |groups[i].modules| > 0
  }

  /** No category has two groups. */
  ghost predicate DistinctGroups(groups: seq<Group>)
  {
    forall i, j :: 0 <= i < j < |groups| ==> groups[i].category != groups[j].category
  }

  /** Every module's category has a group. */
  ghost predicate GroupsCover(groups: seq<Group>, menu: seq<SystemModule>)
  {
    forall m :: m in menu ==> IndexOfCategory(groups, CategoryOf(m)) >= 0
  }

  /** `groups` holds, once per category, the non-empty list of the modules of `menu` in that
      category, and every module's category has a group. */
  ghost predicate GroupsOf(groups: seq<Group>, menu: seq<SystemModule>)
  {
    GroupsHold(groups, menu) && DistinctGroups(groups) && GroupsCover(groups, menu)
  }

  lemma OfCategoryStep(p: seq<SystemModule>, m: SystemModule, c: string)
    ensures OfCategory(p + [m], c) == OfCategory(p, c) + (if CategoryOf(m) == c then [m] else [])
  {
    assert (p + [m])[..|p|] == p;
  }

  lemma OfCategoryAbsent(groups: seq<Group>, p: seq<SystemModule>, c: string)
    requires GroupsCover(groups, p) && IndexOfCategory(groups, c) < 0
    ensures OfCategory(p, c) == []
  {
    var s := OfCategory(p, c);
    assert forall x :: x in s ==> x in p && IndexOfCategory(groups, CategoryOf(x)) >= 0;
    NoMembersEmpty(s);
  }

  lemma NoMembersEmpty<T>(s: seq<T>)
    ensures s == [] || s[0] in s
  {
  }

  /** The categories after one grouping step: the old ones in place, and the module's own
      appended when it had no group. */
  lemma AddToGroupsCategories(groups: seq<Group>, m: SystemModule)
    ensures var k := IndexOfCategory(groups, CategoryOf(m)); var next := AddToGroups(groups, m);
      && |next| == (if k < 0 then |groups| + 1 else |groups|)
      && (forall i :: 0 <= i < |groups| ==> next[i].category == groups[i].category)
      && next[if k < 0 then |groups| else k].category == CategoryOf(m)
  {
  }

  lemma GroupHoldsStep(groups: seq<Group>, p: seq<SystemModule>, m: SystemModule, i: nat)
    requires GroupsHold(groups, p) && DistinctGroups(groups) && GroupsCover(groups, p)
    requires i < |AddToGroups(groups, m)|
    ensures var g := AddToGroups(groups, m)[i]; g.modules == OfCategory(p + [m], g.category) && |g.modules| > 0
  {
    var c := CategoryOf(m);
    var k := IndexOfCategory(groups, c);
    var g := AddToGroups(groups, m)[i];
    OfCategoryStep(p, m, g.category);
    if k < 0 {
      if i == |groups| {
        assert g == Group(c, [m]);
        OfCategoryAbsent(groups, p, c);
      } else {
        assert g == groups[i] && g.category != c;
      }
    } else if i == k {
      assert g == groups[k].(modules := groups[k].modules + [m]) && g.category == c;
    } else {
      assert g == groups[i] && g.category != c;
    }
  }

  lemma GroupsHoldStep(groups: seq<Group>, p: seq<SystemModule>, m: SystemModule)
    requires GroupsHold(groups, p) && DistinctGroups(groups) && GroupsCover(groups, p)
    ensures GroupsHold(AddToGroups(groups, m), p + [m])
  {
    var next := AddToGroups(groups, m);
    forall i | 0 <= i < |next|
      ensures next[i].modules == OfCategory(p + [m], next[i].category) && |next[i].modules| > 0
    {
      GroupHoldsStep(groups, p, m, i);
    }
  }

  lemma DistinctGroupsStep(groups: seq<Group>, m: SystemModule)
    requires DistinctGroups(groups)
    ensures DistinctGroups(AddToGroups(groups, m))
  {
    AddToGroupsCategories(groups, m);
  }

  lemma GroupsCoverStep(groups: seq<Group>, p: seq<SystemModule>, m: SystemModule)
    requires GroupsCover(groups, p)
    ensures GroupsCover(AddToGroups(groups, m), p + [m])
  {
    var next := AddToGroups(groups, m);
    AddToGroupsCategories(groups, m);
    forall x | x in p + [m]
      ensures IndexOfCategory(next, CategoryOf(x)) >= 0
    {
      if x in p {
        var j := IndexOfCategory(groups, CategoryOf(x));
        assert next[j].category == CategoryOf(x);
      } else {
        var k := IndexOfCategory(groups, CategoryOf(m));
        assert next[if k < 0 then |groups| else k].category == CategoryOf(x);
      }
    }
  }

  lemma GroupsStep(groups: seq<Group>, p: seq<SystemModule>, m: SystemModule)
    requires GroupsOf(groups, p)
    ensures GroupsOf(AddToGroups(groups, m), p + [m])
  {
    GroupsHoldStep(groups, p, m);
    DistinctGroupsStep(groups, m);
    GroupsCoverStep(groups, p, m);
  }

  lemma {:induction false} GroupsMeaning(menu: seq<SystemModule>)
    ensures GroupsOf(Groups(menu), menu)
  {
    if menu != [] {
      var p, m := menu[..|menu| - 1], menu[|menu| - 1];
      assert p + [m] == menu;
      GroupsMeaning(p);
      assert Groups(menu) == AddToGroups(Groups(p), m);
      GroupsStep(Groups(p), p, m);
    }
  }

  /** The group of a fixed category, when there is one and it is not empty. */
  function PresentGroup(groups: seq<Group>, category: string): (r: Option<Group>)
    ensures r.Some? ==> r.value in groups && r.value.category == category
  {
    var k := IndexOfCategory(groups, category);
    if k >= 0 && |groups[k].modules| > 0 then Some(groups[k]) else None
  }

  function PresentIn(groups: seq<Group>): string -> Option<Group>
  {
    c => PresentGroup(groups, c)
  }

  /** The fixed categories that have modules, in the fixed order. */
  function Predefined(groups: seq<Group>): seq<Group>
  {
    Collect(CategoryOrder, PresentIn(groups))
  }

  /** Adds, in the order of `groups`, each group whose category `ordered` does not hold yet. */
  function AppendNew(ordered: seq<Group>, groups: seq<Group>): seq<Group>
  {
    if groups == [] then ordered
    else
      var before := AppendNew(ordered, groups[..|groups| - 1]);
      var g := groups[|groups| - 1];
      if IndexOfCategory(before, g.category) < 0 then before + [g] else before
  }

  /** `groupedMenu`: the fixed categories present, in their order, then the other categories
      in order of first appearance. */
  function GroupedMenu(menu: seq<SystemModule>): seq<Group>
  {
    var groups := Groups(menu);
    AppendNew(Predefined(groups), groups)
  }

  predicate DistinctCategories(groups: seq<Group>)
  {
    forall i, j :: 0 <= i < j < |groups| ==> groups[i].category != groups[j].category
  }

  lemma {:induction false} IndexOfCategoryAppend(gs: seq<Group>, extra: seq<Group>, c: string)
    ensures IndexOfCategory(gs, c) >= 0 ==> IndexOfCategory(gs + extra, c) == IndexOfCategory(gs, c)
    ensures IndexOfCategory(gs, c) < 0 && IndexOfCategory(extra, c) >= 0 ==>
      IndexOfCategory(gs + extra, c) == |gs| + IndexOfCategory(extra, c)
  {
    if gs != [] {
      IndexOfCategoryAppend(gs[1..], extra, c);
      assert (gs + extra)[0] == gs[0];
      assert (gs + extra)[1..] == gs[1..] + extra;
    } else {
      assert gs + extra == extra;
    }
  }

  /** `AppendNew` keeps what was there and only adds groups of `groups` whose categories it
      did not hold. */
  lemma {:induction false} AppendNewPrefix(ordered: seq<Group>, groups: seq<Group>)
    ensures var r := AppendNew(ordered, groups);
      && |r| >= |ordered| && r[..|ordered|] == ordered
      && forall i :: |ordered| <= i < |r| ==> r[i] in groups && IndexOfCategory(ordered, r[i].category) < 0
  {
    if groups != [] {
      var p := groups[..|groups| - 1];
      var g := groups[|groups| - 1];
      AppendNewPrefix(ordered, p);
      assert forall x :: x in p ==> x in groups;
      var before := AppendNew(ordered, p);
      assert ordered + before[|ordered|..] == before;
      IndexOfCategoryAppend(ordered, before[|ordered|..], g.category);
    }
  }

  /** `AppendNew` never repeats a category. */
  lemma {:induction false} AppendNewDistinct(ordered: seq<Group>, groups: seq<Group>)
    requires DistinctCategories(ordered)
    ensures DistinctCategories(AppendNew(ordered, groups))
  {
    if groups != [] {
      AppendNewDistinct(ordered, groups[..|groups| - 1]);
    }
  }

  /** After `AppendNew`, every category of `groups` has a group. */
  lemma {:induction false} AppendNewCovers(ordered: seq<Group>, groups: seq<Group>)
    ensures forall g :: g in groups ==> IndexOfCategory(AppendNew(ordered, groups), g.category) >= 0
  {
    if groups != [] {
      var p := groups[..|groups| - 1];
      var g := groups[|groups| - 1];
      AppendNewCovers(ordered, p);
      var before := AppendNew(ordered, p);
      assert groups == p + [g];
      forall x | x in groups
        ensures IndexOfCategory(AppendNew(ordered, groups), x.category) >= 0
      {
        assert x in p || x == g;
        IndexOfCategoryAppend(before, [g], x.category);
      }
    }
  }

  /** The fixed part built from the first `k` fixed categories: groups of `groups`, of
      strictly increasing rank below `k`, one for each of those categories that has modules. */
  lemma {:induction false} PredefinedPrefix(groups: seq<Group>, k: nat)
    requires k <= |CategoryOrder|
    ensures var pre := Collect(CategoryOrder[..k], PresentIn(groups));
      && (forall i :: 0 <= i < |pre| ==> pre[i] in groups && Rank(pre[i].category) < k)
      && (forall i, j :: 0 <= i < j < |pre| ==> Rank(pre[i].category) < Rank(pre[j].category))
      && (forall c :: Rank(c) < k && PresentGroup(groups, c).Some? ==> IndexOfCategory(pre, c) >= 0)
  {
    PredefinedRanked(groups, k);
    PredefinedComplete(groups, k);
  }

  lemma {:induction false} PredefinedRanked(groups: seq<Group>, k: nat)
    requires k <= |CategoryOrder|
    ensures var pre := Collect(CategoryOrder[..k], PresentIn(groups));
      && (forall i :: 0 <= i < |pre| ==> pre[i] in groups && Rank(pre[i].category) < k)
      && (forall i, j :: 0 <= i < j < |pre| ==> Rank(pre[i].category) < Rank(pre[j].category))
  {
    if k > 0 {
      var f := PresentIn(groups);
      PredefinedRanked(groups, k - 1);
      CollectStep(CategoryOrder, k - 1, f);
      assert Rank(CategoryOrder[k - 1]) == k - 1;
    }
  }

  lemma {:induction false} PredefinedComplete(groups: seq<Group>, k: nat)
    requires k <= |CategoryOrder|
    ensures var pre := Collect(CategoryOrder[..k], PresentIn(groups));
      forall c :: Rank(c) < k && PresentGroup(groups, c).Some? ==> IndexOfCategory(pre, c) >= 0
  {
    if k > 0 {
      var f := PresentIn(groups);
      PredefinedComplete(groups, k - 1);
      CollectStep(CategoryOrder, k - 1, f);
      var before := Collect(CategoryOrder[..k - 1], f);
      var c0 := CategoryOrder[k - 1];
      assert Rank(c0) == k - 1;
      forall c | Rank(c) < k && PresentGroup(groups, c).Some?
        ensures IndexOfCategory(Collect(CategoryOrder[..k], f), c) >= 0
      {
        IndexOfCategoryAppend(before, Listed(f(c0)), c);
        assert Rank(c) == k - 1 ==> c == c0;
      }
    }
  }

  /** Ordering a list of non-empty groups: the result holds groups of the list only, one per
      category, with every category of the list, and the fixed categories come first. */
  lemma OrderedGroups(groups: seq<Group>)
    requires forall i :: 0 <= i < |groups| ==> |groups[i].modules| > 0
    ensures var r := AppendNew(Predefined(groups), groups);
      && (forall i :: 0 <= i < |r| ==> r[i] in groups)
      && DistinctCategories(r)
      && (forall g :: g in groups ==> IndexOfCategory(r, g.category) >= 0)
      && (forall i, j :: 0 <= i < j < |r| ==> Rank(r[i].category) <= Rank(r[j].category))
  {
    var pre := Predefined(groups);
    PredefinedPrefix(groups, 4);
    assert CategoryOrder[..4] == CategoryOrder;
    assert Collect(CategoryOrder[..4], PresentIn(groups)) == pre;
    assert DistinctCategories(pre);
    AppendNewPrefix(pre, groups);
    AppendNewDistinct(pre, groups);
    AppendNewCovers(pre, groups);
    var r := AppendNew(pre, groups);
    forall i | 0 <= i < |r|
      ensures r[i] in groups
    {
      if i < |pre| {
        assert r[i] == r[..|pre|][i] == pre[i];
      }
    }
    ExtrasUnranked(groups, pre, r);
    forall i, j | 0 <= i < j < |r|
      ensures Rank(r[i].category) <= Rank(r[j].category)
    {
      if j < |pre| {
        assert r[i] == r[..|pre|][i] == pre[i];
        assert r[j] == r[..|pre|][j] == pre[j];
      } else if i < |pre| {
        assert r[i] == r[..|pre|][i] == pre[i];
      }
    }
  }

  /** The groups added after the fixed part are of categories outside the fixed ones. */
  lemma ExtrasUnranked(groups: seq<Group>, pre: seq<Group>, r: seq<Group>)
    requires forall i :: 0 <= i < |groups| ==> |groups[i].modules| > 0
    requires forall c :: Rank(c) < 4 && PresentGroup(groups, c).Some? ==> IndexOfCategory(pre, c) >= 0
    requires |r| >= |pre| && forall i :: |pre| <= i < |r| ==> r[i] in groups && IndexOfCategory(pre, r[i].category) < 0
    ensures forall i :: |pre| <= i < |r| ==> Rank(r[i].category) == 4
  {
    forall i | |pre| <= i < |r|
      ensures Rank(r[i].category) == 4
    {
      PresentWhenListed(groups, r[i]);
    }
  }

  lemma PresentWhenListed(groups: seq<Group>, g: Group)
    requires forall i :: 0 <= i < |groups| ==> |groups[i].modules| > 0
    requires g in groups
    ensures PresentGroup(groups, g.category).Some?
  {
    var k :| 0 <= k < |groups| && groups[k] == g;
    var first := IndexOfCategory(groups, g.category);
    assert |groups[first].modules| > 0;
  }

  /** The grouped menu has one group per category of the menu, holding exactly that category's
      modules in menu order (so every module is in exactly one group), and lists the groups
      with the fixed categories first, in the order Analítica, Gestión, Sistema, Otro. */
  lemma GroupedMenuMeaning(menu: seq<SystemModule>)
    ensures var r := GroupedMenu(menu);
      && (forall i :: 0 <= i < |r| ==> r[i].modules == OfCategory(menu, r[i].category) && |r[i].modules| > 0)
      && DistinctCategories(r)
      && (forall m :: m in menu ==> IndexOfCategory(r, CategoryOf(m)) >= 0)
      && (forall i, j :: 0 <= i < j < |r| ==> Rank(r[i].category) <= Rank(r[j].category))
  {
    var groups := Groups(menu);
    GroupsMeaning(menu);
    OrderedGroups(groups);
    var r := GroupedMenu(menu);
    forall i | 0 <= i < |r|
      ensures r[i].modules == OfCategory(menu, r[i].category) && |r[i].modules| > 0
    {
      assert r[i] in groups;
      var k :| 0 <= k < |groups| && groups[k] == r[i];
    }
    forall m | m in menu
      ensures IndexOfCategory(r, CategoryOf(m)) >= 0
    {
      var k := IndexOfCategory(groups, CategoryOf(m));
      assert groups[k] in groups;
    }
  }

  /** The lookup `groups[cat]`: the position of the category's group, or `|groups|`. */
  method FindGroup(groups: seq<Group>, cat: string) returns (k: nat)
    ensures k == IndexOfCategory(groups, cat) || (k == |groups| && IndexOfCategory(groups, cat) < 0)
  {
    k := 0;
    while k < |groups| && groups[k].category != cat
      invariant k <= |groups|
      invariant forall j :: 0 <= j < k ==> groups[j].category != cat
    {
      k := k + 1;
    }
  }

  /** The grouping loop of `groupedMenu`. */
  method BuildGroups(menu: seq<SystemModule>) returns (groups: seq<Group>)
    ensures groups == Groups(menu)
  {
    groups := [];
    var i := 0;
    while i < |menu|
      invariant 0 <= i <= |menu|
      invariant groups == Groups(menu[..i])
    {
      var m := menu[i];
      var cat := if m.category == "" then "Otro" else m.category;
      var k := FindGroup(groups, cat);
      assert cat == CategoryOf(m);
      assert menu[..i + 1][..i] == menu[..i];
      assert Groups(menu[..i + 1]) == AddToGroups(groups, m);
      if k == |groups| {
        groups := groups + [Group(cat, [m])];
      } else {
        groups := groups[k := groups[k].(modules := groups[k].modules + [m])];
      }
      i := i + 1;
    }
    assert menu[..|menu|] == menu;
  }

  lemma AppendNewStep(ordered: seq<Group>, groups: seq<Group>, j: nat)
    requires j < |groups|
    ensures var before := AppendNew(ordered, groups[..j]);
      AppendNew(ordered, groups[..j + 1]) ==
        if IndexOfCategory(before, groups[j].category) < 0 then before + [groups[j]] else before
  {
    assert groups[..j + 1][..j] == groups[..j];
  }

  /** `groupedMenu`: the grouping loop, then the loop over the fixed categories, then the loop
      adding the remaining categories. */
  method GroupMenu(menu: seq<SystemModule>) returns (ordered: seq<Group>)
    ensures ordered == GroupedMenu(menu)
  {
    var groups := BuildGroups(menu);
    ordered := [];
    var i := 0;
    while i < |CategoryOrder|
      invariant 0 <= i <= |CategoryOrder|
      invariant ordered == Collect(CategoryOrder[..i], PresentIn(groups))
    {
      CollectStep(CategoryOrder, i, PresentIn(groups));
      var k := IndexOfCategory(groups, CategoryOrder[i]);
      if k >= 0 && |groups[k].modules| > 0 {
        ordered := ordered + [groups[k]];
      }
      i := i + 1;
    }
    assert CategoryOrder[..|CategoryOrder|] == CategoryOrder;
    ghost var pre := ordered;
    assert pre == Predefined(groups);
    var j := 0;
    while j < |groups|
      invariant 0 <= j <= |groups|
      invariant ordered == AppendNew(pre, groups[..j])
    {
      AppendNewStep(pre, groups, j);
      if IndexOfCategory(ordered, groups[j].category) < 0 {
        ordered := ordered + [groups[j]];
      }
      j := j + 1;
    }
    assert groups[..|groups|] == groups;
  }

  // ---------------------------------------------------------------------------------------
  // The store
  // ---------------------------------------------------------------------------------------

  /** The module list used when the server cannot be reached. */
  const MockModules: seq<SystemModule> := [
    SystemModule(1, "HUB", "Hub Central", "/", "fa-solid fa-chart-simple", 1, true, 10, "Analítica"),
    SystemModule(2, "PIC_RPT", "Reporte PIC", "/admin/pic", "fa-solid fa-chart-pie", 1, true, 20, "Analítica"),
    SystemModule(3, "LOGISTICS", "Logística", "/admin/pic-logistics", "fa-solid fa-route", 1, true, 30, "Analítica"),
    SystemModule(4, "FORECAST", "Forecast", "/admin/pic-forecast", "fa-solid fa-arrow-trend-up", 1, true, 40, "Analítica"),
    SystemModule(5, "USERS", "Usuarios", "/admin/users", "fa-solid fa-users", 3, true, 50, "Gestión"),
    SystemModule(6, "PRODUCTS", "Productos", "/admin/products", "fa-solid fa-boxes-stacked", 2, true, 60, "Gestión"),
    SystemModule(7, "CLIENTS", "Clientes", "/admin/clients", "fa-solid fa-store", 2, true, 70, "Gestión"),
    SystemModule(8, "VAL_CLI", "Validación Clientes", "/admin/clients-validation", "fa-solid fa-user-check", 2, true, 80, "Gestión"),
    SystemModule(9, "AUDIT", "Auditoría", "/admin/audit", "fa-solid fa-shield-cat", 3, true, 90, "Sistema"),
    SystemModule(10, "SETUP", "Setup", "/admin/setup", "fa-solid fa-gear", 3, true, 100, "Sistema")]

  /** The first module with an id, or -1 (`modules.find`). */
  function FindModule(modules: seq<SystemModule>, moduleId: int): (k: int)
    ensures -1 <= k < |modules|
    ensures k >= 0 ==> modules[k].moduleId == moduleId && forall i :: 0 <= i < k ==> modules[i].moduleId != moduleId
    ensures k < 0 ==> forall i :: 0 <= i < |modules| ==> modules[i].moduleId != moduleId
  {
    FirstIndex(modules, (m: SystemModule) => m.moduleId == moduleId)
  }

  class Store {
    var modules: seq<SystemModule>
    var isLoading: bool

    constructor()
      ensures modules == [] && !isLoading
    {
      modules := [];
      isLoading := false;
    }

    /** `response` is the server's module list, or `None` when the request failed. */
    method FetchModules(response: Option<seq<SystemModule>>)
      modifies this
      ensures modules == if response.Some? then response.value else MockModules
      ensures !isLoading
    {
      isLoading := true;
      if response.Some? {
        modules := response.value;
      } else {
        modules := MockModules;
      }
      isLoading := false;
    }

    /** The optimistic switch: the module (the first with the id) takes `!currentStatus` at
        once; `apiOk` says whether the server accepted it, and when it did not the module gets
        its original status back. Returns `apiOk`. */
    method ToggleModuleStatus(moduleId: int, currentStatus: bool, apiOk: bool) returns (ok: bool)
      modifies this
      ensures ok == apiOk
      ensures var k := FindModule(old(modules), moduleId);
        modules == if k >= 0 && apiOk then old(modules)[k := old(modules)[k].(isActive := !currentStatus)] else old(modules)
      ensures isLoading == old(isLoading)
    {
      var k := FindModule(modules, moduleId);
      var originalState := if k >= 0 then Some(modules[k].isActive) else None;
      if k >= 0 {
        modules := modules[k := modules[k].(isActive := !currentStatus)];
      }
      if apiOk {
        return true;
      }
      if k >= 0 {
        ToggleEffect(old(modules), moduleId, currentStatus);
      }
      k := FindModule(modules, moduleId);
      if k >= 0 {
        modules := modules[k := modules[k].(isActive := if originalState.Some? then originalState.value else currentStatus)];
      }
      return false;
    }
  }

  /** A refused switch leaves every module as it was; an accepted one changes only the status
      of the first module with the id, to the negation of the status the caller saw. */
  lemma ToggleEffect(modules: seq<SystemModule>, moduleId: int, currentStatus: bool)
    requires FindModule(modules, moduleId) >= 0
    ensures var k := FindModule(modules, moduleId);
      var after := modules[k := modules[k].(isActive := !currentStatus)];
      && |after| == |modules|
      && after[k].isActive == !currentStatus
      && (forall i :: 0 <= i < |modules| && i != k ==> after[i] == modules[i])
      && after[k].(isActive := modules[k].isActive) == modules[k]
      && FindModule(after, moduleId) == k
  {
    var k := FindModule(modules, moduleId);
    var after := modules[k := modules[k].(isActive := !currentStatus)];
    FindModuleFrame(modules, after, moduleId);
  }

  lemma {:induction false} FindModuleFrame(a: seq<SystemModule>, b: seq<SystemModule>, moduleId: int)
    requires |a| == |b| && forall i :: 0 <= i < |a| ==> a[i].moduleId == b[i].moduleId
    ensures FindModule(a, moduleId) == FindModule(b, moduleId)
  {
    if a != [] {
      FindModuleFrame(a[1..], b[1..], moduleId);
    }
  }

  /** Every mock module is active, and the first four are the ones open to the lowest role. */
  lemma MockLevels()
    ensures forall i :: 0 <= i < |MockModules| ==> MockModules[i].isActive && (MockModules[i].minRoleLevel <= 1 <==> i < 4)
  {
  }

  /** With the mock modules, a level-1 user sees four modules: the analytics ones. */
  lemma MockMenuSizes()
    ensures |Collect(MockModules, VisibleTo(1))| == 4
  {
    var f := VisibleTo(1);
    MockLevels();
    var i := 0;
    while i < |MockModules|
      invariant 0 <= i <= |MockModules|
      invariant |Collect(MockModules[..i], f)| == Min(i, 4)
    {
      CollectStep(MockModules, i, f);
      assert f(MockModules[i]).Some? <==> i < 4;
      i := i + 1;
    }
    assert MockModules[..|MockModules|] == MockModules;
  }
}
