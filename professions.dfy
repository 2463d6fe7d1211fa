/**
 * The professions page's search over the professional-role catalogue:
 * a category or role stays when its name contains the search term or when
 * something below it does, pruned to the matching branches; without a
 * search the categories are shown a page at a time.
 */
module Professions {
  import opened Optional
  import opened Text

  /** The optional sub-role list of a role: absent, or present (possibly empty). */
  datatype Children = Absent | Present(items: seq<Role>)

  datatype Role = Role(id: string, name: string, acceptIncompleteResumes: Option<bool>, roles: Children)

  datatype Category = Category(id: string, name: string, roles: seq<Role>)

  /** The (lower-cased) name contains the lower-cased term. */
  predicate NameMatches(name: string, lowerTerm: string) {
    Contains(Lower(name), lowerTerm)
  }

  // ---------------------------------------------------------------------------
  // filterRolesRecursive
  // ---------------------------------------------------------------------------

  /** What becomes of one role: kept, with its sub-roles pruned, or dropped. */
  function KeepRole(role: Role, lowerTerm: string): (r: Option<Role>)
    ensures r.Some? ==> r.value.id == role.id && r.value.name == role.name
                        && r.value.acceptIncompleteResumes == role.acceptIncompleteResumes
    decreases role
  {
    var nameMatches := NameMatches(role.name, lowerTerm);
    var subRoles := if role.roles.Present? then FilterRoles(role.roles.items, lowerTerm) else [];
    if nameMatches || |subRoles| > 0 then
      Some(role.(roles := if nameMatches && role.roles.Present? && |subRoles| == 0 then role.roles else Present(subRoles)))
    else None
  }

  /** The kept roles of a list, in order. */
  function FilterRoles(roles: seq<Role>, lowerTerm: string): (r: seq<Role>)
    ensures |r| <= |roles|
    decreases roles
  {
    if roles == [] then []
    else
      var kept := KeepRole(roles[|roles| - 1], lowerTerm);
      FilterRoles(roles[..|roles| - 1], lowerTerm) + (if kept.Some? then [kept.value] else [])
  }

  /**
   * `filterRolesRecursive(roles, searchTerm)` as the source writes it: a loop
   * over the roles that recurses into each role's sub-roles and collects
   * the roles to keep. An empty term returns the roles untouched.
   */
  method FilterRolesRecursive(roles: seq<Role>, searchTerm: string) returns (filtered: seq<Role>)
    ensures searchTerm == "" ==> filtered == roles
    ensures searchTerm != "" ==> filtered == FilterRoles(roles, Lower(searchTerm))
  {
    if searchTerm == "" {
      return roles;
    }
    var lowerSearchTerm := Lower(searchTerm);
    filtered := [];
    for i := 0 to |roles|
      invariant filtered == FilterRoles(roles[..i], lowerSearchTerm)
    {
      var role := roles[i];
      var nameMatches := Contains(Lower(role.name), lowerSearchTerm);
      var subRoles: seq<Role> := [];
      if role.roles.Present? {
        subRoles := FilterRolesRecursive(role.roles.items, searchTerm);
      }
      assert roles[..i + 1][..i] == roles[..i];
      if nameMatches || |subRoles| > 0 {
        var children := if nameMatches && role.roles.Present? && |subRoles| == 0 then role.roles else Present(subRoles);
        filtered := filtered + [role.(roles := children)];
      }
    }
    assert roles[..|roles|] == roles;
  }

  // ---------------------------------------------------------------------------
  // processedCategories, categoriesToDisplay, hasMoreToLoad
  // ---------------------------------------------------------------------------

  /** What becomes of one category under a non-empty trimmed term. */
  function KeepCategory(category: Category, trimmedTerm: string): (r: Option<Category>)
    ensures r.Some? ==> r.value.id == category.id && r.value.name == category.name
  {
    var categoryNameMatches := NameMatches(category.name, Lower(trimmedTerm));
    var filteredChildRoles := FilterRoles(category.roles, Lower(trimmedTerm));
    if categoryNameMatches || |filteredChildRoles| > 0 then
      Some(category.(roles := if categoryNameMatches && |filteredChildRoles| == 0 then category.roles else filteredChildRoles))
    else None
  }

  /** The kept categories, in order. */
  function FilterCategories(categories: seq<Category>, trimmedTerm: string): (r: seq<Category>)
    ensures |r| <= |categories|
  {
    if categories == [] then []
    else
      var kept := KeepCategory(categories[|categories| - 1], trimmedTerm);
      FilterCategories(categories[..|categories| - 1], trimmedTerm) + (if kept.Some? then [kept.value] else [])
  }

  /** `processedCategories`: everything for a blank term, otherwise the kept categories. */
  function Processed(allCategories: seq<Category>, searchTerm: string): (r: seq<Category>)
    ensures |r| <= |allCategories|
    ensures Trim(searchTerm) == "" ==> r == allCategories
  {
    var trimmed := Trim(searchTerm);
    if trimmed == "" then allCategories else FilterCategories(allCategories, trimmed)
  }

  /** The `processedCategories` memo as the source computes it: a loop over the categories. */
  method ProcessedCategories(allCategories: seq<Category>, searchTerm: string) returns (filtered: seq<Category>)
    ensures filtered == Processed(allCategories, searchTerm)
  {
    var trimmedSearchTerm := Trim(searchTerm);
    if trimmedSearchTerm == "" {
      return allCategories;
    }
    var lowerSearchTerm := Lower(trimmedSearchTerm);
    filtered := [];
    for i := 0 to |allCategories|
      invariant filtered == FilterCategories(allCategories[..i], trimmedSearchTerm)
    {
      var category := allCategories[i];
      var categoryNameMatches := Contains(Lower(category.name), lowerSearchTerm);
      var filteredChildRoles := FilterRolesRecursive(category.roles, trimmedSearchTerm);
      assert allCategories[..i + 1][..i] == allCategories[..i];
      if categoryNameMatches || |filteredChildRoles| > 0 {
        var roles := if categoryNameMatches && |filteredChildRoles| == 0 then category.roles else filteredChildRoles;
        filtered := filtered + [category.(roles := roles)];
      }
    }
    assert allCategories[..|allCategories|] == allCategories;
  }

  /** `categoriesToDisplay`: all results while searching, otherwise the first `displayedItemsCount`. */
  function CategoriesToDisplay(processed: seq<Category>, searchTerm: string, displayedItemsCount: nat): (r: seq<Category>)
    ensures |r| <= |processed| && r == processed[..|r|]
    ensures Trim(searchTerm) != "" ==> r == processed
  {
    if Trim(searchTerm) != "" then processed
    else if displayedItemsCount <= |processed| then processed[..displayedItemsCount]
    else processed
  }

  /** `hasMoreToLoad`: never while searching, otherwise whether categories remain beyond those shown. */
  function HasMoreToLoad(processed: seq<Category>, searchTerm: string, displayedItemsCount: nat): (r: bool)
    ensures r <==> |CategoriesToDisplay(processed, searchTerm, displayedItemsCount)| < |processed|
  {
    if Trim(searchTerm) != "" then false else displayedItemsCount < |processed|
  }

  // ---------------------------------------------------------------------------
  // Properties
  // ---------------------------------------------------------------------------

  /** The role's name or the name of some role below it contains the term. */
  predicate SubtreeMatches(role: Role, lowerTerm: string)
    decreases role
  {
    NameMatches(role.name, lowerTerm) || (role.roles.Present? && AnyMatches(role.roles.items, lowerTerm))
  }

  /** Some role of the list has a matching subtree. */
  predicate AnyMatches(roles: seq<Role>, lowerTerm: string)
    decreases roles
  {
    exists i :: 0 <= i < |roles| && SubtreeMatches(roles[i], lowerTerm)
  }

  /** A role is kept exactly when its subtree matches. */
  lemma {:induction false} KeepIffMatches(role: Role, lowerTerm: string)
    ensures KeepRole(role, lowerTerm).Some? <==> SubtreeMatches(role, lowerTerm)
    decreases role, 1
  {
    if role.roles.Present? {
      FilterNonEmptyIff(role.roles.items, lowerTerm);
    }
  }

  /** Filtering leaves something exactly when some role's subtree matches. */
  lemma {:induction false} FilterNonEmptyIff(roles: seq<Role>, lowerTerm: string)
    ensures |FilterRoles(roles, lowerTerm)| > 0 <==> AnyMatches(roles, lowerTerm)
    decreases roles, 0
  {
    if roles != [] {
      var prefix := roles[..|roles| - 1];
      var last := roles[|roles| - 1];
      FilterNonEmptyIff(prefix, lowerTerm);
      KeepIffMatches(last, lowerTerm);
      if AnyMatches(prefix, lowerTerm) {
        var i :| 0 <= i < |prefix| && SubtreeMatches(prefix[i], lowerTerm);
        assert roles[i] == prefix[i];
      }
      if AnyMatches(roles, lowerTerm) && !SubtreeMatches(last, lowerTerm) {
        var i :| 0 <= i < |roles| && SubtreeMatches(roles[i], lowerTerm);
        assert prefix[i] == roles[i];
      }
    }
  }

  /** Filtering keeps order: on a concatenation it works piece by piece. */
  lemma {:induction false} FilterRolesAppend(a: seq<Role>, b: seq<Role>, lowerTerm: string)
    ensures FilterRoles(a + b, lowerTerm) == FilterRoles(a, lowerTerm) + FilterRoles(b, lowerTerm)
    decreases |b|
  {
    if b == [] {
      assert a + b == a;
    } else {
      assert (a + b)[..|a + b| - 1] == a + b[..|b| - 1];
      FilterRolesAppend(a, b[..|b| - 1], lowerTerm);
    }
  }

  /**
   * A role worth showing: its name matches, or it has sub-roles and all of
   * them are worth showing.
   */
  predicate Relevant(role: Role, lowerTerm: string)
    decreases role
  {
    NameMatches(role.name, lowerTerm)
    || (role.roles.Present? && |role.roles.items| > 0 && AllRelevant(role.roles.items, lowerTerm))
  }

  predicate AllRelevant(roles: seq<Role>, lowerTerm: string)
    decreases roles
  {
    forall i :: 0 <= i < |roles| ==> Relevant(roles[i], lowerTerm)
  }

  /** A kept role is worth showing: the pruning leaves no branch without a match. */
  lemma {:induction false} KeptRoleRelevant(role: Role, lowerTerm: string)
    requires KeepRole(role, lowerTerm).Some?
    ensures Relevant(KeepRole(role, lowerTerm).value, lowerTerm)
    decreases role, 1
  {
    if role.roles.Present? {
      FilterRolesRelevant(role.roles.items, lowerTerm);
    }
  }

  /** Every role that filtering returns is worth showing. */
  lemma {:induction false} FilterRolesRelevant(roles: seq<Role>, lowerTerm: string)
    ensures AllRelevant(FilterRoles(roles, lowerTerm), lowerTerm)
    decreases roles, 0
  {
    if roles != [] {
      var prefix := roles[..|roles| - 1];
      var last := roles[|roles| - 1];
      FilterRolesRelevant(prefix, lowerTerm);
      var kept := KeepRole(last, lowerTerm);
      if kept.Some? {
        KeptRoleRelevant(last, lowerTerm);
      }
      var r := FilterRoles(roles, lowerTerm);
      var p := FilterRoles(prefix, lowerTerm);
      forall i | 0 <= i < |r| ensures Relevant(r[i], lowerTerm) {
        if i < |p| {
          assert r[i] == p[i];
        }
      }
    }
  }

  /**
   * A role whose own name matches but with nothing matching below it keeps
   * all of its sub-roles, and one without a sub-role list comes back with an
   * empty list; one whose name does not match keeps only the matching
   * branches.
   */
  lemma NameMatchKeepsChildren(role: Role, lowerTerm: string)
    ensures NameMatches(role.name, lowerTerm) && role.roles.Present? && !AnyMatches(role.roles.items, lowerTerm)
            ==> KeepRole(role, lowerTerm) == Some(role)
    ensures NameMatches(role.name, lowerTerm) && role.roles.Absent?
            ==> KeepRole(role, lowerTerm) == Some(role.(roles := Present([])))
    ensures !NameMatches(role.name, lowerTerm) && KeepRole(role, lowerTerm).Some?
            ==> role.roles.Present? && KeepRole(role, lowerTerm).value.roles == Present(FilterRoles(role.roles.items, lowerTerm))
  {
    if role.roles.Present? {
      FilterNonEmptyIff(role.roles.items, lowerTerm);
    }
  }

  /** A category is kept exactly when its name or some role subtree under it matches. */
  lemma KeepCategoryIff(category: Category, trimmedTerm: string)
    ensures KeepCategory(category, trimmedTerm).Some? <==>
      NameMatches(category.name, Lower(trimmedTerm)) || AnyMatches(category.roles, Lower(trimmedTerm))
    ensures KeepCategory(category, trimmedTerm).Some? ==>
      var c := KeepCategory(category, trimmedTerm).value;
      c.id == category.id && c.name == category.name
      && (NameMatches(c.name, Lower(trimmedTerm)) || (|c.roles| > 0 && AllRelevant(c.roles, Lower(trimmedTerm))))
  {
    FilterNonEmptyIff(category.roles, Lower(trimmedTerm));
    FilterRolesRelevant(category.roles, Lower(trimmedTerm));
  }

  /** A blank search shows every category, unfiltered. */
  lemma BlankSearchKeepsAll(allCategories: seq<Category>, searchTerm: string)
    requires AllSpace(searchTerm)
    ensures Processed(allCategories, searchTerm) == allCategories
  {
  }

  /**
   * Paging and the load-more flag agree: while searching everything is shown
   * and nothing more can be loaded; otherwise the shown categories are a
   * prefix of at most `displayedItemsCount`, and more can be loaded exactly
   * when some are not shown yet.
   */
  lemma DisplayAgreesWithLoadMore(processed: seq<Category>, searchTerm: string, displayedItemsCount: nat)
    ensures var shown := CategoriesToDisplay(processed, searchTerm, displayedItemsCount);
      && shown == processed[..|shown|]
      && (HasMoreToLoad(processed, searchTerm, displayedItemsCount) <==> |shown| < |processed|)
      && (!AllSpace(searchTerm) ==> shown == processed)
      && (AllSpace(searchTerm) ==> |shown| == if displayedItemsCount <= |processed| then displayedItemsCount else |processed|)
  {
  }
}
