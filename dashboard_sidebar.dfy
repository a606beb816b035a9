/**
 * The dashboard's side menu (`DashboardSidebar`): which items count as active for the current
 * path when deciding whether a group opens expanded, and which of the two groups does.
 */
module DashboardSidebar {
  import opened Strings

  datatype NavItem = NavItem(title: string, path: string)

  /** `mainItems`. */
  const MainItems: seq<NavItem> := [
    NavItem("Dashboard", "/"),
    NavItem("Agendamentos", "/agendamentos"),
    NavItem("Pacientes", "/pacientes"),
    NavItem("Prontuários", "/prontuarios")
  ]

  /** `aiItems`. */
  const AiItems: seq<NavItem> := [
    NavItem("Assistente IA", "/assistente-ia"),
    NavItem("Análises", "/analises")
  ]

  /** `isActive(path)` for the current path: the root item only on the root itself, any other item on every path it prefixes. */
  function IsActive(currentPath: string, path: string): (active: bool)
    ensures path == "/" ==> (active <==> currentPath == "/")
    ensures path != "/" ==> (active <==> |path| <= |currentPath| && currentPath[..|path|] == path)
  {
    if path == "/" && currentPath == "/" then true
    else if path != "/" && StartsWith(currentPath, path) then true
    else false
  }

  /** A non-root item is active on its own path and on every path below it, as "/agendamentos" on "/agendamentos/novo". */
  lemma SubPathsActive(path: string, rest: string)
    requires path != "/"
    ensures IsActive(path, path) && IsActive(path + rest, path)
  {
    assert (path + rest)[..|path|] == path;
  }

  /** The root item is active on no other path, even though every path starts with "/". */
  lemma RootOnlyOnRoot(currentPath: string)
    requires currentPath != "/"
    ensures !IsActive(currentPath, "/")
  {
  }

  /** `items.some(item => isActive(item.path))`. */
  function AnyActive(items: seq<NavItem>, currentPath: string): (expanded: bool)
    ensures expanded <==> exists item :: item in items && IsActive(currentPath, item.path)
    decreases |items|
  {
    if items == [] then false
    else
      assert forall item :: item in items <==> item == items[0] || item in items[1..];
      IsActive(currentPath, items[0].path) || AnyActive(items[1..], currentPath)
  }

  /** `isMainExpanded`. */
  function IsMainExpanded(currentPath: string): bool {
    AnyActive(MainItems, currentPath)
  }

  /** `isAiExpanded`. */
  function IsAiExpanded(currentPath: string): bool {
    AnyActive(AiItems, currentPath)
  }

  /** The main group opens on the root and on every path below one of its non-root items. */
  lemma MainExpandedOn(rest: string)
    ensures IsMainExpanded("/")
    ensures IsMainExpanded("/agendamentos" + rest)
    ensures IsMainExpanded("/pacientes" + rest)
    ensures IsMainExpanded("/prontuarios" + rest)
  {
    assert MainItems[0] in MainItems && MainItems[1] in MainItems;
    assert MainItems[2] in MainItems && MainItems[3] in MainItems;
    SubPathsActive("/agendamentos", rest);
    SubPathsActive("/pacientes", rest);
    SubPathsActive("/prontuarios", rest);
  }

  /** A path that starts with p does not start with a q that differs from p at a position within both. */
  lemma PrefixesDiffer(currentPath: string, p: string, q: string, k: nat)
    requires k < |p| && k < |q| && p[k] != q[k]
    requires StartsWith(currentPath, p)
    ensures !StartsWith(currentPath, q)
  {
    assert currentPath[..|p|][k] == currentPath[k];
    if |q| <= |currentPath| {
      assert currentPath[..|q|][k] == currentPath[k];
    }
  }

  /** No path opens both groups: the AI items' paths share no prefix with the main items' paths. */
  lemma GroupsExclusive(currentPath: string)
    ensures !(IsMainExpanded(currentPath) && IsAiExpanded(currentPath))
  {
    // "/agendamentos", "/pacientes" and "/prontuarios" part from "/assistente-ia" and
    // "/analises" at the second or third character, and neither AI path is the root.
    if StartsWith(currentPath, "/agendamentos") {
      PrefixesDiffer(currentPath, "/agendamentos", "/assistente-ia", 2);
      PrefixesDiffer(currentPath, "/agendamentos", "/analises", 2);
    }
    if StartsWith(currentPath, "/pacientes") {
      PrefixesDiffer(currentPath, "/pacientes", "/assistente-ia", 1);
      PrefixesDiffer(currentPath, "/pacientes", "/analises", 1);
    }
    if StartsWith(currentPath, "/prontuarios") {
      PrefixesDiffer(currentPath, "/prontuarios", "/assistente-ia", 1);
      PrefixesDiffer(currentPath, "/prontuarios", "/analises", 1);
    }
    if currentPath == "/" {
      assert !StartsWith(currentPath, "/assistente-ia") && !StartsWith(currentPath, "/analises");
    }
  }
}
