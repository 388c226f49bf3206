/** The agent area's frame: the side menu, which item is highlighted for the
    current path, and the name shown in the header. */
module AgenteLayout {
  import opened Common
  import opened AuthServiceModel

  datatype MenuItem = MenuItem(key: string, link: string)

  /** The side menu in display order. */
  const MenuItems: seq<MenuItem> := [
    MenuItem("1", "/agente-dashboard"),
    MenuItem("4", "/agente-solicitudes"),
    MenuItem("2", "/agente-clientes"),
    MenuItem("3", "/agente-polizas"),
    MenuItem("5", "/agente-pagos"),
    MenuItem("6", "/agente-siniestros")
  ]

  predicate IsMenuKey(k: string) {
    exists i :: 0 <= i < |MenuItems| && MenuItems[i].key == k
  }

  /** `getSelectedKey`: the first of the five section prefixes the path
      starts with selects its item; any other path selects the summary. */
  function SelectedKey(path: string): (r: seq<string>)
    ensures |r| == 1 && IsMenuKey(r[0])
    ensures (forall i :: 1 <= i < |MenuItems| ==> !StartsWith(path, MenuItems[i].link)) ==> r == ["1"]
  {
    assert MenuItems[0].key == "1" && MenuItems[1].key == "4" && MenuItems[2].key == "2";
    assert MenuItems[3].key == "3" && MenuItems[4].key == "5" && MenuItems[5].key == "6";
    assert MenuItems[1].link == "/agente-solicitudes" && MenuItems[2].link == "/agente-clientes";
    assert MenuItems[3].link == "/agente-polizas" && MenuItems[4].link == "/agente-pagos";
    assert MenuItems[5].link == "/agente-siniestros";
    if StartsWith(path, "/agente-solicitudes") then ["4"]
    else if StartsWith(path, "/agente-clientes") then ["2"]
    else if StartsWith(path, "/agente-polizas") then ["3"]
    else if StartsWith(path, "/agente-pagos") then ["5"]
    else if StartsWith(path, "/agente-siniestros") then ["6"]
    else ["1"]
  }

  /** A text that differs from `p` at a position both have does not start
      with `p`. */
  lemma DifferAt(s: string, p: string, k: nat)
    requires k < |p| && k < |s| && s[k] != p[k]
    ensures !StartsWith(s, p)
  {
  }

  /** Two section links differ at position 8 or 9, right after "/agente-". */
  lemma SectionLinksDiffer(i: nat, j: nat) returns (k: nat)
    requires 1 <= i < |MenuItems| && 1 <= j < |MenuItems| && i != j
    ensures k < |MenuItems[i].link| && k < |MenuItems[j].link|
    ensures MenuItems[i].link[k] != MenuItems[j].link[k]
  {
    var a, b := MenuItems[i].link, MenuItems[j].link;
    assert a[8] == b[8] ==> a[9] != b[9];
    k := if a[8] != b[8] then 8 else 9;
  }

  /** No path starts with two of the section links, so the order of the
      checks in `getSelectedKey` does not matter. */
  lemma SectionPrefixesExclusive(path: string, i: nat, j: nat)
    requires 1 <= i < |MenuItems| && 1 <= j < |MenuItems| && i != j
    requires StartsWith(path, MenuItems[i].link)
    ensures !StartsWith(path, MenuItems[j].link)
  {
    var k := SectionLinksDiffer(i, j);
    var p, q := MenuItems[i].link, MenuItems[j].link;
    assert path[k] == p[k] by {
      assert path[..|p|][k] == path[k];
    }
    DifferAt(path, q, k);
  }

  /** Whatever section link the path starts with, that item is selected. */
  lemma SelectedKeyOfSection(path: string, i: nat)
    requires 1 <= i < |MenuItems| && StartsWith(path, MenuItems[i].link)
    ensures SelectedKey(path) == [MenuItems[i].key]
  {
    forall j | 1 <= j < |MenuItems| && j != i
      ensures !StartsWith(path, MenuItems[j].link)
    {
      SectionPrefixesExclusive(path, i, j);
    }
  }

  /** Following any menu link highlights that same item; the summary's own
      link falls through to the default. */
  lemma EveryLinkSelectsItself(i: nat)
    requires 0 <= i < |MenuItems|
    ensures SelectedKey(MenuItems[i].link) == [MenuItems[i].key]
  {
    if i == 0 {
      forall j | 1 <= j < |MenuItems|
        ensures !StartsWith(MenuItems[0].link, MenuItems[j].link)
      {
        DifferAt(MenuItems[0].link, MenuItems[j].link, 8);
      }
    } else {
      SelectedKeyOfSection(MenuItems[i].link, i);
    }
  }

  /** The name in the header: "Agente" until user info is available, then
      `getFullName()`. */
  function InitialUserName(info: Option<UserInfo>): (r: string)
    ensures info.None? ==> r == "Agente"
    ensures info.Some? ==> r == FullName(info)
  {
    if info.Some? then FullName(info) else "Agente"
  }

  /** The header is blank exactly for user info without a first name and
      without a username: a token lacking those claims shows an empty name,
      not "Agente". */
  lemma EmptyClaimsShowEmptyName(info: Option<UserInfo>)
    ensures InitialUserName(info) == "" <==> info.Some? && info.value.firstName == "" && info.value.username == ""
  {
  }
}
