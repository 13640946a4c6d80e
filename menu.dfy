/**
 * The filter menu (`createMenu`): which buttons a rebuild produces, the class
 * that identifies each, and the query each one applies to the browse list.
 * The menu's mutable state (`active`, the rendered buttons, the highlight)
 * lives in the shared view state, App.Views.
 */
module Menu {
  import opened Strings
  import opened Records

  /** The filter a menu button stands for. */
  datatype Filter = AllPwd | OwnPwd | OrgFilter(orgId: int) | CatFilter(catId: int)

  /** The button class (`active` identifier) of a filter. */
  function ClassOf(f: Filter): string {
    match f
    case AllPwd => "all-pwd"
    case OwnPwd => "own-pwd"
    case OrgFilter(id) => "org-" + IntToString(id)
    case CatFilter(id) => "cat-" + IntToString(id)
  }

  /** The query string a filter button hands to the browse list. */
  function QueryOf(f: Filter): string {
    match f
    case AllPwd => ""
    case OwnPwd => "?type=own"
    case OrgFilter(id) => "?type=org&val=" + IntToString(id)
    case CatFilter(id) => "?type=cat&val=" + IntToString(id)
  }

  const AddPwd: string := "add-pwd"
  const AllPwdId: string := "all-pwd"
  const Search: string := "search"

  /** What a click does: open the add form, or select a filter with its query. */
  datatype Action = ShowAdd | ApplyFilter(query: string)

  datatype Button = Button(cls: string, action: Action)

  const AddButton: Button := Button(AddPwd, ShowAdd)

  function FilterButton(f: Filter): Button {
    Button(ClassOf(f), ApplyFilter(QueryOf(f)))
  }

  function OrgButtons(orgs: seq<Org>): (bs: seq<Button>)
    ensures |bs| == |orgs|
  {
    seq(|orgs|, i requires 0 <= i < |orgs| => FilterButton(OrgFilter(orgs[i].orgId)))
  }

  function CatButtons(cats: seq<Category>): (bs: seq<Button>)
    ensures |bs| == |cats|
  {
    seq(|cats|, i requires 0 <= i < |cats| => FilterButton(CatFilter(cats[i].catId)))
  }

  /** The buttons of a rebuild, in order: add, all, own, one per org, one per category. */
  function MenuButtons(orgs: seq<Org>, cats: seq<Category>): seq<Button> {
    [AddButton, FilterButton(AllPwd), FilterButton(OwnPwd)] + OrgButtons(orgs) + CatButtons(cats)
  }

  /** The classes of the rendered buttons. */
  function ButtonIds(bs: seq<Button>): set<string> {
    set i | 0 <= i < |bs| :: bs[i].cls
  }

  /**
   * The button-building part of the update response handler: the static
   * buttons, then one `forEach` over the organizations and one over the
   * categories.
   */
  method BuildButtons(orgs: seq<Org>, cats: seq<Category>) returns (bs: seq<Button>)
    ensures bs == MenuButtons(orgs, cats)
  {
    bs := [AddButton, Button("all-pwd", ApplyFilter("")), Button("own-pwd", ApplyFilter("?type=own"))];
    var i := 0;
    while i < |orgs|
      invariant 0 <= i <= |orgs|
      invariant bs == [AddButton, FilterButton(AllPwd), FilterButton(OwnPwd)] + OrgButtons(orgs[..i])
    {
      var cls := "org-" + IntToString(orgs[i].orgId);
      bs := bs + [Button(cls, ApplyFilter("?type=org&val=" + IntToString(orgs[i].orgId)))];
      assert OrgButtons(orgs[..i + 1]) == OrgButtons(orgs[..i]) + [FilterButton(OrgFilter(orgs[i].orgId))];
      i := i + 1;
    }
    assert orgs[..i] == orgs;
    var j := 0;
    while j < |cats|
      invariant 0 <= j <= |cats|
      invariant bs == [AddButton, FilterButton(AllPwd), FilterButton(OwnPwd)] + OrgButtons(orgs) + CatButtons(cats[..j])
    {
      var cls := "cat-" + IntToString(cats[j].catId);
      bs := bs + [Button(cls, ApplyFilter("?type=cat&val=" + IntToString(cats[j].catId)))];
      assert CatButtons(cats[..j + 1]) == CatButtons(cats[..j]) + [FilterButton(CatFilter(cats[j].catId))];
      j := j + 1;
    }
    assert cats[..j] == cats;
  }

  /** Distinct filters have distinct button classes. */
  lemma ClassOfInjective(f: Filter, g: Filter)
    ensures ClassOf(f) == ClassOf(g) <==> f == g
  {
    if f.OrgFilter? && g.OrgFilter? {
      PrefixCancel("org-", IntToString(f.orgId), IntToString(g.orgId));
      IntToStringInjective(f.orgId, g.orgId);
    } else if f.CatFilter? && g.CatFilter? {
      PrefixCancel("cat-", IntToString(f.catId), IntToString(g.catId));
      IntToStringInjective(f.catId, g.catId);
    } else {
      // the second character tells the kinds apart
      assert ClassOf(f)[1] == KindMark(f) && ClassOf(g)[1] == KindMark(g);
    }
  }

  /** The second character of a class, and the eighth of a non-empty query. */
  function KindMark(f: Filter): char {
    match f
    case AllPwd => 'l'
    case OwnPwd => 'w'
    case OrgFilter(_) => 'r'
    case CatFilter(_) => 'a'
  }

  /** Distinct filters send distinct queries. */
  lemma QueryOfInjective(f: Filter, g: Filter)
    ensures QueryOf(f) == QueryOf(g) <==> f == g
  {
    if f.OrgFilter? && g.OrgFilter? {
      PrefixCancel("?type=org&val=", IntToString(f.orgId), IntToString(g.orgId));
      IntToStringInjective(f.orgId, g.orgId);
    } else if f.CatFilter? && g.CatFilter? {
      PrefixCancel("?type=cat&val=", IntToString(f.catId), IntToString(g.catId));
      IntToStringInjective(f.catId, g.catId);
    } else if f != AllPwd && g != AllPwd {
      assert QueryOf(f)[7] == KindMark(f) && QueryOf(g)[7] == KindMark(g);
    }
  }

  /** No filter button's class is the add button's, "search", or the empty (falsy) string. */
  lemma ClassOfReserved(f: Filter)
    ensures ClassOf(f) != AddPwd && ClassOf(f) != Search && ClassOf(f) != ""
  {
    assert ClassOf(f)[0] != 'a' || ClassOf(f)[1] == 'l';
  }

  /** The filter behind button `i >= 1` of a rebuild. */
  function FilterAt(orgs: seq<Org>, cats: seq<Category>, i: nat): Filter
    requires 1 <= i < 3 + |orgs| + |cats|
  {
    if i == 1 then AllPwd
    else if i == 2 then OwnPwd
    else if i < 3 + |orgs| then OrgFilter(orgs[i - 3].orgId)
    else CatFilter(cats[i - 3 - |orgs|].catId)
  }

  lemma MenuButtonAt(orgs: seq<Org>, cats: seq<Category>, i: nat)
    requires i < |MenuButtons(orgs, cats)|
    ensures |MenuButtons(orgs, cats)| == 3 + |orgs| + |cats|
    ensures i == 0 ==> MenuButtons(orgs, cats)[i] == AddButton
    ensures i > 0 ==> MenuButtons(orgs, cats)[i] == FilterButton(FilterAt(orgs, cats, i))
  {
  }

  /** The classes of the organization buttons, `org-<id>` per organization. */
  function OrgIds(orgs: seq<Org>): set<string> {
    set o | o in orgs :: "org-" + IntToString(o.orgId)
  }

  /** The classes of the category buttons, `cat-<id>` per category. */
  function CatIds(cats: seq<Category>): set<string> {
    set c | c in cats :: "cat-" + IntToString(c.catId)
  }

  lemma ButtonIdIn(orgs: seq<Org>, cats: seq<Category>, i: nat)
    requires i < |MenuButtons(orgs, cats)|
    ensures MenuButtons(orgs, cats)[i].cls in {"add-pwd", "all-pwd", "own-pwd"} + OrgIds(orgs) + CatIds(cats)
  {
  }

  lemma ButtonAtHasId(bs: seq<Button>, i: nat)
    requires i < |bs|
    ensures bs[i].cls in ButtonIds(bs)
  {
  }

  lemma OrgIdHasButton(orgs: seq<Org>, cats: seq<Category>, x: string)
    requires x in OrgIds(orgs)
    ensures x in ButtonIds(MenuButtons(orgs, cats))
  {
    var o :| o in orgs && x == "org-" + IntToString(o.orgId);
    var k :| 0 <= k < |orgs| && orgs[k] == o;
    MenuButtonAt(orgs, cats, 3 + k);
    ButtonAtHasId(MenuButtons(orgs, cats), 3 + k);
  }

  lemma CatIdHasButton(orgs: seq<Org>, cats: seq<Category>, x: string)
    requires x in CatIds(cats)
    ensures x in ButtonIds(MenuButtons(orgs, cats))
  {
    var c :| c in cats && x == "cat-" + IntToString(c.catId);
    var k :| 0 <= k < |cats| && cats[k] == c;
    MenuButtonAt(orgs, cats, 3 + |orgs| + k);
    ButtonAtHasId(MenuButtons(orgs, cats), 3 + |orgs| + k);
  }

  lemma IdHasButton(orgs: seq<Org>, cats: seq<Category>, x: string)
    requires x in {"add-pwd", "all-pwd", "own-pwd"} + OrgIds(orgs) + CatIds(cats)
    ensures x in ButtonIds(MenuButtons(orgs, cats))
  {
    var bs := MenuButtons(orgs, cats);
    if x in OrgIds(orgs) {
      OrgIdHasButton(orgs, cats, x);
    } else if x in CatIds(cats) {
      CatIdHasButton(orgs, cats, x);
    } else {
      ButtonAtHasId(bs, 0);
      ButtonAtHasId(bs, 1);
      ButtonAtHasId(bs, 2);
    }
  }

  /**
   * A rebuild's buttons: exactly the add, all and own buttons plus
   * `org-<id>` per organization and `cat-<id>` per category.
   */
  lemma MenuButtonIds(orgs: seq<Org>, cats: seq<Category>)
    ensures ButtonIds(MenuButtons(orgs, cats)) == {"add-pwd", "all-pwd", "own-pwd"} + OrgIds(orgs) + CatIds(cats)
  {
    var bs := MenuButtons(orgs, cats);
    forall x | x in ButtonIds(bs) ensures x in {"add-pwd", "all-pwd", "own-pwd"} + OrgIds(orgs) + CatIds(cats) {
      var i :| 0 <= i < |bs| && bs[i].cls == x;
      ButtonIdIn(orgs, cats, i);
    }
    forall x | x in {"add-pwd", "all-pwd", "own-pwd"} + OrgIds(orgs) + CatIds(cats) ensures x in ButtonIds(bs) {
      IdHasButton(orgs, cats, x);
    }
  }

  /**
   * Among a rebuild's buttons a class determines the button, so "the button
   * with class `cls`" is well defined; none of them is "search" or "", and
   * the all-passwords button is always there.
   */
  lemma MenuButtonsConsistent(orgs: seq<Org>, cats: seq<Category>)
    ensures var bs := MenuButtons(orgs, cats);
      forall i, j :: 0 <= i < |bs| && 0 <= j < |bs| && bs[i].cls == bs[j].cls ==> bs[i] == bs[j]
    ensures Search !in ButtonIds(MenuButtons(orgs, cats)) && "" !in ButtonIds(MenuButtons(orgs, cats))
    ensures AllPwdId in ButtonIds(MenuButtons(orgs, cats))
  {
    var bs := MenuButtons(orgs, cats);
    forall i, j | 0 <= i < |bs| && 0 <= j < |bs| && bs[i].cls == bs[j].cls ensures bs[i] == bs[j] {
      MenuButtonAt(orgs, cats, i);
      MenuButtonAt(orgs, cats, j);
      if i > 0 && j > 0 {
        ClassOfInjective(FilterAt(orgs, cats, i), FilterAt(orgs, cats, j));
      } else if i > 0 {
        ClassOfReserved(FilterAt(orgs, cats, i));
      } else if j > 0 {
        ClassOfReserved(FilterAt(orgs, cats, j));
      }
    }
    forall i | 0 <= i < |bs| ensures bs[i].cls != Search && bs[i].cls != "" {
      MenuButtonAt(orgs, cats, i);
      if i > 0 {
        ClassOfReserved(FilterAt(orgs, cats, i));
      }
    }
    assert bs[1].cls == AllPwdId;
  }
}
