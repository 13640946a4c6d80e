/**
 * Client code that uses only the contracts above: the end-to-end filter and
 * delete scenario, and the generation settings' guards on a rendered form.
 */
module Scenarios {
  import opened Wrappers
  import opened Records
  import opened Http
  import opened EditAdd
  import opened Menu
  import opened Browse
  import opened App

  /** The texts organization 7's button is built from. */
  lemma OrgSevenTexts()
    ensures ClassOf(OrgFilter(7)) == "org-7"
    ensures QueryOf(OrgFilter(7)) == "?type=org&val=7"
    ensures ListUrl(QueryOf(OrgFilter(7))) == "/api/passwords?type=org&val=7"
  {
  }

  /** Selecting organization 7 highlights its button and lists its credentials. */
  method SelectOrganization() {
    var v := new Views();
    v.MenuUpdate();
    v.MenuLoaded([Org(7, "Acme", "building")], []);
    assert v.active == AllPwdId && v.highlighted == {AllPwdId};
    assert v.buttons[3] == FilterButton(OrgFilter(7));
    v.ClickMenuButton(3);
    OrgSevenTexts();
    assert v.active == "org-7" && v.highlighted == {"org-7"};
    assert v.query == "?type=org&val=7" && v.current == "browse";
    assert v.requests[|v.requests| - 1] == Request(GET, "/api/passwords?type=org&val=7");
  }

  /**
   * Deleting the last credential of organization 7 while its filter is
   * active: once the refreshed menu no longer has organization 7, the menu
   * falls back to all passwords and the list is fetched unfiltered.
   */
  method DeleteLastOfOrganization(v: Views)
    requires v.Valid() && v.active == ClassOf(OrgFilter(7))
    modifies v
  {
    var c := Credential(42, "site", "me", "secret", "https://example.org", 1, 7, 3);
    v.BrowseLoaded([c], Num(1));
    assert v.cards[0].ownActions;
    v.DeleteCard(0);
    assert ItemId(v.requests[|v.requests| - 1].url) == Some(42);
    v.DeleteDone();
    v.MenuLoaded([], []);
    MenuButtonIds([], []);
    assert v.active == AllPwdId && v.query == "" && v.highlighted == {AllPwdId};
    assert v.requests[|v.requests| - 1] == Request(GET, "/api/passwords");
  }

  /** While searching, a menu rebuild neither falls back nor highlights. */
  method SearchFreezesHighlight() {
    var v := new Views();
    v.MenuLoaded([], []);
    v.SetActive(Search);
    assert v.active == Search && v.highlighted == {};
    var q := v.query;
    v.MenuLoaded([Org(5, "Org", "icon")], []);
    assert v.active == Search && v.highlighted == {} && v.query == q;
  }

  /** The last option cannot be switched off, and the length cannot go below 10. */
  method GenerationGuards(gen: (int, set<GenOption>) -> string) {
    var v := new Views();
    var f := v.add;
    f.Loaded(None);
    assert f.on == {Lower, Upper, Digits} && !f.decreaseEnabled;
    f.SetGenOption(Lower);
    f.SetGenOption(Upper);
    assert f.genOptions == {Digits};
    f.SetGenOption(Digits);
    assert f.genOptions == {Digits} && f.on == {Digits};
    f.ChangeGenLength(-1);
    assert f.genLength == 10 && !f.decreaseEnabled;
    f.ChangeGenLength(1);
    assert f.genLength == 11 && f.decreaseEnabled;
    f.Generate(gen);
    assert f.fields.sitePwd == gen(11, {Digits});
    v.Cancel(f);
    assert f.genOptions == {Digits} && f.genLength == 11 && f.fields == EmptyFields;
    assert v.current == "browse";
  }

  /** The edit form addresses the credential chosen on a card. */
  method EditTargetsCard() {
    var v := new Views();
    var c := Credential(42, "site", "me", "secret", "https://example.org", 2, 7, 3);
    v.BrowseLoaded([c], Num(2));
    assert v.cards[0].ownActions;
    v.EditCard(0);
    assert v.edit.pwdId == 42 && v.current == "edit";
    v.FormUpdate(v.edit);
    assert InfoId(v.requests[|v.requests| - 1].url) == Some(42);
    v.Submit(v.edit);
    assert v.requests[|v.requests| - 1].verb == PUT;
    assert ItemId(v.requests[|v.requests| - 1].url) == Some(42);
    v.Submit(v.add);
    assert v.requests[|v.requests| - 1] == Request(POST, "/api/passwords");
    assert v.add.pwdId == -1;
  }
}
