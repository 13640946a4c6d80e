/**
 * The shared `views` object that the menu, the password list and the two
 * forms reach each other through: which view is shown, the requests handed
 * to the transport, the list's query and cards, the menu's active button,
 * its rendered buttons and highlight, and the add and edit forms.
 *
 * Each `$.get` / `$.ajax` call appends its request to `requests`; the body of
 * the matching `.then` is a separate method that receives the response.
 */
module App {
  import opened Records
  import opened Http
  import opened EditAdd
  import opened Menu
  import opened Browse

  class Views {
    /** The view last passed to `setView` ("" before the first call). */
    var current: string
    var requests: seq<Request>

    // The password list
    var query: string
    var cards: seq<Card>

    // The menu
    var active: string
    var buttons: seq<Button>
    /** The classes of the buttons that carry the class `active`. */
    var highlighted: set<string>
    /** The organizations and categories of the last menu rebuild. */
    ghost var orgs: seq<Org>
    ghost var cats: seq<Category>

    const add: Form
    const edit: Form

    ghost predicate FormsValid()
      reads add, edit
    {
      add != edit && add.id == "add" && edit.id == "edit" && add.Valid() && edit.Valid()
    }

    /** The rendered buttons come from a rebuild, and at most the active one is highlighted. */
    ghost predicate MenuShape()
      reads this
    {
      && (buttons == [] || buttons == MenuButtons(orgs, cats))
      && highlighted <= {active}
      && highlighted <= ButtonIds(buttons)
    }

    /** Once the menu is rendered, `active` is "search" or names a rendered button. */
    ghost predicate Settled()
      reads this
    {
      buttons != [] ==> active == Search || active in ButtonIds(buttons)
    }

    ghost predicate Valid()
      reads this, add, edit
    {
      FormsValid() && MenuShape() && Settled()
    }

    constructor ()
      ensures Valid() && fresh(add) && fresh(edit)
      ensures current == "" && requests == []
      ensures query == "" && cards == []
      ensures active == AllPwdId && buttons == [] && highlighted == {}
      ensures add.genOptions == InitialGenOptions && add.genLength == GenLengthMin && add.pwdId == -1
      ensures edit.genOptions == InitialGenOptions && edit.genLength == GenLengthMin && edit.pwdId == -1
      ensures !add.rendered && !edit.rendered
    {
      current := "";
      requests := [];
      query := "";
      cards := [];
      active := AllPwdId;
      buttons := [];
      highlighted := {};
      orgs := [];
      cats := [];
      add := new Form("add");
      edit := new Form("edit");
    }

    method SetView(name: string)
      modifies this`current
      ensures current == name
    {
      current := name;
    }

    //--------------------------------------------------------------------------
    // Menu

    /**
     * `setActive(cls)`, where `cls == ""` stands for a missing (falsy)
     * argument: un-highlight the old button, adopt `cls` if given, stop if
     * searching, fall back to all-passwords (clearing the query) if the
     * button is gone, and highlight the result.
     */
    method SetActive(cls: string)
      requires MenuShape()
      modifies this`active, this`highlighted, this`query
      ensures MenuShape() && Settled()
      ensures var adopted := if cls != "" then cls else old(active);
        if adopted == Search || adopted in ButtonIds(buttons)
        then active == adopted && query == old(query)
        else active == AllPwdId && query == ""
      ensures active == Search ==> highlighted == old(highlighted) - {old(active)} == {}
      ensures active != Search ==> highlighted == {active} * ButtonIds(buttons)
      ensures buttons != [] && active != Search ==> highlighted == {active}
    {
      if buttons != [] {
        MenuButtonsConsistent(orgs, cats);
      }
      highlighted := highlighted - {active};
      if cls != "" {
        active := cls;
      }
      if active == Search {
        return;
      }
      if active !in ButtonIds(buttons) {
        active := AllPwdId;
        query := "";
      }
      if active in ButtonIds(buttons) {
        highlighted := highlighted + {active};
      }
    }

    /** `setFilter(query)`: show the list, set its query, refresh it. */
    method SetFilter(q: string)
      modifies this`current, this`query, this`requests
      ensures current == "browse" && query == q
      ensures requests == old(requests) + [Request(GET, ListUrl(q))]
    {
      SetView("browse");
      query := q;
      BrowseUpdate();
    }

    /** `menu.update()`: fetch the user's organizations and categories. */
    method MenuUpdate()
      modifies this`requests
      ensures requests == old(requests) + [Request(GET, MyInfoPath)]
    {
      requests := requests + [Request(GET, MyInfoPath)];
    }

    /**
     * The menu's update response handler: replace every button by a fresh
     * rebuild, re-apply `setActive()` and refresh the list.
     */
    method MenuLoaded(newOrgs: seq<Org>, newCats: seq<Category>)
      requires Valid()
      modifies this`buttons, this`highlighted, this`active, this`query, this`requests, this`orgs, this`cats
      ensures Valid()
      ensures buttons == MenuButtons(newOrgs, newCats)
      ensures active == Search || active in ButtonIds(buttons)
      ensures old(active) == Search || old(active) in ButtonIds(buttons) ==>
        active == old(active) && query == old(query)
      ensures old(active) != Search && old(active) !in ButtonIds(buttons) ==>
        active == AllPwdId && query == ""
      ensures highlighted == if active == Search then {} else {active}
      ensures requests == old(requests) + [Request(GET, ListUrl(query))]
    {
      buttons := BuildButtons(newOrgs, newCats);
      orgs, cats := newOrgs, newCats;
      highlighted := {};
      MenuButtonsConsistent(newOrgs, newCats);
      SetActive("");
      BrowseUpdate();
    }

    /** A click on rendered button `k`: the add button shows the add form; a filter button selects itself and applies its query. */
    method ClickMenuButton(k: nat)
      requires Valid() && k < |buttons|
      modifies this`current, this`active, this`highlighted, this`query, this`requests
      ensures Valid()
      ensures buttons[k].action == ShowAdd ==>
        && current == "add" && active == old(active) && highlighted == old(highlighted)
        && query == old(query) && requests == old(requests)
      ensures buttons[k].action.ApplyFilter? ==>
        && active == buttons[k].cls && highlighted == {active}
        && current == "browse" && query == buttons[k].action.query
        && requests == old(requests) + [Request(GET, ListUrl(query))]
    {
      MenuButtonsConsistent(orgs, cats);
      assert buttons[k].cls in ButtonIds(buttons);
      match buttons[k].action
      case ShowAdd =>
        SetView("add");
      case ApplyFilter(q) =>
        SetActive(buttons[k].cls);
        SetFilter(q);
    }

    //--------------------------------------------------------------------------
    // Password list

    /** `browse.update()`: fetch the credentials selected by the query. */
    method BrowseUpdate()
      modifies this`requests
      ensures requests == old(requests) + [Request(GET, ListUrl(query))]
    {
      requests := requests + [Request(GET, ListUrl(query))];
    }

    /** The list's response handler: drop every card, then one card per credential. */
    method BrowseLoaded(passwords: seq<Credential>, userId: JsNumber)
      modifies this`cards
      ensures |cards| == |passwords|
      ensures forall i :: 0 <= i < |cards| ==> cards[i].password == passwords[i]
      ensures forall i :: 0 <= i < |cards| ==>
        (cards[i].ownActions <==> userId == Num(passwords[i].creatorId))
    {
      cards := RenderCards(passwords, userId);
    }

    /** A card's edit button: point the edit form at the credential and show it, fetching nothing. */
    method EditCard(k: nat)
      requires Valid() && k < |cards|
      modifies edit`pwdId, this`current
      ensures Valid()
      ensures edit.pwdId == cards[k].password.id && current == "edit"
    {
      edit.pwdId := cards[k].password.id;
      SetView("edit");
    }

    /** A card's delete button: ask the server to delete the credential. */
    method DeleteCard(k: nat)
      requires k < |cards|
      modifies this`requests
      ensures requests == old(requests) + [Request(DELETE, DeleteUrl(cards[k].password.id))]
    {
      requests := requests + [Request(DELETE, DeleteUrl(cards[k].password.id))];
    }

    /** The delete response handler: refresh the menu, then the list. */
    method DeleteDone()
      modifies this`requests
      ensures requests == old(requests) + [Request(GET, MyInfoPath), Request(GET, ListUrl(query))]
    {
      MenuUpdate();
      BrowseUpdate();
    }

    /** A card's go-to button: open the site; no view state changes. */
    method GoTo(k: nat) returns (e: External)
      requires k < |cards|
      ensures e == OpenWindow(cards[k].password.siteUrl)
    {
      e := OpenWindow(cards[k].password.siteUrl);
    }

    /** A card's copy-login button; no view state changes. */
    method CopyLogin(k: nat) returns (e: External)
      requires k < |cards|
      ensures e == WriteClipboard(cards[k].password.siteLogin)
    {
      e := WriteClipboard(cards[k].password.siteLogin);
    }

    /** A card's copy-password button; no view state changes. */
    method CopyPassword(k: nat) returns (e: External)
      requires k < |cards|
      ensures e == WriteClipboard(cards[k].password.sitePwd)
    {
      e := WriteClipboard(cards[k].password.sitePwd);
    }

    //--------------------------------------------------------------------------
    // Forms

    /** `update()` of form `f`: fetch what the form needs, by mode. */
    method FormUpdate(f: Form)
      requires f == add || f == edit
      modifies this`requests
      ensures requests == old(requests) + [Request(GET, UpdateUrl(f.id, f.pwdId))]
    {
      requests := requests + [Request(GET, UpdateUrl(f.id, f.pwdId))];
    }

    /** The submit listener of form `f`: send the fields, with method and URL by mode. */
    method Submit(f: Form)
      requires f == add || f == edit
      modifies this`requests
      ensures requests == old(requests) + [Request(SubmitMethod(f.id), SubmitUrl(f.id, f.pwdId))]
    {
      requests := requests + [Request(SubmitMethod(f.id), SubmitUrl(f.id, f.pwdId))];
    }

    /** The submit response handler: clear the inputs, refresh the menu, refresh the list, show the list. */
    method SubmitDone(f: Form)
      requires Valid() && (f == add || f == edit)
      modifies f`fields, this`requests, this`current
      ensures Valid()
      ensures f.fields == EmptyFields
      ensures requests == old(requests) + [Request(GET, MyInfoPath), Request(GET, ListUrl(query))]
      ensures current == "browse"
    {
      f.Clear();
      MenuUpdate();
      BrowseUpdate();
      SetView("browse");
    }

    /** The cancel listener: clear the inputs and show the list, sending nothing. */
    method Cancel(f: Form)
      requires Valid() && (f == add || f == edit)
      modifies f`fields, this`current
      ensures Valid()
      ensures f.fields == EmptyFields && current == "browse"
    {
      f.Clear();
      SetView("browse");
    }
  }
}
