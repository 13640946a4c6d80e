/**
 * The password list (`createBrowsePasswords`): the URL it fetches, one card
 * per credential with ownership-gated edit and delete, and the delete URL.
 * The list's mutable state (`query`, the rendered cards) lives in the shared
 * view state, App.Views.
 */
module Browse {
  import opened Wrappers
  import opened Strings
  import opened Records
  import opened Http

  /** A rendered card: its credential, and whether its edit and delete buttons are enabled. */
  datatype Card = Card(password: Credential, ownActions: bool)

  /** What a card's read-only buttons hand to the browser. */
  datatype External = OpenWindow(url: string) | WriteClipboard(text: string)

  /** The list is fetched from the collection path followed by the query. */
  function ListUrl(query: string): (url: string)
    ensures |url| == |PasswordsPath| + |query|
    ensures url[..|PasswordsPath|] == PasswordsPath && url[|PasswordsPath|..] == query
  {
    PasswordsPath + query
  }

  /** `DELETE` is sent to the item URL of the credential. */
  function DeleteUrl(id: int): (url: string)
    ensures ItemId(url) == Some(id)
  {
    ItemUrlAddresses(id);
    PasswordsPath + "/" + IntToString(id)
  }

  /**
   * Edit and delete stay enabled unless `creator_id !== Number(user_id)`;
   * a NaN user id differs from every creator.
   */
  function OwnActions(creatorId: int, userId: JsNumber): (enabled: bool)
    ensures enabled <==> userId.Num? && userId.value == creatorId
  {
    !(userId.NaN? || creatorId != userId.value)
  }

  function CardFor(password: Credential, userId: JsNumber): Card {
    Card(password, OwnActions(password.creatorId, userId))
  }

  /** The `forEach` of the list response handler: one card per credential, in response order. */
  method RenderCards(passwords: seq<Credential>, userId: JsNumber) returns (cards: seq<Card>)
    ensures |cards| == |passwords|
    ensures forall i :: 0 <= i < |cards| ==> cards[i].password == passwords[i]
    ensures forall i :: 0 <= i < |cards| ==>
      (cards[i].ownActions <==> userId == Num(passwords[i].creatorId))
  {
    cards := [];
    var i := 0;
    while i < |passwords|
      invariant 0 <= i <= |passwords|
      invariant |cards| == i
      invariant forall k :: 0 <= k < i ==> cards[k] == CardFor(passwords[k], userId)
    {
      cards := cards + [CardFor(passwords[i], userId)];
      i := i + 1;
    }
  }
}
