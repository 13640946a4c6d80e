/**
 * The requests the views hand to the AJAX transport. The transport itself is
 * outside the model: a view records the request it issues, and the body of
 * the matching `.then` is a separate operation that receives the response.
 */
module Http {
  import opened Wrappers
  import opened Strings

  datatype Method = GET | POST | PUT | DELETE

  datatype Request = Request(verb: Method, url: string)

  const PasswordsPath: string := "/api/passwords"
  const MyInfoPath: string := "/api/users/myinfo"

  /** The credential id an item URL `/api/passwords/<id>` addresses, if it is one. */
  function ItemId(url: string): Option<int> {
    var prefix := PasswordsPath + "/";
    if |url| >= |prefix| && url[..|prefix|] == prefix then ParseInt(url[|prefix|..]) else None
  }

  /** The credential id a user-info URL `/api/users/myinfo?id=<id>` asks for, if any. */
  function InfoId(url: string): Option<int> {
    var prefix := MyInfoPath + "?id=";
    if |url| >= |prefix| && url[..|prefix|] == prefix then ParseInt(url[|prefix|..]) else None
  }

  /** The item URL of credential `id` addresses exactly that credential. */
  lemma ItemUrlAddresses(id: int)
    ensures ItemId(PasswordsPath + "/" + IntToString(id)) == Some(id)
  {
    var prefix := PasswordsPath + "/";
    var url := PasswordsPath + "/" + IntToString(id);
    assert url == prefix + IntToString(id);
    PrefixCancel(prefix, IntToString(id), IntToString(id));
    assert url[..|prefix|] == prefix;
    ParseIntToString(id);
  }

  /** The user-info URL for credential `id` asks for exactly that credential. */
  lemma InfoUrlAddresses(id: int)
    ensures InfoId(MyInfoPath + "?id=" + IntToString(id)) == Some(id)
  {
    var prefix := MyInfoPath + "?id=";
    var url := MyInfoPath + "?id=" + IntToString(id);
    assert url == prefix + IntToString(id);
    PrefixCancel(prefix, IntToString(id), IntToString(id));
    assert url[..|prefix|] == prefix;
    ParseIntToString(id);
  }
}
