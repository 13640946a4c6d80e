/** The server's records as the three views receive them in API responses. */
module Records {
  /** A stored credential (one element of `passwords` in a response). */
  datatype Credential = Credential(
    id: int,
    siteName: string,
    siteLogin: string,
    sitePwd: string,
    siteUrl: string,
    creatorId: int,
    orgId: int,
    categoryId: int)

  /** An element of `orgs` in `/api/users/myinfo`. */
  datatype Org = Org(orgId: int, orgName: string, orgIcon: string)

  /** An element of `categories` in `/api/users/myinfo`. */
  datatype Category = Category(catId: int, catName: string, catIcon: string)

  /** The value of `Number(user_id)`: an integer, or NaN when the text is not a number. */
  datatype JsNumber = NaN | Num(value: int)
}
