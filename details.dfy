/** The coin-details page's choice between the info endpoint and the quote it already holds. */
module Details {
  import opened Wrappers
  import opened Text
  import opened Fetcher

  /** The description and links only the info endpoint supplies. */
  datatype InfoExtra = InfoExtra(description: string, website: seq<string>, explorer: seq<string>, reddit: seq<string>)

  /** `coinInfo`: the basic fields, plus the extras when the info endpoint answered. */
  datatype CoinInfo = CoinInfo(id: nat, name: string, symbol: string, slug: string, extra: Option<InfoExtra>)

  /** The info call: a thrown error, or the first value of its `data` record (if there is one). */
  datatype InfoReply = InfoThrown(message: string) | InfoData(first: Option<CoinInfo>)

  /** A refusal by the info endpoint: the error message mentions 403 or Forbidden. */
  predicate IsForbidden(message: string) {
    Contains(message, "403") || Contains(message, "Forbidden")
  }

  /**
   * The try/catch around the info call. `coinInfo` starts as the quote's id, name, symbol and
   * slug with no extras; an answer replaces it, an empty answer keeps it, a refusal keeps it too,
   * and any other error is rethrown (a `Failure` with its message).
   */
  function ChooseInfo(id: nat, name: string, symbol: string, slug: string, reply: InfoReply): (r: Result<CoinInfo>)
    ensures r.Failure? <==> reply.InfoThrown? && !IsForbidden(reply.message)
    ensures r.Failure? ==> r.message == reply.message
    ensures reply.InfoData? && reply.first.Some? ==> r == Success(reply.first.value)
    ensures (reply.InfoData? && reply.first.None?) || (reply.InfoThrown? && IsForbidden(reply.message))
      ==> r.Success? && r.value.extra.None?
          && r.value.id == id && r.value.name == name && r.value.symbol == symbol && r.value.slug == slug
  {
    var basic := CoinInfo(id, name, symbol, slug, None);
    match reply
    case InfoData(first) => Success(first.GetOr(basic))
    case InfoThrown(message) =>
      if IsForbidden(message) then Success(basic) else Failure(message)
  }

  /** A 403 reply from the info endpoint never fails the details page: the quote's fields are used. */
  lemma ForbiddenInfoFallsBack(id: nat, name: string, symbol: string, slug: string,
                               providerMessage: string, statusText: string)
    ensures ChooseInfo(id, name, symbol, slug, InfoThrown(ErrorMessage(403, providerMessage, statusText)))
         == Success(CoinInfo(id, name, symbol, slug, None))
  {
    ForbiddenMentions403(providerMessage, statusText);
  }
}
