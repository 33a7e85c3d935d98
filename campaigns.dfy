/** The two tables the pages read and write: campaigns (`apoios`) and
    contributions (`apoiadores`), with the campaign rules the pages share. */
module Campaigns {
  import opened Wrappers
  import opened JsText
  import Infinitepay

  /** A row of `apoios`. Amounts are integer cents. */
  datatype Campaign = Campaign(
    id: string,
    titulo: string,
    descricao: string,
    metaValor: int,
    valorAtual: int,
    imagemUrl: Option<string>,
    handleInfinitepay: string,
    userId: Option<string>,
    status: Option<string>)

  /** A row of `apoiadores`; `transactionNsu` is the provider's transaction id,
      the key the payment flows deduplicate on. */
  datatype Contribution = Contribution(
    apoioId: string, nome: string, email: string, valor: int, transactionNsu: string)

  /** `campanhaFinalizada`: the goal is reached or the campaign is marked
      `'concluido'`. The support buttons are disabled exactly then. */
  predicate IsFinished(c: Campaign): (b: bool)
    ensures !b ==> c.valorAtual < c.metaValor && c.status != Some("concluido")
    ensures c.valorAtual >= c.metaValor ==> b
  {
    c.valorAtual >= c.metaValor || c.status == Some("concluido")
  }

  /** `String(x)` of a nullable id: a `user_id` that is `null` in the row reads
      `"null"`. */
  function StringForm(o: Option<string>): string {
    if o.Some? then o.value else "null"
  }

  /** `isOwner`: a user is signed in, the campaign is loaded, and the trimmed
      string forms of the two ids are equal. */
  predicate IsOwner(user: Option<Infinitepay.UserData>, campaign: Option<Campaign>): (b: bool)
    ensures b ==> user.Some? && campaign.Some?
    ensures b && campaign.value.userId.Some? ==> Trim(campaign.value.userId.value) == Trim(user.value.id)
  {
    user.Some? && campaign.Some? && Trim(StringForm(campaign.value.userId)) == Trim(user.value.id)
  }

  /** Ownership does not depend on white space around either id. */
  lemma OwnerIgnoresPadding(user: Infinitepay.UserData, c: Campaign, owner: string,
                            pre1: string, post1: string, pre2: string, post2: string)
    requires AllWhitespace(pre1) && AllWhitespace(post1) && AllWhitespace(pre2) && AllWhitespace(post2)
    requires c.userId == Some(pre1 + owner + post1) && user.id == pre2 + owner + post2
    ensures IsOwner(Some(user), Some(c))
  {
    TrimIgnoresPadding(pre1, owner, post1);
    TrimIgnoresPadding(pre2, owner, post2);
  }
}
