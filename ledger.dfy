/** The database the pages write to, as far as the payment flows touch it: the
    contribution table with its lookup-then-insert deduplication on the
    provider's transaction id, and the campaign table's running total. */
module Ledger {
  import opened Wrappers
  import opened Campaigns

  /** How many rows carry the transaction id `nsu`. */
  function CountTransaction(rows: seq<Contribution>, nsu: string): (n: nat)
    ensures n <= |rows|
    ensures n == 0 <==> forall i :: 0 <= i < |rows| ==> rows[i].transactionNsu != nsu
  {
    if rows == [] then 0
    else CountTransaction(rows[..|rows| - 1], nsu) + (if rows[|rows| - 1].transactionNsu == nsu then 1 else 0)
  }

  /** `select('id').eq('transaction_nsu', nsu).maybeSingle()` returns a row:
      exactly one row matches (with several, `maybeSingle` fails and its data is
      `null`, which the pages read as "absent"). */
  predicate ExistingTransaction(rows: seq<Contribution>, nsu: string) {
    CountTransaction(rows, nsu) == 1
  }

  /** No two contributions share a transaction id. */
  predicate UniqueTransactions(rows: seq<Contribution>) {
    forall i, j :: 0 <= i < j < |rows| ==> rows[i].transactionNsu != rows[j].transactionNsu
  }

  /** The lookup-then-insert step of the payment flows: the row is inserted
      only when the lookup finds no row with its transaction id and the insert
      succeeds. */
  function RecordIfNew(rows: seq<Contribution>, row: Contribution, insertOk: bool): (r: seq<Contribution>)
    ensures r == rows || r == rows + [row]
    ensures |r| == |rows| + 1 <==> !ExistingTransaction(rows, row.transactionNsu) && insertOk
  {
    if ExistingTransaction(rows, row.transactionNsu) || !insertOk then rows else rows + [row]
  }

  /** Where ids are unique, the lookup finds a row exactly when one exists. */
  lemma {:induction false} ExistingIffPresent(rows: seq<Contribution>, nsu: string)
    requires UniqueTransactions(rows)
    ensures ExistingTransaction(rows, nsu) <==> exists i :: 0 <= i < |rows| && rows[i].transactionNsu == nsu
  {
    if rows != [] {
      var init := rows[..|rows| - 1];
      ExistingIffPresent(init, nsu);
      if rows[|rows| - 1].transactionNsu == nsu {
        assert forall i :: 0 <= i < |init| ==> init[i].transactionNsu != nsu by {
          forall i | 0 <= i < |init| ensures init[i].transactionNsu != nsu {
            assert rows[i] == init[i];
          }
        }
      } else {
        if exists i :: 0 <= i < |rows| && rows[i].transactionNsu == nsu {
          var i :| 0 <= i < |rows| && rows[i].transactionNsu == nsu;
          assert init[i] == rows[i];
        }
      }
    }
  }

  /** The deduplicating insert keeps transaction ids unique. */
  lemma RecordIfNewKeepsUnique(rows: seq<Contribution>, row: Contribution, insertOk: bool)
    requires UniqueTransactions(rows)
    ensures UniqueTransactions(RecordIfNew(rows, row, insertOk))
  {
    if !ExistingTransaction(rows, row.transactionNsu) && insertOk {
      ExistingIffPresent(rows, row.transactionNsu);
    }
  }

  /** After a successful insert, or when the row was already there, exactly one
      row carries the transaction id; a failed insert of a new id leaves none. */
  lemma RecordIfNewCount(rows: seq<Contribution>, row: Contribution, insertOk: bool)
    requires UniqueTransactions(rows)
    ensures var after := RecordIfNew(rows, row, insertOk);
      CountTransaction(after, row.transactionNsu) ==
        if ExistingTransaction(rows, row.transactionNsu) || insertOk then 1 else 0
  {
    var nsu := row.transactionNsu;
    ExistingIffPresent(rows, nsu);
    if !ExistingTransaction(rows, nsu) && insertOk {
      assert (rows + [row])[..|rows|] == rows;
    }
  }

  /** Recording the same transaction again, once it is recorded, changes
      nothing: a retried confirmation never adds a second row. */
  lemma RecordAgainIsNoOp(rows: seq<Contribution>, row: Contribution, again: Contribution, insertOk: bool)
    requires UniqueTransactions(rows)
    requires again.transactionNsu == row.transactionNsu
    ensures var once := RecordIfNew(rows, row, true);
      RecordIfNew(once, again, insertOk) == once
  {
    RecordIfNewCount(rows, row, true);
  }

  /** `update({valor_atual: total}).eq('id', id)`: the campaign with that id, if
      any, gets the total; a failed update changes nothing. */
  function WithRaised(campaigns: map<string, Campaign>, id: string, total: int, updateOk: bool): map<string, Campaign> {
    if updateOk && id in campaigns then campaigns[id := campaigns[id].(valorAtual := total)] else campaigns
  }

  /** The tables `apoiadores` (in insertion order) and `apoios` (by id). */
  class Database {
    var contributions: seq<Contribution>
    var campaigns: map<string, Campaign>

    ghost predicate Valid()
      reads this
    {
      UniqueTransactions(contributions)
    }

    constructor (campaigns: map<string, Campaign>)
      ensures Valid()
      ensures this.contributions == [] && this.campaigns == campaigns
    {
      this.contributions := [];
      this.campaigns := campaigns;
    }

    /** The lookup of `transaction_nsu` followed, when it finds nothing, by the
        insert of `row`; `insertOk` is whether the insert succeeds. `existed` is
        what the lookup found; `saveError` is an insert that was tried and
        failed. */
    method RecordContribution(row: Contribution, insertOk: bool) returns (existed: bool, saveError: bool)
      requires Valid()
      modifies this
      ensures Valid()
      ensures existed == ExistingTransaction(old(contributions), row.transactionNsu)
      ensures saveError <==> !existed && !insertOk
      ensures contributions == RecordIfNew(old(contributions), row, insertOk)
      ensures campaigns == old(campaigns)
    {
      existed := ExistingTransaction(contributions, row.transactionNsu);
      saveError := false;
      if !existed {
        if insertOk {
          RecordIfNewKeepsUnique(contributions, row, insertOk);
          contributions := contributions + [row];
        } else {
          saveError := true;
        }
      }
    }

    /** `update({valor_atual: total}).eq('id', id)`; `updateOk` is whether it
        succeeds. */
    method SetRaised(id: string, total: int, updateOk: bool) returns (updateError: bool)
      requires Valid()
      modifies this
      ensures Valid()
      ensures updateError == !updateOk
      ensures campaigns == WithRaised(old(campaigns), id, total, updateOk)
      ensures contributions == old(contributions)
    {
      updateError := !updateOk;
      if updateOk && id in campaigns {
        campaigns := campaigns[id := campaigns[id].(valorAtual := total)];
      }
    }

    /** The insert of a new campaign row, which the database gives the id `id`;
        `insertOk` is whether it succeeds. */
    method InsertCampaign(id: string, c: Campaign, insertOk: bool) returns (error: bool)
      requires Valid()
      requires c.id == id
      modifies this
      ensures Valid()
      ensures error == !insertOk
      ensures campaigns == if insertOk then old(campaigns)[id := c] else old(campaigns)
      ensures contributions == old(contributions)
    {
      error := !insertOk;
      if insertOk {
        campaigns := campaigns[id := c];
      }
    }
  }
}
