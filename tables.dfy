/**
 * The two transaction tables, `rental_requests` and `exchange_proposals`,
 * as maps from row id to row. Every row carries its status as the text the
 * screens write; the screens only ever change that status, one row at a
 * time, through `.update({ status }).eq("id", id)`.
 */
module Tables {
  import opened Wrappers

  /** A stored row: its own fields and its status text. */
  datatype Record<F> = Record(fields: F, status: string)

  datatype RentalFields = RentalFields(
    bookId: string, requesterId: string, ownerId: string, startDate: string, endDate: string)

  datatype ExchangeFields = ExchangeFields(
    bookRequestedId: string, bookOfferedId: string, requesterId: string, ownerId: string, message: string)

  type RentalRequest = Record<RentalFields>
  type ExchangeProposal = Record<ExchangeFields>

  /** Which table a transaction lives in. */
  datatype Kind = Rental | Exchange

  /** A row as the list queries return it, joined with its book(s) and both parties. */
  datatype BookJoin = BookJoin(id: string, title: string, coverImage: Option<string>, rentalPrice: Option<int>)
  datatype ProfileJoin = ProfileJoin(id: string, name: string, avatarUrl: Option<string>)
  datatype RentalJoin = RentalJoin(
    id: string, status: string, createdAt: string, book: BookJoin,
    requester: ProfileJoin, owner: ProfileJoin, startDate: string, endDate: string)
  datatype ExchangeJoin = ExchangeJoin(
    id: string, status: string, createdAt: string, bookRequested: BookJoin, bookOffered: BookJoin,
    requester: ProfileJoin, owner: ProfileJoin)

  /** `.update({ status }).eq("id", id)`: only that row's status changes, and an unknown id changes nothing. */
  function SetStatus<F>(rows: map<string, Record<F>>, id: string, status: string): (r: map<string, Record<F>>)
    ensures r.Keys == rows.Keys
    ensures id in rows ==> r[id] == rows[id].(status := status)
    ensures forall k :: k in rows && k != id ==> r[k] == rows[k]
  {
    if id in rows then rows[id := rows[id].(status := status)] else rows
  }

  /** `.select("*").eq("status", status)`: the ids of the rows with that status. */
  function WithStatus<F>(rows: map<string, Record<F>>, status: string): (ids: set<string>)
    ensures forall k :: k in ids <==> k in rows && rows[k].status == status
  {
    set k | k in rows.Keys && rows[k].status == status
  }

  /** Moving one row from one status to another adds exactly that row to the rows with the new status. */
  lemma {:induction false} SetStatusCount<F>(rows: map<string, Record<F>>, id: string, from: string, to: string)
    requires id in rows && rows[id].status == from && from != to
    ensures |WithStatus(SetStatus(rows, id, to), to)| == |WithStatus(rows, to)| + 1
    ensures |WithStatus(SetStatus(rows, id, to), from)| + 1 == |WithStatus(rows, from)|
  {
    var after := SetStatus(rows, id, to);
    assert WithStatus(after, to) == WithStatus(rows, to) + {id};
    assert WithStatus(rows, from) == WithStatus(after, from) + {id};
  }

  /** A write leaves every other status count alone. */
  lemma SetStatusOtherCount<F>(rows: map<string, Record<F>>, id: string, from: string, to: string, other: string)
    requires id in rows && rows[id].status == from && other != from && other != to
    ensures WithStatus(SetStatus(rows, id, to), other) == WithStatus(rows, other)
  {
  }

  /** The store holding both tables. */
  class Store {
    var rentalRequests: map<string, RentalRequest>
    var exchangeProposals: map<string, ExchangeProposal>

    constructor (rentals: map<string, RentalRequest>, exchanges: map<string, ExchangeProposal>)
      ensures rentalRequests == rentals && exchangeProposals == exchanges
    {
      rentalRequests := rentals;
      exchangeProposals := exchanges;
    }

    /**
     * The status write both screens use: the table follows the kind, any
     * status text is accepted whatever the row's current status, and
     * `failed` (the store's error) leaves both tables as they were.
     */
    method UpdateStatus(kind: Kind, id: string, status: string, failed: bool)
      modifies this
      ensures failed ==> rentalRequests == old(rentalRequests) && exchangeProposals == old(exchangeProposals)
      ensures !failed && kind == Rental ==>
        rentalRequests == SetStatus(old(rentalRequests), id, status) && exchangeProposals == old(exchangeProposals)
      ensures !failed && kind == Exchange ==>
        exchangeProposals == SetStatus(old(exchangeProposals), id, status) && rentalRequests == old(rentalRequests)
    {
      if failed {
        return;
      }
      if kind == Rental {
        rentalRequests := SetStatus(rentalRequests, id, status);
      } else {
        exchangeProposals := SetStatus(exchangeProposals, id, status);
      }
    }
  }
}
