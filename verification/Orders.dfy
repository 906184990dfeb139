/** The vocabulary of the reference matching engine: sides, resting orders, the
    price-time priority relation and the messages exchanged with a session. */
module Orders {
  import opened Options

  datatype Side = Buy | Sell {
    function Opposite(): Side { if Buy? then Sell else Buy }
  }

  datatype Kind = Limit | Market

  /** A limit order that rests on the book, as a value. */
  datatype Resting = Resting(id: string, side: Side, price: real, quantity: int,
                             remaining: int, enteredAt: int, session: string)

  /** `Less` of the two heaps: the better price first, then the earlier entry time. */
  predicate Better(side: Side, p: real, t: int, p': real, t': int) {
    if p != p' then (if side.Buy? then p > p' else p < p') else t < t'
  }

  predicate Before(side: Side, a: Resting, b: Resting) {
    Better(side, a.price, a.enteredAt, b.price, b.enteredAt)
  }

  /** May an incoming order trade with a resting order at price `p`? */
  predicate Crosses(side: Side, kind: Kind, limit: real, p: real) {
    kind.Market? || (if side.Buy? then p <= limit else limit <= p)
  }

  function Min(a: int, b: int): int { if a < b then a else b }

  /** An order message, with the fields a client may fill in freely. */
  datatype Request = Request(id: string, side: string, kind: string, price: real, quantity: int)

  datatype Reason =
    | InvalidOrder | InvalidQuantity | InvalidPrice | DuplicateOrderId
    | NoLiquidity | UnknownOrder | Unauthorized | UnknownType

  /** What a message to a session says, apart from the order id and the timestamp. */
  datatype Body =
    | Ack
    | Fill(qty: int, price: real, remaining: int)
    | CancelAck
    | Reject(reason: Reason)

  datatype Message = Message(body: Body, id: string, timestamp: int)

  predicate IdChar(c: char) {
    'A' <= c <= 'Z' || 'a' <= c <= 'z' || '0' <= c <= '9' || c == '/' || c == '-'
  }

  predicate ValidId(id: string) {
    0 < |id| <= 64 && forall i :: 0 <= i < |id| ==> IdChar(id[i])
  }

  /** The field checks made before the book is locked, in the order they are made. */
  function Malformed(m: Request): Option<Reason> {
    if !ValidId(m.id) || (m.side != "buy" && m.side != "sell") || (m.kind != "limit" && m.kind != "market")
    then Some(InvalidOrder)
    else if m.quantity <= 0 then Some(InvalidQuantity)
    else if m.kind == "limit" && m.price <= 0.0 then Some(InvalidPrice)
    else None
  }

  function SideOf(m: Request): Side { if m.side == "buy" then Buy else Sell }

  function KindOf(m: Request): Kind { if m.kind == "limit" then Limit else Market }
}
