/**
 * The records the client exchanges with its backend and passes between its
 * views: the signed-in user, a payment, a fee structure and the generic API
 * envelope.
 */
module Types {
  import opened Js

  /** A student account; department and level are optional. */
  datatype User = User(
    id: string,
    fullName: string,
    email: string,
    username: string,
    department: Option<string>,
    level: Option<string>)

  /** The three states a payment can be in. */
  datatype PaymentStatus = Pending | Success | Failed

  /** One payment of the history; every field is always present. */
  datatype Payment = Payment(
    id: string,
    reference: string,
    amount: int,
    status: PaymentStatus,
    date: string,
    purpose: string,
    session: string)

  datatype ApiStatus = ApiSuccess | ApiError

  /** The generic API envelope; `data` may be absent. */
  datatype ApiResponse<T> = ApiResponse(status: ApiStatus, message: string, data: Option<T>)

  datatype BreakdownItem = BreakdownItem(item: string, price: int)

  /** The fees of one level: a total and its itemised breakdown, in order. */
  datatype FeeStructure = FeeStructure(level: string, amount: int, breakdown: seq<BreakdownItem>)

  /** The spelling of a status on the wire. */
  function StatusText(s: PaymentStatus): string
  {
    match s
    case Pending => "pending"
    case Success => "success"
    case Failed => "failed"
  }

  /** Reads a status from its wire spelling; any other string is not a status. */
  function StatusFromText(t: string): (r: Option<PaymentStatus>)
    ensures r.Some? <==> t == "pending" || t == "success" || t == "failed"
    ensures r.Some? ==> StatusText(r.value) == t
  {
    if t == "pending" then Some(Pending)
    else if t == "success" then Some(Success)
    else if t == "failed" then Some(Failed)
    else None
  }

  /** Every status reads back from its spelling: the three spellings are distinct. */
  lemma StatusTextRoundTrip(s: PaymentStatus)
    ensures StatusFromText(StatusText(s)) == Some(s)
  {
  }

  /** The sum of the breakdown prices, which the type does not tie to `amount`. */
  function BreakdownTotal(items: seq<BreakdownItem>): int
  {
    if items == [] then 0 else items[0].price + BreakdownTotal(items[1..])
  }

  /** A fee structure whose amount differs from the sum of its prices is a legal value. */
  lemma AmountNotTiedToBreakdown()
    ensures exists f: FeeStructure :: f.amount != BreakdownTotal(f.breakdown)
  {
    var f := FeeStructure("400", 1, []);
    assert f.amount != BreakdownTotal(f.breakdown);
  }
}
