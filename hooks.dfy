/** The two invoice loaders: the list hook and the single-invoice hook, each a
    `loading`/`error`/data triple with its fetch transitions. */
module Hooks {
  import opened Js
  import opened Types
  import opened Api

  const ListError := "Failed to fetch invoices."
  const DetailError := "Failed to fetch invoice details."

  /** `useInvoices`: the list, loaded once when the consumer mounts. */
  class InvoiceList {
    var invoices: seq<Invoice>
    var loading: bool
    var error: Option<string>
    /** The requests the list has sent, oldest first. */
    var requests: seq<Request>

    /** The only error the list ever shows is its fixed fetch-failure text. */
    ghost predicate Valid()
      reads this
    {
      error == None || error == Some(ListError)
    }

    /** The state before the first fetch settles: empty, loading, no error. */
    constructor ()
      ensures Valid()
      ensures invoices == [] && loading && error == None && requests == []
    {
      invoices := [];
      loading := true;
      error := None;
      requests := [];
    }

    /** `fetchInvoices`: the error is cleared and loading set, then `getInvoices` either
        replaces the list with exactly what it returned or leaves the list as it was and sets
        the fixed error; loading always ends false. The request goes through `apiClient`, so
        it carries `Authorization` exactly when the stored token is truthy. */
    method FetchInvoices(stored: Option<string>, o: Outcome<Envelope<seq<Invoice>>>)
      requires Valid()
      modifies this
      ensures Valid()
      ensures !loading
      ensures requests == old(requests) + [GetInvoicesRequest(stored)]
      ensures Authorization in requests[|requests| - 1].headers <==> Truthy(stored)
      ensures DataOf(o).Ok? ==> invoices == DataOf(o).payload && error == None
      ensures DataOf(o).Fail? ==> invoices == old(invoices) && error == Some(ListError)
    {
      error := None;
      loading := true;
      requests := requests + [GetInvoicesRequest(stored)];
      match DataOf(o) {
        case Ok(data) =>
          invoices := data;
        case Fail(_) =>
          error := Some(ListError);
      }
      loading := false;
    }
  }

  /** A call the detail hook makes: `getInvoiceByNumber` or `updateInvoice`. Neither is
      defined by the client's API module, so each is an operation with an outcome. */
  datatype DetailCall = GetByNumber(invoiceNumber: string) | Update(invoiceNumber: string, data: UpdateInvoiceData)

  /** `useInvoiceDetail(invoiceNumber)`. */
  class InvoiceDetail {
    const invoiceNumber: Option<string>
    var invoice: Option<Invoice>
    var loading: bool
    var error: Option<string>
    /** The calls made so far, oldest first. */
    var calls: seq<DetailCall>

    /** The error is unset or the fixed fetch-failure text. */
    ghost predicate Valid()
      reads this
    {
      error == None || error == Some(DetailError)
    }

    constructor (invoiceNumber: Option<string>)
      ensures Valid()
      ensures this.invoiceNumber == invoiceNumber
      ensures invoice == None && loading && error == None && calls == []
    {
      this.invoiceNumber := invoiceNumber;
      invoice := None;
      loading := true;
      error := None;
      calls := [];
    }

    /** `fetchInvoice`: without a truthy invoice number nothing happens (so `loading` keeps the
        value it had); otherwise the record is fetched, a success stores it without touching
        `error`, a failure sets the fixed error and keeps the old record; loading ends false.
        A set error is never cleared. */
    method FetchInvoice(o: Outcome<Invoice>)
      requires Valid()
      modifies this
      ensures Valid()
      ensures !Truthy(invoiceNumber) ==> unchanged(this)
      ensures Truthy(invoiceNumber) ==> !loading && calls == old(calls) + [GetByNumber(invoiceNumber.value)]
      ensures Truthy(invoiceNumber) && o.Ok? ==> invoice == Some(o.payload) && error == old(error)
      ensures Truthy(invoiceNumber) && o.Fail? ==> invoice == old(invoice) && error == Some(DetailError)
      ensures old(error).Some? ==> error == old(error)
    {
      if !Truthy(invoiceNumber) {
        return;
      }
      loading := true;
      calls := calls + [GetByNumber(invoiceNumber.value)];
      match o {
        case Ok(data) =>
          invoice := Some(data);
        case Fail(_) =>
          error := Some(DetailError);
      }
      loading := false;
    }

    /** `saveInvoice`: without a truthy invoice number it returns at once; otherwise it calls
        update and then refetches. A failed update rejects with its failure before any
        refetch; a failed refetch is absorbed into `error` and the save still resolves. */
    method SaveInvoice(data: UpdateInvoiceData, updated: Outcome<Invoice>, refetched: Outcome<Invoice>)
      returns (c: Completion)
      requires Valid()
      modifies this
      ensures Valid()
      ensures !Truthy(invoiceNumber) ==> unchanged(this) && c == Resolved
      ensures Truthy(invoiceNumber) && updated.Fail? ==>
                && c == Rejected(updated.failure)
                && calls == old(calls) + [Update(invoiceNumber.value, data)]
                && invoice == old(invoice) && loading == old(loading) && error == old(error)
      ensures Truthy(invoiceNumber) && updated.Ok? ==>
                && c == Resolved && !loading
                && calls == old(calls) + [Update(invoiceNumber.value, data), GetByNumber(invoiceNumber.value)]
                && (refetched.Ok? ==> invoice == Some(refetched.payload) && error == old(error))
                && (refetched.Fail? ==> invoice == old(invoice) && error == Some(DetailError))
      ensures old(error).Some? ==> error == old(error)
    {
      if !Truthy(invoiceNumber) {
        return Resolved;
      }
      calls := calls + [Update(invoiceNumber.value, data)];
      if updated.Fail? {
        return Rejected(updated.failure);
      }
      FetchInvoice(refetched);
      c := Resolved;
    }
  }

  /** Two list fetches that receive the same answer leave the list exactly as one does
      (each sends its own request). */
  method FetchTwiceIsIdempotent(l: InvoiceList, stored: Option<string>, o: Outcome<Envelope<seq<Invoice>>>)
    requires l.Valid()
    modifies l
    ensures l.Valid() && !l.loading
    ensures l.requests == old(l.requests) + [GetInvoicesRequest(stored), GetInvoicesRequest(stored)]
    ensures DataOf(o).Ok? ==> l.invoices == DataOf(o).payload && l.error == None
    ensures DataOf(o).Fail? ==> l.invoices == old(l.invoices) && l.error == Some(ListError)
  {
    l.FetchInvoices(stored, o);
    l.FetchInvoices(stored, o);
  }
}
