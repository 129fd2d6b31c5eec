/** The remote spreadsheet service as the submitter sees it. The service is a
    foreign library reached over the network; only the outcomes of its calls
    are modelled: authenticating from service-account credentials, opening a
    spreadsheet by key, selecting a worksheet by title, reading the header row
    and appending a row. */
module Sheets {

  /** A value of the enquiry record or a cell of an appended row; `Null` is Python's `None`. */
  datatype Value = Int(i: int) | Str(s: string) | Null

  /** One worksheet: its header row (row 1) and the body rows appended below it. */
  class Worksheet {
    var header: seq<string>
    var rows: seq<seq<Value>>
    /** The reply the service gives to an append; its content is opaque here. */
    const response: string

    constructor (header: seq<string>, response: string)
      ensures this.header == header && rows == [] && this.response == response
    {
      this.header := header;
      this.rows := [];
      this.response := response;
    }

    /** `append_row`: the row lands after every earlier one; the header is untouched. */
    method AppendRow(row: seq<Value>) returns (reply: string)
      modifies this`rows
      ensures rows == old(rows) + [row]
      ensures reply == response
    {
      rows := rows + [row];
      reply := response;
    }
  }

  /** The three credential fields handed to `service_account_from_dict`. */
  datatype Credentials = Credentials(privateKey: string, clientEmail: string, tokenUri: string)

  /** Building a service account succeeds, or the key material fails to parse (`PyAsn1Error`). */
  datatype AuthResult = Authorized | ParseErr

  /** Opening a spreadsheet by key succeeds, or fails with a token refresh error,
      a transport error, or an API error carrying the service's numeric code. */
  datatype OpenResult = Opened | RefreshErr | TransportErr | ApiErr(code: int)

  /** The outcomes the service gives: which credentials parse, which keys open,
      and the worksheets, by title, of the spreadsheet that opens. */
  datatype Remote = Remote(
    authenticate: Credentials -> AuthResult,
    openByKey: string -> OpenResult,
    worksheets: map<string, Worksheet>)
}
