/**
 * What the pages hand to the query cache and read back from it: a query key
 * (an array of strings and numbers) and the status of the query.
 */
module Query {

  /** The status strings a query can report; the pages compare with "loading" and "error". */
  datatype QueryStatus = Pending | Loading | Error | Success

  /** One element of a query-key array. */
  datatype KeyPart = Text(text: string) | Number(number: int)

  type QueryKey = seq<KeyPart>
}
