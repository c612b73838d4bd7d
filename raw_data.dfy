/** The shape of a transaction as the Revolut API returns it: a dictionary from
    string keys to JSON-like values, read with Python's dynamic lookups. */
module RawData {

  /** The JSON values a Revolut record holds: `None`, integers, strings and nested dictionaries. */
  datatype Value =
    | Null
    | Int(i: int)
    | Str(s: string)
    | Object(fields: map<string, Value>)

  /** One Revolut transaction record (`id`, `currency`, `state`, `createdDate`, `amount`,
      `fee`, `description`, optional `merchant`, and whatever else the API sends). */
  type RawTransaction = map<string, Value>

  /** The Python exceptions that the core's dictionary lookups and arithmetic can raise. */
  datatype PyError =
    | KeyError(key: string)  // `d[key]` on a dictionary without `key`
    | TypeError              // arithmetic on a value that is not a number
    | AttributeError         // `.get` on a value that is not a dictionary

  /** Every record of `ts` has the key `key`, so `t[key]` raises no KeyError. */
  predicate AllHaveKey(ts: seq<RawTransaction>, key: string)
  {
    forall i :: 0 <= i < |ts| ==> key in ts[i]
  }
}
