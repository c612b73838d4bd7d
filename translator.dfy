/** Translation of one Revolut record into a YNAB transaction
    (`_convert_revolut_transaction_to_ynab`). */
module Translator {
  import opened Wrappers
  import opened RawData

  /** The factor the source multiplies the net Revolut amount by. */
  const AmountScale: int := 10

  /** The `cleared` value the source writes on every translated transaction. */
  const Uncleared: string := "uncleared"

  /** The keys the translation reads with `t[key]`, in the order it reads them. */
  const RequiredKeys: seq<string> := ["id", "description", "createdDate", "amount", "fee"]

  /** The timestamp a YNAB `date` is derived from; the calendar conversion itself is not modelled. */
  datatype Date = FromTimestamp(epochMillis: int)

  /** The YNAB transaction the source builds as a dictionary. */
  datatype YnabTransaction = YnabTransaction(
    id: Value,
    importId: Value,
    memo: Value,
    accountId: string,
    date: Date,
    amount: int,
    cleared: string,
    approved: bool,
    deleted: bool,
    payeeName: Value)

  function Sign(x: int): (r: int)
    ensures r == 0 <==> x == 0
    ensures r > 0 <==> x > 0
  {
    if x > 0 then 1 else if x < 0 then -1 else 0
  }

  /** `t.get("merchant", {}).get("name", None)`: AttributeError when the merchant is
      present but is not a dictionary. */
  function PayeeName(t: RawTransaction): (r: Result<Value, PyError>)
    ensures r.Success? <==> ("merchant" in t ==> t["merchant"].Object?)
  {
    if "merchant" !in t then Success(Null)
    else match t["merchant"]
      case Object(fields) => Success(if "name" in fields then fields["name"] else Null)
      case _ => Failure(AttributeError)
  }

  /** The records the translation accepts: every required key present, the timestamp,
      the amount and the fee numbers, and the merchant, if any, a dictionary. */
  predicate Translatable(t: RawTransaction)
  {
    && (forall k :: k in RequiredKeys ==> k in t)
    && t["createdDate"].Int? && t["amount"].Int? && t["fee"].Int?
    && ("merchant" in t ==> t["merchant"].Object?)
  }

  /** The merchant's name when the merchant and its name are present, else `None`. */
  function MerchantName(t: RawTransaction): (v: Value)
    ensures v != Null ==> "merchant" in t && t["merchant"].Object? && "name" in t["merchant"].fields
  {
    if "merchant" in t && t["merchant"].Object? && "name" in t["merchant"].fields
    then t["merchant"].fields["name"]
    else Null
  }

  /** The dictionary literal is evaluated entry by entry, so the first failing lookup or
      operation decides the error. */
  function Translate(t: RawTransaction, accountId: string): (r: Result<YnabTransaction, PyError>)
    // errors
    ensures r.Success? <==> Translatable(t)
    ensures "id" !in t ==> r == Failure(KeyError("id"))
    ensures "id" in t && "description" !in t ==> r == Failure(KeyError("description"))
    ensures "id" in t && "description" in t && "createdDate" !in t ==> r == Failure(KeyError("createdDate"))
    ensures ("id" in t && "description" in t && "createdDate" in t && t["createdDate"].Int? &&
             "amount" !in t) ==> r == Failure(KeyError("amount"))
    ensures ("id" in t && "description" in t && "createdDate" in t && t["createdDate"].Int? &&
             "amount" in t && "fee" !in t) ==> r == Failure(KeyError("fee"))
    ensures r == Failure(TypeError) <==>
              && "id" in t && "description" in t && "createdDate" in t
              && (!t["createdDate"].Int? ||
                  ("amount" in t && "fee" in t && !(t["amount"].Int? && t["fee"].Int?)))
    ensures r.Failure? && r.error.KeyError? ==> r.error.key in RequiredKeys && r.error.key !in t
    ensures r == Failure(AttributeError) ==> "merchant" in t && !t["merchant"].Object?
    // the translated record
    ensures r.Success? ==> r.value.id == t["id"] && r.value.importId == t["id"]
    ensures r.Success? ==> r.value.memo == t["description"] && r.value.accountId == accountId
    ensures r.Success? ==> r.value.date == FromTimestamp(t["createdDate"].i)
    ensures r.Success? ==> r.value.amount == (t["amount"].i - t["fee"].i) * AmountScale
    ensures r.Success? ==> Sign(r.value.amount) == Sign(t["amount"].i - t["fee"].i)
    ensures r.Success? ==> r.value.cleared == Uncleared && !r.value.approved && !r.value.deleted
    ensures r.Success? ==> r.value.payeeName == MerchantName(t)
  {
    if "id" !in t then Failure(KeyError("id"))
    else if "description" !in t then Failure(KeyError("description"))
    else if "createdDate" !in t then Failure(KeyError("createdDate"))
    else if !t["createdDate"].Int? then Failure(TypeError)
    else if "amount" !in t then Failure(KeyError("amount"))
    else if "fee" !in t then Failure(KeyError("fee"))
    else if !(t["amount"].Int? && t["fee"].Int?) then Failure(TypeError)
    else match PayeeName(t)
      case Failure(e) => Failure(e)
      case Success(payee) =>
        Success(YnabTransaction(
          id := t["id"],
          importId := t["id"],
          memo := t["description"],
          accountId := accountId,
          date := FromTimestamp(t["createdDate"].i),
          amount := (t["amount"].i - t["fee"].i) * AmountScale,
          cleared := Uncleared,
          approved := false,
          deleted := false,
          payeeName := payee))
  }

  /** The YNAB amount gives back the Revolut net amount: it is an exact multiple of the scale. */
  lemma AmountRoundTrip(t: RawTransaction, accountId: string)
    requires Translate(t, accountId).Success?
    ensures Translate(t, accountId).value.amount % AmountScale == 0
    ensures Translate(t, accountId).value.amount / AmountScale == t["amount"].i - t["fee"].i
  {
  }

  /** `list(map(lambda t: translate(t, account_id), ts))`: the first record that fails
      aborts the whole batch. */
  function TranslateAll(ts: seq<RawTransaction>, accountId: string)
    : (r: Result<seq<YnabTransaction>, PyError>)
    ensures r.Success? <==> forall k :: 0 <= k < |ts| ==> Translate(ts[k], accountId).Success?
    ensures r.Success? ==>
              |r.value| == |ts| &&
              forall k :: 0 <= k < |ts| ==> Translate(ts[k], accountId) == Success(r.value[k])
    ensures r.Failure? ==>
              exists k :: 0 <= k < |ts| && Translate(ts[k], accountId) == Failure(r.error) &&
                forall j :: 0 <= j < k ==> Translate(ts[j], accountId).Success?
  {
    if ts == [] then Success([])
    else match Translate(ts[0], accountId)
      case Failure(e) => Failure(e)
      case Success(y) =>
        match TranslateAll(ts[1..], accountId)
        case Failure(e) =>
          assert forall k :: 1 <= k < |ts| ==> ts[k] == ts[1..][k - 1];
          Failure(e)
        case Success(ys) =>
          assert forall k :: 1 <= k < |ts| ==> ts[k] == ts[1..][k - 1];
          Success([y] + ys)
  }

  /** The eligible transaction of the filter scenario: amount 1050, fee 50 becomes 10000. */
  lemma TranslateScenario()
    ensures
      var t := map["id" := Str("t3"), "currency" := Str("EUR"), "state" := Str("COMPLETED"),
                   "description" := Str("Coffee"), "createdDate" := Int(1600000000000),
                   "amount" := Int(1050), "fee" := Int(50)];
      Translate(t, "acc") == Success(YnabTransaction(
        Str("t3"), Str("t3"), Str("Coffee"), "acc", FromTimestamp(1600000000000),
        10000, "uncleared", false, false, Null))
  {
  }
}
