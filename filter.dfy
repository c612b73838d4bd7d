/** Eligibility filter applied to the downloaded Revolut batch (`filter_revolut_transactions`). */
module Filter {
  import opened Wrappers
  import opened RawData
  import Seqs

  /** Lifecycle states of temporary transactions that Revolut later replaces by
      permanent ones under a different id. */
  const TemporaryStates: seq<string> := ["DECLINED", "FAILED", "REVERTED"]

  /** The currency test of the first pass: `x["currency"] in currency`. */
  function CurrencyAllowed(currencies: seq<string>): (p: RawTransaction -> bool)
  {
    (t: RawTransaction) => "currency" in t && t["currency"].Str? && t["currency"].s in currencies
  }

  /** The state test of the second pass: `x["state"] not in filtered_types`. */
  predicate IsPermanent(t: RawTransaction)
  {
    "state" in t && !(t["state"].Str? && t["state"].s in TemporaryStates)
  }

  /** A transaction that a successful filter keeps. */
  predicate Eligible(currencies: seq<string>, t: RawTransaction)
  {
    CurrencyAllowed(currencies)(t) && IsPermanent(t)
  }

  /** The two passes of the filter. The first pass reads `currency` of every record,
      the second reads `state` of every record the first pass kept; a record without
      the key read raises KeyError. */
  function FilterTransactions(ts: seq<RawTransaction>, currencies: seq<string>)
    : (r: Result<seq<RawTransaction>, PyError>)
    ensures r == Failure(KeyError("currency")) <==> !AllHaveKey(ts, "currency")
    ensures r == Failure(KeyError("state")) <==>
              AllHaveKey(ts, "currency") &&
              exists i :: 0 <= i < |ts| && CurrencyAllowed(currencies)(ts[i]) && "state" !in ts[i]
    ensures r.Success? || r == Failure(KeyError("currency")) || r == Failure(KeyError("state"))
    ensures r.Success? ==> Seqs.IsSubsequence(r.value, ts)
    ensures r.Success? ==> forall t :: t in r.value <==> t in ts && Eligible(currencies, t)
    ensures r.Success? ==> forall t :: multiset(r.value)[t] == if Eligible(currencies, t) then multiset(ts)[t] else 0
  {
    if !AllHaveKey(ts, "currency") then Failure(KeyError("currency"))
    else
      var sameCurrency := Seqs.Filter(CurrencyAllowed(currencies), ts);
      StateCheckedOnKept(ts, currencies);
      if !AllHaveKey(sameCurrency, "state") then Failure(KeyError("state"))
      else
        var permanent := Seqs.Filter(IsPermanent, sameCurrency);
        Seqs.FilterIsSubsequence(CurrencyAllowed(currencies), ts);
        Seqs.FilterIsSubsequence(IsPermanent, sameCurrency);
        Seqs.SubsequenceTransitive(permanent, sameCurrency, ts);
        assert forall t :: multiset(permanent)[t] == if Eligible(currencies, t) then multiset(ts)[t] else 0 by {
          forall t ensures multiset(permanent)[t] == if Eligible(currencies, t) then multiset(ts)[t] else 0 {
            Seqs.FilterCount(CurrencyAllowed(currencies), ts, t);
            Seqs.FilterCount(IsPermanent, sameCurrency, t);
          }
        }
        Success(permanent)
  }

  /** The second pass reads `state` exactly of the records whose currency is allowed. */
  lemma StateCheckedOnKept(ts: seq<RawTransaction>, currencies: seq<string>)
    ensures AllHaveKey(Seqs.Filter(CurrencyAllowed(currencies), ts), "state") <==>
            forall i :: 0 <= i < |ts| && CurrencyAllowed(currencies)(ts[i]) ==> "state" in ts[i]
  {
    var kept := Seqs.Filter(CurrencyAllowed(currencies), ts);
    if !AllHaveKey(kept, "state") {
      var j :| 0 <= j < |kept| && "state" !in kept[j];
      assert kept[j] in kept;
    }
    if exists i :: 0 <= i < |ts| && CurrencyAllowed(currencies)(ts[i]) && "state" !in ts[i] {
      var i :| 0 <= i < |ts| && CurrencyAllowed(currencies)(ts[i]) && "state" !in ts[i];
      assert ts[i] in kept;
    }
  }

  /** `fs` is what a successful filter of `ts` returns: an order-preserving subsequence
      holding exactly the eligible records, each as often as in `ts`. */
  ghost predicate SelectsEligible(fs: seq<RawTransaction>, ts: seq<RawTransaction>, currencies: seq<string>)
  {
    && Seqs.IsSubsequence(fs, ts)
    && (forall t :: t in fs <==> t in ts && Eligible(currencies, t))
    && (forall t :: multiset(fs)[t] == if Eligible(currencies, t) then multiset(ts)[t] else 0)
  }

  lemma FilterSelectsEligible(ts: seq<RawTransaction>, currencies: seq<string>)
    requires FilterTransactions(ts, currencies).Success?
    ensures SelectsEligible(FilterTransactions(ts, currencies).value, ts, currencies)
  {
  }

  /** A batch whose every record is eligible passes the filter unchanged. */
  lemma {:induction false} FilterKeepsEligibleBatch(ts: seq<RawTransaction>, currencies: seq<string>)
    requires forall i :: 0 <= i < |ts| ==> Eligible(currencies, ts[i])
    ensures FilterTransactions(ts, currencies) == Success(ts)
  {
    Seqs.FilterKeepsAll(CurrencyAllowed(currencies), ts);
    Seqs.FilterKeepsAll(IsPermanent, ts);
  }

  /** Filtering an already filtered batch returns it unchanged. */
  lemma {:induction false} FilterIdempotent(ts: seq<RawTransaction>, currencies: seq<string>)
    requires FilterTransactions(ts, currencies).Success?
    ensures FilterTransactions(FilterTransactions(ts, currencies).value, currencies)
            == FilterTransactions(ts, currencies)
  {
    var fs := FilterTransactions(ts, currencies).value;
    assert forall i :: 0 <= i < |fs| ==> Eligible(currencies, fs[i]) by {
      forall i | 0 <= i < |fs| ensures Eligible(currencies, fs[i]) {
        assert fs[i] in fs;
      }
    }
    FilterKeepsEligibleBatch(fs, currencies);
  }

  /** A batch of three: one in a currency not configured, one reverted, one eligible.
      Only the eligible one survives. */
  lemma FilterScenario()
    ensures
      var usd := map["id" := Str("t1"), "currency" := Str("USD"), "state" := Str("COMPLETED")];
      var reverted := map["id" := Str("t2"), "currency" := Str("EUR"), "state" := Str("REVERTED")];
      var good := map["id" := Str("t3"), "currency" := Str("EUR"), "state" := Str("COMPLETED")];
      FilterTransactions([usd, reverted, good], ["EUR"]) == Success([good])
  {
    var usd := map["id" := Str("t1"), "currency" := Str("USD"), "state" := Str("COMPLETED")];
    var reverted := map["id" := Str("t2"), "currency" := Str("EUR"), "state" := Str("REVERTED")];
    var good := map["id" := Str("t3"), "currency" := Str("EUR"), "state" := Str("COMPLETED")];
    var eur := CurrencyAllowed(["EUR"]);
    assert !eur(usd) && eur(reverted) && eur(good);
    assert !IsPermanent(reverted) && IsPermanent(good);
    assert [usd, reverted, good][1..] == [reverted, good] && [reverted, good][1..] == [good];
    assert Seqs.Filter(eur, [good]) == [good];
    assert Seqs.Filter(eur, [reverted, good]) == [reverted, good];
    assert Seqs.Filter(eur, [usd, reverted, good]) == [reverted, good];
    assert Seqs.Filter(IsPermanent, [good]) == [good];
    assert Seqs.Filter(IsPermanent, [reverted, good]) == [good];
  }
}
