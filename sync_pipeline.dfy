/** The sync run (`update_ynab` and `upload_revolut_transactions_to_ynab`): filter the
    downloaded batch, resolve the budget, resolve the account within it, translate every
    transaction and push them to YNAB in one bulk request. */
module SyncPipeline {
  import opened Wrappers
  import opened RawData
  import opened Filter
  import opened Translator
  import opened NameResolver
  import Seqs

  /** What the YNAB side answers: its budgets, and the accounts of each budget id. */
  datatype Destination = Destination(budgets: seq<NamedId>, accountsOf: string -> seq<NamedId>)

  /** The requests a run issues to the YNAB API, in order. */
  datatype Request =
    | GetBudgets
    | GetAccounts(budgetId: string)
    | BulkCreateTransactions(budgetId: string, transactions: seq<YnabTransaction>)

  /** The exceptions a run can end with. */
  datatype SyncError =
    | BudgetNotFound(budgetName: string, available: seq<string>)
    | AccountNotFound(accountName: string, available: seq<string>)
    | Raised(error: PyError)

  /** A run: the requests it issued and the exception it ended with, if any. */
  datatype Run = Run(requests: seq<Request>, error: Option<SyncError>)

  /** The part of the Revolut and YNAB configuration a run reads: the configured currencies,
      the YNAB budget name and the YNAB account name paired with the Revolut account. */
  datatype AccountLink = AccountLink(currencies: seq<string>, budgetName: string, accountName: string)

  /** None of the requests `rs` is a bulk create. */
  predicate NoPush(rs: seq<Request>)
  {
    forall i :: 0 <= i < |rs| ==> !rs[i].BulkCreateTransactions?
  }

  /** The requests `rs` hold exactly one bulk create, and it is the last request. */
  predicate PushedOnceAtEnd(rs: seq<Request>)
  {
    |rs| > 0 && rs[|rs| - 1].BulkCreateTransactions? && NoPush(rs[..|rs| - 1])
  }

  /** `upload_revolut_transactions_to_ynab`: resolution failures raise before anything is
      translated, and the bulk request, issued even for an empty batch, comes last. */
  function Upload(ts: seq<RawTransaction>, budgetName: string, accountName: string, dest: Destination)
    : (r: Run)
    ensures |r.requests| > 0 && r.requests[0] == GetBudgets
    ensures r.error.Some? ==> NoPush(r.requests)
    ensures r.error.None? ==> PushedOnceAtEnd(r.requests)
  {
    match Resolve(dest.budgets, budgetName)
    case Failure(budgets) => Run([GetBudgets], Some(BudgetNotFound(budgetName, budgets)))
    case Success(budgetId) =>
      var rest := UploadToBudget(ts, budgetId, accountName, dest);
      Run([GetBudgets] + rest.requests, rest.error)
  }

  /** The part of the upload after the budget resolved to `budgetId`. */
  function UploadToBudget(ts: seq<RawTransaction>, budgetId: string, accountName: string, dest: Destination)
    : (r: Run)
    ensures |r.requests| > 0 && r.requests[0] == GetAccounts(budgetId)
    ensures r.error.Some? ==> NoPush(r.requests)
    ensures r.error.None? ==> PushedOnceAtEnd(r.requests)
  {
    match Resolve(dest.accountsOf(budgetId), accountName)
    case Failure(accounts) => Run([GetAccounts(budgetId)], Some(AccountNotFound(accountName, accounts)))
    case Success(accountId) =>
      match TranslateAll(ts, accountId)
      case Failure(e) => Run([GetAccounts(budgetId)], Some(Raised(e)))
      case Success(batch) =>
        Run([GetAccounts(budgetId), BulkCreateTransactions(budgetId, batch)], None)
  }

  /** `update_ynab`: the downloaded batch is filtered first, then uploaded. */
  function UpdateYnab(downloaded: seq<RawTransaction>, link: AccountLink, dest: Destination): (r: Run)
    ensures FilterTransactions(downloaded, link.currencies).Failure? ==>
              r.requests == [] && r.error == Some(Raised(FilterTransactions(downloaded, link.currencies).error))
    ensures r.error.Some? ==> NoPush(r.requests)
    ensures r.error.None? ==> PushedOnceAtEnd(r.requests)
  {
    match FilterTransactions(downloaded, link.currencies)
    case Failure(e) => Run([], Some(Raised(e)))
    case Success(ts) => Upload(ts, link.budgetName, link.accountName, dest)
  }

  /** An unknown budget name raises BudgetNotFoundError: no account lookup, no translation,
      no bulk request. */
  lemma UnknownBudgetAborts(ts: seq<RawTransaction>, budgetName: string, accountName: string, dest: Destination)
    requires !Listed(dest.budgets, budgetName)
    ensures Upload(ts, budgetName, accountName, dest)
            == Run([GetBudgets], Some(BudgetNotFound(budgetName, BuildMapping(dest.budgets).names)))
  {
  }

  /** An unknown account name in the resolved budget raises AccountNotFoundError before
      anything is translated or pushed. */
  lemma UnknownAccountAborts(ts: seq<RawTransaction>, budgetName: string, accountName: string,
                             dest: Destination, budgetId: string)
    requires LastListedAs(dest.budgets, budgetName, budgetId)
    requires !Listed(dest.accountsOf(budgetId), accountName)
    ensures Upload(ts, budgetName, accountName, dest)
            == Run([GetBudgets, GetAccounts(budgetId)],
                   Some(AccountNotFound(accountName, BuildMapping(dest.accountsOf(budgetId)).names)))
  {
  }

  /** The bulk request `push` carries, in order, the translation of `fs` with `accountId`. */
  predicate PushesTranslation(push: Request, fs: seq<RawTransaction>, accountId: string)
    requires push.BulkCreateTransactions?
  {
    |push.transactions| == |fs| &&
    forall k :: 0 <= k < |fs| ==> Translate(fs[k], accountId) == Success(push.transactions[k])
  }

  /** Once both names resolve, the run pushes exactly one bulk request, to the resolved budget,
      holding the translation of every transaction in order with the resolved account id;
      a malformed transaction instead raises before the push. */
  lemma ResolvedRunCommitsOnce(ts: seq<RawTransaction>, budgetName: string, accountName: string,
                               dest: Destination, budgetId: string, accountId: string)
    requires LastListedAs(dest.budgets, budgetName, budgetId)
    requires LastListedAs(dest.accountsOf(budgetId), accountName, accountId)
    ensures var r := Upload(ts, budgetName, accountName, dest);
            && (r.error.None? <==> forall k :: 0 <= k < |ts| ==> Translate(ts[k], accountId).Success?)
            && (r.error.None? ==>
                  && |r.requests| == 3
                  && r.requests[..2] == [GetBudgets, GetAccounts(budgetId)]
                  && r.requests[2].BulkCreateTransactions?
                  && r.requests[2].budgetId == budgetId
                  && PushesTranslation(r.requests[2], ts, accountId))
            && (r.error.Some? ==>
                  && r.requests == [GetBudgets, GetAccounts(budgetId)]
                  && r.error.value.Raised?
                  && exists k :: 0 <= k < |ts| && Translate(ts[k], accountId) == Failure(r.error.value.error))
  {
    LastListedUnique(dest.budgets, budgetName, budgetId, Resolve(dest.budgets, budgetName).value);
    LastListedUnique(dest.accountsOf(budgetId), accountName, accountId,
                     Resolve(dest.accountsOf(budgetId), accountName).value);
    var rest := UploadToBudget(ts, budgetId, accountName, dest);
    assert Upload(ts, budgetName, accountName, dest) == Run([GetBudgets] + rest.requests, rest.error);
    match TranslateAll(ts, accountId)
    case Failure(e) =>
      assert rest == Run([GetAccounts(budgetId)], Some(Raised(e)));
      assert [GetBudgets] + rest.requests == [GetBudgets, GetAccounts(budgetId)];
    case Success(batch) =>
      var push := BulkCreateTransactions(budgetId, batch);
      assert rest == Run([GetAccounts(budgetId), push], None);
      assert [GetBudgets] + rest.requests == [GetBudgets, GetAccounts(budgetId), push];
      assert PushesTranslation(push, ts, accountId);
  }

  /** End to end: a run that ends normally pushes, in download order, the translation of
      exactly the eligible downloaded transactions, all on the account the YNAB side lists
      under the configured name, to the budget it lists under the configured name. */
  lemma SuccessfulSyncPushesEligible(downloaded: seq<RawTransaction>, link: AccountLink, dest: Destination)
    requires UpdateYnab(downloaded, link, dest).error.None?
    ensures var r := UpdateYnab(downloaded, link, dest);
            var push := r.requests[|r.requests| - 1];
            && push.BulkCreateTransactions?
            && LastListedAs(dest.budgets, link.budgetName, push.budgetId)
            && exists accountId, fs ::
                 && LastListedAs(dest.accountsOf(push.budgetId), link.accountName, accountId)
                 && SelectsEligible(fs, downloaded, link.currencies)
                 && PushesTranslation(push, fs, accountId)
  {
    var fs := FilterTransactions(downloaded, link.currencies).value;
    FilterSelectsEligible(downloaded, link.currencies);
    var budgetId := Resolve(dest.budgets, link.budgetName).value;
    var accountId := Resolve(dest.accountsOf(budgetId), link.accountName).value;
    ResolvedRunCommitsOnce(fs, link.budgetName, link.accountName, dest, budgetId, accountId);
    var r := Upload(fs, link.budgetName, link.accountName, dest);
    assert r == UpdateYnab(downloaded, link, dest);
    var push := r.requests[2];
    assert LastListedAs(dest.accountsOf(push.budgetId), link.accountName, accountId);
    assert PushesTranslation(push, fs, accountId);
  }

  /** An empty download is not short-circuited: with both names resolved the run still
      pushes one, empty, bulk request. */
  lemma EmptyDownloadStillPushes(link: AccountLink, dest: Destination, budgetId: string, accountId: string)
    requires LastListedAs(dest.budgets, link.budgetName, budgetId)
    requires LastListedAs(dest.accountsOf(budgetId), link.accountName, accountId)
    ensures UpdateYnab([], link, dest)
            == Run([GetBudgets, GetAccounts(budgetId), BulkCreateTransactions(budgetId, [])], None)
  {
    ResolvedRunCommitsOnce([], link.budgetName, link.accountName, dest, budgetId, accountId);
    var r := UpdateYnab([], link, dest);
    assert r.requests == [GetBudgets, GetAccounts(budgetId), r.requests[2]];
  }

  /** Python's `sep.join(parts)`. */
  function Join(sep: string, parts: seq<string>): (s: string)
  {
    if |parts| == 0 then ""
    else if |parts| == 1 then parts[0]
    else parts[0] + sep + Join(sep, parts[1..])
  }

  /** `"'" + "', '".join(names) + "'"`. */
  function QuotedNames(names: seq<string>): (s: string)
  {
    "'" + Join("', '", names) + "'"
  }

  /** The text of the BudgetNotFoundError and AccountNotFoundError exceptions. */
  function Message(e: SyncError): (m: string)
    requires e.BudgetNotFound? || e.AccountNotFound?
  {
    match e
    case BudgetNotFound(name, available) =>
      "Budget named '" + name + "' not found, available ones: " + QuotedNames(available)
    case AccountNotFound(name, available) =>
      "YNAB account named '" + name + "' not found, available ones: " + QuotedNames(available)
  }

  lemma {:induction false} JoinAppend(sep: string, a: seq<string>, b: seq<string>)
    requires |a| > 0 && |b| > 0
    ensures Join(sep, a + b) == Join(sep, a) + sep + Join(sep, b)
    decreases |a|
  {
    if |a| == 1 {
      assert (a + b)[1..] == b;
    } else {
      assert (a + b)[1..] == a[1..] + b;
      JoinAppend(sep, a[1..], b);
    }
  }

  lemma QuoteAround(a: string, b: string)
    ensures "'" + (a + "', '" + b) + "'" == ("'" + a + "'") + ", " + ("'" + b + "'")
  {
  }

  /** The quoted list of `a + b` is the quoted list of `a`, a comma, and the quoted list of
      `b`; a single name is quoted on its own. So the message names every available name,
      each in quotes, in order. */
  lemma QuotedNamesSplit(a: seq<string>, b: seq<string>)
    requires |a| > 0 && |b| > 0
    ensures QuotedNames(a + b) == QuotedNames(a) + ", " + QuotedNames(b)
    ensures QuotedNames([a[0]]) == "'" + a[0] + "'"
  {
    JoinAppend("', '", a, b);
    QuoteAround(Join("', '", a), Join("', '", b));
  }
}
