/** The admin transactions page: a role-guarded, paginated listing of the credit ledger
    and a CSV export of at most 1000 rows. */
module AdminTransactions {
  import opened Wrappers
  import opened Text
  import opened Web
  import opened Db
  import opened Admin
  import Hooks

  const PAGE_SIZE := 50
  const EXPORT_LIMIT := 1000

  /** `searchParams.get(name) || undefined`: an empty parameter is no parameter. */
  function FilterParam(p: Option<string>): (r: Option<string>)
    ensures r.Some? <==> Truthy(p)
    ensures r.Some? ==> r == p
  {
    if Truthy(p) then p else None
  }

  /** `parseInt(searchParams.get('page') || '1')`, `None` standing for `NaN`; a missing or
      empty parameter reads as page 1. */
  function PageNumber(pageParam: Option<string>, parseInt: string -> Option<int>): (r: Option<int>)
    ensures !Truthy(pageParam) ==> r == Some(1)
    ensures Truthy(pageParam) ==> r == parseInt(pageParam.value)
  {
    if Truthy(pageParam) then parseInt(pageParam.value) else Some(1)
  }

  /** `(page - 1) * limit`; `NaN` stays `NaN`. */
  function Offset(page: Option<int>): (r: Option<int>)
    ensures r.Some? <==> page.Some?
    ensures page.Some? && page.value >= 1 ==> r.value >= 0 && r.value % PAGE_SIZE == 0
    ensures page.Some? && page.value < 1 ==> r.value < 0
    ensures page.Some? ==> r.value / PAGE_SIZE + 1 == page.value
  {
    if page.Some? then Some((page.value - 1) * PAGE_SIZE) else None
  }

  /** `Math.ceil(total / limit)`. */
  function TotalPages(total: nat): (r: nat)
    ensures r * PAGE_SIZE >= total
    ensures r > 0 ==> (r - 1) * PAGE_SIZE < total
    ensures r == 0 <==> total == 0
  {
    (total + PAGE_SIZE - 1) / PAGE_SIZE
  }

  /** The query `load` sends. */
  function ListQuery(userIdParam: Option<string>, typeParam: Option<string>, page: Option<int>): TxQuery {
    TxQuery(FilterParam(userIdParam), FilterParam(typeParam), None, None, Some(PAGE_SIZE), Offset(page))
  }

  /** The query `export` sends: no offset. */
  function ExportQuery(userIdParam: Option<string>, typeParam: Option<string>): TxQuery {
    TxQuery(FilterParam(userIdParam), FilterParam(typeParam), None, None, Some(EXPORT_LIMIT), None)
  }

  datatype TxPage = TxPage(transactions: seq<CreditTx>, total: nat, page: Option<int>, limit: nat, totalPages: nat)

  /** What `load` answers: a redirect, the error the store throws for a negative `skip`,
      or the page. */
  datatype LoadOutcome = Redirected(to: PageRedirect) | QueryThrew(error: QueryError) | Listed(data: TxPage)

  function LoadTransactions(s: State, user: Option<LocalUser>, userIdParam: Option<string>, typeParam: Option<string>,
                            pageParam: Option<string>, parseInt: string -> Option<int>): (r: LoadOutcome)
    ensures r.Redirected? <==> !IsAdmin(user)
    ensures r.Redirected? ==> r.to == PageRedirect(303, "/dashboard")
    ensures r.QueryThrew? <==>
      IsAdmin(user) && PageNumber(pageParam, parseInt).Some? && PageNumber(pageParam, parseInt).value < 1
    ensures r.Listed? ==>
      var q := ListQuery(userIdParam, typeParam, PageNumber(pageParam, parseInt));
      && r.data.limit == PAGE_SIZE
      && r.data.page == PageNumber(pageParam, parseInt)
      && r.data.total == |Matching(s, q)|
      && r.data.totalPages == TotalPages(r.data.total)
      && r.data.transactions == CreditTransactions(s, q).value.0
  {
    if !IsAdmin(user) then Redirected(PageRedirect(303, "/dashboard"))
    else
      var page := PageNumber(pageParam, parseInt);
      var q := ListQuery(userIdParam, typeParam, page);
      match CreditTransactions(s, q)
      case Failure(e) => QueryThrew(e)
      case Success((items, total)) => Listed(TxPage(items, total, page, PAGE_SIZE, TotalPages(total)))
  }

  /** The hook never puts a role into the locals, so every request to the page is
      redirected. */
  lemma LoadAfterHookRedirects(s: State, cookie: Option<string>, now: int, userIdParam: Option<string>,
                               typeParam: Option<string>, pageParam: Option<string>, parseInt: string -> Option<int>)
    ensures LoadTransactions(Hooks.Handle(s, cookie, now).0, Hooks.Handle(s, cookie, now).1.user,
                             userIdParam, typeParam, pageParam, parseInt).Redirected?
  {
    Hooks.LocalsCarryNoRole(s, cookie, now);
  }

  /** Page `p` shows the selected rows newest first from position `(p - 1) * 50`, 50 of
      them or as many as remain, and it is non-empty exactly when `1 <= p <= totalPages`. */
  lemma PageWindow(s: State, user: Option<LocalUser>, userIdParam: Option<string>, typeParam: Option<string>,
                   pageParam: Option<string>, parseInt: string -> Option<int>)
    requires IsAdmin(user)
    requires PageNumber(pageParam, parseInt).Some?
    ensures var p := PageNumber(pageParam, parseInt).value;
      var r := LoadTransactions(s, user, userIdParam, typeParam, pageParam, parseInt);
      var rows := Matching(s, ListQuery(userIdParam, typeParam, Some(p)));
      && (p >= 1 <==> r.Listed?)
      && (r.Listed? ==>
          && |r.data.transactions| <= PAGE_SIZE
          && |r.data.transactions| == (var skip := (p - 1) * PAGE_SIZE;
                                       if skip >= |rows| then 0
                                       else if skip + PAGE_SIZE <= |rows| then PAGE_SIZE
                                       else |rows| - skip)
          && (r.data.transactions != [] <==> p <= r.data.totalPages)
          && forall k :: 0 <= k < |r.data.transactions| ==>
               r.data.transactions[k] == rows[|rows| - 1 - ((p - 1) * PAGE_SIZE + k)])
  {
    var p := PageNumber(pageParam, parseInt).value;
    var q := ListQuery(userIdParam, typeParam, Some(p));
    var r := LoadTransactions(s, user, userIdParam, typeParam, pageParam, parseInt);
    if p >= 1 {
      var total := |Matching(s, q)|;
      var c := CreditTransactions(s, q);
      assert Skip(q) == (p - 1) * PAGE_SIZE && Take(q) == PAGE_SIZE;
      assert c.Success?;
      assert r.data.transactions == c.value.0 && r.data.total == total;
      CeilingBound(p, total, TotalPages(total));
    }
  }

  /** `(p - 1) * 50 < total` exactly when `p <= ceil(total / 50)`. */
  lemma CeilingBound(p: int, total: nat, pages: nat)
    requires p >= 1
    requires pages * PAGE_SIZE >= total
    requires pages > 0 ==> (pages - 1) * PAGE_SIZE < total
    ensures (p - 1) * PAGE_SIZE < total <==> p <= pages
  {
    if p <= pages {
      assert (p - 1) * PAGE_SIZE <= (pages - 1) * PAGE_SIZE;
    } else {
      assert (p - 1) * PAGE_SIZE >= pages * PAGE_SIZE;
    }
  }

  /** A `NaN` page number reads as offset 0, the same rows as page 1. */
  lemma NaNPageIsFirstPage(s: State, user: Option<LocalUser>, userIdParam: Option<string>, typeParam: Option<string>,
                           pageParam: Option<string>, parseInt: string -> Option<int>)
    requires IsAdmin(user)
    requires PageNumber(pageParam, parseInt).None?
    ensures var r := LoadTransactions(s, user, userIdParam, typeParam, pageParam, parseInt);
      && r.Listed?
      && r.data.page.None?
      && r.data.transactions == LoadTransactions(s, user, userIdParam, typeParam, None, parseInt).data.transactions
  {
    var nan := ListQuery(userIdParam, typeParam, None);
    var first := ListQuery(userIdParam, typeParam, Some(1));
    FilterSamePredicate(s.txs, (tx: CreditTx) => Selected(nan, tx), (tx: CreditTx) => Selected(first, tx));
    assert Matching(s, nan) == Matching(s, first);
    assert Skip(nan) == Skip(first) == 0 && Take(nan) == Take(first);
    assert CreditTransactions(s, nan) == CreditTransactions(s, first);
  }

  /** A condition that holds on every row keeps them all. */
  lemma {:induction false} FilterKeepsAll<T(!new)>(rows: seq<T>, p: T -> bool)
    requires forall x :: x in rows ==> p(x)
    ensures Filter(rows, p) == rows
  {
    if rows != [] {
      FilterKeepsAll(rows[..|rows| - 1], p);
      assert rows == rows[..|rows| - 1] + [rows[|rows| - 1]];
    }
  }

  /** Empty `userId` and `type` parameters filter nothing: the listing counts the whole
      ledger, as with no parameters at all. */
  lemma EmptyParamsFilterNothing(s: State, user: Option<LocalUser>, pageParam: Option<string>,
                                 parseInt: string -> Option<int>)
    requires IsAdmin(user)
    requires LoadTransactions(s, user, Some(""), Some(""), pageParam, parseInt).Listed?
    ensures LoadTransactions(s, user, Some(""), Some(""), pageParam, parseInt)
         == LoadTransactions(s, user, None, None, pageParam, parseInt)
    ensures LoadTransactions(s, user, Some(""), Some(""), pageParam, parseInt).data.total == |s.txs|
  {
    var q := ListQuery(None, None, PageNumber(pageParam, parseInt));
    FilterKeepsAll(s.txs, (tx: CreditTx) => Selected(q, tx));
  }

  // ----- export -----

  datatype ExportFile = ExportFile(exportData: string, fileName: string)

  /** The email the export shows for a user id, when the user exists. */
  function EmailOf(s: State): Id -> Option<string> {
    (id: Id) => if UserIndex(s.users, id).Some? then Some(s.users[UserIndex(s.users, id).value].email) else None
  }

  /** `export`: a bare 401 to anyone but an admin; otherwise the CSV of the first 1000
      selected rows, newest first, named after the date part of the ISO timestamp
      `isoNow`. `iso` renders a row's timestamp. */
  function Export(s: State, user: Option<LocalUser>, userIdParam: Option<string>, typeParam: Option<string>,
                  isoNow: string, iso: int -> string): (r: Result<ExportFile, int>)
    ensures r.Failure? <==> !IsAdmin(user)
    ensures r.Failure? ==> r.error == 401
    ensures r.Success? ==> r.value.fileName == "transactions-" + Before(isoNow, 'T') + ".csv"
    ensures r.Success? ==>
      r.value.exportData == TransactionCsv(CreditTransactions(s, ExportQuery(userIdParam, typeParam)).value.0, EmailOf(s), iso)
  {
    if !IsAdmin(user) then Failure(401)
    else
      var items := CreditTransactions(s, ExportQuery(userIdParam, typeParam)).value.0;
      Success(ExportFile(TransactionCsv(items, EmailOf(s), iso), "transactions-" + Before(isoNow, 'T') + ".csv"))
  }

  /** The export holds the newest `min(1000, total)` selected rows, newest first. */
  lemma ExportRows(s: State, userIdParam: Option<string>, typeParam: Option<string>)
    ensures var q := ExportQuery(userIdParam, typeParam);
      var rows := Matching(s, q);
      var items := CreditTransactions(s, q).value.0;
      && CreditTransactions(s, q).Success?
      && |items| == (if |rows| <= EXPORT_LIMIT then |rows| else EXPORT_LIMIT)
      && forall k :: 0 <= k < |items| ==> items[k] == rows[|rows| - 1 - k]
  {
  }

  /** For a timestamp `YYYY-MM-DDThh:mm:ss.sssZ` the file is `transactions-YYYY-MM-DD.csv`. */
  lemma ExportFileName(s: State, user: Option<LocalUser>, userIdParam: Option<string>, typeParam: Option<string>,
                       date: string, time: string, iso: int -> string)
    requires IsAdmin(user)
    requires 'T' !in date
    ensures Export(s, user, userIdParam, typeParam, date + "T" + time, iso).value.fileName
         == "transactions-" + date + ".csv"
  {
    BeforeFirst(date, 'T', time);
  }

  /** With no line break inside a row, the export is the header line and then one line
      per exported transaction. */
  lemma ExportLines(s: State, user: Option<LocalUser>, userIdParam: Option<string>, typeParam: Option<string>,
                    isoNow: string, iso: int -> string)
    requires IsAdmin(user)
    requires var items := CreditTransactions(s, ExportQuery(userIdParam, typeParam)).value.0;
      items != [] && forall k :: 0 <= k < |items| ==> '\n' !in CsvRow(items[k], EmailOf(s)(items[k].userId), iso)
    ensures var items := CreditTransactions(s, ExportQuery(userIdParam, typeParam)).value.0;
      |Split(Export(s, user, userIdParam, typeParam, isoNow, iso).value.exportData, '\n')| == |items| + 1
  {
    var items := CreditTransactions(s, ExportQuery(userIdParam, typeParam)).value.0;
    CsvLines(items, EmailOf(s), iso);
  }
}
