/** The REST client class ExtreamCloudIQ: response classification,
    paged retrieval over an abstract network, and the two listing
    endpoints. The network is a total function from a request to what
    came back (a response, or an exception raised by the HTTP library). */
module CloudIQ {
  import opened Json
  import opened Outcome

  const BaseUri: string := "https://api.extremecloudiq.com"
  const Timeout: int := 20
  const SuccessStatuses: set<int> := {200, 201, 202, 204}
  const TokenExpiredCode: string := "AUTH_TOKEN_EXPIRED"
  const TokenExpiredMessage: string := "Auth token expired"

  /** Query parameters, or a JSON request body. */
  type Params = map<string, Value>

  datatype Request =
    | Get(url: string, params: Params, timeout: int)
    | Post(url: string, payload: Params, timeout: int)

  /** An HTTP response; `body` is None when it does not decode as JSON. */
  datatype Response = Response(status: int, body: Option<Value>)

  /** What the HTTP library raises instead of answering. */
  datatype TransportFailure = ConnectTimedOut | OtherRequestFailure

  datatype Exchange = Answered(response: Response) | Raised(failure: TransportFailure)

  type Network = Request -> Exchange

  // ---------------------------------------------------------------------
  // validate_response

  /** The error payload of a rejected response reports an expired token. */
  predicate ReportsExpiredToken(res: Response) {
    res.body.Some? && Lookup(res.body.value, "error_code") == Ok(Str(TokenExpiredCode))
  }

  /** validate_response: the body is decoded first, then the status decides. */
  function ValidateResponse(res: Response): (r: Result<Value>)
    ensures r.Ok? <==> res.status in SuccessStatuses && res.body.Some?
    ensures r.Ok? ==> r.value == res.body.value
    ensures res.body.None? ==> r == Err(Unexpected(NotJson))
    ensures r == Err(TokenExpired(TokenExpiredMessage)) <==>
              res.status !in SuccessStatuses && ReportsExpiredToken(res)
    ensures r.Err? && r.error.ApiConnectionError? <==>
              res.status !in SuccessStatuses && res.body.Some? && !ReportsExpiredToken(res) &&
              Lookup(res.body.value, "error_code").Ok? && Lookup(res.body.value, "error_message").Ok?
    ensures r.Err? && r.error.ApiConnectionError? ==>
              r.error == ApiConnectionError(res.status, res.body.value.fields["error_code"],
                                            res.body.value.fields["error_message"])
    ensures res.body.Some? && res.status !in SuccessStatuses && Lookup(res.body.value, "error_code").Err? ==>
              r == Err(Lookup(res.body.value, "error_code").error)
    ensures res.body.Some? && res.status !in SuccessStatuses && !ReportsExpiredToken(res) &&
            Lookup(res.body.value, "error_code").Ok? && Lookup(res.body.value, "error_message").Err? ==>
              r == Err(Unexpected(MissingKey("error_message")))
    ensures r.Err? && !r.error.TokenExpired? && !r.error.ApiConnectionError? ==> r.error.Unexpected?
  {
    match res.body
    case None => Err(Unexpected(NotJson))
    case Some(data) =>
      if res.status in SuccessStatuses then Ok(data)
      else
        var code :- Lookup(data, "error_code");
        if EqualsString(code, TokenExpiredCode) then Err(TokenExpired(TokenExpiredMessage))
        else
          var message :- Lookup(data, "error_message");
          Err(ApiConnectionError(res.status, code, message))
  }

  /** One exchange as the caller of requests.get/post sees it. */
  function Receive(x: Exchange): (r: Result<Value>)
    ensures x.Answered? ==> r == ValidateResponse(x.response)
    ensures x.Raised? ==> r.Err?
    ensures r.Err? && r.error == ConnectTimeout <==> x == Raised(ConnectTimedOut)
    ensures x == Raised(OtherRequestFailure) ==> r == Err(Unexpected(RequestFailed))
  {
    match x
    case Answered(res) => ValidateResponse(res)
    case Raised(ConnectTimedOut) => Err(ConnectTimeout)
    case Raised(OtherRequestFailure) => Err(Unexpected(RequestFailed))
  }

  // ---------------------------------------------------------------------
  // login (only as far as the access token lookup)

  function LoginRequest(user: string, password: string): Request {
    Post(BaseUri + "/login", map["username" := Str(user), "password" := Str(password)], Timeout)
  }

  /** login: the access token of a successful login response. */
  function Login(net: Network, user: string, password: string): (r: Result<Value>)
    ensures r.Ok? <==> Receive(net(LoginRequest(user, password))).Ok? &&
                       Lookup(Receive(net(LoginRequest(user, password))).value, "access_token").Ok?
    ensures r.Ok? ==> r.value == Receive(net(LoginRequest(user, password))).value.fields["access_token"]
    ensures Receive(net(LoginRequest(user, password))).Err? ==>
              r == Receive(net(LoginRequest(user, password)))
    ensures Receive(net(LoginRequest(user, password))).Ok? && r.Err? ==>
              r.error == Unexpected(if Receive(net(LoginRequest(user, password))).value.Object?
                                    then MissingKey("access_token") else NotSubscriptable)
  {
    var data :- Receive(net(LoginRequest(user, password)));
    Lookup(data, "access_token")
  }

  // ---------------------------------------------------------------------
  // fetch_page, fetch_remaining, paged_data

  /** The request fetch_page sends: the caller's params with `page` overwritten. */
  function PageRequest(url: string, params: Params, page: int): (q: Request)
    ensures q.Get? && q.url == url && q.timeout == Timeout
    ensures q.params.Keys == params.Keys + {"page"} && q.params["page"] == Int(page)
    ensures forall k :: k in params && k != "page" ==> q.params[k] == params[k]
  {
    Get(url, params["page" := Int(page)], Timeout)
  }

  function FetchPage(net: Network, url: string, params: Params, page: int): (r: Result<Value>)
    ensures var x := net(PageRequest(url, params, page));
            r.Ok? <==> x.Answered? && x.response.status in SuccessStatuses && x.response.body.Some?
    ensures r.Ok? ==> r.value == net(PageRequest(url, params, page)).response.body.value
    ensures r.Err? ==> r == Receive(net(PageRequest(url, params, page)))
  {
    Receive(net(PageRequest(url, params, page)))
  }

  /** The `data` list of a page body. */
  function Items(data: Value): (r: Result<seq<Value>>)
    ensures r.Ok? <==> data.List?
    ensures r.Ok? ==> r.value == data.items
  {
    if data.List? then Ok(data.items) else Err(Unexpected(NotAList))
  }

  /** fetch_page(...)['data'] for one of the pages after the first. */
  function PageItems(net: Network, url: string, params: Params, page: int): (r: Result<seq<Value>>)
    ensures FetchPage(net, url, params, page).Err? ==> r == Err(FetchPage(net, url, params, page).error)
    ensures r.Ok? <==> FetchPage(net, url, params, page).Ok? &&
                       Lookup(FetchPage(net, url, params, page).value, "data").Ok? &&
                       Lookup(FetchPage(net, url, params, page).value, "data").value.List?
    ensures r.Ok? ==> Lookup(FetchPage(net, url, params, page).value, "data") == Ok(List(r.value))
    ensures FetchPage(net, url, params, page).Ok? && r.Err? ==>
              var body := FetchPage(net, url, params, page).value;
              r.error == Unexpected(if !body.Object? then NotSubscriptable
                                    else if "data" !in body.fields then MissingKey("data")
                                    else NotAList)
  {
    var body :- FetchPage(net, url, params, page);
    var data :- Lookup(body, "data");
    Items(data)
  }

  /** Python's `total_pages > 1` needs a number; a bool counts as 0 or 1. */
  function PageCount(v: Value): (r: Result<int>)
    ensures r.Ok? <==> v.Int? || v.Bool?
    ensures v.Int? ==> r == Ok(v.i)
    ensures v.Bool? ==> r.Ok? && r.value <= 1
    ensures r.Err? ==> r == Err(Unexpected(NotComparable))
  {
    match v
    case Int(n) => Ok(n)
    case Bool(b) => Ok(if b then 1 else 0)
    case _ => Err(Unexpected(NotComparable))
  }

  /** The records of pages 2..last in page order, or the error of the first
      of those pages that failed. */
  function Collected(net: Network, url: string, params: Params, last: int): (r: Result<seq<Value>>)
    ensures last < 2 ==> r == Ok([])
    decreases last
  {
    if last < 2 then Ok([])
    else
      var acc :- Collected(net, url, params, last - 1);
      var data :- PageItems(net, url, params, last);
      Ok(acc + data)
  }

  /** How many requests the loop over pages 2..last sends: it stops after
      the first failing page. */
  function Issued(net: Network, url: string, params: Params, last: int): (n: nat)
    ensures n <= if last < 2 then 0 else last - 1
    ensures Collected(net, url, params, last).Ok? ==> n == if last < 2 then 0 else last - 1
    decreases last
  {
    if last < 2 then 0
    else if Collected(net, url, params, last - 1).Err? then Issued(net, url, params, last - 1)
    else Issued(net, url, params, last - 1) + 1
  }

  /** The first page's body, total page count and data value, in the order
      paged_data reads them. */
  datatype FirstPage = FirstPage(total: int, data: Value)

  function ReadFirstPage(net: Network, url: string, params: Params): (r: Result<FirstPage>)
    ensures FetchPage(net, url, params, 1).Err? ==> r == Err(FetchPage(net, url, params, 1).error)
    ensures r.Ok? ==> var body := FetchPage(net, url, params, 1).value;
                      body.Object? && "total_pages" in body.fields && "data" in body.fields &&
                      r.value.data == body.fields["data"] &&
                      PageCount(body.fields["total_pages"]) == Ok(r.value.total)
    ensures r.Ok? <==> FetchPage(net, url, params, 1).Ok? &&
                       var body := FetchPage(net, url, params, 1).value;
                       body.Object? && "total_pages" in body.fields && "data" in body.fields &&
                       PageCount(body.fields["total_pages"]).Ok?
    ensures FetchPage(net, url, params, 1).Ok? && r.Err? ==>
              var body := FetchPage(net, url, params, 1).value;
              r.error == Unexpected(if !body.Object? then NotSubscriptable
                                    else if "total_pages" !in body.fields then MissingKey("total_pages")
                                    else if "data" !in body.fields then MissingKey("data")
                                    else NotComparable)
  {
    var body :- FetchPage(net, url, params, 1);
    var totalPages :- Lookup(body, "total_pages");
    var data :- Lookup(body, "data");
    var total :- PageCount(totalPages);
    Ok(FirstPage(total, data))
  }

  /** paged_data: what the whole paged fetch returns. */
  function PagedResult(net: Network, url: string, params: Params): (r: Result<seq<Value>>)
    ensures ReadFirstPage(net, url, params).Err? ==> r == Err(ReadFirstPage(net, url, params).error)
    ensures r.Ok? ==> var first := ReadFirstPage(net, url, params).value;
                      first.data.List? &&
                      (first.total > 1 ==> Collected(net, url, params, first.total).Ok? &&
                                           r.value == first.data.items + Collected(net, url, params, first.total).value) &&
                      (first.total <= 1 ==> r.value == first.data.items)
  {
    var first :- ReadFirstPage(net, url, params);
    if first.total > 1 then
      var rest :- Collected(net, url, params, first.total);
      var items :- Items(first.data);
      Ok(items + rest)
    else
      Items(first.data)
  }

  /** How many requests paged_data sends. */
  function PagedRequests(net: Network, url: string, params: Params): (n: nat)
    ensures 1 <= n
    ensures ReadFirstPage(net, url, params).Ok? ==> n <= if ReadFirstPage(net, url, params).value.total < 2 then 1
                                                        else ReadFirstPage(net, url, params).value.total
  {
    match ReadFirstPage(net, url, params)
    case Err(_) => 1
    case Ok(first) => if first.total > 1 then 1 + Issued(net, url, params, first.total) else 1
  }

  lemma {:induction false} CollectedStaysFailed(net: Network, url: string, params: Params, k: int, n: int)
    requires 2 <= k <= n
    requires Collected(net, url, params, k).Err?
    ensures Collected(net, url, params, n) == Collected(net, url, params, k)
    ensures Issued(net, url, params, n) == Issued(net, url, params, k)
    decreases n - k
  {
    if k < n {
      CollectedStaysFailed(net, url, params, k, n - 1);
    }
  }

  lemma CollectedStep(net: Network, url: string, params: Params, k: int, acc: seq<Value>)
    requires k >= 2 && Collected(net, url, params, k - 1) == Ok(acc)
    ensures PageItems(net, url, params, k).Err? ==>
              Collected(net, url, params, k) == Err(PageItems(net, url, params, k).error)
    ensures PageItems(net, url, params, k).Ok? ==>
              Collected(net, url, params, k) == Ok(acc + PageItems(net, url, params, k).value)
    ensures Issued(net, url, params, k) == Issued(net, url, params, k - 1) + 1
  {
  }

  /** fetch_remaining: request pages 2..totalPages in ascending order,
      appending each page's records; the first failure aborts. */
  method FetchRemaining(net: Network, url: string, totalPages: int, params: Params)
    returns (result: Result<seq<Value>>, sent: seq<Request>)
    ensures result == Collected(net, url, params, totalPages)
    ensures |sent| == Issued(net, url, params, totalPages)
    ensures forall i :: 0 <= i < |sent| ==> sent[i] == PageRequest(url, params, i + 2)
  {
    var data: seq<Value> := [];
    sent := [];
    var page := 2;
    while page <= totalPages
      invariant 2 <= page <= if totalPages < 2 then 2 else totalPages + 1
      invariant Collected(net, url, params, page - 1) == Ok(data)
      invariant |sent| == page - 2 == Issued(net, url, params, page - 1)
      invariant forall i :: 0 <= i < |sent| ==> sent[i] == PageRequest(url, params, i + 2)
      decreases totalPages - page
    {
      var request := PageRequest(url, params, page);
      sent := sent + [request];
      var items := PageItems(net, url, params, page);
      CollectedStep(net, url, params, page, data);
      if items.Err? {
        CollectedStaysFailed(net, url, params, page, totalPages);
        result := Err(items.error);
        return;
      }
      data := data + items.value;
      page := page + 1;
    }
    result := Ok(data);
  }

  /** paged_data: page 1 gives total_pages; more pages are fetched only when
      it exceeds 1. */
  method PagedData(net: Network, url: string, params: Params)
    returns (result: Result<seq<Value>>, sent: seq<Request>)
    ensures result == PagedResult(net, url, params)
    ensures |sent| == PagedRequests(net, url, params) && |sent| >= 1
    ensures forall i :: 0 <= i < |sent| ==> sent[i] == PageRequest(url, params, i + 1)
  {
    var request := PageRequest(url, params, 1);
    sent := [request];
    var first := ReadFirstPage(net, url, params);
    if first.Err? {
      result := Err(first.error);
      return;
    }
    var total := first.value.total;
    var data := first.value.data;
    if total > 1 {
      var rest, more := FetchRemaining(net, url, total, params);
      sent := sent + more;
      if rest.Err? {
        result := Err(rest.error);
        return;
      }
      var items := Items(data);
      result := if items.Err? then Err(items.error) else Ok(items.value + rest.value);
    } else {
      result := Items(data);
    }
  }

  // ---------------------------------------------------------------------
  // Properties of the paged fetch

  /** Concatenation of a sequence of pages' records. */
  function Flatten(pages: seq<seq<Value>>): (r: seq<Value>)
    decreases |pages|
  {
    if pages == [] then [] else pages[0] + Flatten(pages[1..])
  }

  function TotalLength(pages: seq<seq<Value>>): nat
    decreases |pages|
  {
    if pages == [] then 0 else |pages[0]| + TotalLength(pages[1..])
  }

  lemma {:induction false} FlattenLength(pages: seq<seq<Value>>)
    ensures |Flatten(pages)| == TotalLength(pages)
    decreases |pages|
  {
    if pages != [] {
      FlattenLength(pages[1..]);
    }
  }

  lemma {:induction false} FlattenSnoc(pages: seq<seq<Value>>, last: seq<Value>)
    ensures Flatten(pages + [last]) == Flatten(pages) + last
    decreases |pages|
  {
    if pages == [] {
      assert [] + [last] == [last];
    } else {
      assert (pages + [last])[1..] == pages[1..] + [last];
      FlattenSnoc(pages[1..], last);
    }
  }

  /** The network serves `pages` at `url`: page 1 reports their number as
      total_pages and carries pages[0]; page p carries pages[p - 1]. */
  predicate Serves(net: Network, url: string, params: Params, pages: seq<seq<Value>>) {
    |pages| >= 1 &&
    ReadFirstPage(net, url, params) == Ok(FirstPage(|pages|, List(pages[0]))) &&
    forall p :: 2 <= p <= |pages| ==> PageItems(net, url, params, p) == Ok(pages[p - 1])
  }

  lemma {:induction false} CollectedServed(net: Network, url: string, params: Params, pages: seq<seq<Value>>, k: int)
    requires Serves(net, url, params, pages)
    requires 1 <= k <= |pages|
    ensures Collected(net, url, params, k) == Ok(Flatten(pages[1..k]))
    ensures Issued(net, url, params, k) == k - 1
    decreases k
  {
    if k == 1 {
      assert pages[1..1] == [];
    } else {
      CollectedServed(net, url, params, pages, k - 1);
      assert pages[1..k] == pages[1..k - 1] + [pages[k - 1]];
      FlattenSnoc(pages[1..k - 1], pages[k - 1]);
    }
  }

  /** The result of paged_data is the concatenation of every page's records
      in ascending page order, after exactly one request per page. */
  lemma PagedConcatenation(net: Network, url: string, params: Params, pages: seq<seq<Value>>)
    requires Serves(net, url, params, pages)
    ensures PagedResult(net, url, params) == Ok(Flatten(pages))
    ensures PagedRequests(net, url, params) == |pages|
    ensures |Flatten(pages)| == TotalLength(pages)
  {
    FlattenLength(pages);
    CollectedServed(net, url, params, pages, |pages|);
    assert pages[1..|pages|] == pages[1..];
    if |pages| == 1 {
      assert pages[1..] == [];
      assert Flatten(pages) == pages[0] + Flatten([]) == pages[0];
      assert PagedResult(net, url, params) == Items(List(pages[0])) == Ok(pages[0]);
    }
  }

  /** A first page reporting at most one page is the only request, and its
      records are returned unchanged. */
  lemma SinglePage(net: Network, url: string, params: Params)
    requires ReadFirstPage(net, url, params).Ok?
    requires ReadFirstPage(net, url, params).value.total <= 1
    ensures PagedRequests(net, url, params) == 1
    ensures PagedResult(net, url, params) == Items(ReadFirstPage(net, url, params).value.data)
  {
  }

  lemma {:induction false} CollectedFirstFailure(net: Network, url: string, params: Params, p: int, n: int)
    requires 2 <= p <= n
    requires forall q :: 2 <= q < p ==> PageItems(net, url, params, q).Ok?
    requires PageItems(net, url, params, p).Err?
    ensures Collected(net, url, params, n) == Err(PageItems(net, url, params, p).error)
    ensures Issued(net, url, params, n) == p - 1
  {
    CollectedPrefixOk(net, url, params, p - 1);
    CollectedStaysFailed(net, url, params, p, n);
  }

  lemma {:induction false} CollectedPrefixOk(net: Network, url: string, params: Params, k: int)
    requires forall q :: 2 <= q <= k ==> PageItems(net, url, params, q).Ok?
    ensures Collected(net, url, params, k).Ok?
    ensures Issued(net, url, params, k) == if k < 2 then 0 else k - 1
    decreases k
  {
    if k >= 2 {
      CollectedPrefixOk(net, url, params, k - 1);
    }
  }

  /** A failure on any page aborts the fetch with that page's error, and no
      page after it is requested. */
  lemma PageFailureAborts(net: Network, url: string, params: Params, p: int)
    requires ReadFirstPage(net, url, params).Ok?
    requires 2 <= p <= ReadFirstPage(net, url, params).value.total
    requires forall q :: 2 <= q < p ==> PageItems(net, url, params, q).Ok?
    requires PageItems(net, url, params, p).Err?
    ensures PagedResult(net, url, params) == Err(PageItems(net, url, params, p).error)
    ensures PagedRequests(net, url, params) == p
  {
    CollectedFirstFailure(net, url, params, p, ReadFirstPage(net, url, params).value.total);
  }

  // ---------------------------------------------------------------------
  // device, alarms

  const DevicesUrl: string := BaseUri + "/devices"
  const AlertsUrl: string := BaseUri + "/alerts"

  const DeviceParams: Params :=
    map["views" := Str("status,client"), "fields" := Str("hostname,ip_address"),
        "limit" := Int(50), "sortField" := Str("SN")]

  /** The alarm query's window bounds are supplied by the caller (epoch seconds). */
  function AlarmParams(startTime: int, endTime: int): Params {
    map["limit" := Int(100), "startTime" := Int(startTime), "endTime" := Int(endTime)]
  }

  method Devices(net: Network) returns (result: Result<seq<Value>>, sent: seq<Request>)
    ensures result == PagedResult(net, DevicesUrl, DeviceParams)
    ensures |sent| == PagedRequests(net, DevicesUrl, DeviceParams)
    ensures forall i :: 0 <= i < |sent| ==> sent[i] == PageRequest(DevicesUrl, DeviceParams, i + 1)
  {
    result, sent := PagedData(net, DevicesUrl, DeviceParams);
  }

  method Alarms(net: Network, startTime: int, endTime: int) returns (result: Result<seq<Value>>, sent: seq<Request>)
    ensures result == PagedResult(net, AlertsUrl, AlarmParams(startTime, endTime))
    ensures |sent| == PagedRequests(net, AlertsUrl, AlarmParams(startTime, endTime))
    ensures forall i :: 0 <= i < |sent| ==> sent[i] == PageRequest(AlertsUrl, AlarmParams(startTime, endTime), i + 1)
  {
    result, sent := PagedData(net, AlertsUrl, AlarmParams(startTime, endTime));
  }
}
