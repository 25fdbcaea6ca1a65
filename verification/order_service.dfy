/** The order service's own logic: the required-field check and defaults of
    `createOrder`, and the query string of `getAllOrders` (src/services/OrderService.js). */
module OrderService {
  import opened JsValue
  import opened Text
  import opened Lists

  const RequiredFields: seq<string> := ["cartId", "userId", "billingAddress", "billingPhone"]

  const MissingPrefix := "Missing required fields: "

  /** `requiredFields.filter(field => !orderDetail[field])`. */
  function MissingFields(orderDetail: Object): seq<string> {
    Filter(RequiredFields, field => !Has(orderDetail, field))
  }

  /** The missing fields are exactly the required fields that are absent or falsy, in the
      order the required fields are declared. */
  lemma MissingFieldsExact(orderDetail: Object, field: string)
    ensures field in MissingFields(orderDetail) <==> field in RequiredFields && !Has(orderDetail, field)
    ensures IsSubsequence(MissingFields(orderDetail), RequiredFields)
  {
    FilterMember(RequiredFields, field => !Has(orderDetail, field), field);
    FilterIsSubsequence(RequiredFields, field => !Has(orderDetail, field));
  }

  /** When every required field is present, nothing is missing. */
  lemma NothingMissing(orderDetail: Object)
    requires forall i :: 0 <= i < |RequiredFields| ==> Has(orderDetail, RequiredFields[i])
    ensures MissingFields(orderDetail) == []
  {
    var m := MissingFields(orderDetail);
    if m != [] {
      FilterMember(RequiredFields, field => !Has(orderDetail, field), m[0]);
    }
  }

  /** `{orderStatus: 'PENDING', paymentStatus: 'NOTPAID', ...orderDetail}`. */
  function OrderData(orderDetail: Object): (r: Object)
    ensures r.Keys == orderDetail.Keys + {"orderStatus", "paymentStatus"}
    ensures forall k :: k in orderDetail ==> r[k] == orderDetail[k]
    ensures "orderStatus" !in orderDetail ==> r["orderStatus"] == Str("PENDING")
    ensures "paymentStatus" !in orderDetail ==> r["paymentStatus"] == Str("NOTPAID")
  {
    map["orderStatus" := Str("PENDING"), "paymentStatus" := Str("NOTPAID")] + orderDetail
  }

  /** The error thrown when fields are missing; no request was sent for it. */
  function MissingFieldsError(missing: seq<string>): (e: HttpError)
    ensures e.message == MissingPrefix + Join(missing, ", ")
    ensures e.response.None? && !e.requestSent
  {
    HttpError(MissingPrefix + Join(missing, ", "), None, false)
  }

  /** `createOrder`, given how the POST settles. Returns the body posted, if any, and the
      result: the server's reply, or the thrown error, re-thrown unchanged. */
  function CreateOrder(orderDetail: Object, post: Reply<Value>): (r: (Option<Object>, Reply<Value>))
    ensures r.0.None? <==> MissingFields(orderDetail) != []
    ensures r.0.None? ==> r.1 == Failed(MissingFieldsError(MissingFields(orderDetail)))
    ensures r.0.Some? ==> r.0.value == OrderData(orderDetail) && r.1 == post
  {
    var missing := MissingFields(orderDetail);
    if |missing| > 0 then (None, Failed(MissingFieldsError(missing)))
    else (Some(OrderData(orderDetail)), post)
  }

  /** An order detail with all four required fields reaches the server. */
  lemma CompleteOrderPosted(orderDetail: Object, post: Reply<Value>)
    requires forall i :: 0 <= i < |RequiredFields| ==> Has(orderDetail, RequiredFields[i])
    ensures CreateOrder(orderDetail, post).0 == Some(OrderData(orderDetail))
  {
    NothingMissing(orderDetail);
  }

  /** The four `name=value` parameters of `getAllOrders`, in order. */
  function OrdersParams(pageNumber: int, pageSize: int, sortBy: string, sortDir: string): seq<string> {
    ["pageNumber=" + IntToString(pageNumber), "pageSize=" + IntToString(pageSize),
     "sortBy=" + sortBy, "sortDir=" + sortDir]
  }

  /** The path requested by `getAllOrders`: "/orders?" and the four parameters joined by '&'. */
  function GetAllOrdersPath(pageNumber: int, pageSize: int, sortBy: string, sortDir: string): (path: string)
    ensures path == "/orders?" + Join(OrdersParams(pageNumber, pageSize, sortBy, sortDir), "&")
  {
    JoinedParams("/orders?", "pageNumber=", IntToString(pageNumber), "pageSize=", IntToString(pageSize),
                 "sortBy=", sortBy, "sortDir=", sortDir, "&");
    "/orders?" + "pageNumber=" + IntToString(pageNumber) + "&" + "pageSize=" + IntToString(pageSize)
      + "&" + "sortBy=" + sortBy + "&" + "sortDir=" + sortDir
  }

  lemma JoinFour(a: string, b: string, c: string, d: string, sep: string)
    ensures Join([a, b, c, d], sep) == a + sep + b + sep + c + sep + d
  {
    var ps := [a, b, c, d];
    assert ps[1..] == [b, c, d];
    assert ps[1..][1..] == [c, d];
    assert ps[1..][1..][1..] == [d];
    assert Join([d], sep) == d;
    assert Join([c, d], sep) == c + sep + d;
    assert Join([b, c, d], sep) == b + sep + c + sep + d;
  }

  lemma JoinedParams(pre: string, a: string, x: string, b: string, y: string, c: string, z: string,
                     d: string, w: string, sep: string)
    ensures pre + a + x + sep + b + y + sep + c + z + sep + d + w
         == pre + Join([a + x, b + y, c + z, d + w], sep)
  {
    JoinFour(a + x, b + y, c + z, d + w, sep);
  }

  lemma NoAmpersand(i: int)
    ensures '&' !in IntToString(i)
  {
  }

  lemma DropPrefix(p: string, rest: string)
    ensures (p + rest)[|p|..] == rest
  {
  }

  lemma NoAmpersandIn(name: string, value: string)
    requires '&' !in name && '&' !in value
    ensures '&' !in name + value
  {
  }

  lemma ParamsHaveNoAmpersand(pageNumber: int, pageSize: int, sortBy: string, sortDir: string)
    requires '&' !in sortBy && '&' !in sortDir
    ensures forall i :: 0 <= i < 4 ==> '&' !in OrdersParams(pageNumber, pageSize, sortBy, sortDir)[i]
  {
    NoAmpersand(pageNumber);
    NoAmpersand(pageSize);
    NoAmpersandIn("pageNumber=", IntToString(pageNumber));
    NoAmpersandIn("pageSize=", IntToString(pageSize));
    NoAmpersandIn("sortBy=", sortBy);
    NoAmpersandIn("sortDir=", sortDir);
  }

  /** Splitting the query on '&' gives the four parameters back in order, and the page
      number and size read back with `parseInt`, as long as the sort values hold no '&'. */
  lemma QueryReadsBack(pageNumber: int, pageSize: int, sortBy: string, sortDir: string)
    requires '&' !in sortBy && '&' !in sortDir
    ensures var q := GetAllOrdersPath(pageNumber, pageSize, sortBy, sortDir)[|"/orders?"|..];
      Split(q, '&') == OrdersParams(pageNumber, pageSize, sortBy, sortDir)
    ensures ParseInt(IntToString(pageNumber)) == Some(pageNumber)
    ensures ParseInt(IntToString(pageSize)) == Some(pageSize)
  {
    var ps := OrdersParams(pageNumber, pageSize, sortBy, sortDir);
    DropPrefix("/orders?", Join(ps, "&"));
    ParamsHaveNoAmpersand(pageNumber, pageSize, sortBy, sortDir);
    SplitJoin(ps, '&');
    ParseIntRoundTrip(pageNumber);
    ParseIntRoundTrip(pageSize);
  }
}
