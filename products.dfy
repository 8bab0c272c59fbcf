/** The products page of src/pages/Products.tsx: the product list and its
    search, the add/edit dialog, deletion, and the store orders with their
    status updates. Every authenticated call sends `Bearer ${token || ''}` where
    `token` is the cookie read at render time. */
module Products {
  import opened Js
  import opened Http
  import opened Lists

  /** A product, which is also the shape of the dialog's form (`handleEdit`
      copies the product into it, `_id` included). */
  datatype Product = Product(id: Option<string>, name: string, price: int, category: string, image: string, description: string)

  /** A store order as `/api/store/allOrder` returns it (only what the model needs). */
  datatype StoreOrder = StoreOrder(id: string, status: string)

  /** The JSON bodies this page sends. */
  datatype Body = ProductBody(product: Product) | StatusBody(status: string)

  const EmptyForm: Product := Product(None, "", 0, "", "", "")

  const ResponsePreviewLength: nat := 100

  // ---- search ----

  predicate NameMatches(term: string, p: Product)
  {
    Includes(Lower(p.name), Lower(term))
  }

  /** `products.filter(p => p.name.toLowerCase().includes(term.toLowerCase()))`:
      the order-preserving subsequence of products whose name contains the term,
      ignoring case; the empty term keeps every product. */
  function SearchProducts(products: seq<Product>, term: string): (r: seq<Product>)
    ensures IsSubsequence(r, products)
    ensures forall i :: 0 <= i < |r| ==> Includes(Lower(r[i].name), Lower(term)) && r[i] in products
    ensures forall i :: 0 <= i < |products| && Includes(Lower(products[i].name), Lower(term)) ==> products[i] in r
    ensures term == "" ==> r == products
  {
    var p := (x: Product) => NameMatches(term, x);
    if term == "" then
      forall i | 0 <= i < |products| ensures p(products[i]) {
        IncludesEmpty(Lower(products[i].name));
      }
      FilterKeepsAll(p, products);
      Filter(p, products)
    else
      Filter(p, products)
  }

  // ---- requests ----

  function AuthHeaders(token: Option<string>): map<string, string>
  {
    map[AuthorizationHeader := BearerOrEmpty(token)]
  }

  function JsonAuthHeaders(token: Option<string>): map<string, string>
  {
    map[ContentTypeHeader := JsonMediaType, AuthorizationHeader := BearerOrEmpty(token)]
  }

  /** The URL and method `handleAddOrUpdate` picks: a PUT to the product's
      update URL in edit mode, a POST to the add URL otherwise. */
  function SaveTarget(backend: string, editMode: bool, editId: Option<string>): (r: (Method, string))
    ensures editMode ==> r == (PUT, backend + "/api/store/update/" + Interpolate(editId))
    ensures !editMode ==> r == (POST, backend + "/api/store/add")
  {
    if editMode then (PUT, backend + "/api/store/update/" + Interpolate(editId))
    else (POST, backend + "/api/store/add")
  }

  /** `contentType?.includes('application/json')`. */
  predicate IsJson(contentType: Option<string>)
  {
    contentType.Some? && Includes(contentType.value, JsonMediaType)
  }

  /** `prefix + raw.slice(0, 100)`. */
  function Preview(prefix: string, raw: string): (r: string)
    ensures StartsWith(r, prefix) && |r| <= |prefix| + 100
    ensures StartsWith(raw, r[|prefix|..])
    ensures |raw| <= 100 ==> r == prefix + raw
    ensures |raw| >= 100 ==> |r| == |prefix| + 100
  {
    prefix + Take(raw, ResponsePreviewLength)
  }

  // ---- reply handling ----

  /** The error a reply raises when the handler checks the content type before
      the status, or None when it succeeds. The failures are: no response; a
      non-JSON content type, reported as `nonJsonPrefix` and at most 100
      characters of the body; an unparsable body; a non-ok status, reported
      as the server's message or `fallback`. */
  function CheckedReplyError(reply: Response<()>, nonJsonPrefix: string, fallback: string): (r: Option<Message>)
    ensures r.None? <==> reply.Received? && reply.ok && IsJson(reply.contentType) && reply.json.Some?
    ensures reply.Received? && !IsJson(reply.contentType) ==>
      r == Some(Text(Preview(nonJsonPrefix, reply.text)))
    ensures reply.Received? && IsJson(reply.contentType) && reply.json.Some? && !reply.ok ==>
      r == Some(Text(Or(reply.json.value.message, fallback)))
  {
    match reply
    case NoResponse => Some(RuntimeError)
    case Received(ok, contentType, text, json) =>
      if !IsJson(contentType) then Some(Text(Preview(nonJsonPrefix, text)))
      else if json.None? then Some(RuntimeError)
      else if !ok then Some(Text(Or(json.value.message, fallback)))
      else None
  }

  /** `handleAddOrUpdate`'s checks. */
  function SaveError(reply: Response<()>): Option<Message>
  {
    CheckedReplyError(reply, "Unexpected response: ", "Failed to save item")
  }

  /** `handleDelete`'s checks: `new Error(data.message)` has the empty message
      when the server sends none. */
  function DeleteError(reply: Response<()>): Option<Message>
  {
    CheckedReplyError(reply, "Received non-JSON: ", "")
  }

  /** A save answered with something other than JSON fails with
      "Unexpected response: " and at most the first 100 characters of the body,
      whatever the status. */
  lemma SaveRejectsNonJson(reply: Response<()>)
    requires reply.Received? && !IsJson(reply.contentType)
    ensures SaveError(reply) == Some(Text("Unexpected response: " + Take(reply.text, 100)))
    ensures |SaveError(reply).value.text| <= |"Unexpected response: "| + 100
  {
  }

  /** The same for a delete, with "Received non-JSON: ". */
  lemma DeleteRejectsNonJson(reply: Response<()>)
    requires reply.Received? && !IsJson(reply.contentType)
    ensures DeleteError(reply) == Some(Text("Received non-JSON: " + Take(reply.text, 100)))
    ensures |DeleteError(reply).value.text| <= |"Received non-JSON: "| + 100
  {
  }

  // ---- the page ----

  class ProductsPage {
    var products: seq<Product>
    var filtered: seq<Product>
    var orders: seq<StoreOrder>
    var loadingOrders: bool
    var searchTerm: string
    var isDialogOpen: bool
    var editMode: bool
    var editId: Option<string>
    var formData: Product
    const backend: string

    constructor (backend: string)
      ensures this.backend == backend
      ensures products == [] && filtered == [] && orders == [] && !loadingOrders && searchTerm == ""
      ensures !isDialogOpen && !editMode && editId == None && formData == EmptyForm
    {
      this.backend := backend;
      products, filtered, orders, loadingOrders, searchTerm := [], [], [], false, "";
      isDialogOpen, editMode, editId, formData := false, false, None, EmptyForm;
    }

    /** The form fields' onChange handler. */
    method SetFormData(f: Product)
      modifies this`formData
      ensures formData == f
    {
      formData := f;
    }

    /** The dialog's onOpenChange. */
    method SetDialogOpen(open: bool)
      modifies this`isDialogOpen
      ensures isDialogOpen == open
    {
      isDialogOpen := open;
    }

    /** `fetchProducts`: on success both the list and the shown list become
        `data.items || []` (so any active search is discarded); on failure
        neither changes and a toast carries the error. */
    method FetchProducts(reply: Response<seq<Product>>) returns (req: Request<Body>, note: Option<Toast>)
      modifies this`products, this`filtered
      ensures req == Request(GET, backend + "/api/store/items", map[], None)
      ensures ReadJson(reply, "").Ok? ==>
        products == OrEmpty(ReadJson(reply, "").payload.data) && filtered == products && note == None
      ensures ReadJson(reply, "").Err? ==>
        products == old(products) && filtered == old(filtered)
        && note == Some(Toast("Fail", Some(ReadJson(reply, "").error), true))
    {
      req := Request(GET, backend + "/api/store/items", map[], None);
      var result := ReadJson(reply, "");
      match result {
        case Ok(payload) =>
          products := OrEmpty(payload.data);
          filtered := OrEmpty(payload.data);
          note := None;
        case Err(e) =>
          note := Some(Toast("Fail", Some(e), true));
      }
    }

    /** `fetchOrders`: `loadingOrders` is set for the duration of the call and
        cleared after either outcome. */
    method FetchOrders(token: Option<string>, reply: Response<seq<StoreOrder>>) returns (req: Request<Body>, note: Option<Toast>)
      modifies this`orders, this`loadingOrders
      ensures !loadingOrders
      ensures req == Request(GET, backend + "/api/store/allOrder", AuthHeaders(token), None)
      ensures ReadJson(reply, "Failed to fetch orders").Ok? ==>
        orders == OrEmpty(ReadJson(reply, "Failed to fetch orders").payload.data) && note == None
      ensures ReadJson(reply, "Failed to fetch orders").Err? ==>
        orders == old(orders)
        && note == Some(Toast("Order Fetch Failed", Some(ReadJson(reply, "Failed to fetch orders").error), true))
    {
      loadingOrders := true;
      req := Request(GET, backend + "/api/store/allOrder", AuthHeaders(token), None);
      var result := ReadJson(reply, "Failed to fetch orders");
      match result {
        case Ok(payload) =>
          orders := OrEmpty(payload.data);
          note := None;
        case Err(e) =>
          note := Some(Toast("Order Fetch Failed", Some(e), true));
      }
      loadingOrders := false;
    }

    /** `handleSearch(term)`: the shown list is recomputed from the full list,
        never from the previous result. */
    method HandleSearch(term: string)
      modifies this`searchTerm, this`filtered
      ensures searchTerm == term && filtered == SearchProducts(products, term)
    {
      searchTerm := term;
      filtered := SearchProducts(products, term);
    }

    /** `resetForm`: whatever the prior state, an empty form outside edit mode
        with the dialog closed. */
    method ResetForm()
      modifies this`formData, this`editId, this`editMode, this`isDialogOpen
      ensures formData == EmptyForm && editId == None && !editMode && !isDialogOpen
    {
      formData := EmptyForm;
      editId := None;
      editMode := false;
      isDialogOpen := false;
    }

    /** `handleEdit(p)`: the form becomes `p`, edit mode on for `p`'s id, dialog open. */
    method HandleEdit(p: Product)
      modifies this`formData, this`editId, this`editMode, this`isDialogOpen
      ensures formData == p && editMode && editId == p.id && isDialogOpen
    {
      formData := p;
      editMode := true;
      editId := p.id;
      isDialogOpen := true;
    }

    /** `handleAddOrUpdate`: sends the form to the target `SaveTarget` picks; on
        success the form is reset and the list refetched, on failure nothing changes. */
    method HandleAddOrUpdate(token: Option<string>, reply: Response<()>) returns (requests: seq<Request<Body>>, note: Toast)
      modifies this`formData, this`editId, this`editMode, this`isDialogOpen
      ensures |requests| >= 1
      ensures var (verb, url) := SaveTarget(backend, old(editMode), old(editId));
        requests[0] == Request(verb, url, JsonAuthHeaders(token), Some(ProductBody(old(formData))))
      ensures SaveError(reply).None? ==>
        requests == [requests[0], Request(GET, backend + "/api/store/items", map[], None)]
        && note == Toast(if old(editMode) then "Updated" else "Added successfully", None, false)
        && formData == EmptyForm && editId == None && !editMode && !isDialogOpen
      ensures SaveError(reply).Some? ==>
        requests == [requests[0]] && note == Toast("Error", SaveError(reply), true)
        && formData == old(formData) && editId == old(editId)
        && editMode == old(editMode) && isDialogOpen == old(isDialogOpen)
    {
      var (verb, url) := SaveTarget(backend, editMode, editId);
      var save := Request(verb, url, JsonAuthHeaders(token), Some(ProductBody(formData)));
      var error := SaveError(reply);
      if error.None? {
        note := Toast(if editMode then "Updated" else "Added successfully", None, false);
        ResetForm();
        requests := [save, Request(GET, backend + "/api/store/items", map[], None)];
      } else {
        note := Toast("Error", error, true);
        requests := [save];
      }
    }

    /** `handleDelete(id)`: nothing is sent unless the user confirms. */
    method HandleDelete(id: string, confirmed: bool, token: Option<string>, reply: Response<()>)
      returns (requests: seq<Request<Body>>, note: Option<Toast>)
      ensures !confirmed ==> requests == [] && note == None
      ensures confirmed && DeleteError(reply).None? ==>
        requests == [Request(DELETE, backend + "/api/store/delete/" + id, AuthHeaders(token), None),
                     Request(GET, backend + "/api/store/items", map[], None)]
        && note == Some(Toast("Deleted", None, false))
      ensures confirmed && DeleteError(reply).Some? ==>
        requests == [Request(DELETE, backend + "/api/store/delete/" + id, AuthHeaders(token), None)]
        && note == Some(Toast("Error", DeleteError(reply), true))
    {
      if !confirmed {
        return [], None;
      }
      var del := Request(DELETE, backend + "/api/store/delete/" + id, AuthHeaders(token), None);
      var error := DeleteError(reply);
      if error.None? {
        requests := [del, Request(GET, backend + "/api/store/items", map[], None)];
        note := Some(Toast("Deleted", None, false));
      } else {
        requests := [del];
        note := Some(Toast("Error", error, true));
      }
    }

    /** `updateOrderStatus(id, status)`: a PUT of `{ status }`; the orders are
        refetched on success. The failure toast is not destructive. */
    method UpdateOrderStatus(id: string, status: string, token: Option<string>, reply: Response<()>)
      returns (requests: seq<Request<Body>>, note: Toast)
      ensures |requests| >= 1
      ensures requests[0] == Request(PUT, backend + "/api/store/updateOrderStatus/" + id, JsonAuthHeaders(token), Some(StatusBody(status)))
      ensures ReadJson(reply, "").Ok? ==>
        requests == [requests[0], Request(GET, backend + "/api/store/allOrder", AuthHeaders(token), None)]
        && note == Toast("Order status updated", None, false)
      ensures ReadJson(reply, "").Err? ==>
        requests == [requests[0]] && note == Toast("Status Update Failed", Some(ReadJson(reply, "").error), false)
    {
      var put := Request(PUT, backend + "/api/store/updateOrderStatus/" + id, JsonAuthHeaders(token), Some(StatusBody(status)));
      var result := ReadJson(reply, "");
      if result.Ok? {
        requests := [put, Request(GET, backend + "/api/store/allOrder", AuthHeaders(token), None)];
        note := Toast("Order status updated", None, false);
      } else {
        requests := [put];
        note := Toast("Status Update Failed", Some(result.error), false);
      }
    }
  }

  /** Searching twice with the same term is searching once, and a search of
      the search result is contained in the first result. */
  lemma SearchIdempotent(products: seq<Product>, term: string)
    ensures SearchProducts(SearchProducts(products, term), term) == SearchProducts(products, term)
  {
    if term != "" {
      FilterIdempotent((x: Product) => NameMatches(term, x), products);
    }
  }

  /** A missing token still yields a header, and it is "Bearer ". */
  lemma MissingTokenStillSendsHeader(token: Option<string>)
    requires token.None?
    ensures AuthorizationHeader in AuthHeaders(token) && AuthHeaders(token)[AuthorizationHeader] == "Bearer "
    ensures AuthorizationHeader in JsonAuthHeaders(token) && JsonAuthHeaders(token)[AuthorizationHeader] == "Bearer "
  {
  }
}
