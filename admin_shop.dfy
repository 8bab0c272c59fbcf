/** The store-items page of src/pages/AdminShop.tsx: the item list loaded on
    mount and the add-item dialog. Its calls go to relative URLs, and
    its token is read from localStorage, not from the cookie the rest of the
    panel uses. */
module AdminShop {
  import opened Js
  import opened Http

  datatype ShopItem = ShopItem(id: Option<string>, name: string, price: int, category: string, description: string, image: string)

  const ItemsPath: string := "/api/store/items"
  const AddPath: string := "/api/store/add"

  const EmptyItem: ShopItem := ShopItem(None, "", 0, "", "", "")

  const MissingFields: Toast := ErrorToast("Error", "Please enter item name and category")
  const LoadFailed: Toast := ErrorToast("Error", "Failed to load store items")
  const Added: Toast := InfoToast("Success", "Item added to store")

  /** The add guard: both the name and the category must hold a character
      that is not white space. */
  predicate CanAdd(item: ShopItem)
  {
    Truthy(Trim(item.name)) && Truthy(Trim(item.category))
  }

  /** A name or category of nothing but blanks is refused, and one with any
      other character is accepted. */
  lemma CanAddIffNotBlank(item: ShopItem)
    ensures CanAdd(item) <==>
      (exists i :: 0 <= i < |item.name| && !IsWhitespace(item.name[i]))
      && (exists i :: 0 <= i < |item.category| && !IsWhitespace(item.category[i]))
  {
    TrimEmptyIffBlank(item.name);
    TrimEmptyIffBlank(item.category);
  }

  /** The add request: a POST to the relative add URL carrying the form, with
      the localStorage token, or "" when none is stored, as the bearer. */
  function AddRequest(stored: Option<string>, item: ShopItem): (r: Request<ShopItem>)
    ensures r.verb == POST && r.url == "/api/store/add" && r.body == Some(item)
    ensures r.headers.Keys == {ContentTypeHeader, AuthorizationHeader}
    ensures r.headers[ContentTypeHeader] == "application/json"
    ensures TruthyOpt(stored) ==> r.headers[AuthorizationHeader] == "Bearer " + stored.value
    ensures !TruthyOpt(stored) ==> r.headers[AuthorizationHeader] == "Bearer "
  {
    Request(POST, AddPath,
            map[ContentTypeHeader := JsonMediaType, AuthorizationHeader := BearerOrEmpty(stored)],
            Some(item))
  }

  /** The catch block's `error.message || "An error occurred"`. */
  function CaughtDescription(m: Message): (r: Message)
    ensures m != Text("") ==> r == m
    ensures m == Text("") ==> r == Text("An error occurred")
  {
    if m == Text("") then Text("An error occurred") else m
  }

  /** What the mount-time load leaves in the list: the reply's `items`, or
      the empty list when the body has none. The status is not checked, so an
      error reply with a JSON body also empties the list. None when the body
      never parses (or nothing arrives), which raises the load-failure toast. */
  function LoadedItems(reply: Response<seq<ShopItem>>): (r: Option<seq<ShopItem>>)
    ensures r.None? <==> reply.NoResponse? || reply.json.None?
    ensures reply.Received? && reply.json.Some? && reply.json.value.data.None? ==> r == Some([])
    ensures reply.Received? && reply.json.Some? && reply.json.value.data.Some? ==> r == reply.json.value.data
  {
    if reply.NoResponse? || reply.json.None? then None
    else Some(OrEmpty(reply.json.value.data))
  }

  /** The add reply's error, or None when items can be appended. */
  function AddError(reply: Response<ShopItem>): (r: Option<Message>)
    ensures r.None? <==> reply.Received? && reply.ok && reply.json.Some?
    ensures r.Some? ==> r.value != Text("")
    ensures reply.Received? && reply.json.Some? && !reply.ok ==>
      r == Some(Text(Or(reply.json.value.message, "Failed to add item")))
  {
    var result := ReadJson(reply, "Failed to add item");
    if result.Ok? then None else Some(result.error)
  }

  /** The "An error occurred" fallback never shows: every error the add
      handler raises already has a non-empty message. */
  lemma FallbackNeverShown(reply: Response<ShopItem>)
    requires AddError(reply).Some?
    ensures CaughtDescription(AddError(reply).value) == AddError(reply).value
  {
  }

  class ShopPage {
    /** None entries are the `undefined` appended when a successful reply
        carries no `item`. */
    var items: seq<Option<ShopItem>>
    var isDialogOpen: bool
    var newItem: ShopItem

    constructor ()
      ensures items == [] && !isDialogOpen && newItem == EmptyItem
    {
      items, isDialogOpen, newItem := [], false, EmptyItem;
    }

    /** The input fields' onChange handlers. */
    method SetNewItem(item: ShopItem)
      modifies this`newItem
      ensures newItem == item
    {
      newItem := item;
    }

    method SetDialogOpen(open: bool)
      modifies this`isDialogOpen
      ensures isDialogOpen == open
    {
      isDialogOpen := open;
    }

    /** The mount-time effect: a GET of the items with no headers. */
    method LoadItems(reply: Response<seq<ShopItem>>) returns (req: Request<ShopItem>, note: Option<Toast>)
      modifies this`items
      ensures req == Request(GET, ItemsPath, map[], None)
      ensures LoadedItems(reply).Some? ==>
        items == seq(|LoadedItems(reply).value|, i requires 0 <= i < |LoadedItems(reply).value| => Some(LoadedItems(reply).value[i]))
        && note == None
      ensures LoadedItems(reply).None? ==> items == old(items) && note == Some(LoadFailed)
    {
      req := Request(GET, ItemsPath, map[], None);
      var loaded := LoadedItems(reply);
      if loaded.Some? {
        items := seq(|loaded.value|, i requires 0 <= i < |loaded.value| => Some(loaded.value[i]));
        note := None;
      } else {
        note := Some(LoadFailed);
      }
    }

    /** `handleAddItem`: a blank name or category sends nothing; a successful
        post appends the returned item, clears the form and closes the dialog;
        a failed one changes nothing. */
    method HandleAddItem(stored: Option<string>, reply: Response<ShopItem>)
      returns (requests: seq<Request<ShopItem>>, note: Toast)
      modifies this`items, this`newItem, this`isDialogOpen
      ensures !CanAdd(old(newItem)) ==>
        requests == [] && note == MissingFields
        && items == old(items) && newItem == old(newItem) && isDialogOpen == old(isDialogOpen)
      ensures CanAdd(old(newItem)) ==> requests == [AddRequest(stored, old(newItem))]
      ensures CanAdd(old(newItem)) && AddError(reply).None? ==>
        items == old(items) + [reply.json.value.data]
        && newItem == EmptyItem && !isDialogOpen && note == Added
      ensures CanAdd(old(newItem)) && AddError(reply).Some? ==>
        items == old(items) && newItem == old(newItem) && isDialogOpen == old(isDialogOpen)
        && note == Toast("Error", Some(AddError(reply).value), true)
    {
      if !CanAdd(newItem) {
        return [], MissingFields;
      }
      requests := [AddRequest(stored, newItem)];
      var error := AddError(reply);
      if error.None? {
        items := items + [reply.json.value.data];
        newItem := EmptyItem;
        isDialogOpen := false;
        note := Added;
      } else {
        note := Toast("Error", Some(CaughtDescription(error.value)), true);
      }
    }
  }
}
