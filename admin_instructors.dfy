/** The instructors page of src/pages/AdminInstructors.tsx: an axios client on
    `VITE_API_URL + "/api/yoga"` whose request interceptor adds the bearer header
    only when a token is present, the bookings validity filter, the add-instructor
    form with its validation and reset, the avatar initials, and the booking
    status buttons. */
module AdminInstructors {
  import opened Js
  import opened Http
  import opened Auth
  import opened Lists

  const YogaPath: string := "/api/yoga"

  /** The axios instance's `baseURL`. */
  function BaseUrl(apiUrl: string): string
  {
    apiUrl + YogaPath
  }

  // ---- the request interceptor ----

  /** What the interceptor does to a request's headers: with a truthy token it
      sets `Authorization` to `Bearer <token>`; otherwise the headers pass
      through unchanged. No other header is touched. */
  function WithAuthorization(headers: map<string, string>, token: Option<string>): (r: map<string, string>)
    ensures TruthyOpt(token) ==> AuthorizationHeader in r && r[AuthorizationHeader] == Bearer(token.value)
    ensures !TruthyOpt(token) ==> r == headers
    ensures r.Keys == if TruthyOpt(token) then headers.Keys + {AuthorizationHeader} else headers.Keys
    ensures forall k :: k in headers && k != AuthorizationHeader ==> r[k] == headers[k]
  {
    if TruthyOpt(token) then headers[AuthorizationHeader := Bearer(token.value)] else headers
  }

  /** The axios request config the interceptor receives and mutates. */
  class RequestConfig {
    var verb: Method
    var url: string
    var headers: map<string, string>

    constructor (verb: Method, url: string)
      ensures this.verb == verb && this.url == url && headers == map[]
    {
      this.verb, this.url, headers := verb, url, map[];
    }
  }

  /** `api.interceptors.request.use(...)`: reads the cookie and sets the header
      in place on `config`; method and URL are left as they are. */
  method Intercept(config: RequestConfig, store: TokenStore, now: nat)
    modifies config`headers
    ensures config.headers == WithAuthorization(old(config.headers), Get(store.State(), now))
  {
    var token := store.GetAuthToken(now);
    if token.Some? && token.value != "" {
      config.headers := config.headers[AuthorizationHeader := Bearer(token.value)];
    }
  }

  // ---- entities ----

  /** The add form: `rating` is what parseFloat made of its input, `price` the
      raw text of its input. */
  datatype InstructorForm = InstructorForm(name: string, image: string, rating: Number, price: string, description: string)

  /** An instructor as the list endpoint returns it. */
  datatype Instructor = Instructor(id: string, name: Option<string>)

  /** A populated user or instructor reference of a booking. */
  datatype Party = Party(name: string)

  /** A booking as `/allBookedInstrector` returns it; an unpopulated reference is None. */
  datatype Booking = Booking(id: string, userId: Option<Party>, instructorId: Option<Party>, status: string)

  /** The JSON bodies this page posts. */
  datatype Body = InstructorBody(form: InstructorForm) | StatusBody(bookingId: string, status: string)

  /** A request through the axios instance, after the interceptor has run. */
  function ApiRequest(apiUrl: string, verb: Method, path: string, body: Option<Body>, token: Option<string>): (r: Request<Body>)
    ensures r.url == apiUrl + "/api/yoga" + path
    ensures r.headers == WithAuthorization(map[], token)
  {
    Request(verb, BaseUrl(apiUrl) + path, WithAuthorization(map[], token), body)
  }

  /** The interceptor's request carries the header exactly when a non-empty
      token is stored, and then carries exactly that token. */
  lemma ApiRequestAuthorization(apiUrl: string, verb: Method, path: string, body: Option<Body>, token: Option<string>)
    ensures var r := ApiRequest(apiUrl, verb, path, body, token);
      (AuthorizationHeader in r.headers <==> TruthyOpt(token))
      && (AuthorizationHeader in r.headers ==> r.headers[AuthorizationHeader] == "Bearer " + token.value)
  {
  }

  // ---- bookings ----

  predicate IsValidBooking(b: Booking)
  {
    b.userId.Some? && b.instructorId.Some?
  }

  /** `res.data.filter(b => b.userId && b.instructorId)`: exactly the bookings
      with both references, in their original order. */
  function ValidBookings(bookings: seq<Booking>): (r: seq<Booking>)
    ensures IsSubsequence(r, bookings)
    ensures forall i :: 0 <= i < |r| ==> r[i].userId.Some? && r[i].instructorId.Some? && r[i] in bookings
    ensures forall i :: 0 <= i < |bookings| && bookings[i].userId.Some? && bookings[i].instructorId.Some? ==> bookings[i] in r
  {
    Filter(IsValidBooking, bookings)
  }

  // ---- the add form ----

  const EmptyForm: InstructorForm := InstructorForm("", "", Num(5), "", "")

  /** `!(!name || !image || !rating || !price || !description)`. */
  predicate FormComplete(f: InstructorForm)
  {
    Truthy(f.name) && Truthy(f.image) && TruthyNum(f.rating) && Truthy(f.price) && Truthy(f.description)
  }

  /** Any one empty field, a rating of 0 or NaN, blocks the add. */
  lemma FormBlockers(f: InstructorForm)
    ensures f.name == "" || f.image == "" || f.price == "" || f.description == "" ==> !FormComplete(f)
    ensures f.rating == Num(0) || f.rating == NaN ==> !FormComplete(f)
    ensures !FormComplete(EmptyForm)
  {
  }

  // ---- initials ----

  /** The first characters of the non-empty pieces, concatenated: what
      `pieces.map(n => n[0]).join('')` renders (`""[0]` is undefined, which join
      turns into ""). */
  function Heads(pieces: seq<string>): string
  {
    if pieces == [] then ""
    else (if pieces[0] == "" then "" else [pieces[0][0]]) + Heads(pieces[1..])
  }

  /** `instructor.name?.split(' ').map(n => n[0]).join('')`; a missing name renders nothing. */
  function Initials(name: Option<string>): string
  {
    if name.None? then "" else Heads(Split(name.value, ' '))
  }

  /** Reference definition of the same thing by one left-to-right scan: a
      character is taken when it is not a space and starts the string or
      follows a space. */
  function WordStarts(s: string, atStart: bool): string
    decreases |s|
  {
    if s == "" then ""
    else if s[0] == ' ' then WordStarts(s[1..], true)
    else (if atStart then [s[0]] else "") + WordStarts(s[1..], false)
  }

  lemma {:induction false} HeadsOfSplit(s: string)
    ensures Heads(Split(s, ' ')) == WordStarts(s, true)
    ensures Heads(Split(s, ' ')[1..]) == WordStarts(s, false)
    decreases |s|
  {
    if s != "" {
      HeadsOfSplit(s[1..]);
      var rest := Split(s[1..], ' ');
      if s[0] == ' ' {
        assert Split(s, ' ') == [""] + rest;
        assert ([""] + rest)[1..] == rest;
      } else {
        var r := Split(s, ' ');
        assert r == [[s[0]] + rest[0]] + rest[1..];
        assert r[1..] == rest[1..];
        assert r[0][0] == s[0];
      }
    }
  }

  /** The initials are the first character of each space-separated word, in order. */
  lemma InitialsAreWordStarts(name: string)
    ensures Initials(Some(name)) == WordStarts(name, true)
  {
    HeadsOfSplit(name);
  }

  // ---- status buttons ----

  const BookingStatuses: seq<string> := ["pending", "confirmed", "cancelled"]

  datatype ButtonVariant = DefaultButton | OutlineButton

  /** The buttons under a booking: one per status, the current one highlighted. */
  function StatusButtons(current: string): (r: seq<(string, ButtonVariant)>)
    ensures |r| == 3
    ensures forall i :: 0 <= i < 3 ==> r[i].0 == BookingStatuses[i]
    ensures forall i :: 0 <= i < 3 ==> (r[i].1 == DefaultButton <==> BookingStatuses[i] == current)
  {
    seq(3, i requires 0 <= i < 3 =>
      (BookingStatuses[i], if BookingStatuses[i] == current then DefaultButton else OutlineButton))
  }

  /** At most one button is highlighted, and one is exactly when the booking's
      status is one of the three. */
  lemma OneHighlighted(current: string)
    ensures forall i, j :: 0 <= i < j < 3 ==> !(StatusButtons(current)[i].1 == DefaultButton && StatusButtons(current)[j].1 == DefaultButton)
    ensures (exists i :: 0 <= i < 3 && StatusButtons(current)[i].1 == DefaultButton) <==> current in BookingStatuses
  {
    var r := StatusButtons(current);
    if current in BookingStatuses {
      var i :| 0 <= i < 3 && BookingStatuses[i] == current;
      assert r[i].1 == DefaultButton;
    }
  }

  // ---- the page ----

  class InstructorsPage {
    var instructors: seq<Instructor>
    var bookings: seq<Booking>
    var isDialogOpen: bool
    var newInstructor: InstructorForm
    const store: TokenStore
    const apiUrl: string

    constructor (store: TokenStore, apiUrl: string)
      ensures this.store == store && this.apiUrl == apiUrl
      ensures instructors == [] && bookings == [] && !isDialogOpen && newInstructor == EmptyForm
    {
      this.store, this.apiUrl := store, apiUrl;
      instructors, bookings, isDialogOpen, newInstructor := [], [], false, EmptyForm;
    }

    /** A request on this page's axios instance, the interceptor applied on day `now`. */
    ghost function Send(verb: Method, path: string, body: Option<Body>, now: nat): Request<Body>
      reads this, store
    {
      ApiRequest(apiUrl, verb, path, body, Get(store.State(), now))
    }

    method Dispatch(verb: Method, path: string, body: Option<Body>, now: nat) returns (r: Request<Body>)
      ensures r == Send(verb, path, body, now)
    {
      var config := new RequestConfig(verb, BaseUrl(apiUrl) + path);
      Intercept(config, store, now);
      r := Request(config.verb, config.url, config.headers, body);
    }

    /** The form fields' onChange handlers. */
    method SetNewInstructor(f: InstructorForm)
      modifies this`newInstructor
      ensures newInstructor == f
    {
      newInstructor := f;
    }

    /** The dialog's onOpenChange. */
    method SetDialogOpen(open: bool)
      modifies this`isDialogOpen
      ensures isDialogOpen == open
    {
      isDialogOpen := open;
    }

    /** `fetchInstructors`: the list replaces the old one; a failure keeps it. */
    method FetchInstructors(now: nat, reply: Outcome<seq<Instructor>>) returns (req: Request<Body>, note: Option<Toast>)
      modifies this`instructors
      ensures req == Send(GET, "/instructor", None, now)
      ensures reply.Fulfilled? ==> instructors == reply.data && note == None
      ensures reply.Rejected? ==>
        instructors == old(instructors)
        && note == Some(ErrorToast("Error", "Failed to fetch instructors"))
    {
      req := Dispatch(GET, "/instructor", None, now);
      match reply {
        case Fulfilled(data) =>
          instructors := data;
          note := None;
        case Rejected(_) =>
          note := Some(ErrorToast("Error", "Failed to fetch instructors"));
      }
    }

    /** `fetchBookings`: only the valid bookings are kept; a failure keeps the old list. */
    method FetchBookings(now: nat, reply: Outcome<seq<Booking>>) returns (req: Request<Body>, note: Option<Toast>)
      modifies this`bookings
      ensures req == Send(GET, "/allBookedInstrector", None, now)
      ensures reply.Fulfilled? ==> bookings == ValidBookings(reply.data) && note == None
      ensures reply.Rejected? ==>
        bookings == old(bookings)
        && note == Some(ErrorToast("Error", "Failed to fetch bookings"))
    {
      req := Dispatch(GET, "/allBookedInstrector", None, now);
      match reply {
        case Fulfilled(data) =>
          bookings := ValidBookings(data);
          note := None;
        case Rejected(_) =>
          note := Some(ErrorToast("Error", "Failed to fetch bookings"));
      }
    }

    /** `handleAddInstructor`. An incomplete form issues no request. Otherwise
        the add is posted; on success the dialog closes, the form is reset and
        the list is fetched again; on failure the page state stays as it was. */
    method HandleAddInstructor(now: nat, reply: Outcome<()>) returns (requests: seq<Request<Body>>, note: Toast)
      modifies this`isDialogOpen, this`newInstructor
      ensures !FormComplete(old(newInstructor)) ==>
        requests == [] && note == ErrorToast("Error", "All fields required")
        && isDialogOpen == old(isDialogOpen) && newInstructor == old(newInstructor)
      ensures FormComplete(old(newInstructor)) && reply.Fulfilled? ==>
        requests == [Send(POST, "/instructor/add", Some(InstructorBody(old(newInstructor))), now),
                     Send(GET, "/instructor", None, now)]
        && !isDialogOpen && newInstructor == EmptyForm
        && note == InfoToast("Success", "Instructor added successfully")
      ensures FormComplete(old(newInstructor)) && reply.Rejected? ==>
        requests == [Send(POST, "/instructor/add", Some(InstructorBody(old(newInstructor))), now)]
        && isDialogOpen == old(isDialogOpen) && newInstructor == old(newInstructor)
        && note == ErrorToast("Error", "Failed to add instructor")
    {
      if !FormComplete(newInstructor) {
        requests := [];
        note := ErrorToast("Error", "All fields required");
        return;
      }
      var add := Dispatch(POST, "/instructor/add", Some(InstructorBody(newInstructor)), now);
      if reply.Fulfilled? {
        isDialogOpen := false;
        newInstructor := EmptyForm;
        var refresh := Dispatch(GET, "/instructor", None, now);
        requests := [add, refresh];
        note := InfoToast("Success", "Instructor added successfully");
      } else {
        requests := [add];
        note := ErrorToast("Error", "Failed to add instructor");
      }
    }

    /** `handleRemoveInstructor(id)`: a delete, then a refetch on success. */
    method HandleRemoveInstructor(id: string, now: nat, reply: Outcome<()>) returns (requests: seq<Request<Body>>, note: Toast)
      ensures reply.Fulfilled? ==>
        requests == [Send(DELETE, "/instructor/" + id, None, now), Send(GET, "/instructor", None, now)]
        && note == InfoToast("Success", "Instructor removed successfully")
      ensures reply.Rejected? ==>
        requests == [Send(DELETE, "/instructor/" + id, None, now)]
        && note == ErrorToast("Error", "Failed to delete instructor")
    {
      var del := Dispatch(DELETE, "/instructor/" + id, None, now);
      if reply.Fulfilled? {
        var refresh := Dispatch(GET, "/instructor", None, now);
        requests := [del, refresh];
        note := InfoToast("Success", "Instructor removed successfully");
      } else {
        requests := [del];
        note := ErrorToast("Error", "Failed to delete instructor");
      }
    }

    /** `updateStatus(id, status)`: posts `{ id, status }` to `/updateStatusIns`,
        then refetches the bookings on success. */
    method UpdateStatus(id: string, status: string, now: nat, reply: Outcome<()>) returns (requests: seq<Request<Body>>, note: Toast)
      ensures |requests| >= 1 && requests[0] == Send(POST, "/updateStatusIns", Some(StatusBody(id, status)), now)
      ensures reply.Fulfilled? ==>
        requests == [requests[0], Send(GET, "/allBookedInstrector", None, now)]
        && note == InfoToast("Updated", "Status updated to " + status)
      ensures reply.Rejected? ==>
        requests == [requests[0]] && note == ErrorToast("Error", "Status update failed")
    {
      var post := Dispatch(POST, "/updateStatusIns", Some(StatusBody(id, status)), now);
      if reply.Fulfilled? {
        var refresh := Dispatch(GET, "/allBookedInstrector", None, now);
        requests := [post, refresh];
        note := InfoToast("Updated", "Status updated to " + status);
      } else {
        requests := [post];
        note := ErrorToast("Error", "Status update failed");
      }
    }
  }
}
