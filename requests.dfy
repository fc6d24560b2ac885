/** Service requests and what the bot computes from the list of them: the
    admin check, the lookup by id, the status change of the two status
    buttons, the contact button, the customer's own listing and the status
    markers shown in listings. All of these are pure; the list itself lives in
    `Store.RequestStore`. */
module Requests {
  import opened Text
  import opened Callbacks

  /** `ctx.session.request`: the fields the intake wizard has filled so far.
      A field the wizard left unset, or set to `undefined`, is `None`. */
  datatype Draft = Draft(
    service: Option<string>,
    area: Option<real>,
    address: Option<string>,
    datetime: Option<string>,
    contacts: Option<string>,
    comment: Option<string>)

  /** `{}`, the draft the wizard's first step starts from. */
  const EmptyDraft := Draft(None, None, None, None, None, None)

  /** A stored request. `id` is the creation time in milliseconds and is not
      guaranteed to be unique; `createdAt` is the creation time as a number. */
  datatype Request = Request(
    id: nat,
    userId: int,
    userName: string,
    createdAt: int,
    status: string,
    data: Draft)

  const StatusNew := "новая"
  const StatusInProgress := "в работе"
  const StatusDone := "выполнена"

  /** The status each admin status button sets. */
  function StatusOf(kind: StatusKind): (st: string)
    ensures st in {StatusInProgress, StatusDone}
    ensures st != StatusNew
  {
    match kind
    case Progress => StatusInProgress
    case Done => StatusDone
  }

  /** `ctx.from.username || ctx.from.first_name || 'Не указано'`: an absent or
      empty name falls through to the next one. */
  function DisplayName(username: Option<string>, firstName: Option<string>): (name: string)
    ensures |name| > 0
    ensures username.Some? && username.value != "" ==> name == username.value
    ensures (username.None? || username.value == "") && firstName.Some? && firstName.value != "" ==> name == firstName.value
  {
    if username.Some? && username.value != "" then username.value
    else if firstName.Some? && firstName.value != "" then firstName.value
    else "Не указано"
  }

  /** The admin check `ctx.from.id.toString() === ADMIN_ID`; `adminId` is
      `None` when ADMIN_ID is not configured. */
  predicate IsAdmin(caller: int, adminId: Option<string>)
  {
    adminId == Some(IntToString(caller))
  }

  /** At most one caller passes the admin check, and it is the number that
      ADMIN_ID spells; without ADMIN_ID nobody passes. */
  lemma AdminIsUnique(a: int, b: int, adminId: Option<string>)
    requires IsAdmin(a, adminId) && IsAdmin(b, adminId)
    ensures a == b
    ensures adminId.Some? && ParseInt(adminId.value) == Some(a)
  {
    IntToStringInjective(a, b);
    ParseIntOfIntToString(a);
  }

  /** `i` is where `requests.find(r => r.id === id)` stops: the first record with that id. */
  predicate FirstWithId(s: seq<Request>, i: nat, id: int)
  {
    i < |s| && s[i].id == id && forall j :: 0 <= j < i ==> s[j].id != id
  }

  /** The position `requests.find(r => r.id === id)` returns, if any. */
  function FindFirst(s: seq<Request>, id: int): (r: Option<nat>)
    ensures r.Some? ==> FirstWithId(s, r.value, id)
    ensures r.None? ==> forall j :: 0 <= j < |s| ==> s[j].id != id
  {
    if s == [] then None
    else if s[0].id == id then Some(0)
    else match FindFirst(s[1..], id)
      case None => None
      case Some(k) => Some(k + 1)
  }

  /** `find` with an id that may be `NaN` (`None`), which matches no record. */
  function Lookup(s: seq<Request>, id: Option<int>): (r: Option<nat>)
    ensures r.Some? ==> id.Some? && FirstWithId(s, r.value, id.value)
    ensures r.None? ==> id.None? || forall j :: 0 <= j < |s| ==> s[j].id != id.value
  {
    match id
    case None => None
    case Some(n) => FindFirst(s, n)
  }

  /** What an admin button press answers. */
  datatype Outcome<T> = Denied | NotFound | Ok(value: T)

  /** The message a status change sends to the customer: to whom, about
      which request and with which status. */
  datatype Notice = Notice(userId: int, requestId: nat, status: string)

  datatype StatusResult = StatusResult(reply: Outcome<Notice>, store: seq<Request>)

  /** `t` is `s` with the status of record `i` set to `status`, and nothing else changed. */
  predicate OnlyStatusChanged(s: seq<Request>, t: seq<Request>, i: nat, status: string)
  {
    && |t| == |s|
    && i < |s|
    && t[i] == s[i].(status := status)
    && forall j :: 0 <= j < |s| && j != i ==> t[j] == s[j]
  }

  /** The two status buttons: the admin check, `parseInt(data.split('_')[3])`,
      `find`, and on a hit the status of that one record is rewritten and the
      customer is told; the list that is written back is `store`. */
  function ApplyStatus(s: seq<Request>, caller: int, adminId: Option<string>, kind: StatusKind, data: string): (r: StatusResult)
    ensures !IsAdmin(caller, adminId) ==> r == StatusResult(Denied, s)
    ensures r.reply.NotFound? <==> IsAdmin(caller, adminId) && Lookup(s, StatusId(data)).None?
    ensures r.reply.NotFound? ==> r.store == s
    ensures r.reply.Ok? <==> IsAdmin(caller, adminId) && Lookup(s, StatusId(data)).Some?
    ensures r.reply.Ok? ==>
      var i := Lookup(s, StatusId(data)).value;
      && OnlyStatusChanged(s, r.store, i, StatusOf(kind))
      && r.reply.value == Notice(s[i].userId, s[i].id, StatusOf(kind))
  {
    if !IsAdmin(caller, adminId) then StatusResult(Denied, s)
    else match Lookup(s, StatusId(data))
      case None => StatusResult(NotFound, s)
      case Some(i) =>
        var updated := s[i].(status := StatusOf(kind));
        StatusResult(Ok(Notice(updated.userId, updated.id, updated.status)), s[i := updated])
  }

  /** Rewriting a status leaves every id in place, so `find` stops at the same record. */
  lemma {:induction false} LookupIgnoresStatus(s: seq<Request>, i: nat, status: string, id: Option<int>)
    requires i < |s|
    ensures Lookup(s[i := s[i].(status := status)], id) == Lookup(s, id)
  {
    var t := s[i := s[i].(status := status)];
    assert forall j :: 0 <= j < |s| ==> t[j].id == s[j].id;
    match Lookup(s, id)
    case None =>
    case Some(k) =>
      assert FirstWithId(t, k, id.value);
  }

  /** Pressing the same status button twice leaves the list as pressing it once. */
  lemma StatusChangeIdempotent(s: seq<Request>, caller: int, adminId: Option<string>, kind: StatusKind, data: string)
    ensures
      var once := ApplyStatus(s, caller, adminId, kind, data);
      var twice := ApplyStatus(once.store, caller, adminId, kind, data);
      twice.store == once.store && twice.reply == once.reply
  {
    var once := ApplyStatus(s, caller, adminId, kind, data);
    if once.reply.Ok? {
      var i := Lookup(s, StatusId(data)).value;
      LookupIgnoresStatus(s, i, StatusOf(kind), StatusId(data));
    }
  }

  /** The contact button: the admin check, `parseInt(data.split('_')[2])` and
      `find`; the list is only read. */
  function ContactLookup(s: seq<Request>, caller: int, adminId: Option<string>, data: string): (r: Outcome<Request>)
    ensures !IsAdmin(caller, adminId) ==> r.Denied?
    ensures r.NotFound? <==> IsAdmin(caller, adminId) && Lookup(s, ContactId(data)).None?
    ensures r.Ok? <==> IsAdmin(caller, adminId) && Lookup(s, ContactId(data)).Some?
    ensures r.Ok? ==> r.value == s[Lookup(s, ContactId(data)).value]
  {
    if !IsAdmin(caller, adminId) then Denied
    else match Lookup(s, ContactId(data))
      case None => NotFound
      case Some(i) => Ok(s[i])
  }

  /** The contact button of a notification finds the first record with the notified id. */
  lemma ContactButtonFindsRequest(s: seq<Request>, caller: int, adminId: Option<string>, i: nat)
    requires IsAdmin(caller, adminId)
    requires i < |s| && FirstWithId(s, i, s[i].id)
    ensures ContactLookup(s, caller, adminId, ContactData(s[i].id)) == Ok(s[i])
  {
    ContactRoundTrip(s[i].id);
    var k := Lookup(s, ContactId(ContactData(s[i].id))).value;
    assert k == i;
  }

  /** The status button of a notification changes the request it was sent for,
      provided no earlier record has the same id. */
  lemma StatusButtonChangesRequest(s: seq<Request>, caller: int, adminId: Option<string>, kind: StatusKind, i: nat)
    requires IsAdmin(caller, adminId)
    requires i < |s| && FirstWithId(s, i, s[i].id)
    ensures
      var r := ApplyStatus(s, caller, adminId, kind, StatusData(kind, s[i].id));
      r.reply == Ok(Notice(s[i].userId, s[i].id, StatusOf(kind))) && OnlyStatusChanged(s, r.store, i, StatusOf(kind))
  {
    StatusRoundTrip(kind, s[i].id);
    var k := Lookup(s, StatusId(StatusData(kind, s[i].id))).value;
    assert k == i;
  }

  /** A request whose id no earlier record has is the one its notification's
      status buttons change: the record appended last, and only its status. */
  lemma FreshRequestReachedByButtons(s: seq<Request>, r: Request, caller: int, adminId: Option<string>, kind: StatusKind)
    requires IsAdmin(caller, adminId)
    requires forall j :: 0 <= j < |s| ==> s[j].id != r.id
    ensures
      var t := ApplyStatus(s + [r], caller, adminId, kind, StatusData(kind, r.id));
      t.reply == Ok(Notice(r.userId, r.id, StatusOf(kind))) && t.store == s + [r.(status := StatusOf(kind))]
  {
    var all := s + [r];
    assert all[|s|] == r;
    assert FirstWithId(all, |s|, all[|s|].id);
    StatusButtonChangesRequest(all, caller, adminId, kind, |s|);
    var t := ApplyStatus(all, caller, adminId, kind, StatusData(kind, r.id));
    assert t.store == s + [r.(status := StatusOf(kind))];
  }

  /** Ids are not unique: a new record whose id is already taken is never the
      one a button with that id reaches. */
  lemma DuplicateIdIsShadowed(s: seq<Request>, r: Request)
    requires exists j :: 0 <= j < |s| && s[j].id == r.id
    ensures Lookup(s + [r], Some(r.id as int)).Some?
    ensures Lookup(s + [r], Some(r.id as int)).value < |s|
  {
    var t := s + [r];
    var j :| 0 <= j < |s| && s[j].id == r.id;
    assert t[j].id == r.id;
  }

  /** `requests.filter(r => r.userId === uid)`. */
  function UserRequests(s: seq<Request>, uid: int): (r: seq<Request>)
    ensures |r| <= |s|
    ensures forall x :: x in r <==> x in s && x.userId == uid
  {
    if s == [] then []
    else (if s[0].userId == uid then [s[0]] else []) + UserRequests(s[1..], uid)
  }

  /** The filter keeps store order: filtering a concatenation concatenates the filtered parts. */
  lemma {:induction false} UserRequestsAppend(s: seq<Request>, t: seq<Request>, uid: int)
    ensures UserRequests(s + t, uid) == UserRequests(s, uid) + UserRequests(t, uid)
    decreases |s|
  {
    if s == [] {
      assert s + t == t;
    } else {
      assert (s + t)[1..] == s[1..] + t;
      UserRequestsAppend(s[1..], t, uid);
    }
  }

  /** A request a customer creates shows up last in that customer's listing. */
  lemma NewRequestListedLast(s: seq<Request>, r: Request)
    ensures UserRequests(s + [r], r.userId) == UserRequests(s, r.userId) + [r]
  {
    UserRequestsAppend(s, [r], r.userId);
    assert [r][1..] == [];
  }

  /** A status change adds or drops no entry of any listing: every listing
      keeps its length, and other customers' listings are equal. */
  lemma {:induction false} StatusChangeKeepsListings(s: seq<Request>, i: nat, status: string, uid: int)
    requires i < |s|
    ensures |UserRequests(s[i := s[i].(status := status)], uid)| == |UserRequests(s, uid)|
    ensures uid != s[i].userId ==> UserRequests(s[i := s[i].(status := status)], uid) == UserRequests(s, uid)
    decreases |s|
  {
    var t := s[i := s[i].(status := status)];
    if i == 0 {
      assert t[1..] == s[1..];
    } else {
      assert t[1..] == s[1..][i - 1 := s[i].(status := status)];
      StatusChangeKeepsListings(s[1..], i - 1, status, uid);
    }
  }

  /** What `/myrequests` shows. */
  datatype Listing = NoRequests | Items(items: seq<Request>)

  function MyRequests(s: seq<Request>, uid: int): (r: Listing)
    ensures r.NoRequests? <==> forall x :: x in s ==> x.userId != uid
    ensures r.Items? ==> r.items != [] && r.items == UserRequests(s, uid)
  {
    var mine := UserRequests(s, uid);
    if mine == [] then NoRequests
    else assert mine[0] in mine; Items(mine)
  }

  /** Later requests come first; ties keep no particular promise here. */
  predicate NewestFirst(s: seq<Request>)
  {
    forall i, j :: 0 <= i < j < |s| ==> s[i].createdAt >= s[j].createdAt
  }

  /** The marker in front of each listed request. */
  function StatusEmoji(status: string): (e: string)
    ensures e == "❓" <==> status !in {StatusNew, StatusInProgress, StatusDone}
    ensures status == StatusNew ==> e == "🆕"
    ensures status == StatusInProgress ==> e == "🔄"
    ensures status == StatusDone ==> e == "✅"
  {
    if status == StatusNew then "🆕"
    else if status == StatusInProgress then "🔄"
    else if status == StatusDone then "✅"
    else "❓"
  }
}
