/**
  Client-address extraction and the page-flow router of utils.js.

  Header and socket values are `Option<string>`: `None` for a missing value.
  JavaScript's `a || b` on strings picks `a` only when it is present and
  non-empty; `Or` below is that operator.
 */
module Utils {
  import opened Wrappers
  import opened JsStrings

  /** The IPv4-mapped IPv6 prefix (RFC 4291, section 2.5.5.2) that is stripped from addresses. */
  const MappedPrefix: string := "::ffff:"

  predicate Truthy(a: Option<string>) {
    a.Some? && a.value != ""
  }

  /** `a || b` on two possibly-missing strings. */
  function Or(a: Option<string>, b: Option<string>): (r: Option<string>)
    ensures Truthy(a) ==> r == a
    ensures !Truthy(a) ==> r == b
  {
    if Truthy(a) then a else b
  }

  /** The address `getReqClientIP` starts from: the first truthy of its four candidates, else the last one. */
  function ChosenAddress(forwardedFor: Option<string>, connectionRemote: Option<string>,
                         socketRemote: Option<string>, connectionSocketRemote: Option<string>): Option<string>
  {
    Or(forwardedFor, Or(connectionRemote, Or(socketRemote, connectionSocketRemote)))
  }

  /** The first comma-separated segment, trimmed; a value without a comma is left as it is. */
  function FirstHop(a: string): (r: string)
    ensures ',' !in r
    ensures ',' !in a ==> r == a
  {
    if ',' in a then
      var seg := FirstSegment(a, ',');
      var left := DropLeading(seg, IsJsSpace);
      DropLeadingSpec(seg, IsJsSpace);
      DropTrailingSpec(left, IsJsSpace);
      var t := Trim(seg);
      assert forall c :: c in t ==> c in left;
      assert forall c :: c in left ==> c in seg;
      t
    else a
  }

  /** `ip.replace("::ffff:", "")` guarded by `ip.startsWith("::ffff:")`. */
  function Unmap(ip: string): (r: string)
    ensures StartsWith(ip, MappedPrefix) ==> ip == MappedPrefix + r
    ensures !StartsWith(ip, MappedPrefix) ==> r == ip
  {
    if StartsWith(ip, MappedPrefix) then ip[|MappedPrefix|..] else ip
  }

  /**
    `getReqClientIP(req)`: the X-Forwarded-For header, else the connection's,
    the socket's or the connection socket's remote address; its first hop;
    without an IPv4-mapped prefix. An absent address stays absent.
   */
  function ReqClientIP(forwardedFor: Option<string>, connectionRemote: Option<string>,
                       socketRemote: Option<string>, connectionSocketRemote: Option<string>): (ip: Option<string>)
    ensures ip.None? <==> ChosenAddress(forwardedFor, connectionRemote, socketRemote, connectionSocketRemote).None?
    ensures ip.Some? ==> ',' !in ip.value
    ensures ip.Some? ==>
      ip.value == Unmap(FirstHop(ChosenAddress(forwardedFor, connectionRemote, socketRemote, connectionSocketRemote).value))
    ensures Truthy(forwardedFor) ==> ip == Some(Unmap(FirstHop(forwardedFor.value)))
  {
    var chosen := ChosenAddress(forwardedFor, connectionRemote, socketRemote, connectionSocketRemote);
    if chosen.None? then None
    else if chosen.value == "" then chosen
    else
      var hop := FirstHop(chosen.value);
      if hop != "" then Some(Unmap(hop)) else Some(hop)
  }

  /** The source's one error kind here: a method called on `undefined`. */
  datatype JsError = TypeError

  /**
    `getClientIP(socket)` for socket.io handshakes: the X-Forwarded-For header,
    else the handshake address; the text before its first comma (untrimmed);
    without an IPv4-mapped prefix. With no address at all, `ip.startsWith`
    throws.
   */
  function ClientIP(forwardedFor: Option<string>, handshakeAddress: Option<string>): (r: Result<string, JsError>)
    ensures r.Failure? <==> Or(forwardedFor, handshakeAddress).None?
    ensures r.Success? ==>
      var a := Or(forwardedFor, handshakeAddress).value;
      ',' !in r.value && r.value == Unmap(FirstSegment(a, ','))
  {
    var ip := Or(forwardedFor, handshakeAddress);
    if ip.None? then Failure(TypeError)
    else
      var hop := if ',' in ip.value then FirstSegment(ip.value, ',') else ip.value;
      Success(Unmap(hop))
  }

  // ---------------------------------------------------------------- routing

  /** `routeMap`, backend page name to frontend route, in the object's key order. */
  const RouteMap: seq<(string, string)> := [
    ("login", "sign-in"),
    ("otp", "sign-in?action=otp"),
    ("bill", "sign-in?action=bill"),
    ("contact", "sign-in?action=contact"),
    ("final", "https://href.li/?https://paypal.com")
  ]

  /** `routeMap[key]` for an own key of the object. */
  function RouteOf(key: string): (r: Option<string>)
    ensures r.Some? <==> exists i :: 0 <= i < |RouteMap| && RouteMap[i].0 == key
    ensures r.Some? ==> exists i :: 0 <= i < |RouteMap| && RouteMap[i] == (key, r.value)
  {
    LookupIn(RouteMap, key)
  }

  function LookupIn(table: seq<(string, string)>, key: string): (r: Option<string>)
    ensures r.Some? <==> exists i :: 0 <= i < |table| && table[i].0 == key
    ensures r.Some? ==> exists i :: 0 <= i < |table| && table[i] == (key, r.value)
  {
    if table == [] then None
    else if table[0].0 == key then Some(table[0].1)
    else
      var r := LookupIn(table[1..], key);
      assert r.Some? ==> exists i :: 0 <= i < |table| && table[i] == (key, r.value) by {
        if r.Some? {
          var i :| 0 <= i < |table[1..]| && table[1..][i] == (key, r.value);
          assert table[i + 1] == (key, r.value);
        }
      }
      assert (exists i :: 0 <= i < |table| && table[i].0 == key) ==> r.Some? by {
        if i :| 0 <= i < |table| && table[i].0 == key {
          assert i > 0 && table[1..][i - 1].0 == key;
        }
      }
      r
  }

  /** `normalize(str)`: drops one leading `/`, trims, lower-cases. */
  function Normalize(s: string): (r: string)
    ensures forall i :: 0 <= i < |r| ==> !('A' <= r[i] <= 'Z')
  {
    var noSlash := if s != [] && s[0] == '/' then s[1..] else s;
    ToLower(Trim(noSlash))
  }

  /** `resolveFrontendRoute(p)`: the route mapped to `p`, or `p` itself. */
  function ResolveFrontendRoute(backendPage: string): (r: string)
    ensures (exists i :: 0 <= i < |RouteMap| && RouteMap[i].0 == backendPage) ==>
              exists i :: 0 <= i < |RouteMap| && RouteMap[i] == (backendPage, r)
    ensures (forall i :: 0 <= i < |RouteMap| ==> RouteMap[i].0 != backendPage) ==> r == backendPage
  {
    match RouteOf(backendPage)
    case Some(route) => route
    case None => backendPage
  }

  /** The first key of `table` whose route normalizes to `clean`. */
  function FindKey(table: seq<(string, string)>, clean: string): (r: Option<nat>)
    ensures r.Some? ==> r.value < |table| && Normalize(table[r.value].1) == clean
    ensures r.Some? ==> forall j :: 0 <= j < r.value ==> Normalize(table[j].1) != clean
    ensures r.None? ==> forall j :: 0 <= j < |table| ==> Normalize(table[j].1) != clean
  {
    if table == [] then None
    else if Normalize(table[0].1) == clean then Some(0)
    else
      match FindKey(table[1..], clean)
      case None => None
      case Some(k) => Some(k + 1)
  }

  /**
    `resolveBackendRoute(p)`: the first `routeMap` key whose route equals `p`
    once both are normalized; otherwise the normalized `p`.
   */
  function ResolveBackendRoute(currentPage: string): (r: string)
    ensures var clean := Normalize(currentPage);
      (exists i :: 0 <= i < |RouteMap| && Normalize(RouteMap[i].1) == clean) ==>
        exists i :: 0 <= i < |RouteMap| && RouteMap[i].0 == r && Normalize(RouteMap[i].1) == clean
                    && forall j :: 0 <= j < i ==> Normalize(RouteMap[j].1) != clean
    ensures var clean := Normalize(currentPage);
      (forall i :: 0 <= i < |RouteMap| ==> Normalize(RouteMap[i].1) != clean) ==> r == clean
  {
    var clean := Normalize(currentPage);
    match FindKey(RouteMap, clean)
    case Some(k) => RouteMap[k].0
    case None => clean
  }

  /** Every backend page survives the trip to its frontend route and back. */
  lemma BackendFrontendRoundTrip(i: nat)
    requires i < |RouteMap|
    ensures ResolveBackendRoute(ResolveFrontendRoute(RouteMap[i].0)) == RouteMap[i].0
  {
    var key := RouteMap[i].0;
    assert RouteMap[i] == (key, RouteMap[i].1);
    assert forall j :: 0 <= j < |RouteMap| && j != i ==> RouteMap[j].0 != key;
    var route := ResolveFrontendRoute(key);
    assert route == RouteMap[i].1;
    RouteIsNormal(i);
    RoutesDistinct();
    forall j | 0 <= j < |RouteMap| && j != i
      ensures Normalize(RouteMap[j].1) != route
    {
      RouteIsNormal(j);
    }
  }

  /** Each route of `routeMap` is already in normal form. */
  lemma RouteIsNormal(i: nat)
    requires i < |RouteMap|
    ensures Normalize(RouteMap[i].1) == RouteMap[i].1
  {
    var route := RouteMap[i].1;
    if i == 0 {
      assert route == "sign-in";
    } else if i == 1 {
      assert route == "sign-in?action=otp";
    } else if i == 2 {
      assert route == "sign-in?action=bill";
    } else if i == 3 {
      assert route == "sign-in?action=contact";
    } else {
      assert route == "https://href.li/?https://paypal.com";
    }
    NormalizeFixes(route);
  }

  /** No two keys of `routeMap` share a route. */
  lemma RoutesDistinct()
    ensures forall i, j :: 0 <= i < j < |RouteMap| ==> RouteMap[i].1 != RouteMap[j].1
  {
    assert |RouteMap[0].1| == 7 && |RouteMap[1].1| == 18 && |RouteMap[2].1| == 19;
    assert |RouteMap[3].1| == 22 && |RouteMap[4].1| == 35;
  }

  /** A string with no leading `/`, no surrounding space and no capital is its own normal form. */
  lemma NormalizeFixes(s: string)
    requires s != [] && s[0] != '/'
    requires !IsJsSpace(s[0]) && !IsJsSpace(s[|s| - 1])
    requires forall i :: 0 <= i < |s| ==> !('A' <= s[i] <= 'Z')
    ensures Normalize(s) == s
  {
    assert DropLeading(s, IsJsSpace) == s;
    assert DropTrailing(s, IsJsSpace) == s;
    assert ToLower(s) == s;
  }

  // ------------------------------------------------------------ page flow

  /** `pageFlow`: numeric step to backend page; `"0"` marks a skipped step. */
  const PageFlow: map<int, string> := map[1 := "login", 2 := "otp", 3 := "bill", 4 := "0", 5 := "final"]

  /** `Object.keys(pageFlow).map(Number).sort((a, b) => a - b)`. */
  const SortedKeys: seq<int> := [1, 2, 3, 4, 5]

  /** The sorted key list holds exactly the flow's keys, in strictly ascending order. */
  lemma SortedKeysSorted()
    ensures forall i, j :: 0 <= i < j < |SortedKeys| ==> SortedKeys[i] < SortedKeys[j]
    ensures forall k :: k in PageFlow <==> k in SortedKeys
  {
  }

  function PageAt(i: nat): string
    requires i < |SortedKeys|
  {
    assert SortedKeys[i] in PageFlow;
    PageFlow[SortedKeys[i]]
  }

  /** A page that the flow does not skip (`candidate && candidate !== "0"`). */
  predicate Live(page: string) {
    page != "" && page != "0"
  }

  /** `sortedKeys.findIndex(key => pageFlow[key] === page)`, searching from `from`. */
  function IndexOfPage(page: string, from: nat): (r: Option<nat>)
    requires from <= |SortedKeys|
    ensures r.Some? ==> from <= r.value < |SortedKeys| && PageAt(r.value) == page
    ensures r.Some? ==> forall j :: from <= j < r.value ==> PageAt(j) != page
    ensures r.None? ==> forall j :: from <= j < |SortedKeys| ==> PageAt(j) != page
    decreases |SortedKeys| - from
  {
    if from == |SortedKeys| then None
    else if PageAt(from) == page then Some(from)
    else IndexOfPage(page, from + 1)
  }

  /** The first index at or after `from` holding a live page. */
  function NextLiveIndex(from: nat): (r: Option<nat>)
    requires from <= |SortedKeys|
    ensures r.Some? ==> from <= r.value < |SortedKeys| && Live(PageAt(r.value))
    ensures r.Some? ==> forall j :: from <= j < r.value ==> !Live(PageAt(j))
    ensures r.None? ==> forall j :: from <= j < |SortedKeys| ==> !Live(PageAt(j))
    decreases |SortedKeys| - from
  {
    if from == |SortedKeys| then None
    else if Live(PageAt(from)) then Some(from)
    else NextLiveIndex(from + 1)
  }

  /** The first live page after the first occurrence of `backend` in the flow, if both exist. */
  function Successor(backend: string): (r: Option<string>)
    ensures r.Some? ==> Live(r.value)
  {
    match IndexOfPage(backend, 0)
    case None => None
    case Some(i) =>
      match NextLiveIndex(i + 1)
      case None => None
      case Some(j) => Some(PageAt(j))
  }

  /**
    The backend page `getNextPage` moves to: none for an empty input or an
    unknown page; otherwise the first live page after the current one in
    ascending key order, if any.
   */
  function ChosenPage(currentPage: Option<string>): (r: Option<string>)
    ensures !Truthy(currentPage) ==> r.None?
    ensures r.Some? ==> Live(r.value)
  {
    if !Truthy(currentPage) then None else Successor(ResolveBackendRoute(currentPage.value))
  }

  /**
    The successor is the first live page after the first occurrence of the
    page; with none, the page is absent or no live page follows it.
   */
  lemma SuccessorIsFirstLiveAfter(backend: string)
    ensures var r := Successor(backend);
      (r.Some? ==>
        exists i, j :: 0 <= i < j < |SortedKeys| && PageAt(i) == backend && PageAt(j) == r.value
                       && (forall k :: 0 <= k < i ==> PageAt(k) != backend)
                       && forall k :: i < k < j ==> !Live(PageAt(k)))
      && (r.None? ==>
        forall i :: 0 <= i < |SortedKeys| && PageAt(i) == backend && (forall k :: 0 <= k < i ==> PageAt(k) != backend) ==>
          forall j :: i < j < |SortedKeys| ==> !Live(PageAt(j)))
  {
    match IndexOfPage(backend, 0)
    case None =>
    case Some(i) =>
      match NextLiveIndex(i + 1)
      case None =>
        forall i' | 0 <= i' < |SortedKeys| && PageAt(i') == backend && (forall k :: 0 <= k < i' ==> PageAt(k) != backend)
          ensures forall j :: i' < j < |SortedKeys| ==> !Live(PageAt(j))
        {
        }
      case Some(j) =>
  }

  predicate IsExternal(route: string) {
    StartsWith(route, "http://") || StartsWith(route, "https://")
  }

  /**
    The shape `getNextPage` gives its answer: an external URL loses every
    leading and trailing `/`; a local route loses its trailing `/`s and gains
    a leading `/` if it has none.
   */
  function ShapeRoute(route: string): (r: string)
    ensures IsExternal(route) ==> (r == [] || (r[0] != '/' && r[|r| - 1] != '/'))
    ensures !IsExternal(route) ==> r != [] && r[0] == '/' && (|r| > 1 ==> r[|r| - 1] != '/')
    ensures IsExternal(route) ==> r == DropTrailing(DropLeading(route, IsSlash), IsSlash)
    ensures !IsExternal(route) ==>
      var t := DropTrailing(route, IsSlash);
      (r == t <==> StartsWith(t, "/")) && (r != t ==> r == "/" + t)
  {
    DropLeadingSpec(route, IsSlash);
    DropTrailingSpec(route, IsSlash);
    DropTrailingSpec(DropLeading(route, IsSlash), IsSlash);
    if IsExternal(route) then
      DropTrailing(DropLeading(route, IsSlash), IsSlash)
    else
      var t := DropTrailing(route, IsSlash);
      if StartsWith(t, "/") then t else "/" + t
  }

  /** What `getNextPage(currentPage, req)` returns. */
  function NextPage(currentPage: Option<string>): (r: Option<string>)
    ensures r.None? <==> ChosenPage(currentPage).None?
  {
    match ChosenPage(currentPage)
    case None => None
    case Some(page) => Some(ShapeRoute(ResolveFrontendRoute(page)))
  }

  /** Whether `getNextPage` takes the external-URL branch (the one that marks the session). */
  predicate LeadsOutside(currentPage: Option<string>) {
    var c := ChosenPage(currentPage);
    c.Some? && IsExternal(ResolveFrontendRoute(c.value))
  }

  /** The parts of `req.session` this model reads or writes. */
  class Session {
    var isAdmin: bool
    var blocked: bool
    var cookieMaxAge: Option<int>

    constructor (isAdmin: bool)
      ensures this.isAdmin == isAdmin && !blocked && cookieMaxAge.None?
    {
      this.isAdmin := isAdmin;
      blocked := false;
      cookieMaxAge := None;
    }
  }

  /** One hour in milliseconds, the cookie lifetime set on leaving the flow. */
  const BlockedMaxAge: int := 60 * 60 * 1000

  /**
    `getNextPage(currentPage, req)`. When the next page is an external URL and
    a session is present, the session is marked blocked for an hour.
   */
  method GetNextPage(currentPage: Option<string>, session: Session?) returns (next: Option<string>)
    modifies session
    ensures next == NextPage(currentPage)
    ensures session != null ==>
      var outside := LeadsOutside(currentPage);
      session.isAdmin == old(session.isAdmin)
      && session.blocked == (outside || old(session.blocked))
      && session.cookieMaxAge == (if outside then Some(BlockedMaxAge) else old(session.cookieMaxAge))
  {
    if !Truthy(currentPage) {
      NoChosenPage(currentPage);
      return None;
    }
    var backendCurrent := ResolveBackendRoute(currentPage.value);
    var found := IndexOfPage(backendCurrent, 0);
    if found.None? {
      assert Successor(backendCurrent).None?;
      NoChosenPage(currentPage);
      return None;
    }
    var nextPage := FirstLivePageAfter(found.value);
    assert Successor(backendCurrent) == nextPage;
    if nextPage.None? {
      NoChosenPage(currentPage);
      return None;
    }
    ChosenPageLeads(currentPage, nextPage.value);
    var frontendRoute := ResolveFrontendRoute(nextPage.value);
    if IsExternal(frontendRoute) {
      if session != null {
        session.cookieMaxAge := Some(BlockedMaxAge);
        session.blocked := true;
      }
      next := Some(DropTrailing(DropLeading(frontendRoute, IsSlash), IsSlash));
      return;
    }
    var normalizedFrontend := DropTrailing(frontendRoute, IsSlash);
    next := Some(if StartsWith(normalizedFrontend, "/") then normalizedFrontend else "/" + normalizedFrontend);
  }

  /** The loop of `getNextPage`: the first live page after position `currentIdx`. */
  method FirstLivePageAfter(currentIdx: nat) returns (nextPage: Option<string>)
    requires currentIdx < |SortedKeys|
    ensures nextPage.None? <==> NextLiveIndex(currentIdx + 1).None?
    ensures nextPage.Some? ==> nextPage.value == PageAt(NextLiveIndex(currentIdx + 1).value)
  {
    nextPage := None;
    var i := currentIdx + 1;
    while i < |SortedKeys| && nextPage.None?
      invariant currentIdx + 1 <= i <= |SortedKeys|
      invariant forall k :: currentIdx + 1 <= k < i ==> !Live(PageAt(k))
      invariant nextPage.Some? ==> i < |SortedKeys| && Live(PageAt(i)) && nextPage.value == PageAt(i)
      decreases |SortedKeys| - i + (if nextPage.None? then 1 else 0)
    {
      var candidate := PageAt(i);
      if Live(candidate) {
        nextPage := Some(candidate);   // the source's `break`
      } else {
        i := i + 1;
      }
    }
  }

  lemma NoChosenPage(currentPage: Option<string>)
    requires ChosenPage(currentPage).None?
    ensures NextPage(currentPage).None? && !LeadsOutside(currentPage)
  {
  }

  lemma ChosenPageLeads(currentPage: Option<string>, page: string)
    ensures ChosenPage(currentPage) == Some(page) ==>
      NextPage(currentPage) == Some(ShapeRoute(ResolveFrontendRoute(page)))
      && LeadsOutside(currentPage) == IsExternal(ResolveFrontendRoute(page))
  {
  }

  /** A normal-form page name that is no route resolves to itself. */
  lemma PlainPageResolvesToItself(page: string)
    requires Normalize(page) == page
    requires forall i :: 0 <= i < |RouteMap| ==> RouteMap[i].1 != page
    ensures ResolveBackendRoute(page) == page
  {
    forall j | 0 <= j < |RouteMap| ensures Normalize(RouteMap[j].1) != page {
      RouteIsNormal(j);
    }
  }

  /** The pages of the flow, position by position. */
  lemma FlowPages()
    ensures PageAt(0) == "login" && PageAt(1) == "otp" && PageAt(2) == "bill"
    ensures PageAt(3) == "0" && PageAt(4) == "final"
  {
  }

  lemma SignInIsLogin()
    ensures ResolveBackendRoute("/sign-in") == "login"
  {
    RouteIsNormal(0);
    assert Normalize("/sign-in") == "sign-in" by { NormalizeFixes("sign-in"); }
  }

  lemma ChosenAfterSignIn()
    ensures ChosenPage(Some("/sign-in")) == Some("otp")
  {
    SignInIsLogin();
    FlowPages();
    assert IndexOfPage("login", 0) == Some(0);
    assert NextLiveIndex(1) == Some(1);
  }

  /** The flow from the sign-in page goes to the one-time-password step. */
  lemma NextAfterSignIn()
    ensures NextPage(Some("/sign-in")) == Some("/" + "sign-in?action=otp")
    ensures !LeadsOutside(Some("/sign-in"))
  {
    ChosenAfterSignIn();
    ChosenPageLeads(Some("/sign-in"), "otp");
    OtpRouteShape();
  }

  lemma OtpRouteShape()
    ensures var route := "sign-in?action=otp";
      ResolveFrontendRoute("otp") == route && !IsExternal(route) && ShapeRoute(route) == "/" + route
  {
    var route := "sign-in?action=otp";
    assert ResolveFrontendRoute("otp") == route;
    assert !IsExternal(route) by { assert route[0] != "http://"[0]; }
    assert DropTrailing(route, IsSlash) == route;
    assert !StartsWith(route, "/");
  }

  lemma ChosenAfterBill()
    ensures ChosenPage(Some("bill")) == Some("final")
  {
    BillIsPlain();
    BillSuccessor();
  }

  lemma BillIsPlain()
    ensures ResolveBackendRoute("bill") == "bill"
  {
    NormalizeFixes("bill");
    PlainPageResolvesToItself("bill");
  }

  lemma BillSuccessor()
    ensures Successor("bill") == Some("final")
  {
    FlowPages();
    assert "login"[0] != "bill"[0] && |"otp"| != |"bill"|;
    assert IndexOfPage("bill", 0) == Some(2);
    assert !Live(PageAt(3));
    assert NextLiveIndex(3) == Some(4);
  }

  /** From the billing step the skipped step `"0"` is passed over and the external URL follows. */
  lemma NextAfterBillSkipsPlaceholder()
    ensures NextPage(Some("bill")) == Some("https://href.li/?https://paypal.com")
    ensures LeadsOutside(Some("bill"))
  {
    ChosenAfterBill();
    ChosenPageLeads(Some("bill"), "final");
    FinalRouteShape();
  }

  lemma FinalRouteShape()
    ensures var url := "https://href.li/?https://paypal.com";
      ResolveFrontendRoute("final") == url && IsExternal(url) && ShapeRoute(url) == url
  {
    var url := "https://href.li/?https://paypal.com";
    assert ResolveFrontendRoute("final") == url;
    assert IsExternal(url) by { assert url[..8] == "https://"; }
    assert DropLeading(url, IsSlash) == url;
    assert DropTrailing(url, IsSlash) == url;
  }

  /** The last step has no successor. */
  lemma NoNextAfterFinal()
    ensures NextPage(Some("final")) == None
  {
    NormalizeFixes("final");
    PlainPageResolvesToItself("final");
    FlowPages();
    assert "login"[0] != "final"[0] && |"otp"| != |"final"| && |"bill"| != |"final"| && |"0"| != |"final"|;
    assert IndexOfPage("final", 0) == Some(4);
  }

  /**
    When X-Forwarded-For lists several hops and the first is an IPv4-mapped
    address, the client address is that hop without its `::ffff:` prefix.
   */
  lemma ForwardedMappedAddress(v: string, rest: string, a: Option<string>, b: Option<string>, c: Option<string>)
    requires v != [] && ',' !in v && !IsJsSpace(v[|v| - 1])
    ensures ReqClientIP(Some(MappedPrefix + v + "," + rest), a, b, c) == Some(v)
  {
    var first := MappedPrefix + v;
    var h := MappedPrefix + v + "," + rest;
    assert h == first + [','] + rest;
    assert ',' !in first by { assert ',' !in MappedPrefix; }
    FirstSegmentOfJoin(first, ',', rest);
    assert ',' in h by { assert h[|first|] == ','; }
    assert DropLeading(first, IsJsSpace) == first by { assert first[0] == ':'; }
    assert DropTrailing(first, IsJsSpace) == first by { assert first[|first| - 1] == v[|v| - 1]; }
    assert FirstHop(h) == first;
    assert StartsWith(first, MappedPrefix) by { assert first[..|MappedPrefix|] == MappedPrefix; }
    assert first[|MappedPrefix|..] == v;
  }
}
