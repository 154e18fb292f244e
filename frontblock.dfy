/**
  The server-side blacklist: an ordered list of entries written through to a
  JSON file after every change, the GET middleware that denies listed
  (address, user agent) pairs, the batch classifier of `/bot-events`, and the
  admin, block and unblock routes that change the list.

  The file is an abstract value; a failed write is swallowed and leaves the
  in-memory list authoritative, so every write takes a `writeOk` flag.
  Database updates and socket notifications are not modelled.
 */
module FrontBlock {
  import opened Wrappers
  import opened Telemetry
  import Utils

  /** A blacklist entry: added by an admin (no user agent) or by detection. */
  datatype Entry =
    | Manual(ip: Option<string>, addedAt: string)
    | Detected(ip: Option<string>, userAgent: string, fingerprint: Option<string>, timestamp: string)

  /** The blacklist file: missing, blank after trimming, not valid JSON, or a stored list. */
  datatype File = Absent | Blank | Malformed | Stored(entries: seq<Entry>)

  /** The parts of an HTTP request the middleware and handler read. */
  datatype Request = Request(httpMethod: string, forwardedFor: Option<string>, connectionRemote: Option<string>,
                             socketRemote: Option<string>, connectionSocketRemote: Option<string>,
                             userAgent: Option<string>)

  /** The `/bot-events` body fields read: `events` (`None` when not an array) and `fingerprint`. */
  datatype Body = Body(events: Option<seq<Event>>, fingerprint: Option<string>)

  datatype Decision = Next | Denied

  const UnknownUA: string := "unknown_ua"

  function RequestIP(req: Request): Option<string> {
    Utils.ReqClientIP(req.forwardedFor, req.connectionRemote, req.socketRemote, req.connectionSocketRemote)
  }

  /** The `user-agent` header, or `'unknown_ua'` when it is missing or empty. */
  function RequestUA(req: Request): (ua: string)
    ensures ua != []
    ensures Utils.Truthy(req.userAgent) ==> ua == req.userAgent.value
  {
    if Utils.Truthy(req.userAgent) then req.userAgent.value else UnknownUA
  }

  // ---------------------------------------------------------------- matching

  /** An entry denies a request when it records exactly that address and user agent. */
  predicate Matches(e: Entry, ip: Option<string>, ua: string) {
    e.Detected? && e.ip == ip && e.userAgent == ua
  }

  predicate HasPair(list: seq<Entry>, ip: Option<string>, ua: string) {
    exists i :: 0 <= i < |list| && Matches(list[i], ip, ua)
  }

  predicate HasIp(list: seq<Entry>, ip: Option<string>) {
    exists i :: 0 <= i < |list| && list[i].ip == ip
  }

  /** `list.find(...)`: the first matching position. */
  function Find(list: seq<Entry>, ip: Option<string>, ua: string): (r: Option<nat>)
    ensures r.Some? ==> (r.value < |list| && Matches(list[r.value], ip, ua)
      && forall j :: 0 <= j < r.value ==> !Matches(list[j], ip, ua))
    ensures r.None? <==> !HasPair(list, ip, ua)
  {
    if list == [] then None
    else if Matches(list[0], ip, ua) then Some(0)
    else
      var r := Find(list[1..], ip, ua);
      assert forall j :: 1 <= j < |list| ==> list[j] == list[1..][j - 1];
      if r.None? then None else Some(r.value + 1)
  }

  /** How many entries record the pair. */
  function CountPair(list: seq<Entry>, ip: Option<string>, ua: string): (n: nat)
    ensures n <= |list|
  {
    if list == [] then 0
    else CountPair(list[..|list| - 1], ip, ua) + (if Matches(list[|list| - 1], ip, ua) then 1 else 0)
  }

  lemma {:induction false} CountPairPositive(list: seq<Entry>, ip: Option<string>, ua: string)
    ensures CountPair(list, ip, ua) > 0 <==> HasPair(list, ip, ua)
  {
    if list != [] {
      var init := list[..|list| - 1];
      CountPairPositive(init, ip, ua);
      if HasPair(init, ip, ua) {
        var i :| 0 <= i < |init| && Matches(init[i], ip, ua);
        assert list[i] == init[i];
      }
      if HasPair(list, ip, ua) && !Matches(list[|list| - 1], ip, ua) {
        var i :| 0 <= i < |list| && Matches(list[i], ip, ua);
        assert init[i] == list[i];
      }
    }
  }

  /** No (address, user agent) pair is recorded twice. */
  ghost predicate UniquePairs(list: seq<Entry>) {
    forall ip: Option<string>, ua: string :: CountPair(list, ip, ua) <= 1
  }

  // ---------------------------------------------------------------- classifier

  const LinearityThreshold: real := 9.0 / 10.0

  /** One event that marks its batch as coming from a bot. */
  predicate Qualifies(e: Event)
    ensures Qualifies(e) ==> e.t == "fast_form_submit_flag" || e.t == "fast_scroll" || e.t == "mouse_summary"
    ensures e.t == "fast_form_submit_flag" || e.t == "fast_scroll" ==> Qualifies(e)
    ensures e.t == "mouse_summary" && "linearityScore" !in e.payload ==> !Qualifies(e)
  {
    e.t == "fast_form_submit_flag" || e.t == "fast_scroll"
    || (e.t == "mouse_summary" && "linearityScore" in e.payload
        && e.payload["linearityScore"].Num? && e.payload["linearityScore"].n > LinearityThreshold)
  }

  /** `events.some(...)`, scanning from the front. */
  function AnyQualifies(events: seq<Event>): bool {
    if events == [] then false else Qualifies(events[0]) || AnyQualifies(events[1..])
  }

  /** A batch is suspicious when `events` is an array holding a qualifying event. */
  predicate Suspicious(events: Option<seq<Event>>)
    ensures Suspicious(events) <==> events.Some? && exists i :: 0 <= i < |events.value| && Qualifies(events.value[i])
  {
    match events
    case None => false
    case Some(es) => AnyQualifiesExists(es); AnyQualifies(es)
  }

  /** The scan finds a qualifying event exactly when one exists. */
  lemma {:induction false} AnyQualifiesExists(events: seq<Event>)
    ensures AnyQualifies(events) <==> exists i :: 0 <= i < |events| && Qualifies(events[i])
  {
    if events != [] {
      AnyQualifiesExists(events[1..]);
      if exists i :: 0 <= i < |events| && Qualifies(events[i]) {
        var i :| 0 <= i < |events| && Qualifies(events[i]);
        if i > 0 { assert events[1..][i - 1] == events[i]; }
      }
      if AnyQualifies(events[1..]) {
        var i :| 0 <= i < |events[1..]| && Qualifies(events[1..][i]);
        assert events[i + 1] == events[1..][i];
      }
    }
  }

  /** A batch built from two parts is suspicious exactly when one of the parts is. */
  lemma {:induction false} AnyQualifiesConcat(a: seq<Event>, b: seq<Event>)
    ensures AnyQualifies(a + b) == (AnyQualifies(a) || AnyQualifies(b))
  {
    if a != [] {
      assert (a + b)[1..] == a[1..] + b;
      AnyQualifiesConcat(a[1..], b);
    } else {
      assert a + b == b;
    }
  }

  // ---------------------------------------------------------------- list updates

  /** `list.filter(entry => entry.ip !== ip)`. */
  function Without(list: seq<Entry>, ip: Option<string>): (r: seq<Entry>)
    ensures |r| <= |list|
  {
    if list == [] then [] else (if list[0].ip == ip then [] else [list[0]]) + Without(list[1..], ip)
  }

  /** Removal drops exactly the entries with that address. */
  lemma {:induction false} WithoutMembers(list: seq<Entry>, ip: Option<string>)
    ensures forall e :: e in Without(list, ip) <==> e in list && e.ip != ip
  {
    if list != [] {
      WithoutMembers(list[1..], ip);
      forall e | e in list ensures e == list[0] || e in list[1..] {
        var i :| 0 <= i < |list| && list[i] == e;
        if i > 0 { assert list[1..][i - 1] == e; }
      }
    }
  }

  /** Removal keeps the order of what remains: it acts on each part of a list separately. */
  lemma {:induction false} WithoutConcat(a: seq<Entry>, b: seq<Entry>, ip: Option<string>)
    ensures Without(a + b, ip) == Without(a, ip) + Without(b, ip)
  {
    if a == [] {
      assert a + b == b;
    } else {
      assert (a + b)[1..] == a[1..] + b;
      WithoutConcat(a[1..], b, ip);
    }
  }

  /** Removing an address twice is removing it once. */
  lemma {:induction false} WithoutIdempotent(list: seq<Entry>, ip: Option<string>)
    ensures Without(Without(list, ip), ip) == Without(list, ip)
  {
    if list != [] {
      var head := if list[0].ip == ip then [] else [list[0]];
      WithoutIdempotent(list[1..], ip);
      WithoutConcat(head, Without(list[1..], ip), ip);
      assert Without(head, ip) == head by {
        if head != [] { assert head[1..] == []; }
      }
    }
  }

  /** Nothing is removed when no entry has the address. */
  lemma {:induction false} WithoutAbsent(list: seq<Entry>, ip: Option<string>)
    requires !HasIp(list, ip)
    ensures Without(list, ip) == list
  {
    if list != [] {
      assert list[0].ip != ip;
      assert !HasIp(list[1..], ip) by {
        forall i | 0 <= i < |list[1..]| ensures list[1..][i].ip != ip {
          assert list[1..][i] == list[i + 1];
        }
      }
      WithoutAbsent(list[1..], ip);
    }
  }

  lemma {:induction false} CountPairWithout(list: seq<Entry>, ip: Option<string>, ip2: Option<string>, ua: string)
    ensures CountPair(Without(list, ip), ip2, ua) <= CountPair(list, ip2, ua)
    decreases |list|
  {
    if list != [] {
      var head := if list[0].ip == ip then [] else [list[0]];
      CountPairWithout(list[1..], ip, ip2, ua);
      CountPairConcat([list[0]], list[1..], ip2, ua);
      assert [list[0]] + list[1..] == list;
      CountPairConcat(head, Without(list[1..], ip), ip2, ua);
      assert CountPair([list[0]], ip2, ua) == (if Matches(list[0], ip2, ua) then 1 else 0) by {
        assert [list[0]][..0] == [];
      }
      if head != [] {
        assert CountPair(head, ip2, ua) == CountPair([list[0]], ip2, ua);
      }
    }
  }

  lemma {:induction false} CountPairConcat(a: seq<Entry>, b: seq<Entry>, ip: Option<string>, ua: string)
    ensures CountPair(a + b, ip, ua) == CountPair(a, ip, ua) + CountPair(b, ip, ua)
    decreases |b|
  {
    if b == [] {
      assert a + b == a;
    } else {
      CountPairConcat(a, b[..|b| - 1], ip, ua);
      assert (a + b)[..|a + b| - 1] == a + b[..|b| - 1];
    }
  }

  /** Removal keeps pairs unique. */
  lemma WithoutKeepsUnique(list: seq<Entry>, ip: Option<string>)
    requires UniquePairs(list)
    ensures UniquePairs(Without(list, ip))
  {
    forall ip2: Option<string>, ua: string ensures CountPair(Without(list, ip), ip2, ua) <= 1 {
      CountPairWithout(list, ip, ip2, ua);
    }
  }

  /** The guarded insert of a detection: append unless the pair is already listed. */
  function Record(list: seq<Entry>, ip: Option<string>, ua: string, fingerprint: Option<string>, now: string): (r: seq<Entry>)
    ensures list <= r && |r| <= |list| + 1
    ensures |r| == |list| + 1 <==> !HasPair(list, ip, ua)
  {
    if HasPair(list, ip, ua) then list else list + [Detected(ip, ua, fingerprint, now)]
  }

  /** After a detection the pair is listed; listed once if it was at most once before; a repeat changes nothing. */
  lemma RecordSpec(list: seq<Entry>, ip: Option<string>, ua: string, fp: Option<string>, now: string,
                   fp2: Option<string>, later: string)
    ensures HasPair(Record(list, ip, ua, fp, now), ip, ua)
    ensures CountPair(list, ip, ua) <= 1 ==> CountPair(Record(list, ip, ua, fp, now), ip, ua) == 1
    ensures Record(Record(list, ip, ua, fp, now), ip, ua, fp2, later) == Record(list, ip, ua, fp, now)
  {
    var r := Record(list, ip, ua, fp, now);
    CountPairPositive(list, ip, ua);
    if !HasPair(list, ip, ua) {
      assert Matches(r[|list|], ip, ua);
      assert r[..|r| - 1] == list;
    }
  }

  /** A detection keeps pairs unique. */
  lemma RecordKeepsUnique(list: seq<Entry>, ip: Option<string>, ua: string, fp: Option<string>, now: string)
    requires UniquePairs(list)
    ensures UniquePairs(Record(list, ip, ua, fp, now))
  {
    var r := Record(list, ip, ua, fp, now);
    forall ip2: Option<string>, ua2: string ensures CountPair(r, ip2, ua2) <= 1 {
      if !HasPair(list, ip, ua) {
        assert r[..|r| - 1] == list;
        if ip2 == ip && ua2 == ua {
          CountPairPositive(list, ip, ua);
        }
      }
    }
  }

  /** An entry added by address alone has no user agent, so it never matches a request. */
  lemma ManualEntryNeverMatches(list: seq<Entry>, ip: Option<string>, addedAt: string, reqIp: Option<string>, ua: string)
    ensures HasPair(list + [Manual(ip, addedAt)], reqIp, ua) <==> HasPair(list, reqIp, ua)
  {
    var l := list + [Manual(ip, addedAt)];
    if HasPair(l, reqIp, ua) {
      var i :| 0 <= i < |l| && Matches(l[i], reqIp, ua);
      assert i < |list| && list[i] == l[i];
    }
    if HasPair(list, reqIp, ua) {
      var i :| 0 <= i < |list| && Matches(list[i], reqIp, ua);
      assert l[i] == list[i];
    }
  }

  /** A manual entry keeps pairs unique. */
  lemma ManualKeepsUnique(list: seq<Entry>, ip: Option<string>, addedAt: string)
    requires UniquePairs(list)
    ensures UniquePairs(list + [Manual(ip, addedAt)])
  {
    var l := list + [Manual(ip, addedAt)];
    forall ip2: Option<string>, ua: string ensures CountPair(l, ip2, ua) <= 1 {
      assert l[..|l| - 1] == list;
    }
  }

  /** `loadBlacklist`: the stored list, or an empty one for a missing, blank or unreadable file. */
  function Loaded(file: File): (r: seq<Entry>)
    ensures !file.Stored? ==> r == []
  {
    if file.Stored? then file.entries else []
  }

  // ---------------------------------------------------------------- the store

  /** The in-memory blacklist and the file it is written to. */
  class Blacklist {
    var entries: seq<Entry>
    ghost var disk: File

    /** The file holds the in-memory list. */
    ghost predicate Persisted()
      reads this
    {
      disk == Stored(entries)
    }

    /** `loadBlacklist`: an unusable file yields an empty list and is reset to `[]` when the write succeeds. */
    constructor Load(file: File, writeOk: bool)
      ensures entries == Loaded(file)
      ensures file.Stored? ==> disk == file
      ensures !file.Stored? ==> disk == (if writeOk then Stored([]) else file)
      ensures file.Stored? || writeOk ==> Persisted()
    {
      entries := Loaded(file);
      disk := if file.Stored? || writeOk then Stored(Loaded(file)) else file;
    }

    /** `saveBlacklist`: a failed write is swallowed. */
    method Save(writeOk: bool)
      modifies this`disk
      ensures disk == (if writeOk then Stored(entries) else old(disk))
    {
      if writeOk {
        disk := Stored(entries);
      }
    }

    /**
      `blacklistMiddleware`: a GET is denied exactly when some entry records the
      request's address and user agent; any other method passes unchecked.
     */
    method Middleware(req: Request) returns (d: Decision)
      ensures req.httpMethod != "GET" ==> d == Next
      ensures req.httpMethod == "GET" ==> (d == Denied <==> HasPair(entries, RequestIP(req), RequestUA(req)))
    {
      if req.httpMethod != "GET" {
        return Next;
      }
      var ip := RequestIP(req);
      var ua := RequestUA(req);
      var found := Find(entries, ip, ua);
      d := if found.Some? then Denied else Next;
    }

    /** `addToBlacklist(ip)`: append an address-only entry unless the address is already listed. */
    method AddToBlacklist(ip: Option<string>, now: string, writeOk: bool) returns (added: bool)
      modifies this
      ensures added <==> !HasIp(old(entries), ip)
      ensures added ==> (entries == old(entries) + [Manual(ip, now)]
        && disk == (if writeOk then Stored(entries) else old(disk)))
      ensures !added ==> entries == old(entries) && disk == old(disk)
      ensures HasIp(entries, ip)
    {
      if exists i :: 0 <= i < |entries| && entries[i].ip == ip {
        return false;
      }
      entries := entries + [Manual(ip, now)];
      assert entries[|entries| - 1].ip == ip;
      Save(writeOk);
      added := true;
    }

    /** `removeFromBlacklist(ip)`: drop every entry with the address, keeping the rest in order. */
    method RemoveFromBlacklist(ip: Option<string>, writeOk: bool) returns (ok: bool)
      modifies this
      ensures ok
      ensures entries == Without(old(entries), ip)
      ensures !HasIp(entries, ip)
      ensures disk == (if writeOk then Stored(entries) else old(disk))
    {
      WithoutMembers(entries, ip);
      entries := Without(entries, ip);
      assert forall i :: 0 <= i < |entries| ==> entries[i] in entries;
      Save(writeOk);
      ok := true;
    }

    /**
      `POST /bot-events`: a suspicious batch lists the sender's (address, user
      agent) pair unless it is listed already; the reply is 204 either way.
     */
    method HandleBotEvents(req: Request, body: Option<Body>, now: string, writeOk: bool) returns (status: int)
      modifies this
      ensures status == 204
      ensures var b := if body.Some? then body.value else Body(None, None);
        var fp := if b.fingerprint.Some? && b.fingerprint.value != [] then b.fingerprint else None;
        var listed := Suspicious(b.events) && !HasPair(old(entries), RequestIP(req), RequestUA(req));
        && entries == (if Suspicious(b.events) then Record(old(entries), RequestIP(req), RequestUA(req), fp, now) else old(entries))
        && disk == (if listed && writeOk then Stored(entries) else old(disk))
    {
      var payload := if body.Some? then body.value else Body(None, None);
      var ip := RequestIP(req);
      var ua := RequestUA(req);
      var suspicious := payload.events.Some? && AnyQualifies(payload.events.value);
      if suspicious {
        var exists_ := Find(entries, ip, ua).Some?;
        if !exists_ {
          var fp := if payload.fingerprint.Some? && payload.fingerprint.value != [] then payload.fingerprint else None;
          entries := entries + [Detected(ip, ua, fp, now)];
          Save(writeOk);
        }
      }
      status := 204;
    }

    /** `GET /admin/blacklist`: 401 without an admin session, else the list and its length. */
    method AdminRead(isAdmin: bool) returns (status: int, count: nat, listed: seq<Entry>)
      ensures !isAdmin ==> status == 401
      ensures isAdmin ==> status == 200 && count == |entries| && listed == entries
    {
      if !isAdmin {
        return 401, 0, [];
      }
      return 200, |entries|, entries;
    }

    /** `DELETE /admin/blacklist`: 401 without an admin session, else the list is emptied and saved. */
    method AdminClear(isAdmin: bool, writeOk: bool) returns (status: int)
      modifies this
      ensures !isAdmin ==> status == 401 && entries == old(entries) && disk == old(disk)
      ensures isAdmin ==> (status == 200 && entries == []
        && disk == (if writeOk then Stored([]) else old(disk)))
      ensures isAdmin ==> forall ip, ua :: !HasPair(entries, ip, ua)
    {
      if !isAdmin {
        return 401;
      }
      entries := [];
      Save(writeOk);
      status := 200;
    }

    /**
      `POST /unblock` (and, with `block`, `POST /block`): look the user's address
      up, mark the user in the database, then remove (or add) the address.
     */
    method ChangeBlock(block: bool, lookup: Lookup, updateOk: bool, now: string, writeOk: bool) returns (status: int)
      modifies this
      ensures status == LookupStatus(lookup, updateOk)
      ensures status != 200 ==> entries == old(entries) && disk == old(disk)
      ensures status == 200 && !block ==> (entries == Without(old(entries), Some(lookup.ip))
        && disk == (if writeOk then Stored(entries) else old(disk)))
      ensures status == 200 && block ==> (HasIp(entries, Some(lookup.ip))
        && entries == (if HasIp(old(entries), Some(lookup.ip)) then old(entries) else old(entries) + [Manual(Some(lookup.ip), now)])
        && disk == (if !HasIp(old(entries), Some(lookup.ip)) && writeOk then Stored(entries) else old(disk)))
    {
      status := LookupStatus(lookup, updateOk);
      if status != 200 {
        return;
      }
      if block {
        var _ := AddToBlacklist(Some(lookup.ip), now, writeOk);
      } else {
        var _ := RemoveFromBlacklist(Some(lookup.ip), writeOk);
      }
    }
  }

  /** The outcome of `SELECT ip FROM users WHERE id = ?`. */
  datatype Lookup = LookupFailed | NoRow | Row(ip: string)

  /** 500 when a database call fails, 404 when the user or its address is missing, else 200. */
  function LookupStatus(lookup: Lookup, updateOk: bool): (s: int)
    ensures s == 200 <==> lookup.Row? && lookup.ip != [] && updateOk
    ensures s == 404 <==> lookup.NoRow? || (lookup.Row? && lookup.ip == [])
    ensures s == 200 || s == 404 || s == 500
  {
    match lookup
    case LookupFailed => 500
    case NoRow => 404
    case Row(ip) => if ip == [] then 404 else if !updateOk then 500 else 200
  }
}
