/**
 * Service-mediated CLI login: a browser approves or denies, the CLI polls, and the token is handed over once.
 * Every store call is one atomic step and any number of callers interleave between the steps.
 */
module PendingLogin {
  import opened Options
  import opened ObjectKeys
  import opened Clock
  import opened Numbers

  type Secret = string
  type Token = string

  const POLL_INTERVAL_SECONDS: int := 5

  datatype LoginState = Pending | Approved | Denied | Consumed | Expired

  datatype Login = Login(
    secret: Secret, userCode: string, state: LoginState, expiresAt: int, pollCount: nat,
    user: Option<Uuid>, token: Option<Token>)

  datatype Status = StillPending | HandedOver(token: Token, user: Uuid) | WasDenied | HasExpired

  /** What a poll answers: nothing when the id and secret match no row. */
  datatype Reply = NotFound | Reply(status: Status)

  datatype ApproveResult = ApproveOk | LoginNotFound | CodeMismatch

  /** An approval that has passed the code check and holds a freshly issued session. */
  datatype Approval = Approval(id: Uuid, user: Uuid, typed: string, token: Token)

  type Logins = map<Uuid, Login>

  // -------------------------------------------------- one store call at a time

  /** Go's integer division, which truncates toward zero. */
  function Truncated(a: int, b: int): int
    requires b > 0
  {
    if a >= 0 then a / b else -((-a) / b)
  }

  function MaxPolls(ttl: int): int {
    var budget := Truncated(ttl, POLL_INTERVAL_SECONDS * SECOND) + 12;
    if budget < 1 then 1 else budget
  }

  function Parked(rows: Logins, id: Uuid, user: Uuid, token: Token, now: int): (Logins, bool) {
    if id in rows && rows[id].state == Pending && rows[id].expiresAt > now
    then (rows[id := rows[id].(state := Approved, user := Some(user), token := Some(token))], true)
    else (rows, false)
  }

  function Refused(rows: Logins, id: Uuid): Logins {
    if id in rows && rows[id].state == Pending then rows[id := rows[id].(state := Denied)] else rows
  }

  function Polled(rows: Logins, id: Uuid, secret: Secret, maxPolls: int, now: int): (Logins, Reply) {
    if id !in rows || rows[id].secret != secret then (rows, NotFound)
    else
      var (row, status) := PolledRow(rows[id], maxPolls, now);
      (rows[id := row], Reply(status))
  }

  function PolledRow(row: Login, maxPolls: int, now: int): (Login, Status) {
    if row.pollCount >= maxPolls then (row.(state := Expired), HasExpired)
    else
      var counted := row.(pollCount := row.pollCount + 1);
      if now >= row.expiresAt && row.state == Pending then (counted.(state := Expired), HasExpired)
      else
        match row.state
        case Approved =>
          if row.token.None? || row.user.None? then (counted, HasExpired)
          else (counted.(state := Consumed, token := None), HandedOver(row.token.value, row.user.value))
        case Pending => (counted, StillPending)
        case Denied => (counted, WasDenied)
        case _ => (counted, HasExpired)
  }

  function Purged(rows: Logins, now: int): Logins {
    map id | id in rows && !(rows[id].expiresAt < now - HOUR) :: rows[id]
  }

  // --------------------------------------------------------------- the classes

  class Store {
    var logins: Logins
    var sessions: map<Token, Uuid>

    constructor ()
      ensures logins == map[] && sessions == map[]
    {
      logins, sessions := map[], map[];
    }

    method ApprovePendingLogin(id: Uuid, user: Uuid, token: Token, now: int) returns (ok: bool)
      modifies this`logins
      ensures (logins, ok) == Parked(old(logins), id, user, token, now)
    {
      if id !in logins || logins[id].state != Pending || logins[id].expiresAt <= now {
        return false;
      }
      logins := logins[id := logins[id].(state := Approved, user := Some(user), token := Some(token))];
      return true;
    }

    method DenyPendingLogin(id: Uuid)
      modifies this`logins
      ensures logins == Refused(old(logins), id)
    {
      if id in logins && logins[id].state == Pending {
        logins := logins[id := logins[id].(state := Denied)];
      }
    }

    method PollPendingLogin(id: Uuid, secret: Secret, maxPolls: int, now: int) returns (reply: Reply)
      modifies this`logins
      ensures (logins, reply) == Polled(old(logins), id, secret, maxPolls, now)
    {
      if id !in logins || logins[id].secret != secret {
        return NotFound;
      }
      var row := logins[id];
      if row.pollCount >= maxPolls {
        logins := logins[id := row.(state := Expired)];
        return Reply(HasExpired);
      }
      var state, token, user := row.state, row.token, row.user;
      row := row.(pollCount := row.pollCount + 1);
      logins := logins[id := row];
      if now >= row.expiresAt && state == Pending {
        logins := logins[id := row.(state := Expired)];
        assert logins == old(logins)[id := row.(state := Expired)];
        return Reply(HasExpired);
      }
      match state {
        case Approved =>
          if token.None? || user.None? {
            return Reply(HasExpired);
          }
          logins := logins[id := row.(state := Consumed, token := None)];
          assert logins == old(logins)[id := row.(state := Consumed, token := None)];
          return Reply(HandedOver(token.value, user.value));
        case Pending =>
          return Reply(StillPending);
        case Denied =>
          return Reply(WasDenied);
        case _ =>
          return Reply(HasExpired);
      }
    }

    method PurgeExpiredAuth(now: int)
      modifies this`logins
      ensures logins == Purged(old(logins), now)
    {
      logins := map id | id in logins && !(logins[id].expiresAt < now - HOUR) :: logins[id];
    }
  }

  /** The service call, with nobody else acting between its two store calls. */
  method ApprovePendingLogin(store: Store, id: Uuid, user: Uuid, typed: string, token: Token, now: int)
    returns (result: ApproveResult)
    modifies store
    ensures result == CodeMismatch <==> id in old(store.logins) && old(store.logins)[id].state == Pending && typed != old(store.logins)[id].userCode
    ensures result == ApproveOk <==>
      id in old(store.logins) && old(store.logins)[id].state == Pending && typed == old(store.logins)[id].userCode && now < old(store.logins)[id].expiresAt
    ensures result == ApproveOk ==> store.sessions == old(store.sessions)[token := user]
    ensures result == ApproveOk ==> store.logins == Parked(old(store.logins), id, user, token, now).0
    ensures result != ApproveOk ==> store.logins == old(store.logins)
    ensures result == CodeMismatch ==> store.sessions == old(store.sessions)
  {
    if id !in store.logins || store.logins[id].state != Pending {
      return LoginNotFound;
    }
    if typed != store.logins[id].userCode {
      return CodeMismatch;
    }
    store.sessions := store.sessions[token := user];
    var ok := store.ApprovePendingLogin(id, user, token, now);
    return if ok then ApproveOk else LoginNotFound;
  }

  // -------------------------------------------------------- interleaved callers

  datatype Event =
    | Start(id: Uuid, secret: Secret, userCode: string, now: int)
    | Confirm(call: nat, id: Uuid, user: Uuid, typed: string, token: Token)
    | Park(call: nat, now: int)
    | Deny(id: Uuid)
    | Poll(id: Uuid, secret: Secret, now: int)
    | Purge(now: int)

  /**
   * The tables, the approvals that have passed the code check, and every id ever used. An id, a token and a
   * call number are fresh when they are drawn: a step that would repeat one does nothing.
   */
  datatype World = World(logins: Logins, sessions: map<Token, Uuid>, calls: map<nat, Approval>, spent: set<Uuid>)

  const EMPTY := World(map[], map[], map[], {})

  function Stepped(w: World, e: Event, ttl: int): World {
    match e
    case Start(id, secret, userCode, now) =>
      if id in w.spent then w
      else w.(logins := w.logins[id := Login(secret, userCode, Pending, now + ttl, 0, None, None)], spent := w.spent + {id})
    case Confirm(call, id, user, typed, token) =>
      if call in w.calls || token in w.sessions || id !in w.logins then w
      else if w.logins[id].state != Pending || typed != w.logins[id].userCode then w
      else w.(sessions := w.sessions[token := user], calls := w.calls[call := Approval(id, user, typed, token)])
    case Park(call, now) =>
      if call !in w.calls then w
      else w.(logins := Parked(w.logins, w.calls[call].id, w.calls[call].user, w.calls[call].token, now).0)
    case Deny(id) => w.(logins := Refused(w.logins, id))
    case Poll(id, secret, now) => w.(logins := Polled(w.logins, id, secret, MaxPolls(ttl), now).0)
    case Purge(now) => w.(logins := Purged(w.logins, now))
  }

  /** What `e` answers to a poll of login `id`; nothing for every other step. */
  function Told(w: World, e: Event, ttl: int, id: Uuid): seq<Status> {
    if e.Poll? && e.id == id && Polled(w.logins, id, e.secret, MaxPolls(ttl), e.now).1.Reply?
    then [Polled(w.logins, id, e.secret, MaxPolls(ttl), e.now).1.status] else []
  }

  function Run(w: World, events: seq<Event>, ttl: int): World
    decreases |events|
  {
    if events == [] then w else Run(Stepped(w, events[0], ttl), events[1..], ttl)
  }

  /** Everything the polls of login `id` are told along a run, in order. */
  function Statuses(w: World, events: seq<Event>, ttl: int, id: Uuid): seq<Status>
    decreases |events|
  {
    if events == [] then [] else Told(w, events[0], ttl, id) + Statuses(Stepped(w, events[0], ttl), events[1..], ttl, id)
  }

  function HandOvers(statuses: seq<Status>): nat {
    if statuses == [] then 0 else (if statuses[0].HandedOver? then 1 else 0) + HandOvers(statuses[1..])
  }

  // ------------------------------------------------------------- one-shot token

  /** The row of `id` is gone or in a state that a token is never read from again. */
  ghost predicate Closed(w: World, id: Uuid) {
    id in w.spent && (id in w.logins ==> w.logins[id].state in {Denied, Consumed, Expired})
  }

  /** A confirmed approval holds the session of its user and named the code of the login it confirms. */
  ghost predicate CallsSound(w: World) {
    forall c :: c in w.calls ==>
      && w.calls[c].id in w.spent
      && w.calls[c].token in w.sessions && w.sessions[w.calls[c].token] == w.calls[c].user
      && (w.calls[c].id in w.logins ==> w.logins[w.calls[c].id].userCode == w.calls[c].typed)
  }

  ghost predicate ParkedBy(w: World, row: Login, id: Uuid, c: nat) {
    c in w.calls && w.calls[c].id == id && row.token == Some(w.calls[c].token) && row.user == Some(w.calls[c].user)
  }

  ghost predicate RowsSound(w: World, maxPolls: int) {
    forall id :: id in w.logins ==>
      && id in w.spent
      && w.logins[id].pollCount <= maxPolls
      && (w.logins[id].state == Approved ==> exists c :: ParkedBy(w, w.logins[id], id, c))
  }

  ghost predicate Sound(w: World, maxPolls: int) {
    CallsSound(w) && RowsSound(w, maxPolls)
  }

  lemma ClosedStays(w: World, e: Event, ttl: int, id: Uuid)
    requires Closed(w, id)
    ensures Closed(Stepped(w, e, ttl), id)
    ensures Told(w, e, ttl, id) != [] ==> Told(w, e, ttl, id)[0].WasDenied? || Told(w, e, ttl, id)[0].HasExpired?
  {
  }

  lemma SoundStays(w: World, e: Event, ttl: int)
    requires Sound(w, MaxPolls(ttl))
    ensures Sound(Stepped(w, e, ttl), MaxPolls(ttl))
  {
    CallsStaySound(w, e, ttl);
    RowsStaySound(w, e, ttl);
  }

  lemma CallsStaySound(w: World, e: Event, ttl: int)
    requires Sound(w, MaxPolls(ttl))
    ensures CallsSound(Stepped(w, e, ttl))
  {
  }

  lemma RowsStaySound(w: World, e: Event, ttl: int)
    requires Sound(w, MaxPolls(ttl))
    ensures RowsSound(Stepped(w, e, ttl), MaxPolls(ttl))
  {
    var w' := Stepped(w, e, ttl);
    forall id | id in w'.logins
      ensures id in w'.spent && w'.logins[id].pollCount <= MaxPolls(ttl)
      ensures w'.logins[id].state == Approved ==> exists c :: ParkedBy(w', w'.logins[id], id, c)
    {
      RowStaysSound(w, e, ttl, id);
    }
  }

  lemma RowStaysSound(w: World, e: Event, ttl: int, id: Uuid)
    requires Sound(w, MaxPolls(ttl)) && id in Stepped(w, e, ttl).logins
    ensures id in Stepped(w, e, ttl).spent && Stepped(w, e, ttl).logins[id].pollCount <= MaxPolls(ttl)
    ensures Stepped(w, e, ttl).logins[id].state == Approved ==> exists c :: ParkedBy(Stepped(w, e, ttl), Stepped(w, e, ttl).logins[id], id, c)
  {
    var w' := Stepped(w, e, ttl);
    if w'.logins[id].state == Approved {
      if id in w.logins && w.logins[id].state == Approved {
        var c :| ParkedBy(w, w.logins[id], id, c);
        assert ParkedBy(w', w'.logins[id], id, c);
      } else {
        assert e.Park?;
        assert ParkedBy(w', w'.logins[id], id, e.call);
      }
    }
  }

  lemma HandOverCloses(w: World, e: Event, ttl: int, id: Uuid)
    requires Sound(w, MaxPolls(ttl)) && Told(w, e, ttl, id) != [] && !Told(w, e, ttl, id)[0].StillPending?
    ensures Closed(Stepped(w, e, ttl), id)
  {
  }

  lemma HandOversJoin(first: seq<Status>, rest: seq<Status>)
    requires |first| <= 1
    ensures HandOvers(first + rest) == HandOvers(first) + HandOvers(rest)
  {
    if first == [] {
      assert first + rest == rest;
    } else {
      assert (first + rest)[1..] == rest;
    }
  }

  /** After a denial or any final answer, every poll is told that the login was denied or has expired. */
  lemma {:induction false} ClosedForGood(w: World, events: seq<Event>, ttl: int, id: Uuid)
    requires Closed(w, id)
    ensures forall i :: 0 <= i < |Statuses(w, events, ttl, id)| ==>
      Statuses(w, events, ttl, id)[i].WasDenied? || Statuses(w, events, ttl, id)[i].HasExpired?
    ensures HandOvers(Statuses(w, events, ttl, id)) == 0
    decreases |events|
  {
    if events != [] {
      ClosedStays(w, events[0], ttl, id);
      hide Closed, Told, Stepped;
      ClosedForGood(Stepped(w, events[0], ttl), events[1..], ttl, id);
      HandOversJoin(Told(w, events[0], ttl, id), Statuses(Stepped(w, events[0], ttl), events[1..], ttl, id));
    }
  }

  ghost predicate Final(status: Status) {
    status.WasDenied? || status.HasExpired?
  }

  /** After the first answer other than "pending" every poll is told that the login was denied or has expired. */
  ghost predicate Settles(statuses: seq<Status>) {
    forall i, j :: 0 <= i < j < |statuses| && !statuses[i].StillPending? ==> Final(statuses[j])
  }

  lemma SettlesJoin(first: seq<Status>, rest: seq<Status>)
    requires |first| <= 1 && Settles(rest)
    requires first != [] && !first[0].StillPending? ==> forall i :: 0 <= i < |rest| ==> Final(rest[i])
    ensures Settles(first + rest)
  {
    var all := first + rest;
    forall i, j | 0 <= i < j < |all| && !all[i].StillPending?
      ensures Final(all[j])
    {
      assert all[j] == rest[j - |first|];
      if i >= |first| {
        assert all[i] == rest[i - |first|];
      }
    }
  }

  /** One login hands out at most one token, whoever approves, denies and polls, and however often. */
  lemma {:induction false} HandedOverOnce(w: World, events: seq<Event>, ttl: int, id: Uuid)
    requires Sound(w, MaxPolls(ttl))
    ensures Settles(Statuses(w, events, ttl, id))
    ensures HandOvers(Statuses(w, events, ttl, id)) <= 1
    decreases |events|
  {
    if events != [] {
      var w' := Stepped(w, events[0], ttl);
      var first, rest := Told(w, events[0], ttl, id), Statuses(w', events[1..], ttl, id);
      SoundStays(w, events[0], ttl);
      if first != [] && !first[0].StillPending? {
        HandOverCloses(w, events[0], ttl, id);
        ClosedForGood(w', events[1..], ttl, id);
      }
      hide Sound, Closed, Told, Stepped;
      HandedOverOnce(w', events[1..], ttl, id);
      SettlesJoin(first, rest);
      HandOversJoin(first, rest);
    }
  }

  /** Every state that approvals, denials, polls and purges can reach keeps the budget and the books. */
  lemma {:induction false} RunIsSound(w: World, events: seq<Event>, ttl: int)
    requires Sound(w, MaxPolls(ttl))
    ensures Sound(Run(w, events, ttl), MaxPolls(ttl))
    decreases |events|
  {
    if events != [] {
      SoundStays(w, events[0], ttl);
      hide Sound, Stepped;
      RunIsSound(Stepped(w, events[0], ttl), events[1..], ttl);
    }
  }

  /** From the empty tables: at most one token for a login, and never more polls counted than budgeted. */
  lemma OneTokenPerLogin(events: seq<Event>, ttl: int, id: Uuid)
    ensures Settles(Statuses(EMPTY, events, ttl, id))
    ensures HandOvers(Statuses(EMPTY, events, ttl, id)) <= 1
    ensures id in Run(EMPTY, events, ttl).logins ==> Run(EMPTY, events, ttl).logins[id].pollCount <= MaxPolls(ttl)
  {
    HandedOverOnce(EMPTY, events, ttl, id);
    RunIsSound(EMPTY, events, ttl);
  }

  // ------------------------------------------------- when a token can still come

  /** The times a future may use: any at all, or none before an instant. */
  ghost predicate Timed(events: seq<Event>, from: Option<int>) {
    from.Some? ==> forall i :: 0 <= i < |events| ==>
      (events[i].Park? ==> events[i].now >= from.value) && (events[i].Poll? ==> events[i].now >= from.value)
  }

  /** No poll will be handed a token: the login is closed, out of polls, or pending with no time left. */
  ghost predicate Barren(w: World, ttl: int, id: Uuid, from: Option<int>) {
    && id in w.spent
    && (id in w.logins ==>
         var row := w.logins[id];
         || row.state in {Denied, Consumed, Expired} || row.pollCount >= MaxPolls(ttl)
         || (row.state == Pending && from.Some? && row.expiresAt <= from.value))
  }

  lemma BarrenStays(w: World, e: Event, ttl: int, id: Uuid, from: Option<int>)
    requires Barren(w, ttl, id, from) && Timed([e], from)
    ensures Barren(Stepped(w, e, ttl), ttl, id, from)
    ensures HandOvers(Told(w, e, ttl, id)) == 0
  {
    assert [e][0] == e;
  }

  lemma {:induction false} BarrenForGood(w: World, events: seq<Event>, ttl: int, id: Uuid, from: Option<int>)
    requires Barren(w, ttl, id, from) && Timed(events, from)
    ensures HandOvers(Statuses(w, events, ttl, id)) == 0
    decreases |events|
  {
    if events != [] {
      assert Timed([events[0]], from) && Timed(events[1..], from);
      BarrenStays(w, events[0], ttl, id, from);
      hide Barren, Told, Stepped, Timed;
      BarrenForGood(Stepped(w, events[0], ttl), events[1..], ttl, id, from);
      HandOversJoin(Told(w, events[0], ttl, id), Statuses(Stepped(w, events[0], ttl), events[1..], ttl, id));
    }
  }

  ghost predicate CanYield(w: World, ttl: int, id: Uuid, from: Option<int>) {
    exists future :: Timed(future, from) && HandOvers(Statuses(w, future, ttl, id)) > 0
  }

  lemma StatusesUnfold(w: World, e: Event, rest: seq<Event>, ttl: int, id: Uuid)
    ensures Statuses(w, [e] + rest, ttl, id) == Told(w, e, ttl, id) + Statuses(Stepped(w, e, ttl), rest, ttl, id)
    ensures HandOvers(Statuses(w, [e] + rest, ttl, id)) >= HandOvers(Statuses(Stepped(w, e, ttl), rest, ttl, id))
  {
    assert ([e] + rest)[0] == e && ([e] + rest)[1..] == rest;
    HandOversJoin(Told(w, e, ttl, id), Statuses(Stepped(w, e, ttl), rest, ttl, id));
  }

  /** A parked token goes to the next poll within the budget, at any time. */
  lemma ApprovedYields(w: World, ttl: int, id: Uuid, now: int) returns (poll: Event)
    requires Sound(w, MaxPolls(ttl)) && id in w.logins && w.logins[id].state == Approved && w.logins[id].pollCount < MaxPolls(ttl)
    ensures poll.Poll? && poll.now == now
    ensures HandOvers(Statuses(w, [poll], ttl, id)) > 0
  {
    poll := Poll(id, w.logins[id].secret, now);
    var c :| ParkedBy(w, w.logins[id], id, c);
    assert Told(w, poll, ttl, id) == [HandedOver(w.calls[c].token, w.calls[c].user)];
    StatusesUnfold(w, poll, [], ttl, id);
    assert [poll] + [] == [poll];
    assert Statuses(w, [poll], ttl, id) == [HandedOver(w.calls[c].token, w.calls[c].user)];
  }

  /** A pending login can still be confirmed with its own code and parked in time. */
  lemma PendingYields(w: World, ttl: int, id: Uuid) returns (future: seq<Event>)
    requires Sound(w, MaxPolls(ttl)) && id in w.logins && w.logins[id].state == Pending && w.logins[id].pollCount < MaxPolls(ttl)
    ensures HandOvers(Statuses(w, future, ttl, id)) > 0
  {
    var call := Above(w.calls.Keys);
    var token := Longer(w.sessions.Keys);
    var confirm := Confirm(call, id, 0, w.logins[id].userCode, token);
    var park := Park(call, w.logins[id].expiresAt - 1);
    var confirmed := Stepped(w, confirm, ttl);
    assert call in confirmed.calls && confirmed.calls[call] == Approval(id, 0, w.logins[id].userCode, token) && confirmed.logins == w.logins;
    var parked := Stepped(confirmed, park, ttl);
    assert id in parked.logins && parked.logins[id].state == Approved && parked.logins[id].pollCount == w.logins[id].pollCount;
    SoundStays(w, confirm, ttl);
    SoundStays(confirmed, park, ttl);
    hide Stepped, Sound, Statuses, HandOvers;
    var poll := ApprovedYields(parked, ttl, id, 0);
    StatusesUnfold(confirmed, park, [poll], ttl, id);
    StatusesUnfold(w, confirm, [park] + [poll], ttl, id);
    future := [confirm] + ([park] + [poll]);
  }

  lemma BarrenYieldsNothing(w: World, ttl: int, id: Uuid, from: Option<int>)
    requires Barren(w, ttl, id, from)
    ensures !CanYield(w, ttl, id, from)
  {
    forall future | Timed(future, from)
      ensures HandOvers(Statuses(w, future, ttl, id)) == 0
    {
      BarrenForGood(w, future, ttl, id, from);
    }
  }

  lemma ApprovedCanYield(w: World, ttl: int, id: Uuid, from: Option<int>)
    requires Sound(w, MaxPolls(ttl)) && id in w.logins && w.logins[id].state == Approved && w.logins[id].pollCount < MaxPolls(ttl)
    ensures CanYield(w, ttl, id, from)
  {
    var poll := ApprovedYields(w, ttl, id, if from.Some? then from.value else 0);
    assert Timed([poll], from);
  }

  /**
   * When some future can still hand a token over: while polls are left and the login is pending or approved;
   * and from its expiry on exactly if polls are left and it was approved before.
   */
  lemma YieldsExactly(past: seq<Event>, ttl: int, id: Uuid)
    requires id in Run(EMPTY, past, ttl).logins
    ensures var w := Run(EMPTY, past, ttl); var row := w.logins[id];
      && (CanYield(w, ttl, id, None) <==> row.state in {Pending, Approved} && row.pollCount < MaxPolls(ttl))
      && (CanYield(w, ttl, id, Some(row.expiresAt)) <==> row.state == Approved && row.pollCount < MaxPolls(ttl))
  {
    RunIsSound(EMPTY, past, ttl);
    var w := Run(EMPTY, past, ttl);
    hide Run;
    var row := w.logins[id];
    if row.state == Approved && row.pollCount < MaxPolls(ttl) {
      ApprovedCanYield(w, ttl, id, None);
      ApprovedCanYield(w, ttl, id, Some(row.expiresAt));
    } else {
      BarrenYieldsNothing(w, ttl, id, Some(row.expiresAt));
      if row.state == Pending && row.pollCount < MaxPolls(ttl) {
        var future := PendingYields(w, ttl, id);
        assert Timed(future, None);
      } else {
        BarrenYieldsNothing(w, ttl, id, None);
      }
    }
  }

  /** A denial is final unless it comes after the approval: then, and while polls are left, a token can still be handed over. */
  lemma DeniedNeverYields(past: seq<Event>, ttl: int, id: Uuid)
    requires id in Run(EMPTY, past, ttl).logins
    ensures var w := Run(EMPTY, past, ttl); var row := w.logins[id];
      CanYield(Stepped(w, Deny(id), ttl), ttl, id, None) <==> row.state == Approved && row.pollCount < MaxPolls(ttl)
  {
    RunIsSound(EMPTY, past, ttl);
    var w := Run(EMPTY, past, ttl);
    var denied := Stepped(w, Deny(id), ttl);
    SoundStays(w, Deny(id), ttl);
    hide Run;
    if w.logins[id].state == Approved && w.logins[id].pollCount < MaxPolls(ttl) {
      ApprovedCanYield(denied, ttl, id, None);
    } else {
      BarrenYieldsNothing(denied, ttl, id, None);
    }
  }

  /** A token that is handed over opens a session of the user it names, who confirmed this login's own code. */
  lemma TokenIsEarned(past: seq<Event>, poll: Event, ttl: int, id: Uuid, token: Token, user: Uuid)
    requires Told(Run(EMPTY, past, ttl), poll, ttl, id) == [HandedOver(token, user)]
    ensures var w := Run(EMPTY, past, ttl);
      && token in w.sessions && w.sessions[token] == user
      && id in w.logins
      && exists c :: c in w.calls && w.calls[c] == Approval(id, user, w.logins[id].userCode, token)
  {
    RunIsSound(EMPTY, past, ttl);
    var w := Run(EMPTY, past, ttl);
    hide Run;
    var c :| ParkedBy(w, w.logins[id], id, c);
    assert w.calls[c] == Approval(id, user, w.logins[id].userCode, token);
  }

  /** The budget: one poll every five seconds of the lifetime and twelve to spare, never less than one. */
  lemma BudgetIs(ttl: int, k: nat)
    ensures k * (5 * SECOND) <= ttl < (k + 1) * (5 * SECOND) ==> MaxPolls(ttl) == k + 12
    ensures k * (5 * SECOND) <= -ttl < (k + 1) * (5 * SECOND) ==> MaxPolls(ttl) == if k < 12 then 12 - k else 1
  {
  }

  /** What a poll that knows the secret is told and leaves behind, case by case. */
  lemma PollsAreAnswered(row: Login, maxPolls: int, now: int)
    ensures var (after, status) := PolledRow(row, maxPolls, now);
      && (row.pollCount >= maxPolls ==> status == HasExpired && after == row.(state := Expired))
      && (row.pollCount < maxPolls ==>
           && after.pollCount == row.pollCount + 1 && after == row.(pollCount := after.pollCount, state := after.state, token := after.token)
           && (row.state == Pending && row.expiresAt <= now ==> status == HasExpired && after.state == Expired && after.token == row.token)
           && (row.state == Pending && now < row.expiresAt ==> status == StillPending && after.state == Pending && after.token == row.token)
           && (row.state == Denied ==> status == WasDenied && after.state == Denied && after.token == row.token)
           && (row.state == Consumed || row.state == Expired ==> status == HasExpired && after.state == row.state && after.token == row.token)
           && (row.state == Approved && row.token.Some? && row.user.Some? ==>
                status == HandedOver(row.token.value, row.user.value) && after.state == Consumed && after.token == None))
  {
  }

  // ----------------------------------------------------------- the patient client

  /** Polls of `id` that know its secret come no sooner than `next`, and then at least one interval apart. */
  ghost predicate Spaced(events: seq<Event>, id: Uuid, secret: Secret, next: int)
    decreases |events|
  {
    events != [] ==>
      if events[0].Poll? && events[0].id == id && events[0].secret == secret
      then events[0].now >= next && Spaced(events[1..], id, secret, events[0].now + POLL_INTERVAL_SECONDS * SECOND)
      else Spaced(events[1..], id, secret, next)
  }

  /** The login as a patient client has left it: `next` is the earliest time of its next poll. */
  ghost predicate WithinBudget(w: World, id: Uuid, secret: Secret, created: int, ttl: int, next: int) {
    id in w.logins ==>
      && w.logins[id].secret == secret && w.logins[id].expiresAt == created + ttl
      && w.logins[id].pollCount * (POLL_INTERVAL_SECONDS * SECOND) <= next - created
      && (next - POLL_INTERVAL_SECONDS * SECOND < created + ttl ==> w.logins[id].state != Expired)
  }

  lemma BudgetCovers(count: nat, created: int, ttl: int, now: int)
    requires count * (POLL_INTERVAL_SECONDS * SECOND) <= now - created < ttl
    ensures count < MaxPolls(ttl)
  {
  }

  lemma PatientPoll(w: World, id: Uuid, secret: Secret, created: int, ttl: int, next: int, now: int)
    requires id in w.spent && WithinBudget(w, id, secret, created, ttl, next) && next <= now
    ensures WithinBudget(Stepped(w, Poll(id, secret, now), ttl), id, secret, created, ttl, now + POLL_INTERVAL_SECONDS * SECOND)
  {
    if id in w.logins && now < created + ttl {
      BudgetCovers(w.logins[id].pollCount, created, ttl, now);
    }
  }

  lemma OthersKeepBudget(w: World, e: Event, id: Uuid, secret: Secret, created: int, ttl: int, next: int)
    requires id in w.spent && WithinBudget(w, id, secret, created, ttl, next)
    requires !(e.Poll? && e.id == id && e.secret == secret)
    ensures WithinBudget(Stepped(w, e, ttl), id, secret, created, ttl, next)
  {
  }

  lemma SpentStays(w: World, e: Event, ttl: int)
    ensures w.spent <= Stepped(w, e, ttl).spent
  {
  }

  lemma {:induction false} PatientRun(w: World, events: seq<Event>, poll: Event, id: Uuid, secret: Secret, created: int, ttl: int, next: int)
    requires id in w.spent && WithinBudget(w, id, secret, created, ttl, next)
    requires poll.Poll? && poll.id == id && poll.secret == secret && Spaced(events + [poll], id, secret, next)
    ensures exists later :: WithinBudget(Run(w, events, ttl), id, secret, created, ttl, later) && later <= poll.now
    decreases |events|
  {
    if events == [] {
      assert events + [poll] == [poll];
      assert WithinBudget(Run(w, events, ttl), id, secret, created, ttl, next);
    } else {
      var e := events[0];
      assert (events + [poll])[1..] == events[1..] + [poll];
      SpentStays(w, e, ttl);
      assert Run(w, events, ttl) == Run(Stepped(w, e, ttl), events[1..], ttl);
      if e.Poll? && e.id == id && e.secret == secret {
        PatientPoll(w, id, secret, created, ttl, next, e.now);
        hide WithinBudget, Stepped, Run;
        PatientRun(Stepped(w, e, ttl), events[1..], poll, id, secret, created, ttl, e.now + POLL_INTERVAL_SECONDS * SECOND);
      } else {
        OthersKeepBudget(w, e, id, secret, created, ttl, next);
        hide WithinBudget, Stepped, Run;
        PatientRun(Stepped(w, e, ttl), events[1..], poll, id, secret, created, ttl, next);
      }
    }
  }

  /**
   * A client that waits the interval between its polls never exhausts the budget before the login expires:
   * each poll in that time is told what the browser did, and an approved login yields its token.
   */
  lemma PatientClientIsServed(past: seq<Event>, start: Event, events: seq<Event>, poll: Event, ttl: int)
    requires start.Start? && start.id !in Run(EMPTY, past, ttl).spent
    requires poll.Poll? && poll.id == start.id && poll.secret == start.secret
    requires Spaced(events + [poll], start.id, start.secret, start.now) && poll.now < start.now + ttl
    ensures var w := Run(Stepped(Run(EMPTY, past, ttl), start, ttl), events, ttl);
      start.id in w.logins ==>
        var row := w.logins[start.id];
        && row.pollCount < MaxPolls(ttl)
        && row.state != Expired
        && (row.state == Pending ==> Told(w, poll, ttl, start.id) == [StillPending])
        && (row.state == Denied ==> Told(w, poll, ttl, start.id) == [WasDenied])
        && (row.state == Approved ==> exists t, u :: row.token == Some(t) && row.user == Some(u) && Told(w, poll, ttl, start.id) == [HandedOver(t, u)])
  {
    var w0 := Run(EMPTY, past, ttl);
    var w1 := Stepped(w0, start, ttl);
    RunIsSound(EMPTY, past, ttl);
    SoundStays(w0, start, ttl);
    RunIsSound(w1, events, ttl);
    PatientRun(w1, events, poll, start.id, start.secret, start.now, ttl, start.now);
    var w := Run(w1, events, ttl);
    var later :| WithinBudget(w, start.id, start.secret, start.now, ttl, later) && later <= poll.now;
    hide Run, Stepped, Spaced;
    if start.id in w.logins {
      PatientAnswer(w, poll, ttl, start.id, start.now, later);
    }
  }

  lemma PatientAnswer(w: World, poll: Event, ttl: int, id: Uuid, created: int, later: int)
    requires Sound(w, MaxPolls(ttl)) && id in w.logins && poll.Poll? && poll.id == id
    requires WithinBudget(w, id, poll.secret, created, ttl, later) && later <= poll.now < created + ttl
    ensures var row := w.logins[id];
      && row.pollCount < MaxPolls(ttl)
      && row.state != Expired
      && (row.state == Pending ==> Told(w, poll, ttl, id) == [StillPending])
      && (row.state == Denied ==> Told(w, poll, ttl, id) == [WasDenied])
      && (row.state == Approved ==> exists t, u :: row.token == Some(t) && row.user == Some(u) && Told(w, poll, ttl, id) == [HandedOver(t, u)])
  {
    BudgetCovers(w.logins[id].pollCount, created, ttl, poll.now);
    if w.logins[id].state == Approved {
      var c :| ParkedBy(w, w.logins[id], id, c);
      assert Told(w, poll, ttl, id) == [HandedOver(w.calls[c].token, w.calls[c].user)];
    }
  }

  // ------------------------------------------------------------------- the purge

  /** No purge of the run comes later than an hour after the instant. */
  ghost predicate PurgesBy(events: seq<Event>, expiresAt: int) {
    forall i :: 0 <= i < |events| && events[i].Purge? ==> events[i].now <= expiresAt + 3_600 * SECOND
  }

  lemma RowLasts(w: World, e: Event, id: Uuid, ttl: int)
    requires id in w.logins && w.logins.Keys <= w.spent && PurgesBy([e], w.logins[id].expiresAt)
    ensures var w' := Stepped(w, e, ttl);
      id in w'.logins && w'.logins[id].expiresAt == w.logins[id].expiresAt && w'.logins.Keys <= w'.spent
  {
    assert [e][0] == e;
  }

  lemma {:induction false} RowsLast(w: World, events: seq<Event>, id: Uuid, ttl: int)
    requires id in w.logins && w.logins.Keys <= w.spent && PurgesBy(events, w.logins[id].expiresAt)
    ensures id in Run(w, events, ttl).logins && Run(w, events, ttl).logins[id].expiresAt == w.logins[id].expiresAt
    decreases |events|
  {
    if events != [] {
      assert PurgesBy([events[0]], w.logins[id].expiresAt) && PurgesBy(events[1..], w.logins[id].expiresAt);
      RowLasts(w, events[0], id, ttl);
      hide Stepped, PurgesBy;
      RowsLast(Stepped(w, events[0], ttl), events[1..], id, ttl);
    }
  }

  /** A login outlives every run whose purges come no later than an hour after its expiry, and none that has a later one. */
  lemma LoginsLastAnHour(past: seq<Event>, future: seq<Event>, id: Uuid, purge: int, ttl: int)
    requires id in Run(EMPTY, past, ttl).logins
    ensures var w := Run(EMPTY, past, ttl);
      && (PurgesBy(future, w.logins[id].expiresAt) ==> id in Run(w, future, ttl).logins)
      && (id in Stepped(w, Purge(purge), ttl).logins <==> purge <= w.logins[id].expiresAt + 3_600 * SECOND)
  {
    var w := Run(EMPTY, past, ttl);
    RunIsSound(EMPTY, past, ttl);
    if PurgesBy(future, w.logins[id].expiresAt) {
      RowsLast(w, future, id, ttl);
    }
  }
}
