/**
 * Login through GitHub's device grant (RFC 8628): any number of polls of one login race to collect one token.
 * A poll is a small machine whose steps are single store calls and GitHub's answers; all polls interleave freely.
 */
module DeviceLogin {
  import opened Options
  import opened ObjectKeys
  import opened Clock
  import opened Numbers

  type Token = t: string | t != "" witness "token"

  datatype LoginState = Pending | Approved | Consumed | Expired

  datatype Login = Login(state: LoginState, expiresAt: int, user: Option<Uuid>, token: Option<Token>, pollCount: nat)

  type Logins = map<Uuid, Login>

  // -------------------------------------------------- one store call at a time

  /** Reads a row under lock: marks it expired when its time is up and consumes a parked token. */
  function ReadRow(row: Login, now: int): (Login, Option<Token>) {
    var seen := row.(pollCount := row.pollCount + 1);
    if row.state == Pending && now >= row.expiresAt then (seen.(state := Expired), None)
    else if row.state == Approved && row.token.Some? then (seen.(state := Consumed, token := None), row.token)
    else (seen, None)
  }

  function Parked(rows: Logins, id: Uuid, user: Uuid, token: Token, now: int): (Logins, bool) {
    if id in rows && rows[id].state == Pending && rows[id].expiresAt > now
    then (rows[id := rows[id].(state := Approved, user := Some(user), token := Some(token))], true)
    else (rows, false)
  }

  function Lapsed(rows: Logins, id: Uuid): Logins {
    if id in rows && rows[id].state == Pending then rows[id := rows[id].(state := Expired, token := None)] else rows
  }

  function Purged(rows: Logins, now: int): Logins {
    map id | id in rows && !(rows[id].expiresAt < now - HOUR) :: rows[id]
  }

  /** GitHub's answer to an exchange, and for an approval whose account it is and the session token issued for it. */
  datatype Answer =
    | NotYet
    | TooFast
    | UserDenied
    | CodeExpired
    | UserApproved(user: Uuid, personal: bool, token: Token)
    | Unrecognised
    | Unreachable

  datatype Result = HandedOver(token: Token, user: Option<Uuid>) | StillPending | SlowDown | WasDenied | HasExpired | Error

  // --------------------------------------------------------------- the classes

  class Store {
    var logins: Logins
    var sessions: map<Token, Uuid>

    constructor ()
      ensures logins == map[] && sessions == map[]
    {
      logins, sessions := map[], map[];
    }

    method PollDeviceLogin(id: Uuid, now: int) returns (row: Option<Login>, token: Option<Token>)
      modifies this`logins
      ensures id !in old(logins) ==> row == None && token == None && logins == old(logins)
      ensures id in old(logins) ==>
        var read := ReadRow(old(logins)[id], now);
        row == Some(read.0) && token == read.1 && logins == old(logins)[id := read.0]
    {
      if id !in logins {
        return None, None;
      }
      var d := logins[id];
      token := None;
      if d.state == Pending && now >= d.expiresAt {
        d := d.(state := Expired);
      }
      d := d.(pollCount := d.pollCount + 1);
      if d.state == Approved && d.token.Some? {
        token := d.token;
        d := d.(state := Consumed, token := None);
      }
      logins := logins[id := d];
      return Some(d), token;
    }

    method ApproveDeviceLogin(id: Uuid, user: Uuid, token: Token, now: int) returns (ok: bool)
      modifies this`logins
      ensures (logins, ok) == Parked(old(logins), id, user, token, now)
    {
      if id !in logins || logins[id].state != Pending || logins[id].expiresAt <= now {
        return false;
      }
      logins := logins[id := logins[id].(state := Approved, user := Some(user), token := Some(token))];
      return true;
    }

    method ExpireDeviceLogin(id: Uuid)
      modifies this`logins
      ensures logins == Lapsed(old(logins), id)
    {
      if id in logins && logins[id].state == Pending {
        logins := logins[id := logins[id].(state := Expired, token := None)];
      }
    }

    method PurgeExpiredAuth(now: int)
      modifies this`logins
      ensures logins == Purged(old(logins), now)
    {
      logins := map id | id in logins && !(logins[id].expiresAt < now - HOUR) :: logins[id];
    }
  }

  /** Whether GitHub's answer lets the login through. */
  predicate LetsIn(answer: Answer) {
    answer.UserApproved? && answer.personal
  }

  /** What a poll of a pending login returns when GitHub's answer does not let it through. */
  function Outcome(answer: Answer): Result {
    match answer
    case NotYet => StillPending
    case TooFast => SlowDown
    case UserDenied => WasDenied
    case CodeExpired => HasExpired
    case UserApproved(_, _, _) => Error
    case Unrecognised => HasExpired
    case Unreachable => Error
  }

  /** What a poll that nobody disturbs comes to: its row as it finds it, GitHub's answer, and two readings of the clock. */
  ghost function Verdict(row: Option<Login>, answer: Answer, now: int, later: int): Result {
    if row.None? then Error
    else if row.value.state == Approved && row.value.token.Some? then HandedOver(row.value.token.value, row.value.user)
    else if row.value.state != Pending || row.value.expiresAt <= now then HasExpired
    else
      match answer
      case NotYet => StillPending
      case TooFast => SlowDown
      case UserDenied => WasDenied
      case CodeExpired => HasExpired
      case UserApproved(user, personal, token) =>
        if !personal then Error else if row.value.expiresAt <= later then HasExpired else HandedOver(token, Some(user))
      case Unrecognised => HasExpired
      case Unreachable => Error
  }

  function RowOf(rows: Logins, id: Uuid): Option<Login> {
    if id in rows then Some(rows[id]) else None
  }

  ghost function Measure(rows: Logins, id: Uuid): nat {
    if id in rows && rows[id].state == Pending then 1 else 0
  }

  /** A row whose token names the user it was issued to. */
  ghost predicate RowSound(row: Login) {
    (row.state == Approved ==> row.token.Some? && row.user.Some?) && (row.state != Approved ==> row.token.None?)
  }

  /**
   * One poll with nobody else acting in between. `clock` gives the time of each of its store calls in turn.
   * It calls itself again only after parking a token, so at most once.
   */
  method PollDeviceLogin(store: Store, id: Uuid, answer: Answer, clock: nat -> int, tick: nat) returns (result: Result)
    requires id in store.logins ==> RowSound(store.logins[id])
    modifies store
    ensures id !in old(store.logins) ==> result == Error && store.logins == old(store.logins)
    ensures id in old(store.logins) && old(store.logins)[id].state == Approved ==>
      store.sessions == old(store.sessions) && result == HandedOver(old(store.logins)[id].token.value, old(store.logins)[id].user)
    ensures id in old(store.logins) && old(store.logins)[id].state in {Consumed, Expired} ==> result == HasExpired
    ensures id in old(store.logins) && old(store.logins)[id].state == Pending ==>
      (result.HandedOver? <==> answer.UserApproved? && answer.personal && clock(tick) < old(store.logins)[id].expiresAt && clock(tick + 1) < old(store.logins)[id].expiresAt)
    ensures id in old(store.logins) && old(store.logins)[id].state == Pending && result.HandedOver? ==>
      result == HandedOver(answer.token, Some(answer.user)) && store.sessions == old(store.sessions)[answer.token := answer.user]
    ensures id in old(store.logins) && result.HandedOver? ==>
      id in store.logins && store.logins[id].state == Consumed && store.logins[id].token == None
    ensures id in old(store.logins) && old(store.logins)[id].state == Pending && !result.HandedOver? ==>
      var row := old(store.logins)[id];
      var late := clock(tick) >= row.expiresAt || LetsIn(answer);
      var expires := clock(tick) >= row.expiresAt || answer == UserDenied || answer == CodeExpired;
      && result == (if late then HasExpired else Outcome(answer))
      && store.logins == old(store.logins)[id := row.(pollCount := row.pollCount + 1, state := if expires then Expired else Pending)]
    ensures result == Verdict(RowOf(old(store.logins), id), answer, clock(tick), clock(tick + 1))
    ensures old(store.logins).Keys == store.logins.Keys
    ensures forall other :: other in old(store.logins) && other != id ==> store.logins[other] == old(store.logins)[other]
    decreases Measure(store.logins, id)
  {
    var row, token := store.PollDeviceLogin(id, clock(tick));
    if row.None? {
      return Error;
    }
    var d := row.value;
    if token.Some? {
      return HandedOver(token.value, d.user);
    }
    if d.state == Approved || d.state == Consumed || d.state == Expired {
      return HasExpired;
    }
    match answer {
      case NotYet =>
        return StillPending;
      case TooFast =>
        return SlowDown;
      case UserDenied =>
        store.ExpireDeviceLogin(id);
        return WasDenied;
      case CodeExpired =>
        store.ExpireDeviceLogin(id);
        return HasExpired;
      case UserApproved(user, personal, issued) =>
        if !personal {
          return Error;
        }
        store.sessions := store.sessions[issued := user];
        var ok := store.ApproveDeviceLogin(id, user, issued, clock(tick + 1));
        if !ok {
          return HasExpired;
        }
        result := PollDeviceLogin(store, id, answer, clock, tick + 2);
      case Unrecognised =>
        return HasExpired;
      case Unreachable =>
        return Error;
    }
  }

  // ------------------------------------------------------- interleaved polls

  datatype Stage =
    | Reading
    | Asking
    | Expiring(denied: bool)
    | Parking(user: Uuid, token: Token)
    | Done(result: Result)

  datatype Poller = Poller(id: Uuid, stage: Stage, reentries: nat)

  datatype Event =
    | Start(id: Uuid, expiresAt: int)
    | Call(p: nat, id: Uuid)
    | Read(p: nat, now: int)
    | Ask(p: nat, answer: Answer)
    | Lapse(p: nat)
    | Park(p: nat, now: int)
    | Crash(p: nat)
    | Purge(now: int)

  /** An id, a token and a poll's number are fresh when they are drawn: a step that would repeat one does nothing. */
  datatype World = World(logins: Logins, sessions: map<Token, Uuid>, pollers: map<nat, Poller>, spent: set<Uuid>)

  const EMPTY := World(map[], map[], map[], {})

  function At(w: World, p: nat, stage: Stage): World
    requires p in w.pollers
  {
    w.(pollers := w.pollers[p := w.pollers[p].(stage := stage)])
  }

  function Asked(answer: Answer): Stage {
    match answer
    case NotYet => Done(StillPending)
    case TooFast => Done(SlowDown)
    case UserDenied => Expiring(true)
    case CodeExpired => Expiring(false)
    case UserApproved(user, personal, token) => if personal then Parking(user, token) else Done(Error)
    case Unrecognised => Done(HasExpired)
    case Unreachable => Done(Error)
  }

  function ReadBy(w: World, p: nat, now: int): World
    requires p in w.pollers
  {
    var id := w.pollers[p].id;
    if id !in w.logins then At(w, p, Done(Error))
    else
      var (row, token) := ReadRow(w.logins[id], now);
      var stage := if token.Some? then Done(HandedOver(token.value, row.user)) else if row.state == Pending then Asking else Done(HasExpired);
      At(w, p, stage).(logins := w.logins[id := row])
  }

  function ParkedBy(w: World, p: nat, now: int): World
    requires p in w.pollers && w.pollers[p].stage.Parking?
  {
    var me := w.pollers[p];
    var (rows, ok) := Parked(w.logins, me.id, me.stage.user, me.stage.token, now);
    if !ok then At(w, p, Done(HasExpired))
    else w.(logins := rows, pollers := w.pollers[p := Poller(me.id, Reading, me.reentries + 1)])
  }

  /** Whose turn an event takes, if it is a step of a running poll. */
  predicate Takes(w: World, e: Event, p: nat) {
    && p in w.pollers
    && match e {
      case Read(q, _) => q == p && w.pollers[p].stage == Reading
      case Ask(q, answer) => q == p && w.pollers[p].stage == Asking && !(answer.UserApproved? && answer.token in w.sessions)
      case Lapse(q) => q == p && w.pollers[p].stage.Expiring?
      case Park(q, _) => q == p && w.pollers[p].stage.Parking?
      case Crash(q) => q == p && !w.pollers[p].stage.Done?
      case _ => false
    }
  }

  function Stepped(w: World, e: Event): World {
    match e
    case Start(id, expiresAt) =>
      if id in w.spent then w
      else w.(logins := w.logins[id := Login(Pending, expiresAt, None, None, 0)], spent := w.spent + {id})
    case Call(p, id) => if p in w.pollers then w else w.(pollers := w.pollers[p := Poller(id, Reading, 0)])
    case Read(p, now) => if Takes(w, e, p) then ReadBy(w, p, now) else w
    case Ask(p, answer) =>
      if !Takes(w, e, p) then w
      else if Asked(answer).Parking? then At(w, p, Asked(answer)).(sessions := w.sessions[answer.token := answer.user])
      else At(w, p, Asked(answer))
    case Lapse(p) =>
      if !Takes(w, e, p) then w
      else At(w, p, Done(if w.pollers[p].stage.denied then WasDenied else HasExpired)).(logins := Lapsed(w.logins, w.pollers[p].id))
    case Park(p, now) => if Takes(w, e, p) then ParkedBy(w, p, now) else w
    case Crash(p) => if Takes(w, e, p) then At(w, p, Done(Error)) else w
    case Purge(now) => w.(logins := Purged(w.logins, now))
  }

  function Run(w: World, events: seq<Event>): World
    decreases |events|
  {
    if events == [] then w else Run(Stepped(w, events[0]), events[1..])
  }

  predicate GotToken(w: World, p: nat, id: Uuid) {
    p in w.pollers && w.pollers[p].id == id && w.pollers[p].stage.Done? && w.pollers[p].stage.result.HandedOver?
  }

  // --------------------------------------------------------------- invariants

  /** A token that is parked or was handed over opens a session of the user it is filed under. */
  ghost predicate TokensSound(w: World) {
    && (forall id :: id in w.logins ==> RowOpens(w, w.logins[id]))
    && (forall p :: p in w.pollers ==> StageOpens(w, w.pollers[p].stage))
  }

  ghost predicate RowOpens(w: World, row: Login) {
    RowSound(row) && (row.state == Approved ==> Opens(w, row.token, row.user))
  }

  ghost predicate StageOpens(w: World, stage: Stage) {
    match stage
    case Parking(user, token) => Opens(w, Some(token), Some(user))
    case Done(HandedOver(token, user)) => Opens(w, Some(token), user)
    case _ => true
  }

  ghost predicate Opens(w: World, token: Option<Token>, user: Option<Uuid>) {
    token.Some? && user.Some? && token.value in w.sessions && w.sessions[token.value] == user.value
  }

  /** A poll has got a token only from a login that is consumed, and nobody else has got one from it. */
  ghost predicate SingleUse(w: World) {
    && w.logins.Keys <= w.spent
    && (forall p, id :: GotToken(w, p, id) ==> id in w.spent && (id in w.logins ==> w.logins[id].state == Consumed))
    && (forall p, q, id :: GotToken(w, p, id) && GotToken(w, q, id) ==> p == q)
  }

  /** A poll that has parked a token finds its login decided. */
  ghost predicate ReentriesDecided(w: World) {
    forall p :: p in w.pollers && w.pollers[p].reentries > 0 ==>
      && w.pollers[p].reentries == 1
      && (w.pollers[p].stage == Reading || w.pollers[p].stage.Done?)
      && w.pollers[p].id in w.spent
      && (w.pollers[p].id in w.logins ==> w.logins[w.pollers[p].id].state != Pending)
  }

  lemma SessionsStay(w: World, e: Event, token: Option<Token>, user: Option<Uuid>)
    requires Opens(w, token, user)
    ensures Opens(Stepped(w, e), token, user)
  {
  }

  lemma RowStaysSound(w: World, e: Event, id: Uuid)
    requires TokensSound(w) && id in Stepped(w, e).logins
    ensures RowOpens(Stepped(w, e), Stepped(w, e).logins[id])
  {
    if id in w.logins {
      assert RowOpens(w, w.logins[id]);
      if w.logins[id].state == Approved {
        SessionsStay(w, e, w.logins[id].token, w.logins[id].user);
      }
    }
    if e.Park? && Takes(w, e, e.p) {
      var stage := w.pollers[e.p].stage;
      assert StageOpens(w, stage);
      SessionsStay(w, e, Some(stage.token), Some(stage.user));
    }
    hide Opens;
  }

  lemma StageStaysSound(w: World, e: Event, p: nat)
    requires TokensSound(w) && p in Stepped(w, e).pollers
    ensures StageOpens(Stepped(w, e), Stepped(w, e).pollers[p].stage)
  {
    if p in w.pollers {
      var stage := w.pollers[p].stage;
      assert StageOpens(w, stage);
      if w.pollers[p].id in w.logins {
        assert RowOpens(w, w.logins[w.pollers[p].id]);
      }
    }
  }

  lemma TokensStaySound(w: World, e: Event)
    requires TokensSound(w)
    ensures TokensSound(Stepped(w, e))
  {
    forall id | id in Stepped(w, e).logins
      ensures RowOpens(Stepped(w, e), Stepped(w, e).logins[id])
    {
      RowStaysSound(w, e, id);
    }
    forall p | p in Stepped(w, e).pollers
      ensures StageOpens(Stepped(w, e), Stepped(w, e).pollers[p].stage)
    {
      StageStaysSound(w, e, p);
    }
    hide Stepped;
  }

  lemma SingleUseStays(w: World, e: Event)
    requires SingleUse(w)
    ensures SingleUse(Stepped(w, e))
  {
    var w' := Stepped(w, e);
    forall p, id | GotToken(w', p, id)
      ensures id in w'.spent && (id in w'.logins ==> w'.logins[id].state == Consumed)
      ensures GotToken(w, p, id) || (e.Read? && e.p == p && id in w.logins && w.logins[id].state == Approved)
    {
      if GotToken(w, p, id) {
      } else {
        assert e.Read? && e.p == p;
      }
    }
  }

  /** The state of a login that has left "pending" never returns to it. */
  lemma StaysDecided(w: World, e: Event, id: Uuid)
    requires w.logins.Keys <= w.spent && id in w.spent && (id in w.logins ==> w.logins[id].state != Pending)
    ensures id in Stepped(w, e).spent && (id in Stepped(w, e).logins ==> Stepped(w, e).logins[id].state != Pending)
  {
  }

  lemma ReentryStaysDecided(w: World, e: Event, p: nat)
    requires ReentriesDecided(w) && w.logins.Keys <= w.spent
    requires p in Stepped(w, e).pollers && Stepped(w, e).pollers[p].reentries > 0
    ensures var w' := Stepped(w, e);
      && w'.pollers[p].reentries == 1
      && (w'.pollers[p].stage == Reading || w'.pollers[p].stage.Done?)
      && w'.pollers[p].id in w'.spent
      && (w'.pollers[p].id in w'.logins ==> w'.logins[w'.pollers[p].id].state != Pending)
  {
    if w.pollers[p].reentries == 0 {
      assert e.Park? && e.p == p;
    } else {
      StaysDecided(w, e, w.pollers[p].id);
    }
  }

  lemma ReentriesStayDecided(w: World, e: Event)
    requires ReentriesDecided(w) && SingleUse(w)
    ensures ReentriesDecided(Stepped(w, e))
  {
    assert w.logins.Keys <= w.spent;
    forall p | p in Stepped(w, e).pollers && Stepped(w, e).pollers[p].reentries > 0
      ensures var w' := Stepped(w, e);
        && w'.pollers[p].reentries == 1
        && (w'.pollers[p].stage == Reading || w'.pollers[p].stage.Done?)
        && w'.pollers[p].id in w'.spent
        && (w'.pollers[p].id in w'.logins ==> w'.logins[w'.pollers[p].id].state != Pending)
    {
      ReentryStaysDecided(w, e, p);
    }
    hide Stepped;
  }

  ghost predicate Sound(w: World) {
    TokensSound(w) && SingleUse(w) && ReentriesDecided(w)
  }

  lemma {:induction false} RunIsSound(w: World, events: seq<Event>)
    requires Sound(w)
    ensures Sound(Run(w, events))
    decreases |events|
  {
    if events != [] {
      TokensStaySound(w, events[0]);
      SingleUseStays(w, events[0]);
      ReentriesStayDecided(w, events[0]);
      hide TokensSound, SingleUse, ReentriesDecided, Stepped;
      RunIsSound(Stepped(w, events[0]), events[1..]);
    }
  }

  // ----------------------------------------------------------------- theorems

  /** In every run, of all the polls of one login at most one ever returns a token, and it opens a session of the user returned with it. */
  lemma OnePollCollects(events: seq<Event>, id: Uuid, p: nat, q: nat)
    requires GotToken(Run(EMPTY, events), p, id)
    ensures GotToken(Run(EMPTY, events), q, id) ==> p == q
    ensures var w := Run(EMPTY, events);
      var got := w.pollers[p].stage.result;
      got.user.Some? && got.token in w.sessions && w.sessions[got.token] == got.user.value
  {
    RunIsSound(EMPTY, events);
  }

  function Fuel(poller: Poller): nat {
    match poller.stage
    case Reading => if poller.reentries == 0 then 4 else 1
    case Asking => 3
    case Expiring(_) => 2
    case Parking(_, _) => 2
    case Done(_) => 0
  }

  lemma OwnStepBurnsFuel(w: World, e: Event, p: nat)
    requires Sound(w) && p in w.pollers
    ensures p in Stepped(w, e).pollers && Stepped(w, e).pollers[p].id == w.pollers[p].id
    ensures if Takes(w, e, p) then Fuel(Stepped(w, e).pollers[p]) < Fuel(w.pollers[p]) else Stepped(w, e).pollers[p] == w.pollers[p]
  {
  }

  function Turns(w: World, events: seq<Event>, p: nat): nat
    decreases |events|
  {
    if events == [] then 0 else (if Takes(w, events[0], p) then 1 else 0) + Turns(Stepped(w, events[0]), events[1..], p)
  }

  lemma {:induction false} TurnsBurnFuel(w: World, events: seq<Event>, p: nat)
    requires Sound(w) && p in w.pollers
    ensures p in Run(w, events).pollers
    ensures Turns(w, events, p) + Fuel(Run(w, events).pollers[p]) <= Fuel(w.pollers[p])
    decreases |events|
  {
    if events != [] {
      OwnStepBurnsFuel(w, events[0], p);
      RunIsSound(w, [events[0]]);
      assert Run(w, [events[0]]) == Run(Stepped(w, events[0]), []);
      hide Sound, Stepped, Takes, Fuel;
      TurnsBurnFuel(Stepped(w, events[0]), events[1..], p);
    }
  }

  /** Whatever other polls do, a poll is over after at most four steps of its own and enters itself again at most once. */
  lemma PollTerminates(past: seq<Event>, future: seq<Event>, p: nat)
    requires p in Run(EMPTY, past).pollers
    ensures Turns(Run(EMPTY, past), future, p) <= 4
    ensures p in Run(Run(EMPTY, past), future).pollers && Run(Run(EMPTY, past), future).pollers[p].reentries <= 1
  {
    RunIsSound(EMPTY, past);
    TurnsBurnFuel(Run(EMPTY, past), future, p);
    RunIsSound(Run(EMPTY, past), future);
  }

  /** No step makes a decided login pending again or approves one whose time is up. */
  lemma DecisionStands(w: World, e: Event, id: Uuid)
    requires Sound(w) && id in w.logins && id in Stepped(w, e).logins
    ensures var was, now := w.logins[id].state, Stepped(w, e).logins[id].state;
      && (now == Pending ==> was == Pending)
      && (was == Expired ==> now == Expired)
      && (was == Consumed ==> now == Consumed)
      && (now == Consumed && was != Consumed ==> was == Approved && e.Read?)
      && (now == Approved && was != Approved ==> was == Pending && e.Park? && e.now < w.logins[id].expiresAt)
    ensures Outlived(w.logins[id], Stepped(w, e).logins[id])
  {
  }

  /** What a login may have become: its decision, its user and its expiry stand, its count only grows. */
  ghost predicate Outlived(was: Login, now: Login) {
    && now.expiresAt == was.expiresAt && was.pollCount <= now.pollCount
    && (now.state == was.state || was.state == Pending || (was.state == Approved && now.state == Consumed))
    && (was.state in {Approved, Consumed} ==> now.user == was.user)
    && (now.state == Approved && was.state == Approved ==> now.token == was.token)
  }

  lemma PurgedForGood(w: World, e: Event, id: Uuid)
    requires id in w.spent
    ensures id in Stepped(w, e).spent && (id in Stepped(w, e).logins ==> id in w.logins)
  {
  }

  lemma {:induction false} DecisionsStandFrom(w: World, future: seq<Event>, id: Uuid)
    requires Sound(w) && id in w.spent
    ensures id in Run(w, future).logins ==> id in w.logins && Outlived(w.logins[id], Run(w, future).logins[id])
    decreases |future|
  {
    if future != [] {
      var w' := Stepped(w, future[0]);
      PurgedForGood(w, future[0], id);
      RunIsSound(w, [future[0]]);
      assert Run(w, [future[0]]) == Run(w', []);
      if id in w'.logins {
        DecisionStands(w, future[0], id);
      }
      hide Sound, Stepped;
      DecisionsStandFrom(w', future[1..], id);
    }
  }

  /** Over whole runs: a decision stands, with the user it was made for, until the row is purged, and the id is not used again. */
  lemma DecisionsStand(past: seq<Event>, future: seq<Event>, id: Uuid)
    requires id in Run(EMPTY, past).logins
    ensures var w, w' := Run(EMPTY, past), Run(Run(EMPTY, past), future);
      id in w'.logins ==> Outlived(w.logins[id], w'.logins[id])
  {
    RunIsSound(EMPTY, past);
    DecisionsStandFrom(Run(EMPTY, past), future, id);
  }

  ghost predicate NoEarlier(events: seq<Event>, from: int) {
    forall i :: 0 <= i < |events| ==> (events[i].Read? ==> events[i].now >= from) && (events[i].Park? ==> events[i].now >= from)
  }

  /** The times a future may use: any at all, or none before an instant. */
  ghost predicate Timed(events: seq<Event>, from: Option<int>) {
    from.Some? ==> NoEarlier(events, from.value)
  }

  /** The login's token is gone or can no longer be parked, and only `holders` have got one. */
  ghost predicate Barred(w: World, id: Uuid, from: Option<int>, holders: World) {
    && id in w.spent
    && (id in w.logins ==>
         var row := w.logins[id];
         row.state in {Expired, Consumed} || (row.state == Pending && from.Some? && row.expiresAt <= from.value))
    && forall p :: GotToken(w, p, id) ==> GotToken(holders, p, id)
  }

  lemma BarredStays(w: World, e: Event, id: Uuid, from: Option<int>, holders: World)
    requires TokensSound(w) && Barred(w, id, from, holders) && Timed([e], from)
    ensures Barred(Stepped(w, e), id, from, holders)
  {
    assert [e][0] == e;
    var w' := Stepped(w, e);
    forall p | GotToken(w', p, id)
      ensures GotToken(holders, p, id)
    {
      assert GotToken(w, p, id);
    }
  }

  lemma {:induction false} BarredForGood(w: World, events: seq<Event>, id: Uuid, from: Option<int>, holders: World)
    requires TokensSound(w) && Barred(w, id, from, holders) && Timed(events, from)
    ensures Barred(Run(w, events), id, from, holders)
    decreases |events|
  {
    if events != [] {
      assert Timed([events[0]], from) && Timed(events[1..], from);
      BarredStays(w, events[0], id, from, holders);
      TokensStaySound(w, events[0]);
      hide TokensSound, Barred, Stepped, Timed;
      BarredForGood(Stepped(w, events[0]), events[1..], id, from, holders);
    }
  }

  /** Once a login is marked expired, by its clock or by GitHub's denial, no poll ever returns a token for it. */
  lemma ExpiredNeverYields(past: seq<Event>, future: seq<Event>, id: Uuid, p: nat)
    requires id in Run(EMPTY, past).logins && Run(EMPTY, past).logins[id].state == Expired
    ensures !GotToken(Run(Run(EMPTY, past), future), p, id)
  {
    RunIsSound(EMPTY, past);
    BarredForGood(Run(EMPTY, past), future, id, None, Run(EMPTY, past));
  }

  /** A login still pending at its expiry never yields a token, however many approvals are still under way. */
  lemma PendingAtExpiryNeverYields(past: seq<Event>, future: seq<Event>, id: Uuid, p: nat)
    requires id in Run(EMPTY, past).logins && Run(EMPTY, past).logins[id].state == Pending
    requires NoEarlier(future, Run(EMPTY, past).logins[id].expiresAt)
    ensures !GotToken(Run(Run(EMPTY, past), future), p, id)
  {
    RunIsSound(EMPTY, past);
    BarredForGood(Run(EMPTY, past), future, id, Some(Run(EMPTY, past).logins[id].expiresAt), Run(EMPTY, past));
  }

  /** A parked token goes to the next poll that reads the row, at whatever time. */
  lemma ParkedIsCollected(past: seq<Event>, p: nat, now: int)
    requires var w := Run(EMPTY, past); p in w.pollers && w.pollers[p].stage == Reading && w.pollers[p].id in w.logins
    ensures var w := Run(EMPTY, past);
      GotToken(Stepped(w, Read(p, now)), p, w.pollers[p].id) <==> w.logins[w.pollers[p].id].state == Approved
  {
    RunIsSound(EMPTY, past);
  }

  /** Some poll that has no token of the login yet gets one in this future. */
  ghost predicate Collects(w: World, future: seq<Event>, id: Uuid) {
    exists p :: GotToken(Run(w, future), p, id) && !GotToken(w, p, id)
  }

  ghost predicate Collectable(w: World, id: Uuid, from: Option<int>) {
    exists future :: Timed(future, from) && Collects(w, future, id)
  }

  lemma {:induction false} RunJoins(w: World, first: seq<Event>, rest: seq<Event>)
    ensures Run(w, first + rest) == Run(Run(w, first), rest)
    decreases |first|
  {
    if first == [] {
      assert first + rest == rest;
    } else {
      assert (first + rest)[1..] == first[1..] + rest;
      RunJoins(Stepped(w, first[0]), first[1..], rest);
    }
  }

  /** A new poll collects a parked token at any time. */
  lemma ApprovedYields(w: World, id: Uuid, now: int) returns (future: seq<Event>)
    requires Sound(w) && id in w.logins && w.logins[id].state == Approved
    ensures NoEarlier(future, now) && Collects(w, future, id)
  {
    var p := Above(w.pollers.Keys);
    var asking := Stepped(w, Call(p, id));
    assert asking.pollers[p] == Poller(id, Reading, 0) && asking.logins == w.logins;
    assert RowOpens(w, w.logins[id]);
    assert GotToken(Stepped(asking, Read(p, now)), p, id);
    future := [Call(p, id), Read(p, now)] + [];
    RunUnfolds(w, Call(p, id), Read(p, now), []);
  }

  /** Before the expiry a new poll can still bring a pending login's approval home. */
  lemma PendingIsApproved(w: World, id: Uuid) returns (future: seq<Event>)
    requires Sound(w) && id in w.logins && w.logins[id].state == Pending
    ensures id in Run(w, future).logins && Run(w, future).logins[id].state == Approved
  {
    var p := Above(w.pollers.Keys);
    var now := w.logins[id].expiresAt - 1;
    var token := Longer(w.sessions.Keys);
    var asking := Stepped(Stepped(w, Call(p, id)), Read(p, now));
    assert Stepped(w, Call(p, id)).pollers[p] == Poller(id, Reading, 0);
    assert asking.pollers[p] == Poller(id, Asking, 0) && asking.sessions == w.sessions;
    assert asking.logins[id].state == Pending && asking.logins[id].expiresAt == now + 1;
    var parking := Stepped(asking, Ask(p, UserApproved(0, true, token)));
    assert parking.pollers[p] == Poller(id, Parking(0, token), 0) && parking.logins == asking.logins;
    var parked := Stepped(parking, Park(p, now));
    assert id in parked.logins && parked.logins[id].state == Approved;
    future := [Call(p, id), Read(p, now)] + ([Ask(p, UserApproved(0, true, token)), Park(p, now)] + []);
    hide Stepped;
    RunUnfolds(w, Call(p, id), Read(p, now), [Ask(p, UserApproved(0, true, token)), Park(p, now)] + []);
    RunUnfolds(asking, Ask(p, UserApproved(0, true, token)), Park(p, now), []);
  }

  lemma PendingYields(w: World, id: Uuid) returns (future: seq<Event>)
    requires Sound(w) && id in w.logins && w.logins[id].state == Pending
    ensures Collects(w, future, id)
  {
    var first := PendingIsApproved(w, id);
    RunIsSound(w, first);
    var rest := ApprovedYields(Run(w, first), id, 0);
    RunJoins(w, first, rest);
    future := first + rest;
    var p :| GotToken(Run(Run(w, first), rest), p, id);
    assert !GotToken(w, p, id);
  }

  lemma BarredYieldsNothing(w: World, id: Uuid, from: Option<int>)
    requires Sound(w) && Barred(w, id, from, w)
    ensures !Collectable(w, id, from)
  {
    forall future | Timed(future, from)
      ensures !Collects(w, future, id)
    {
      BarredForGood(w, future, id, from, w);
    }
  }

  /**
   * When a token can still be collected, whatever anybody does: as long as the login is pending or approved;
   * and from its expiry on exactly if the token was parked before.
   */
  lemma CollectableExactly(past: seq<Event>, id: Uuid)
    requires id in Run(EMPTY, past).logins
    ensures var w := Run(EMPTY, past); Collectable(w, id, None) <==> w.logins[id].state in {Pending, Approved}
    ensures var w := Run(EMPTY, past); Collectable(w, id, Some(w.logins[id].expiresAt)) <==> w.logins[id].state == Approved
  {
    RunIsSound(EMPTY, past);
    var w := Run(EMPTY, past);
    hide Run;
    var row := w.logins[id];
    if row.state == Approved {
      var future := ApprovedYields(w, id, row.expiresAt);
      assert Timed(future, None) && Timed(future, Some(row.expiresAt));
    } else {
      BarredYieldsNothing(w, id, Some(row.expiresAt));
      if row.state == Pending {
        var future := PendingYields(w, id);
        assert Timed(future, None);
      } else {
        BarredYieldsNothing(w, id, None);
      }
    }
  }

  function AskedInTime(): World {
    Stepped(Stepped(Stepped(Stepped(EMPTY, Start(7, 10)), Call(0, 7)), Read(0, 0)), Ask(0, UserApproved(3, true, "token")))
  }

  lemma AskedState()
    ensures 7 in AskedInTime().logins && AskedInTime().logins[7] == Login(Pending, 10, None, None, 1)
    ensures 0 in AskedInTime().pollers && AskedInTime().pollers[0] == Poller(7, Parking(3, "token"), 0)
  {
    var w := Stepped(Stepped(EMPTY, Start(7, 10)), Call(0, 7));
    assert w.logins[7] == Login(Pending, 10, None, None, 0) && w.pollers[0] == Poller(7, Reading, 0);
  }

  ghost predicate CollectedLate(events: seq<Event>, now: int) {
    && events != [] && events[|events| - 1] == Read(0, now)
    && GotToken(Run(EMPTY, events), 0, 7)
    && 7 in Run(EMPTY, events).logins && Run(EMPTY, events).logins[7].expiresAt < now
  }

  /** So a token can be handed over after its login has expired: parked at 9, expired at 10, collected at 20. */
  lemma CollectedAfterExpiry()
    ensures exists events, now :: CollectedLate(events, now)
  {
    AskedState();
    var w := Stepped(Stepped(AskedInTime(), Park(0, 9)), Read(0, 20));
    assert GotToken(w, 0, 7) && w.logins[7].expiresAt == 10;
    var events := [Start(7, 10), Call(0, 7)] + ([Read(0, 0), Ask(0, UserApproved(3, true, "token"))] + ([Park(0, 9), Read(0, 20)] + []));
    hide Stepped, GotToken;
    RunUnfolds(EMPTY, Start(7, 10), Call(0, 7), [Read(0, 0), Ask(0, UserApproved(3, true, "token"))] + ([Park(0, 9), Read(0, 20)] + []));
    RunUnfolds(Stepped(Stepped(EMPTY, Start(7, 10)), Call(0, 7)), Read(0, 0), Ask(0, UserApproved(3, true, "token")), [Park(0, 9), Read(0, 20)] + []);
    RunUnfolds(AskedInTime(), Park(0, 9), Read(0, 20), []);
    assert CollectedLate(events, 20);
  }

  lemma RunUnfolds(w: World, a: Event, b: Event, rest: seq<Event>)
    ensures Run(w, [a, b] + rest) == Run(Stepped(Stepped(w, a), b), rest)
  {
    var events := [a, b] + rest;
    assert events[1..] == [b] + rest && ([b] + rest)[1..] == rest;
  }

  // ------------------------------------------------------------ an undisturbed poll

  function Alone(w: World, p: nat, id: Uuid, answer: Answer, now: int, later: int): World {
    Stepped(Stepped(Stepped(Stepped(Stepped(Stepped(w, Call(p, id)), Read(p, now)), Ask(p, answer)), Lapse(p)), Park(p, later)), Read(p, later))
  }

  /** The machine of single steps is the service's poll: left alone it comes to the same verdict, whatever the row. */
  lemma AloneIsTheService(past: seq<Event>, p: nat, id: Uuid, answer: Answer, now: int, later: int)
    requires var w := Run(EMPTY, past); p !in w.pollers && (answer.UserApproved? ==> answer.token !in w.sessions)
    ensures var (w, w') := (Run(EMPTY, past), Alone(Run(EMPTY, past), p, id, answer, now, later));
      p in w'.pollers && w'.pollers[p].stage == Done(Verdict(RowOf(w.logins, id), answer, now, later))
  {
    RunIsSound(EMPTY, past);
    var w := Run(EMPTY, past);
    hide Run;
    if id in w.logins {
      assert RowOpens(w, w.logins[id]);
    }
    AloneFrom(w, p, id, answer, now, later);
  }

  lemma AloneFrom(w: World, p: nat, id: Uuid, answer: Answer, now: int, later: int)
    requires p !in w.pollers && (answer.UserApproved? ==> answer.token !in w.sessions) && (id in w.logins ==> RowSound(w.logins[id]))
    ensures var w' := Alone(w, p, id, answer, now, later);
      p in w'.pollers && w'.pollers[p].stage == Done(Verdict(RowOf(w.logins, id), answer, now, later))
  {
    var w1 := Stepped(w, Call(p, id));
    assert w1 == w.(pollers := w.pollers[p := Poller(id, Reading, 0)]);
    var w2 := Stepped(w1, Read(p, now));
    AfterReading(w1, p, now);
    var w3 := Stepped(w2, Ask(p, answer));
    var w4 := Stepped(w3, Lapse(p));
    var w5 := Stepped(w4, Park(p, later));
    if w2.pollers[p].stage == Asking {
      AfterAsking(w2, p, answer);
      AfterAnswer(w3, p, later);
    } else {
      DoneStays(w2, p, Ask(p, answer));
      DoneStays(w3, p, Lapse(p));
      DoneStays(w4, p, Park(p, later));
      DoneStays(w5, p, Read(p, later));
    }
    hide Stepped;
  }

  lemma DoneStays(w: World, p: nat, e: Event)
    requires p in w.pollers && w.pollers[p].stage.Done?
    ensures p in Stepped(w, e).pollers && Stepped(w, e).pollers[p] == w.pollers[p]
  {
  }

  lemma AfterReading(w: World, p: nat, now: int)
    requires p in w.pollers && w.pollers[p].stage == Reading
    requires var id := w.pollers[p].id; id in w.logins ==> RowSound(w.logins[id])
    ensures var (w', id) := (Stepped(w, Read(p, now)), w.pollers[p].id);
      && w'.sessions == w.sessions && p in w'.pollers && w'.pollers[p].id == id
      && (id !in w.logins ==> w'.pollers[p].stage == Done(Error))
      && (id in w.logins ==>
           var row := w.logins[id];
           && (row.state == Approved ==> w'.pollers[p].stage == Done(HandedOver(row.token.value, row.user)))
           && (row.state == Pending && now < row.expiresAt ==>
                w'.pollers[p].stage == Asking && id in w'.logins && w'.logins[id] == row.(pollCount := row.pollCount + 1))
           && (row.state != Approved && !(row.state == Pending && now < row.expiresAt) ==> w'.pollers[p].stage == Done(HasExpired)))
  {
  }

  lemma AfterAsking(w: World, p: nat, answer: Answer)
    requires p in w.pollers && w.pollers[p].stage == Asking && (answer.UserApproved? ==> answer.token !in w.sessions)
    ensures var w' := Stepped(w, Ask(p, answer));
      && w'.logins == w.logins && p in w'.pollers && w'.pollers[p].id == w.pollers[p].id
      && w'.pollers[p].stage == (
           match answer
           case NotYet => Done(StillPending)
           case TooFast => Done(SlowDown)
           case UserDenied => Expiring(true)
           case CodeExpired => Expiring(false)
           case UserApproved(user, personal, token) => if personal then Parking(user, token) else Done(Error)
           case Unrecognised => Done(HasExpired)
           case Unreachable => Done(Error))
  {
  }

  lemma AfterAnswer(w: World, p: nat, later: int)
    requires p in w.pollers && !w.pollers[p].stage.Reading? && !w.pollers[p].stage.Asking?
    requires var id := w.pollers[p].id; id in w.logins && w.logins[id].state == Pending
    ensures var w' := Stepped(Stepped(Stepped(w, Lapse(p)), Park(p, later)), Read(p, later));
      && p in w'.pollers
      && w'.pollers[p].stage == (
           match w.pollers[p].stage
           case Expiring(denied) => Done(if denied then WasDenied else HasExpired)
           case Parking(user, token) =>
             if w.logins[w.pollers[p].id].expiresAt <= later then Done(HasExpired) else Done(HandedOver(token, Some(user)))
           case other => other)
  {
    var w1 := Stepped(w, Lapse(p));
    var w2 := Stepped(w1, Park(p, later));
    if w.pollers[p].stage.Parking? {
      assert w1 == w;
      if later < w.logins[w.pollers[p].id].expiresAt {
        var id, stage := w.pollers[p].id, w.pollers[p].stage;
        assert w2.logins[id] == w.logins[id].(state := Approved, user := Some(stage.user), token := Some(stage.token));
        assert w2.pollers[p].stage == Reading;
        AfterReading(w2, p, later);
      } else {
        DoneStays(w2, p, Read(p, later));
      }
    } else {
      assert w1.pollers[p].stage.Done?;
      DoneStays(w1, p, Park(p, later));
      DoneStays(w2, p, Read(p, later));
    }
    hide Stepped;
  }

  // ------------------------------------------------------------------- the purge

  /** No purge of the run comes later than an hour after the instant. */
  ghost predicate PurgesBy(events: seq<Event>, expiresAt: int) {
    forall i :: 0 <= i < |events| && events[i].Purge? ==> events[i].now <= expiresAt + 3_600 * SECOND
  }

  lemma RowLasts(w: World, e: Event, id: Uuid)
    requires id in w.logins && w.logins.Keys <= w.spent && PurgesBy([e], w.logins[id].expiresAt)
    ensures var w' := Stepped(w, e);
      id in w'.logins && w'.logins[id].expiresAt == w.logins[id].expiresAt && w'.logins.Keys <= w'.spent
  {
    assert [e][0] == e;
  }

  lemma {:induction false} RowsLast(w: World, events: seq<Event>, id: Uuid)
    requires id in w.logins && w.logins.Keys <= w.spent && PurgesBy(events, w.logins[id].expiresAt)
    ensures id in Run(w, events).logins && Run(w, events).logins[id].expiresAt == w.logins[id].expiresAt
    decreases |events|
  {
    if events != [] {
      assert PurgesBy([events[0]], w.logins[id].expiresAt) && PurgesBy(events[1..], w.logins[id].expiresAt);
      RowLasts(w, events[0], id);
      hide Stepped, PurgesBy;
      RowsLast(Stepped(w, events[0]), events[1..], id);
    }
  }

  /** A login outlives every run whose purges come no later than an hour after its expiry, and none that has a later one. */
  lemma LoginsLastAnHour(past: seq<Event>, future: seq<Event>, id: Uuid, purge: int)
    requires id in Run(EMPTY, past).logins
    ensures var w := Run(EMPTY, past);
      && (PurgesBy(future, w.logins[id].expiresAt) ==> id in Run(w, future).logins)
      && (id in Stepped(w, Purge(purge)).logins <==> purge <= w.logins[id].expiresAt + 3_600 * SECOND)
  {
    var w := Run(EMPTY, past);
    RunIsSound(EMPTY, past);
    if PurgesBy(future, w.logins[id].expiresAt) {
      RowsLast(w, future, id);
    }
  }
}
