/**
 Warm agent subprocesses kept per conversation. A client is a number; `place` says where each one
 spawned so far is, so that it is in one place only. The coroutines of `get` and of the warm pool can
 interleave at every await: each method below that starts or ends with an entry of `flights` is the
 code between two awaits, and the entry holds that coroutine's local variables meanwhile; `closing` holds
 those of a `close_all` under way.
 */
module SessionPool {
  import opened Prelude

  type Profile = Option<string>
  type Mcp = Option<seq<string>>

  datatype Place = AtKey(key: string) | InWarm(profile: Profile) | InHand(flight: int) | Stopped | Lost

  /** A `get` that has not returned yet, or a warm client being spawned into a deque of some epoch. */
  datatype Flight = Flight(profile: Profile, client: Option<int>, task: Task)

  datatype Task = ForKey(key: string, mcp: Mcp) | ForDeque(deque: Option<int>)

  function PoolKey(conversation: string, namespace: string): string {
    if namespace != "" then conversation + ":" + namespace else conversation
  }

  /** A key stands for itself, so dropping by key drops the right client. */
  lemma KeyIsItsOwn(conversation: string, namespace: string)
    ensures PoolKey(PoolKey(conversation, namespace), "") == PoolKey(conversation, namespace)
    ensures PoolKey(conversation, "") == conversation
  {
  }

  /** Conversation ids have no colon, so two sessions share a key only if they are the same. */
  lemma KeysDifferIff(c: string, n: string, d: string, m: string)
    requires ':' !in c && ':' !in d
    ensures PoolKey(c, n) == PoolKey(d, m) <==> c == d && n == m
  {
    if PoolKey(c, n) == PoolKey(d, m) {
      FirstColon(c, n);
      FirstColon(d, m);
      assert PoolKey(c, n)[..|c|] == c && PoolKey(d, m)[..|d|] == d;
      if n != "" { assert PoolKey(c, n)[|c| + 1..] == n && PoolKey(d, m)[|d| + 1..] == m; }
    }
  }

  lemma FirstColon(c: string, n: string)
    requires ':' !in c
    ensures var k := PoolKey(c, n);
      && |c| <= |k| && (forall i | 0 <= i < |c| :: k[i] != ':')
      && if n == "" then |k| == |c| else |k| == |c| + 1 + |n| && k[|c|] == ':'
  {
  }

  // ---- where the clients are ----

  /** A filed client may have been stopped already: `close_all` stops clients before it empties the maps. */
  ghost predicate KeyedAt(clients: map<string, int>, place: map<int, Place>) {
    && (forall k :: k in clients ==>
          clients[k] in place && (place[clients[k]] == AtKey(k) || place[clients[k]] == Stopped))
    && (forall c :: c in place && place[c].AtKey? ==> place[c].key in clients && clients[place[c].key] == c)
  }

  ghost predicate WarmAt(warm: map<Profile, seq<int>>, place: map<int, Place>) {
    && (forall p, i :: p in warm && 0 <= i < |warm[p]| ==> warm[p][i] in place && place[warm[p][i]] == InWarm(p))
    && (forall p, i, j :: p in warm && 0 <= i < j < |warm[p]| ==> warm[p][i] != warm[p][j])
    && (forall c :: c in place && place[c].InWarm? ==> place[c].profile in warm && c in warm[place[c].profile])
  }

  ghost predicate HandAt(flights: map<int, Flight>, place: map<int, Place>) {
    && (forall f :: f in flights && flights[f].client.Some? ==>
          flights[f].client.value in place && place[flights[f].client.value] == InHand(f))
    && (forall c :: c in place && place[c].InHand? ==>
          place[c].flight in flights && flights[place[c].flight].client == Some(c))
  }

  /** A pooled client was spawned for its key's profile, and its session got the key's MCP set. */
  ghost predicate KeysFit(clients: map<string, int>, profileDirs: map<string, Profile>, mcpServers: map<string, Mcp>,
                          profileOf: map<int, Profile>, sessionMcp: map<int, Mcp>)
  {
    && clients.Keys == profileDirs.Keys == mcpServers.Keys
    && (forall k :: k in clients ==> clients[k] in profileOf && profileOf[clients[k]] == profileDirs[k])
    && (forall k :: k in clients ==> clients[k] in sessionMcp && sessionMcp[clients[k]] == mcpServers[k])
  }

  ghost predicate WarmFits(place: map<int, Place>, profileOf: map<int, Profile>) {
    && place.Keys == profileOf.Keys
    && forall c :: c in place && place[c].InWarm? ==> profileOf[c] == place[c].profile
  }

  ghost predicate HandFits(flights: map<int, Flight>, profileOf: map<int, Profile>) {
    forall f :: f in flights && flights[f].client.Some? ==>
      flights[f].client.value in profileOf && profileOf[flights[f].client.value] == flights[f].profile
  }

  ghost predicate DequesKnown(flights: map<int, Flight>, warm: map<Profile, seq<int>>, epoch: int) {
    forall f :: f in flights && flights[f].task.ForDeque? && flights[f].task.deque.Some? ==>
      flights[f].task.deque.value <= epoch && (flights[f].task.deque.value == epoch ==> flights[f].profile in warm)
  }

  /** What a `close_all` under way has yet to stop: clients it listed at its start, or the warm clients. */
  datatype Closing = NotClosing | Stopping(todo: seq<int>) | Draining(left: seq<Profile>, size: nat)

  predicate Settled(place: Place) {
    place.AtKey? || place == Stopped || place == Lost
  }

  /** The clients on the list of `close_all` were filed under keys, and never are in a call's hand again. */
  ghost predicate TodoAt(closing: Closing, place: map<int, Place>) {
    closing.Stopping? ==> forall c :: c in closing.todo ==> c in place && Settled(place[c])
  }

  lemma TodoMove(closing: Closing, place: map<int, Place>, c: int, to: Place)
    requires TodoAt(closing, place) && (c in place && Settled(place[c]) ==> Settled(to))
    ensures TodoAt(closing, place[c := to])
  {
  }

  /** The clients nothing refers to any more, though they still run. */
  ghost function LostIn(place: map<int, Place>): set<int> {
    set c | c in place && place[c] == Lost
  }

  lemma MoveLost(place: map<int, Place>, c: int, to: Place)
    requires c in place ==> place[c] != Lost
    ensures LostIn(place[c := to]) == LostIn(place) + if to == Lost then {c} else {}
  {
  }

  lemma KeyedSame(clients: map<string, int>, place: map<int, Place>, c: int, to: Place)
    requires KeyedAt(clients, place) && (c in place ==> !place[c].AtKey?) && !to.AtKey?
    requires c in place && place[c] == Stopped ==> to == Stopped
    ensures KeyedAt(clients, place[c := to])
  {
  }

  lemma KeyedStop(clients: map<string, int>, place: map<int, Place>, c: int)
    requires KeyedAt(clients, place) && c in place
    ensures KeyedAt(clients, place[c := Stopped])
  {
  }

  lemma KeyedDrop(clients: map<string, int>, place: map<int, Place>, key: string, to: Place)
    requires KeyedAt(clients, place) && key in clients && !to.AtKey?
    requires clients[key] in place && place[clients[key]] == Stopped ==> to == Stopped
    ensures clients[key] in place && (place[clients[key]] == AtKey(key) || place[clients[key]] == Stopped)
    ensures KeyedAt(clients - {key}, place[clients[key] := to])
  {
  }

  lemma KeyedPut(clients: map<string, int>, place: map<int, Place>, key: string, c: int)
    requires KeyedAt(clients, place) && key !in clients && (c in place ==> !place[c].AtKey? && place[c] != Stopped)
    ensures KeyedAt(clients[key := c], place[c := AtKey(key)])
  {
  }

  lemma WarmSame(warm: map<Profile, seq<int>>, place: map<int, Place>, c: int, to: Place)
    requires WarmAt(warm, place) && (c in place ==> !place[c].InWarm?) && !to.InWarm?
    ensures WarmAt(warm, place[c := to])
  {
  }

  lemma WarmPop(warm: map<Profile, seq<int>>, place: map<int, Place>, p: Profile, to: Place)
    requires WarmAt(warm, place) && p in warm && warm[p] != [] && !to.InWarm?
    ensures warm[p][0] in place && place[warm[p][0]] == InWarm(p)
    ensures WarmAt(warm[p := warm[p][1..]], place[warm[p][0] := to])
  {
    var q := warm[p];
    assert forall i :: 0 <= i < |q[1..]| ==> q[1..][i] == q[i + 1];
    assert forall c :: c in q ==> c == q[0] || c in q[1..];
  }

  lemma WarmPush(warm: map<Profile, seq<int>>, place: map<int, Place>, p: Profile, c: int)
    requires WarmAt(warm, place) && c in place && !place[c].InWarm?
    ensures WarmAt(warm[p := (if p in warm then warm[p] else []) + [c]], place[c := InWarm(p)])
  {
    var q := if p in warm then warm[p] else [];
    assert (q + [c])[|q|] == c;
    assert forall x :: x in q ==> x in q + [c];
  }

  lemma HandSame(flights: map<int, Flight>, place: map<int, Place>, c: int, to: Place)
    requires HandAt(flights, place) && (c in place ==> !place[c].InHand?) && !to.InHand?
    ensures HandAt(flights, place[c := to])
  {
  }

  lemma HandTake(flights: map<int, Flight>, place: map<int, Place>, f: int, c: int)
    requires HandAt(flights, place) && (c in place ==> !place[c].InHand?)
    requires f in flights && flights[f].client.None?
    ensures HandAt(flights[f := flights[f].(client := Some(c))], place[c := InHand(f)])
  {
  }

  lemma HandDrop(flights: map<int, Flight>, place: map<int, Place>, f: int, to: Place)
    requires HandAt(flights, place) && f in flights && flights[f].client.Some? && !to.InHand?
    ensures flights[f].client.value in place && place[flights[f].client.value] == InHand(f)
    ensures HandAt(flights - {f}, place[flights[f].client.value := to])
  {
  }

  lemma FlightsWithout(flights: map<int, Flight>, profileOf: map<int, Profile>, warm: map<Profile, seq<int>>, epoch: int, f: int)
    requires HandFits(flights, profileOf) && DequesKnown(flights, warm, epoch)
    ensures HandFits(flights - {f}, profileOf) && DequesKnown(flights - {f}, warm, epoch)
  {
  }

  lemma FlightWithClient(flights: map<int, Flight>, profileOf: map<int, Profile>, warm: map<Profile, seq<int>>, epoch: int, f: int, c: int)
    requires HandFits(flights, profileOf) && DequesKnown(flights, warm, epoch)
    requires f in flights && c in profileOf && profileOf[c] == flights[f].profile
    ensures HandFits(flights[f := flights[f].(client := Some(c))], profileOf)
    ensures DequesKnown(flights[f := flights[f].(client := Some(c))], warm, epoch)
  {
  }

  lemma NewFlightFits(flights: map<int, Flight>, profileOf: map<int, Profile>, warm: map<Profile, seq<int>>, epoch: int, f: int, g: Flight)
    requires HandFits(flights, profileOf) && DequesKnown(flights, warm, epoch) && g.client.None?
    requires g.task.ForDeque? && g.task.deque.Some? ==> g.task.deque.value == epoch && g.profile in warm
    ensures HandFits(flights[f := g], profileOf) && DequesKnown(flights[f := g], warm, epoch)
  {
  }

  lemma DequesGrow(flights: map<int, Flight>, warm: map<Profile, seq<int>>, epoch: int, p: Profile, q: seq<int>)
    requires DequesKnown(flights, warm, epoch)
    ensures DequesKnown(flights, warm[p := q], epoch)
  {
  }

  lemma WarmFitsMoved(place: map<int, Place>, profileOf: map<int, Profile>, c: int, to: Place)
    requires WarmFits(place, profileOf) && (c in place || c in profileOf) && !to.InWarm?
    ensures WarmFits(place[c := to], profileOf)
  {
    assert c in place.Keys;
  }

  lemma WarmProfile(place: map<int, Place>, profileOf: map<int, Profile>, c: int, to: Place)
    requires WarmFits(place, profileOf) && c in place && place[c].InWarm? && !to.InWarm?
    ensures c in profileOf && profileOf[c] == place[c].profile && WarmFits(place[c := to], profileOf)
  {
    assert c in place.Keys;
  }

  lemma NewClientFits(place: map<int, Place>, flights: map<int, Flight>, profileOf: map<int, Profile>, c: int, p: Profile, to: Place)
    requires WarmFits(place, profileOf) && HandFits(flights, profileOf) && c !in place && !to.InWarm?
    ensures WarmFits(place[c := to], profileOf[c := p]) && HandFits(flights, profileOf[c := p])
  {
  }

  lemma NewClientKeysFit(clients: map<string, int>, profileDirs: map<string, Profile>, mcpServers: map<string, Mcp>,
                         profileOf: map<int, Profile>, sessionMcp: map<int, Mcp>, c: int, p: Profile)
    requires KeysFit(clients, profileDirs, mcpServers, profileOf, sessionMcp) && c !in profileOf
    ensures KeysFit(clients, profileDirs, mcpServers, profileOf[c := p], sessionMcp)
  {
  }

  lemma HandNew(flights: map<int, Flight>, place: map<int, Place>, f: int, g: Flight)
    requires HandAt(flights, place) && f !in flights && g.client.None?
    ensures HandAt(flights[f := g], place)
  {
  }

  // ---- the pool's state, and the code between two awaits ----

  datatype State = State(
    clients: map<string, int>, profileDirs: map<string, Profile>, mcpServers: map<string, Mcp>, lastUsed: map<string, int>,
    warm: map<Profile, seq<int>>, epoch: int, flights: map<int, Flight>,
    spawned: int, profileOf: map<int, Profile>, sessionMcp: map<int, Mcp>, place: map<int, Place>,
    closing: Closing)

  /** Every spawned client is in exactly one place, and every pooled one is what its key says. */
  ghost predicate Consistent(s: State) {
    && (forall c :: c in s.place <==> 0 <= c < s.spawned) && s.spawned >= 0
    && KeyedAt(s.clients, s.place)
    && WarmAt(s.warm, s.place)
    && HandAt(s.flights, s.place)
    && KeysFit(s.clients, s.profileDirs, s.mcpServers, s.profileOf, s.sessionMcp)
    && WarmFits(s.place, s.profileOf)
    && HandFits(s.flights, s.profileOf)
    && DequesKnown(s.flights, s.warm, s.epoch)
    && TodoAt(s.closing, s.place)
  }

  /** The client is filed under the key, was spawned for the profile and had its session requested with `mcp`. */
  ghost predicate Serves(s: State, c: int, key: string, profile: Profile, mcp: Mcp) {
    && key in s.clients && s.clients[key] == c
    && c in s.place && s.place[c] == AtKey(key)
    && c in s.profileOf && s.profileOf[c] == profile
    && c in s.sessionMcp && s.sessionMcp[c] == mcp
  }

  /** `drop`: forgets the key and stops its client. */
  function Dropped(s: State, key: string): State {
    s.(clients := s.clients - {key}, profileDirs := s.profileDirs - {key}, mcpServers := s.mcpServers - {key},
       lastUsed := s.lastUsed - {key},
       place := if key in s.clients then s.place[s.clients[key] := Stopped] else s.place)
  }

  lemma DroppedKeeps(s: State, key: string)
    requires Consistent(s)
    ensures Consistent(Dropped(s, key)) && LostIn(Dropped(s, key).place) == LostIn(s.place)
  {
    if key in s.clients {
      var c := s.clients[key];
      hide TodoAt, KeyedAt, WarmAt, HandAt, KeysFit, WarmFits, HandFits, DequesKnown, LostIn;
      KeysFitDrop(s, key);
      WarmFitsMoved(s.place, s.profileOf, c, Stopped);
      KeyedDrop(s.clients, s.place, key, Stopped);
      WarmSame(s.warm, s.place, c, Stopped);
      HandSame(s.flights, s.place, c, Stopped);
      TodoMove(s.closing, s.place, c, Stopped);
      MoveLost(s.place, c, Stopped);
    } else {
      assert s.clients - {key} == s.clients && s.profileDirs - {key} == s.profileDirs;
      assert s.mcpServers - {key} == s.mcpServers;
    }
  }

  /** A client that was told to stop counts as dead, whether or not its process still runs. */
  predicate Alive(place: map<int, Place>, c: int, alive: bool) {
    alive && c in place && place[c] != Stopped
  }

  /** Whether `get` finds a live client of the requested profile and MCP set under the key. */
  predicate Hit(s: State, key: string, profile: Profile, mcp: Mcp, alive: bool) {
    && key in s.clients && Alive(s.place, s.clients[key], alive)
    && key in s.profileDirs && s.profileDirs[key] == profile
    && key in s.mcpServers && s.mcpServers[key] == mcp
  }

  lemma HitServes(s: State, key: string, profile: Profile, mcp: Mcp, alive: bool)
    requires Consistent(s) && Hit(s, key, profile, mcp, alive)
    ensures Serves(s, s.clients[key], key, profile, mcp)
  {
  }

  /** The start of a `get` that does not hit: the key is emptied and the call goes on to find a client. */
  function Begun(s: State, f: int, key: string, profile: Profile, mcp: Mcp): State {
    var s' := if key in s.clients then Dropped(s, key) else s;
    s'.(flights := s'.flights[f := Flight(profile, None, ForKey(key, mcp))])
  }

  lemma BegunKeeps(s: State, f: int, key: string, profile: Profile, mcp: Mcp)
    requires Consistent(s) && f !in s.flights
    ensures Consistent(Begun(s, f, key, profile, mcp)) && LostIn(Begun(s, f, key, profile, mcp).place) == LostIn(s.place)
    ensures key !in Begun(s, f, key, profile, mcp).clients
    ensures Begun(s, f, key, profile, mcp).flights == s.flights[f := Flight(profile, None, ForKey(key, mcp))]
  {
    DroppedKeeps(s, key);
    hide TodoAt, KeyedAt, WarmAt, HandAt, KeysFit, WarmFits, HandFits, DequesKnown, LostIn;
    var s' := if key in s.clients then Dropped(s, key) else s;
    HandNew(s'.flights, s'.place, f, Flight(profile, None, ForKey(key, mcp)));
    NewFlightFits(s'.flights, s'.profileOf, s'.warm, s'.epoch, f, Flight(profile, None, ForKey(key, mcp)));
  }

  /** The start of a `get`, which notes the key's last use before it looks whether it hits. */
  function Called(s: State, f: int, key: string, profile: Profile, mcp: Mcp, alive: bool, now: int): State {
    var s' := s.(lastUsed := s.lastUsed[key := now]);
    if Hit(s', key, profile, mcp, alive) then s' else Begun(s', f, key, profile, mcp)
  }

  /**
   A hit changes nothing but the last use and serves the call; otherwise the key is empty. The key then
   counts as used exactly if the call hit or the key was empty before: `drop` takes away the use of a key
   that is respawned.
   */
  lemma CalledKeeps(s: State, f: int, key: string, profile: Profile, mcp: Mcp, alive: bool, now: int)
    requires Consistent(s) && f !in s.flights
    ensures var s' := Called(s, f, key, profile, mcp, alive, now);
      && Consistent(s') && LostIn(s'.place) == LostIn(s.place)
      && (if Hit(s, key, profile, mcp, alive) then Serves(s', s.clients[key], key, profile, mcp) && s'.flights == s.flights
          else key !in s'.clients && s'.flights == s.flights[f := Flight(profile, None, ForKey(key, mcp))])
      && (key in s'.lastUsed <==> Hit(s, key, profile, mcp, alive) || key !in s.clients)
      && s'.warm == s.warm
  {
    var s' := s.(lastUsed := s.lastUsed[key := now]);
    assert Consistent(s') && (Hit(s', key, profile, mcp, alive) <==> Hit(s, key, profile, mcp, alive));
    hide Consistent, LostIn;
    if Hit(s, key, profile, mcp, alive) {
      HitServes(s', key, profile, mcp, alive);
    } else {
      BegunKeeps(s', f, key, profile, mcp);
      hide Hit;
    }
  }

  /** A call in progress for a key that has no client yet. */
  predicate Seeking(s: State, f: int) {
    f in s.flights && s.flights[f].task.ForKey? && s.flights[f].client.None?
  }

  predicate Holding(s: State, f: int) {
    f in s.flights && s.flights[f].client.Some?
  }

  predicate NoServers(mcp: Mcp) {
    mcp.None? || mcp.value == []
  }

  /** Whether the call may take a warm client, and there is one of its profile. */
  predicate WarmReady(s: State, f: int) {
    && Seeking(s, f)
    && NoServers(s.flights[f].task.mcp)
    && s.flights[f].profile in s.warm && s.warm[s.flights[f].profile] != []
  }

  /** The oldest warm client of the profile is taken, or stopped if it has died. */
  function WarmTaken(s: State, f: int, alive: bool): State {
    if WarmReady(s, f) then Taken(s, f, alive) else s
  }

  function Taken(s: State, f: int, alive: bool): State
    requires WarmReady(s, f)
  {
    var g := s.flights[f];
    var q := s.warm[g.profile];
    s.(warm := s.warm[g.profile := q[1..]],
       flights := if alive then s.flights[f := g.(client := Some(q[0]))] else s.flights,
       place := s.place[q[0] := if alive then InHand(f) else Stopped])
  }

  lemma WarmTakenKeeps(s: State, f: int, alive: bool)
    requires Consistent(s)
    ensures Consistent(WarmTaken(s, f, alive)) && LostIn(WarmTaken(s, f, alive).place) == LostIn(s.place)
  {
    if WarmReady(s, f) {
      var g := s.flights[f];
      var q := s.warm[g.profile];
      var to := if alive then InHand(f) else Stopped;
      WarmPop(s.warm, s.place, g.profile, to);
      WarmProfile(s.place, s.profileOf, q[0], to);
      hide TodoAt, KeyedAt, WarmAt, HandAt, KeysFit, WarmFits, HandFits, DequesKnown, LostIn;
      KeyedSame(s.clients, s.place, q[0], to);
      TodoMove(s.closing, s.place, q[0], to);
      MoveLost(s.place, q[0], to);
      DequesGrow(s.flights, s.warm, s.epoch, g.profile, q[1..]);
      if alive {
        HandTake(s.flights, s.place, f, q[0]);
        FlightWithClient(s.flights, s.profileOf, s.warm[g.profile := q[1..]], s.epoch, f, q[0]);
      } else {
        HandSame(s.flights, s.place, q[0], to);
      }
    }
  }

  /** A fresh subprocess for the call's profile. */
  function SpawnedFor(s: State, f: int): State
    requires f in s.flights
  {
    s.(spawned := s.spawned + 1, profileOf := s.profileOf[s.spawned := s.flights[f].profile],
       place := s.place[s.spawned := InHand(f)],
       flights := s.flights[f := s.flights[f].(client := Some(s.spawned))])
  }

  lemma SpawnedKeeps(s: State, f: int)
    requires Consistent(s) && f in s.flights && s.flights[f].client.None?
    ensures Consistent(SpawnedFor(s, f)) && LostIn(SpawnedFor(s, f).place) == LostIn(s.place)
  {
    var c, p := s.spawned, s.flights[f].profile;
    assert c !in s.place && s.place.Keys == s.profileOf.Keys;
    hide TodoAt, KeyedAt, WarmAt, HandAt, KeysFit, WarmFits, HandFits, DequesKnown, LostIn;
    KeyedSame(s.clients, s.place, c, InHand(f));
    WarmSame(s.warm, s.place, c, InHand(f));
    HandTake(s.flights, s.place, f, c);
    TodoMove(s.closing, s.place, c, InHand(f));
    MoveLost(s.place, c, InHand(f));
    NewClientFits(s.place, s.flights, s.profileOf, c, p, InHand(f));
    NewClientKeysFit(s.clients, s.profileDirs, s.mcpServers, s.profileOf, s.sessionMcp, c, p);
    FlightWithClient(s.flights, s.profileOf[c := p], s.warm, s.epoch, f, c);
  }

  /** The call ends without filing its client, which is stopped by an error and lost by a cancellation. */
  function Ended(s: State, f: int, cancelled: bool): State {
    var place := if Holding(s, f) then s.place[s.flights[f].client.value := if cancelled then Lost else Stopped] else s.place;
    s.(flights := s.flights - {f}, place := place)
  }

  /** An error loses no client; a cancellation loses exactly the one its call held. */
  lemma EndedKeeps(s: State, f: int, cancelled: bool)
    requires Consistent(s) && f in s.flights
    ensures Consistent(Ended(s, f, cancelled))
    ensures LostIn(Ended(s, f, cancelled).place)
            == LostIn(s.place) + if cancelled && Holding(s, f) then {s.flights[f].client.value} else {}
  {
    FlightsWithout(s.flights, s.profileOf, s.warm, s.epoch, f);
    if s.flights[f].client.Some? {
      var c := s.flights[f].client.value;
      var to := if cancelled then Lost else Stopped;
      hide TodoAt, KeyedAt, WarmAt, HandAt, LostIn, KeysFit, WarmFits, HandFits, DequesKnown;
      HandDrop(s.flights, s.place, f, to);
      WarmFitsMoved(s.place, s.profileOf, c, to);
      KeyedSame(s.clients, s.place, c, to);
      WarmSame(s.warm, s.place, c, to);
      TodoMove(s.closing, s.place, c, to);
      MoveLost(s.place, c, to);
    }
  }

  /**
   The session, resumed or new, is there: the client is filed under the key. A client that another
   call filed there in the meantime is overwritten, and lost unless it was told to stop.
   */
  function Finished(s: State, f: int): State
    requires Holding(s, f) && s.flights[f].task.ForKey?
  {
    var g := s.flights[f];
    var c, key := g.client.value, g.task.key;
    s.(clients := s.clients[key := c], profileDirs := s.profileDirs[key := g.profile],
       mcpServers := s.mcpServers[key := g.task.mcp], sessionMcp := s.sessionMcp[c := g.task.mcp],
       flights := s.flights - {f}, place := Overwritten(s, key)[c := AtKey(key)])
  }

  function Overwritten(s: State, key: string): map<int, Place> {
    if Live(s, key) == {} then s.place else s.place[s.clients[key] := Lost]
  }

  /** The client filed under the key that was not told to stop. */
  function Live(s: State, key: string): set<int> {
    if key in s.clients && Alive(s.place, s.clients[key], true) then {s.clients[key]} else {}
  }

  /** The filed client serves the call; only an overwritten client is lost. */
  lemma FinishedKeeps(s: State, f: int)
    requires Consistent(s) && Holding(s, f) && s.flights[f].task.ForKey?
    ensures var g := s.flights[f]; var s' := Finished(s, f);
      && Consistent(s') && Serves(s', g.client.value, g.task.key, g.profile, g.task.mcp)
      && LostIn(s'.place) == LostIn(s.place) + Live(s, g.task.key)
  {
    hide TodoAt, KeyedAt, WarmAt, HandAt, LostIn, KeysFit, HandFits, WarmFits, DequesKnown, Overwritten, Live;
    FlightsWithout(s.flights, s.profileOf, s.warm, s.epoch, f);
    FinishedFits(s, f);
    FinishedPlaces(s, f);
  }

  lemma FinishedPlaces(s: State, f: int)
    requires Consistent(s) && Holding(s, f) && s.flights[f].task.ForKey?
    ensures var g := s.flights[f]; var s' := Finished(s, f);
      && KeyedAt(s'.clients, s'.place) && WarmAt(s.warm, s'.place) && HandAt(s'.flights, s'.place)
      && WarmFits(s'.place, s.profileOf) && s'.place.Keys == s.place.Keys && TodoAt(s.closing, s'.place)
      && LostIn(s'.place) == LostIn(s.place) + Live(s, g.task.key)
  {
    var g := s.flights[f];
    var c, key := g.client.value, g.task.key;
    OverwrittenPlaces(s, f, key);
    hide TodoAt, KeyedAt, WarmAt, HandAt, LostIn, KeysFit, HandFits, DequesKnown, Overwritten, Live;
    var place := Overwritten(s, key);
    HandDrop(s.flights, place, f, AtKey(key));
    KeyedPut(s.clients - {key}, place, key, c);
    Refiled(s.clients, key, c);
    WarmSame(s.warm, place, c, AtKey(key));
    TodoMove(s.closing, place, c, AtKey(key));
    MoveLost(place, c, AtKey(key));
  }

  lemma Refiled(clients: map<string, int>, key: string, c: int)
    ensures (clients - {key})[key := c] == clients[key := c]
  {
  }

  lemma FinishedFits(s: State, f: int)
    requires Consistent(s) && Holding(s, f) && s.flights[f].task.ForKey?
    ensures var s' := Finished(s, f);
      && KeysFit(s'.clients, s'.profileDirs, s'.mcpServers, s'.profileOf, s'.sessionMcp)
      && s.flights[f].client.value in s.profileOf && s.profileOf[s.flights[f].client.value] == s.flights[f].profile
  {
    var g := s.flights[f];
    var c := g.client.value;
    assert s.place[c] == InHand(f);
    assert forall k :: k in s.clients ==> s.clients[k] != c;
    assert c in s.profileOf && s.profileOf[c] == g.profile;
    hide TodoAt, KeyedAt, HandAt, WarmAt, HandFits, WarmFits, DequesKnown, KeysFit;
    KeysFitPut(s, g.task.key, c, g.profile, g.task.mcp);
  }

  lemma KeysFitDrop(s: State, key: string)
    requires KeysFit(s.clients, s.profileDirs, s.mcpServers, s.profileOf, s.sessionMcp)
    ensures KeysFit(s.clients - {key}, s.profileDirs - {key}, s.mcpServers - {key}, s.profileOf, s.sessionMcp)
  {
  }

  lemma KeysFitPut(s: State, key: string, c: int, profile: Profile, mcp: Mcp)
    requires KeysFit(s.clients, s.profileDirs, s.mcpServers, s.profileOf, s.sessionMcp)
    requires c in s.profileOf && s.profileOf[c] == profile && forall k :: k in s.clients ==> s.clients[k] != c
    ensures KeysFit(s.clients[key := c], s.profileDirs[key := profile], s.mcpServers[key := mcp],
                    s.profileOf, s.sessionMcp[c := mcp])
  {
  }

  lemma OverwrittenPlaces(s: State, f: int, key: string)
    requires Consistent(s) && f in s.flights
    ensures var place := Overwritten(s, key);
      && KeyedAt(s.clients - {key}, place) && WarmAt(s.warm, place) && HandAt(s.flights, place)
      && WarmFits(place, s.profileOf) && place.Keys == s.place.Keys && TodoAt(s.closing, place)
      && LostIn(place) == LostIn(s.place) + Live(s, key)
  {
    if key in s.clients {
      var d := s.clients[key];
      assert s.place[d] == AtKey(key) || s.place[d] == Stopped;
      if s.place[d] == Stopped {
        KeyedDrop(s.clients, s.place, key, Stopped);
        assert s.place[d := Stopped] == s.place;
      } else {
        hide TodoAt, KeyedAt, WarmAt, HandAt, LostIn, KeysFit, HandFits, DequesKnown;
        KeyedDrop(s.clients, s.place, key, Lost);
        WarmSame(s.warm, s.place, d, Lost);
        HandSame(s.flights, s.place, d, Lost);
        TodoMove(s.closing, s.place, d, Lost);
        MoveLost(s.place, d, Lost);
      }
    } else {
      assert s.clients - {key} == s.clients;
    }
  }

  /** Whether a refill leaves the deque as it is. */
  predicate Full(s: State, profile: Profile, refill: bool, target: nat) {
    refill && (target == 0 || (profile in s.warm && |s.warm[profile]| >= target))
  }

  /** The state in which the spawn of a fill starts. */
  function FillStarted(s: State, f: int, profile: Profile, refill: bool): State {
    var warm := if refill && profile !in s.warm then s.warm[profile := []] else s.warm;
    s.(warm := warm, flights := s.flights[f := Flight(profile, None, ForDeque(if refill then Some(s.epoch) else None))])
  }

  lemma FillStartedKeeps(s: State, f: int, profile: Profile, refill: bool)
    requires Consistent(s) && f !in s.flights
    ensures Consistent(FillStarted(s, f, profile, refill))
  {
    var s' := FillStarted(s, f, profile, refill);
    assert WarmAt(s'.warm, s.place) && DequesKnown(s.flights, s'.warm, s.epoch);
    hide TodoAt, KeyedAt, WarmAt, HandAt, LostIn, KeysFit, WarmFits, HandFits, DequesKnown;
    HandNew(s.flights, s.place, f, s'.flights[f]);
    NewFlightFits(s.flights, s.profileOf, s'.warm, s.epoch, f, s'.flights[f]);
  }

  /** A refill, which has looked up the deque it will append to, or a warm-up step starts a spawn. */
  function FillBegun(s: State, f: int, profile: Profile, refill: bool, target: nat): State {
    if Full(s, profile, refill, target) then s else SpawnedFor(FillStarted(s, f, profile, refill), f)
  }

  lemma FillBegunKeeps(s: State, f: int, profile: Profile, refill: bool, target: nat)
    requires Consistent(s) && f !in s.flights
    ensures Consistent(FillBegun(s, f, profile, refill, target))
    ensures LostIn(FillBegun(s, f, profile, refill, target).place) == LostIn(s.place)
  {
    if !Full(s, profile, refill, target) {
      hide Consistent, LostIn;
      FillStartedKeeps(s, f, profile, refill);
      SpawnedKeeps(FillStarted(s, f, profile, refill), f);
    }
  }

  /** A refill spawns exactly one client while its deque has fewer than the target; a warm-up step always does. */
  lemma FillSpawnsIff(s: State, f: int, profile: Profile, refill: bool, target: nat)
    requires f !in s.flights
    ensures var s' := FillBegun(s, f, profile, refill, target);
      if !refill || (if profile in s.warm then |s.warm[profile]| < target else target > 0)
      then f in s'.flights && s'.flights[f].client == Some(s.spawned) && s'.spawned == s.spawned + 1
           && s'.flights[f].profile == profile && s'.flights[f].task == ForDeque(if refill then Some(s.epoch) else None)
      else s' == s
  {
  }

  /** Whether the deque a spawn was to join has been cleared away by `close_all`. */
  predicate Orphaned(s: State, f: int) {
    && f in s.flights && s.flights[f].task.ForDeque?
    && s.flights[f].task.deque.Some? && s.flights[f].task.deque.value < s.epoch
  }

  /** The deques after a spawned client was appended to its own, which reaches the pool only if it is still there. */
  function Appended(warm: map<Profile, seq<int>>, g: Flight, orphaned: bool): map<Profile, seq<int>>
    requires g.client.Some?
  {
    if orphaned then warm
    else warm[g.profile := (if g.profile in warm then warm[g.profile] else []) + [g.client.value]]
  }

  /** The spawned client joins its profile's deque. */
  function FillEnded(s: State, f: int): State
    requires Holding(s, f) && s.flights[f].task.ForDeque?
  {
    var g := s.flights[f];
    s.(warm := Appended(s.warm, g, Orphaned(s, f)), flights := s.flights - {f},
       place := s.place[g.client.value := if Orphaned(s, f) then Lost else InWarm(g.profile)])
  }

  /** Only a client whose deque was cleared away is lost. */
  lemma FillEndedKeeps(s: State, f: int)
    requires Consistent(s) && Holding(s, f) && s.flights[f].task.ForDeque?
    ensures Consistent(FillEnded(s, f))
    ensures LostIn(FillEnded(s, f).place) == LostIn(s.place) + if Orphaned(s, f) then {s.flights[f].client.value} else {}
  {
    if Orphaned(s, f) {
      EndedKeeps(s, f, true);
      assert FillEnded(s, f) == Ended(s, f, true);
    } else {
      var g := s.flights[f];
      var q := if g.profile in s.warm then s.warm[g.profile] else [];
      FlightsWithout(s.flights, s.profileOf, s.warm, s.epoch, f);
      assert s.profileOf[g.client.value] == g.profile;
      hide TodoAt, KeyedAt, WarmAt, HandAt, LostIn, KeysFit, HandFits, DequesKnown;
      DequesGrow(s.flights - {f}, s.warm, s.epoch, g.profile, q + [g.client.value]);
      HandDrop(s.flights, s.place, f, InWarm(g.profile));
      KeyedSame(s.clients, s.place, g.client.value, InWarm(g.profile));
      WarmPush(s.warm, s.place, g.profile, g.client.value);
      TodoMove(s.closing, s.place, g.client.value, InWarm(g.profile));
      MoveLost(s.place, g.client.value, InWarm(g.profile));
    }
  }

  // ---- closing the pool ----

  /** `close_all` tells the next client on its list to stop, and waits for it. */
  function NextStopped(s: State): State
    requires s.closing.Stopping? && s.closing.todo != []
  {
    s.(closing := Stopping(s.closing.todo[1..]), place := s.place[s.closing.todo[0] := Stopped])
  }

  lemma NextStoppedKeeps(s: State)
    requires Consistent(s) && s.closing.Stopping? && s.closing.todo != []
    ensures Consistent(NextStopped(s)) && LostIn(NextStopped(s).place) == LostIn(s.place) - {s.closing.todo[0]}
  {
    var c := s.closing.todo[0];
    assert c in s.place && Settled(s.place[c]);
    TodoMove(s.closing, s.place, c, Stopped);
    hide KeyedAt, WarmAt, HandAt, KeysFit, WarmFits, HandFits, DequesKnown;
    KeyedStop(s.clients, s.place, c);
    WarmFitsMoved(s.place, s.profileOf, c, Stopped);
    WarmSame(s.warm, s.place, c, Stopped);
    HandSame(s.flights, s.place, c, Stopped);
  }

  /** All of its list was stopped: the maps are emptied, and nothing refers any more to a client filed meanwhile. */
  function Cleared(s: State, deques: seq<Profile>): State {
    var place := map c | c in s.place :: if s.place[c].AtKey? then Lost else s.place[c];
    s.(clients := map[], profileDirs := map[], mcpServers := map[], lastUsed := map[],
       place := place, closing := Draining(deques, |s.warm|))
  }

  ghost function Filed(s: State): set<int> {
    set c | c in s.place && s.place[c].AtKey?
  }

  lemma ClearedKeeps(s: State, deques: seq<Profile>)
    requires Consistent(s)
    ensures Consistent(Cleared(s, deques)) && LostIn(Cleared(s, deques).place) == LostIn(s.place) + Filed(s)
    ensures Waiting(Cleared(s, deques)) == Waiting(s)
  {
  }

  predicate Empty(warm: map<Profile, seq<int>>, p: Profile) {
    p in warm ==> warm[p] == []
  }

  /** The deques from the first one on that still has a client. */
  function Pending(left: seq<Profile>, warm: map<Profile, seq<int>>): (r: seq<Profile>)
    ensures r != [] ==> !Empty(warm, r[0])
  {
    if left != [] && Empty(warm, left[0]) then Pending(left[1..], warm) else left
  }

  lemma {:induction false} PendingMeans(left: seq<Profile>, warm: map<Profile, seq<int>>)
    ensures Pending(left, warm) == [] <==> forall p :: p in left ==> Empty(warm, p)
    ensures forall p :: p in left && !Empty(warm, p) ==> p in Pending(left, warm)
  {
    if left != [] && Empty(warm, left[0]) {
      PendingMeans(left[1..], warm);
      assert forall p :: p in left ==> p == left[0] || p in left[1..];
    }
  }

  /** The oldest client of the first deque in `left` is taken off it and told to stop. */
  function NextDrained(s: State, left: seq<Profile>, size: nat): State
    requires left != [] && !Empty(s.warm, left[0])
  {
    var q := s.warm[left[0]];
    s.(warm := s.warm[left[0] := q[1..]], place := s.place[q[0] := Stopped], closing := Draining(left, size))
  }

  lemma NextDrainedKeeps(s: State, left: seq<Profile>, size: nat)
    requires Consistent(s) && left != [] && !Empty(s.warm, left[0])
    ensures Consistent(NextDrained(s, left, size)) && LostIn(NextDrained(s, left, size).place) == LostIn(s.place)
  {
    var p := left[0];
    var c := s.warm[p][0];
    WarmPop(s.warm, s.place, p, Stopped);
    WarmProfile(s.place, s.profileOf, c, Stopped);
    hide KeyedAt, WarmAt, HandAt, KeysFit, WarmFits, HandFits, DequesKnown, LostIn;
    KeyedSame(s.clients, s.place, c, Stopped);
    HandSame(s.flights, s.place, c, Stopped);
    MoveLost(s.place, c, Stopped);
    DequesGrow(s.flights, s.warm, s.epoch, p, s.warm[p][1..]);
  }

  /** The deques are forgotten, with whatever has been appended to one that was drained before. */
  function Emptied(s: State): State {
    var place := map c | c in s.place :: if s.place[c].InWarm? then Lost else s.place[c];
    s.(warm := map[], epoch := s.epoch + 1, place := place, closing := NotClosing)
  }

  ghost function Waiting(s: State): set<int> {
    set c | c in s.place && s.place[c].InWarm?
  }

  lemma EmptiedKeeps(s: State)
    requires Consistent(s)
    ensures Consistent(Emptied(s)) && LostIn(Emptied(s).place) == LostIn(s.place) + Waiting(s)
  {
  }

  /**
   The drain up to its next await. Going on to another deque of a dictionary that has grown raises an
   error, and `close_all` ends there.
   */
  function Drained(s: State, left: seq<Profile>, size: nat): State {
    var pending := Pending(left, s.warm);
    if pending != left && |s.warm| != size then Aborted(s)
    else if pending == [] then Emptied(s)
    else NextDrained(s, pending, size)
  }

  function Aborted(s: State): State {
    s.(closing := NotClosing)
  }

  /** Whether the drain finds all deques it has yet to visit empty, and so comes to its end. */
  predicate AllDrained(s: State, left: seq<Profile>, size: nat) {
    (forall p :: p in left ==> Empty(s.warm, p)) && (left != [] ==> |s.warm| == size)
  }

  lemma DrainedKeeps(s: State, left: seq<Profile>, size: nat)
    requires Consistent(s)
    ensures Consistent(Drained(s, left, size))
    ensures LostIn(Drained(s, left, size).place) == LostIn(s.place) + if AllDrained(s, left, size) then Waiting(s) else {}
  {
    hide LostIn, Emptied, NextDrained, Waiting, Consistent, Aborted;
    var pending := Pending(left, s.warm);
    PendingMeans(left, s.warm);
    assert AllDrained(s, left, size) <==> pending == [] && (left != [] ==> |s.warm| == size);
    hide AllDrained, Pending, Empty;
    AbortedKeeps(s);
    EmptiedKeeps(s);
    if pending != [] {
      NextDrainedKeeps(s, pending, size);
    }
  }

  lemma AbortedKeeps(s: State)
    requires Consistent(s)
    ensures Consistent(Aborted(s)) && Aborted(s).place == s.place
  {
  }

  /** `close_all` up to its next await; `deques` is the order of the deques in their dictionary. */
  function ClosedOn(s: State, deques: seq<Profile>): State {
    match s.closing
    case NotClosing => s
    case Stopping(todo) => if todo != [] then NextStopped(s) else Drained(Cleared(s, deques), deques, |s.warm|)
    case Draining(left, size) => Drained(s, left, size)
  }

  /** What the next piece of a `close_all` loses: what was filed since it listed the clients, and late warm ones. */
  ghost function CloseLosses(s: State, deques: seq<Profile>): set<int> {
    match s.closing
    case NotClosing => {}
    case Stopping(todo) =>
      if todo != [] then {}
      else Filed(s) + if AllDrained(Cleared(s, deques), deques, |s.warm|) then Waiting(s) else {}
    case Draining(left, size) => if AllDrained(s, left, size) then Waiting(s) else {}
  }

  /** A client overwritten since it was listed is stopped after all. */
  function CloseFinds(s: State): set<int> {
    if s.closing.Stopping? && s.closing.todo != [] then {s.closing.todo[0]} else {}
  }

  lemma ClosedOnKeeps(s: State, deques: seq<Profile>)
    requires Consistent(s)
    ensures Consistent(ClosedOn(s, deques))
    ensures LostIn(ClosedOn(s, deques).place) == LostIn(s.place) + CloseLosses(s, deques) - CloseFinds(s)
  {
    hide Consistent, LostIn, Filed, Waiting, AllDrained, Drained, Cleared, NextStopped;
    match s.closing
    case NotClosing =>
    case Stopping(todo) =>
      if todo != [] {
        NextStoppedKeeps(s);
      } else {
        ClearedKeeps(s, deques);
        DrainedKeeps(Cleared(s, deques), deques, |s.warm|);
      }
    case Draining(left, size) => DrainedKeeps(s, left, size);
  }

  /** `close_all` lists the filed clients and goes on to its first await. */
  function CloseStarted(s: State, filed: seq<int>, deques: seq<Profile>): State {
    ClosedOn(s.(closing := Stopping(filed)), deques)
  }

  ghost predicate ListsFiled(s: State, filed: seq<int>) {
    forall c :: c in filed <==> c in s.clients.Values
  }

  ghost predicate ListsDeques(s: State, deques: seq<Profile>) {
    forall p :: p in deques <==> p in s.warm
  }

  lemma ListedIsConsistent(s: State, filed: seq<int>)
    requires Consistent(s) && ListsFiled(s, filed)
    ensures Consistent(s.(closing := Stopping(filed)))
  {
    forall c | c in filed ensures c in s.place && Settled(s.place[c]) {
      assert c in s.clients.Values;
      var k :| k in s.clients && s.clients[k] == c;
    }
  }

  // ---- a close that nothing disturbs ----

  predicate Pooled(place: Place) {
    place.AtKey? || place.InWarm?
  }

  function StoppedAll(place: map<int, Place>): map<int, Place> {
    map c | c in place :: if Pooled(place[c]) then Stopped else place[c]
  }

  /** From `first` on, an undisturbed close has stopped some of the pooled clients and did nothing else to any. */
  ghost predicate UnderWay(first: State, s: State, deques: seq<Profile>) {
    && s.place.Keys == first.place.Keys
    && (forall c :: c in s.place ==> s.place[c] == first.place[c] || (Pooled(first.place[c]) && s.place[c] == Stopped))
    && s.flights == first.flights
    && if s.closing.Stopping? then ListsDeques(s, deques) && YetToStop(s, s.closing.todo)
       else KeysGone(s) && if s.closing.Draining? then YetToDrain(s, s.closing.left, s.closing.size) else WarmGone(s)
  }

  ghost predicate YetToStop(s: State, todo: seq<int>) {
    && (forall c :: c in s.place && s.place[c].AtKey? ==> c in todo)
    && (forall c :: c in todo ==> c in s.place && s.place[c] != Lost)
  }

  ghost predicate YetToDrain(s: State, left: seq<Profile>, size: nat) {
    |s.warm| == size && forall p :: p in s.warm && s.warm[p] != [] ==> p in left
  }

  ghost predicate KeysGone(s: State) {
    s.clients == map[] && s.profileDirs == map[] && s.mcpServers == map[] && s.lastUsed == map[] && Filed(s) == {}
  }

  ghost predicate WarmGone(s: State) {
    s.warm == map[] && Waiting(s) == {}
  }

  ghost function Undone(s: State): nat {
    match s.closing
    case NotClosing => 0
    case Draining(_, _) => 1 + |Waiting(s)|
    case Stopping(todo) => 2 + |todo| + |Waiting(s)|
  }

  lemma StartsClosing(s: State, filed: seq<int>, deques: seq<Profile>)
    requires Consistent(s) && ListsFiled(s, filed) && ListsDeques(s, deques)
    ensures UnderWay(s, s.(closing := Stopping(filed)), deques)
  {
    forall c | c in s.place && s.place[c].AtKey? ensures c in filed {
      assert s.clients[s.place[c].key] == c;
    }
    forall c | c in filed ensures c in s.place && s.place[c] != Lost {
      assert c in s.clients.Values;
      var k :| k in s.clients && s.clients[k] == c;
    }
  }

  lemma GoesOnClosing(first: State, s: State, deques: seq<Profile>)
    requires Consistent(s) && UnderWay(first, s, deques) && !s.closing.NotClosing?
    ensures UnderWay(first, ClosedOn(s, deques), deques) && Undone(ClosedOn(s, deques)) < Undone(s)
  {
    hide Consistent, Drained, Cleared, NextStopped, UnderWay, Undone;
    match s.closing
    case NotClosing =>
    case Stopping(todo) =>
      if todo != [] {
        StopGoesOn(first, s, deques);
      } else {
        ClearGoesOn(first, s, deques);
        DrainGoesOn(first, Cleared(s, deques), deques, deques, |s.warm|);
      }
    case Draining(left, size) => DrainGoesOn(first, s, deques, left, size);
  }

  lemma StopGoesOn(first: State, s: State, deques: seq<Profile>)
    requires Consistent(s) && UnderWay(first, s, deques) && s.closing.Stopping? && s.closing.todo != []
    ensures UnderWay(first, NextStopped(s), deques) && Undone(NextStopped(s)) < Undone(s)
  {
    var c := s.closing.todo[0];
    assert c in s.closing.todo && TodoAt(s.closing, s.place) && YetToStop(s, s.closing.todo);
    assert c in s.place && Settled(s.place[c]) && s.place[c] != Lost;
    hide Consistent;
    assert Waiting(NextStopped(s)) == Waiting(s);
  }

  lemma ClearGoesOn(first: State, s: State, deques: seq<Profile>)
    requires Consistent(s) && UnderWay(first, s, deques) && s.closing == Stopping([])
    ensures UnderWay(first, Cleared(s, deques), deques) && Undone(Cleared(s, deques)) < Undone(s)
    ensures Consistent(Cleared(s, deques)) && Cleared(s, deques).closing == Draining(deques, |s.warm|)
  {
    assert forall c :: c in s.place ==> !s.place[c].AtKey?;
    ClearedKeeps(s, deques);
  }

  lemma DrainGoesOn(first: State, s: State, deques: seq<Profile>, left: seq<Profile>, size: nat)
    requires Consistent(s) && UnderWay(first, s, deques) && s.closing == Draining(left, size)
    ensures UnderWay(first, Drained(s, left, size), deques) && Undone(Drained(s, left, size)) < Undone(s)
  {
    PendingMeans(left, s.warm);
    if Pending(left, s.warm) == [] {
      EmptyGoesOn(first, s, deques);
    } else {
      PopGoesOn(first, s, deques, Pending(left, s.warm), size);
    }
    hide *;
  }

  lemma EmptyGoesOn(first: State, s: State, deques: seq<Profile>)
    requires Consistent(s) && UnderWay(first, s, deques) && s.closing.Draining?
    requires forall p :: p in s.closing.left ==> Empty(s.warm, p)
    ensures UnderWay(first, Emptied(s), deques) && Undone(Emptied(s)) < Undone(s)
  {
    assert forall c :: c in s.place && s.place[c].InWarm? ==> !Empty(s.warm, s.place[c].profile);
    assert forall p :: p in s.warm ==> Empty(s.warm, p);
  }

  lemma PopGoesOn(first: State, s: State, deques: seq<Profile>, left: seq<Profile>, size: nat)
    requires Consistent(s) && UnderWay(first, s, deques) && s.closing.Draining? && s.closing.size == size
    requires left != [] && !Empty(s.warm, left[0]) && forall p :: p in s.closing.left && !Empty(s.warm, p) ==> p in left
    ensures UnderWay(first, NextDrained(s, left, size), deques) && Undone(NextDrained(s, left, size)) < Undone(s)
  {
    var s' := NextDrained(s, left, size);
    var c := s.warm[left[0]][0];
    assert s.place[c] == InWarm(left[0]);
    assert Waiting(s') == Waiting(s) - {c} && c in Waiting(s);
    assert s'.warm.Keys == s.warm.Keys;
  }

  lemma AllStopped(first: State, s: State, deques: seq<Profile>)
    requires UnderWay(first, s, deques) && s.closing.NotClosing?
    ensures s.clients == map[] && s.profileDirs == map[] && s.mcpServers == map[] && s.lastUsed == map[] && s.warm == map[]
    ensures s.place == StoppedAll(first.place) && s.flights == first.flights
  {
    assert forall c :: c in s.place && s.place[c].AtKey? ==> c in Filed(s);
    assert forall c :: c in s.place && s.place[c].InWarm? ==> c in Waiting(s);
    assert forall c :: c in s.place ==> s.place[c] == StoppedAll(first.place)[c];
  }

  const EMPTY := State(map[], map[], map[], map[], map[], 0, map[], 0, map[], map[], map[], NotClosing)

  lemma Rewritten(flights: map<int, Flight>, f: int, g: Flight, h: Flight)
    ensures flights[f := g][f := h] == flights[f := h]
    ensures flights[f := g] - {f} == flights - {f}
    ensures f !in flights ==> flights - {f} == flights
  {
  }

  lemma EmptyIsConsistent()
    ensures Consistent(EMPTY) && LostIn(EMPTY.place) == {}
  {
  }

  /** A call without servers takes a live warm client of its profile if there is one. */
  predicate TakesWarm(warm: map<Profile, seq<int>>, profile: Profile, mcp: Mcp, warmAlive: bool) {
    warmAlive && (mcp == None || mcp == Some([])) && profile in warm && warm[profile] != []
  }

  /** Any other call needs one that starts. */
  predicate GetsClient(warm: map<Profile, seq<int>>, profile: Profile, mcp: Mcp, warmAlive: bool, started: bool) {
    started || TakesWarm(warm, profile, mcp, warmAlive)
  }

  /** The call succeeds with a client whose session was resumed or created, and answers a created one. */
  predicate Answers(r: Option<(int, Option<string>)>, client: bool, resumed: bool, created: bool, newId: string) {
    && (r.Some? <==> client && (resumed || created))
    && (r.Some? ==> r.value.1 == if resumed then None else Some(newId))
  }

  // ---- the pool ----

  class Pool {
    var clients: map<string, int>
    var profileDirs: map<string, Profile>
    var mcpServers: map<string, Mcp>
    var lastUsed: map<string, int>
    var warm: map<Profile, seq<int>>
    var epoch: int
    var flights: map<int, Flight>
    var spawned: int
    var profileOf: map<int, Profile>
    var sessionMcp: map<int, Mcp>
    var place: map<int, Place>
    var closing: Closing

    ghost function Value(): State
      reads this
    {
      State(clients, profileDirs, mcpServers, lastUsed, warm, epoch, flights, spawned, profileOf, sessionMcp, place, closing)
    }

    ghost predicate Valid()
      reads this
    {
      Consistent(Value())
    }

    constructor ()
      ensures Valid() && Value() == EMPTY
    {
      clients, profileDirs, mcpServers, lastUsed := map[], map[], map[], map[];
      warm, epoch, flights, spawned := map[], 0, map[], 0;
      profileOf, sessionMcp, place, closing := map[], map[], map[], NotClosing;
      new;
      EmptyIsConsistent();
    }

    method Drop(key: string)
      requires Valid()
      modifies this
      ensures Valid() && Value() == Dropped(old(Value()), key)
    {
      hide Consistent, LostIn, Serves;
      place := if key in clients then place[clients[key] := Stopped] else place;
      clients, lastUsed := clients - {key}, lastUsed - {key};
      profileDirs, mcpServers := profileDirs - {key}, mcpServers - {key};
      DroppedKeeps(old(Value()), key);
      assert Value() == Dropped(old(Value()), key);
    }

    method Begin(f: int, key: string, profile: Profile, mcp: Mcp, alive: bool, now: int) returns (hit: Option<int>)
      requires Valid() && f !in flights
      modifies this
      ensures Valid() && Value() == Called(old(Value()), f, key, profile, mcp, alive, now)
      ensures hit == if Hit(old(Value()), key, profile, mcp, alive) then Some(old(clients)[key]) else None
    {
      lastUsed := lastUsed[key := now];
      ghost var s := Value();
      assert Consistent(s) && clients.Keys == profileDirs.Keys == mcpServers.Keys;
      BegunKeeps(s, f, key, profile, mcp);
      hide Consistent;
      if key in clients && Alive(place, clients[key], alive) {
        if profileDirs[key] == profile && mcpServers[key] == mcp {
          return Some(clients[key]);
        }
        Drop(key);
      } else if key in clients {
        Drop(key);
      }
      flights := flights[f := Flight(profile, None, ForKey(key, mcp))];
      assert Value() == Begun(s, f, key, profile, mcp);
      hit := None;
    }

    method TakeWarm(f: int, alive: bool)
      requires Valid() && Seeking(Value(), f)
      modifies this
      ensures Valid() && Value() == WarmTaken(old(Value()), f, alive)
    {
      hide Consistent, LostIn, Serves;
      var g := flights[f];
      if NoServers(g.task.mcp) && g.profile in warm && warm[g.profile] != [] {
        var c := warm[g.profile][0];
        warm := warm[g.profile := warm[g.profile][1..]];
        place := place[c := if alive then InHand(f) else Stopped];
        if alive {
          flights := flights[f := g.(client := Some(c))];
        }
      }
      WarmTakenKeeps(old(Value()), f, alive);
      assert Value() == WarmTaken(old(Value()), f, alive);
    }

    method Spawn(f: int)
      requires Valid() && f in flights && flights[f].client.None?
      modifies this
      ensures Valid() && Value() == SpawnedFor(old(Value()), f)
    {
      hide Consistent, LostIn, Serves;
      var c := spawned;
      spawned := spawned + 1;
      profileOf := profileOf[c := flights[f].profile];
      place := place[c := InHand(f)];
      flights := flights[f := flights[f].(client := Some(c))];
      SpawnedKeeps(old(Value()), f);
      assert Value() == SpawnedFor(old(Value()), f);
    }

    /** Starting, initialising or the session failed, or the coroutine was cancelled, which stops nothing. */
    method End(f: int, cancelled: bool)
      requires Valid() && f in flights
      modifies this
      ensures Valid() && Value() == Ended(old(Value()), f, cancelled)
    {
      hide Consistent, LostIn, Serves;
      var c := flights[f].client;
      place := if c.Some? then place[c.value := if cancelled then Lost else Stopped] else place;
      flights := flights - {f};
      EndedKeeps(old(Value()), f, cancelled);
      assert Value() == Ended(old(Value()), f, cancelled);
    }

    method Finish(f: int, newSession: Option<string>) returns (c: int, session: Option<string>)
      requires Valid() && Holding(Value(), f) && flights[f].task.ForKey?
      modifies this
      ensures Valid() && Value() == Finished(old(Value()), f)
      ensures Some(c) == old(flights[f]).client && session == newSession
    {
      hide Consistent, LostIn, Serves;
      var g := flights[f];
      c := g.client.value;
      var key := g.task.key;
      var overwrites := key in clients && Alive(place, clients[key], true);
      place := (if overwrites then place[clients[key] := Lost] else place)[c := AtKey(key)];
      sessionMcp := sessionMcp[c := g.task.mcp];
      clients := clients[key := c];
      profileDirs := profileDirs[key := g.profile];
      mcpServers := mcpServers[key := g.task.mcp];
      flights := flights - {f};
      session := newSession;
      FinishedKeeps(old(Value()), f);
      assert Value() == Finished(old(Value()), f);
    }

    /**
     One whole `get` during which no other call touches the pool: the returned client was spawned for
     `profile` and its session was requested with `mcp`; on an error nothing of the call is left. It answers
     a session exactly if it created one.
     */
    method Get(f: int, conversation: string, namespace: string, profile: Profile, mcp: Mcp, alive: bool, warmAlive: bool, now: int,
               started: bool, resumed: bool, created: bool, newId: string)
      returns (r: Option<(int, Option<string>)>)
      requires Valid() && f !in flights
      modifies this
      ensures Valid() && flights == old(flights) && LostIn(place) == old(LostIn(place))
      ensures var key := PoolKey(conversation, namespace);
        && (r.Some? ==> Serves(Value(), r.value.0, key, profile, mcp))
        && (r.None? ==> key !in clients)
        && (Hit(old(Value()), key, profile, mcp, alive) ==> r == Some((old(clients)[key], None)))
        && (!Hit(old(Value()), key, profile, mcp, alive) ==>
              Answers(r, GetsClient(old(warm), profile, mcp, warmAlive, started), resumed, created, newId))
        && (key in lastUsed <==> key !in old(clients) || Hit(old(Value()), key, profile, mcp, alive))
    {
      var key := PoolKey(conversation, namespace);
      hide PoolKey, Consistent, LostIn, Serves, Called, Hit;
      CalledKeeps(Value(), f, key, profile, mcp, alive, now);
      var hit := Begin(f, key, profile, mcp, alive, now);
      if hit.Some? {
        return Some((hit.value, None));
      }
      Rewritten(old(flights), f, flights[f], flights[f]);
      r := Open(f, warmAlive, started, resumed, created, newId);
    }

    /** A `get` whose key is empty: a client for it, and a session. */
    method Open(f: int, warmAlive: bool, started: bool, resumed: bool, created: bool, newId: string)
      returns (r: Option<(int, Option<string>)>)
      requires Valid() && Seeking(Value(), f) && flights[f].task.key !in clients
      modifies this
      ensures Valid() && flights == old(flights) - {f} && LostIn(place) == old(LostIn(place)) && lastUsed == old(lastUsed)
      ensures var g := old(flights[f]);
        && (if r.Some? then Serves(Value(), r.value.0, g.task.key, g.profile, g.task.mcp) else clients == old(clients))
        && Answers(r, GetsClient(old(warm), g.profile, g.task.mcp, warmAlive, started), resumed, created, newId)
    {
      hide Consistent, LostIn, Serves;
      var ok := Acquire(f, warmAlive, started);
      if ok {
        Rewritten(old(flights), f, flights[f], flights[f]);
        r := Establish(f, resumed, created, newId);
      } else {
        r := None;
      }
    }

    /** The session of a `get`, resumed or else created; a client that gets none is stopped. */
    method Establish(f: int, resumed: bool, created: bool, newId: string) returns (r: Option<(int, Option<string>)>)
      requires Valid() && Holding(Value(), f) && flights[f].task.ForKey? && flights[f].task.key !in clients
      modifies this
      ensures Valid() && flights == old(flights) - {f} && LostIn(place) == old(LostIn(place))
      ensures lastUsed == old(lastUsed)
      ensures Answers(r, true, resumed, created, newId)
      ensures r.Some? ==> Some(r.value.0) == old(flights[f]).client
      ensures var g := old(flights[f]);
        if r.Some? then Serves(Value(), r.value.0, g.task.key, g.profile, g.task.mcp) else clients == old(clients)
    {
      hide Consistent, LostIn, Serves;
      if !resumed && !created {
        EndedKeeps(Value(), f, false);
        End(f, false);
        return None;
      }
      FinishedKeeps(Value(), f);
      var c, session := Finish(f, if resumed then None else Some(newId));
      r := Some((c, session));
    }

    /** The client of a `get`: a warm one, or one that starts and initialises; a failed one is stopped. */
    method Acquire(f: int, warmAlive: bool, started: bool) returns (ok: bool)
      requires Valid() && Seeking(Value(), f)
      modifies this
      ensures Valid() && clients == old(clients) && LostIn(place) == old(LostIn(place)) && lastUsed == old(lastUsed)
      ensures ok ==> Holding(Value(), f) && flights == old(flights)[f := old(flights[f]).(client := flights[f].client)]
      ensures !ok ==> flights == old(flights) - {f}
      ensures var g := old(flights[f]); ok <==> GetsClient(old(warm), g.profile, g.task.mcp, warmAlive, started)
      ensures var g := old(flights[f]);
        ok ==> flights[f].client == Some(if TakesWarm(old(warm), g.profile, g.task.mcp, warmAlive) then old(warm)[g.profile][0] else old(spawned))
    {
      hide Consistent, LostIn;
      var g := flights[f];
      WarmTakenKeeps(Value(), f, warmAlive);
      TakeWarm(f, warmAlive);
      if flights[f].client.Some? {
        return true;
      }
      assert flights == old(flights);
      SpawnedKeeps(Value(), f);
      Spawn(f);
      Rewritten(old(flights), f, flights[f], g);
      if started {
        return true;
      }
      EndedKeeps(Value(), f, false);
      End(f, false);
      ok := false;
    }

    method BeginFill(f: int, profile: Profile, refill: bool, target: nat)
      requires Valid() && f !in flights
      modifies this
      ensures Valid() && Value() == FillBegun(old(Value()), f, profile, refill, target)
    {
      hide Consistent, LostIn, Serves, SpawnedFor;
      if refill {
        if target == 0 || (profile in warm && |warm[profile]| >= target) {
          return;
        }
        warm := if profile in warm then warm else warm[profile := []];
      }
      flights := flights[f := Flight(profile, None, ForDeque(if refill then Some(epoch) else None))];
      assert Value() == FillStarted(old(Value()), f, profile, refill);
      hide FillStarted;
      FillStartedKeeps(old(Value()), f, profile, refill);
      Spawn(f);
    }

    /** The append reaches the pool only if the pool still has the deque that was looked up. */
    method EndFill(f: int)
      requires Valid() && f in flights && flights[f].client.Some? && flights[f].task.ForDeque?
      modifies this
      ensures Valid() && Value() == FillEnded(old(Value()), f)
    {
      hide Consistent, LostIn, Serves;
      var g := flights[f];
      if g.task.deque.Some? && g.task.deque.value < epoch {
        End(f, true);
      } else {
        Deposit(f);
      }
    }

    method Deposit(f: int)
      requires Valid() && f in flights && flights[f].client.Some? && flights[f].task.ForDeque?
      requires !Orphaned(Value(), f)
      modifies this
      ensures Valid() && Value() == FillEnded(old(Value()), f)
    {
      hide Consistent, LostIn, Serves;
      var g := flights[f];
      place := place[g.client.value := InWarm(g.profile)];
      warm := warm[g.profile := (if g.profile in warm then warm[g.profile] else []) + [g.client.value]];
      flights := flights - {f};
      FillEndedKeeps(old(Value()), f);
      assert Value() == FillEnded(old(Value()), f);
    }

    /** `warmup`: up to `n` clients for each profile, the ones that fail to start being stopped. */
    method Warmup(f: int, n: nat, profiles: seq<Profile>, starts: seq<seq<bool>>)
      requires Valid() && f !in flights
      requires |starts| == |profiles| && forall s :: s in starts ==> |s| == n
      modifies this
      ensures Valid() && flights == old(flights) && clients == old(clients) && LostIn(place) == old(LostIn(place))
    {
      hide Consistent, LostIn;
      for p := 0 to |profiles|
        invariant Valid() && flights == old(flights) && clients == old(clients) && LostIn(place) == old(LostIn(place))
      {
        for k := 0 to n
          invariant Valid() && flights == old(flights) && clients == old(clients) && LostIn(place) == old(LostIn(place))
        {
          FillBegunKeeps(Value(), f, profiles[p], false, n);
          BeginFill(f, profiles[p], false, n);
          assert flights - {f} == old(flights);
          if starts[p][k] {
            FillEndedKeeps(Value(), f);
            EndFill(f);
          } else {
            EndedKeeps(Value(), f, false);
            End(f, false);
          }
        }
      }
    }

    /** Drops every key whose noted last use is before `cutoff`; a key without one stays. */
    method EvictIdle(cutoff: int)
      requires Valid()
      modifies this
      ensures Valid() && flights == old(flights) && LostIn(place) == old(LostIn(place))
      ensures clients == old(clients) - set k | k in old(lastUsed) && old(lastUsed)[k] < cutoff
      ensures lastUsed == old(lastUsed) - set k | k in old(lastUsed) && old(lastUsed)[k] < cutoff
    {
      hide Consistent, LostIn;
      var stale := set k | k in lastUsed && lastUsed[k] < cutoff;
      var todo := stale;
      while todo != {}
        invariant Valid() && todo <= stale && flights == old(flights) && LostIn(place) == old(LostIn(place))
        invariant clients == old(clients) - (stale - todo) && lastUsed == old(lastUsed) - (stale - todo)
        decreases |todo|
      {
        var k :| k in todo;
        DroppedKeeps(Value(), k);
        Drop(k);
        todo := todo - {k};
      }
    }

    /** `close_all` up to its first await; the arguments are the orders of the two dictionaries. */
    method StartClose(filed: seq<int>, deques: seq<Profile>)
      requires Valid() && closing.NotClosing? && ListsFiled(Value(), filed)
      modifies this
      ensures Valid() && Value() == CloseStarted(old(Value()), filed, deques)
    {
      ListedIsConsistent(Value(), filed);
      hide Consistent, ListsFiled, ClosedOn;
      closing := Stopping(filed);
      GoOnClosing(deques);
    }

    /** `close_all` from one await to the next. */
    method GoOnClosing(deques: seq<Profile>)
      requires Valid()
      modifies this
      ensures Valid() && Value() == ClosedOn(old(Value()), deques)
    {
      hide Consistent, Drained, LostIn, Cleared, NextStopped;
      match closing
      case NotClosing =>
      case Stopping(todo) =>
        if todo != [] {
          StopNext();
        } else {
          var size := |warm|;
          ClearKeys(deques);
          Drain(deques, size);
        }
      case Draining(left, size) =>
        Drain(left, size);
    }

    method StopNext()
      requires Valid() && closing.Stopping? && closing.todo != []
      modifies this
      ensures Valid() && Value() == NextStopped(old(Value()))
    {
      hide Consistent, LostIn;
      place := place[closing.todo[0] := Stopped];
      closing := Stopping(closing.todo[1..]);
      NextStoppedKeeps(old(Value()));
      assert Value() == NextStopped(old(Value()));
    }

    method ClearKeys(deques: seq<Profile>)
      requires Valid()
      modifies this
      ensures Valid() && Value() == Cleared(old(Value()), deques)
    {
      hide Consistent, LostIn, Filed;
      place := map c | c in place :: if place[c].AtKey? then Lost else place[c];
      clients, lastUsed, profileDirs, mcpServers := map[], map[], map[], map[];
      closing := Draining(deques, |warm|);
      ClearedKeeps(old(Value()), deques);
      assert Value() == Cleared(old(Value()), deques);
    }

    method Drain(all: seq<Profile>, size: nat)
      requires Valid()
      modifies this
      ensures Valid() && Value() == Drained(old(Value()), all, size)
    {
      hide Consistent, LostIn, AllDrained, Waiting, Emptied, NextDrained;
      var left := all;
      while left != [] && (left[0] in warm ==> warm[left[0]] == [])
        invariant Value() == old(Value()) && |left| <= |all| && (|warm| != size ==> left == all)
        invariant Pending(left, warm) == Pending(all, warm)
        decreases |left|
      {
        if |warm| != size {
          closing := NotClosing;
          DrainedKeeps(old(Value()), all, size);
          assert Value() == Aborted(old(Value()));
          return;
        }
        left := left[1..];
      }
      if left != [] {
        PopNext(left, size);
      } else {
        ClearWarm();
      }
    }

    method PopNext(left: seq<Profile>, size: nat)
      requires Valid() && left != [] && !Empty(warm, left[0])
      modifies this
      ensures Valid() && Value() == NextDrained(old(Value()), left, size)
    {
      hide Consistent, LostIn;
      var c := warm[left[0]][0];
      warm := warm[left[0] := warm[left[0]][1..]];
      place := place[c := Stopped];
      closing := Draining(left, size);
      NextDrainedKeeps(old(Value()), left, size);
      assert Value() == NextDrained(old(Value()), left, size);
    }

    method ClearWarm()
      requires Valid()
      modifies this
      ensures Valid() && Value() == Emptied(old(Value()))
    {
      hide Consistent, LostIn, Waiting;
      place := map c | c in place :: if place[c].InWarm? then Lost else place[c];
      warm, epoch, closing := map[], epoch + 1, NotClosing;
      EmptiedKeeps(old(Value()));
      assert Value() == Emptied(old(Value()));
    }

    /**
     One whole `close_all` during which nothing else touches the pool: every filed and every warm client
     is stopped, and what running calls hold is left to them.
     */
    method CloseAll(filed: seq<int>, deques: seq<Profile>)
      requires Valid() && closing.NotClosing? && ListsFiled(Value(), filed) && ListsDeques(Value(), deques)
      modifies this
      ensures Valid() && closing.NotClosing? && flights == old(flights)
      ensures clients == map[] && profileDirs == map[] && mcpServers == map[] && lastUsed == map[] && warm == map[]
      ensures place == StoppedAll(old(place))
    {
      ghost var s := Value();
      ListedIsConsistent(s, filed);
      hide Consistent, ListsFiled, ListsDeques, ClosedOn, UnderWay, Undone, StoppedAll;
      StartsClosing(s, filed, deques);
      GoesOnClosing(s, s.(closing := Stopping(filed)), deques);
      StartClose(filed, deques);
      while !closing.NotClosing?
        invariant Valid() && UnderWay(s, Value(), deques)
        decreases Undone(Value())
      {
        GoesOnClosing(s, Value(), deques);
        GoOnClosing(deques);
      }
      AllStopped(s, Value(), deques);
    }
  }
}
