/**
 * The shared companion client and its status: asynchronous calls that may outlive a
 * reset, told apart from current ones by a generation counter.
 */
module Companion {
  import opened JsText

  type Status = Text

  const STATUS_TTL_MS := 5_000

  /** The status and the probe it came from. */
  datatype Cached = Cached(value: Status, expiresAt: int, probe: nat)

  /** `born` is the generation that created a client; `token` the one in which its token's load or pairing began. */
  datatype Client = Client(born: nat, token: Option<nat>)

  /** The module's variables; clients are told apart by their place in `clients`. */
  datatype Variables = Variables(
    generation: nat, clients: seq<Client>, opsClient: Option<nat>, statusCache: Option<Cached>, statusProbeInFlight: Option<nat>)

  // ----- What runs without interruption -----

  function ResetAll(v: Variables): Variables {
    v.(generation := v.generation + 1, opsClient := None, statusCache := None, statusProbeInFlight := None)
  }

  /** `_opsClient = new OpsClient(...)`. */
  function NewClient(v: Variables): Variables {
    v.(clients := v.clients + [Client(v.generation, None)], opsClient := Some(|v.clients|))
  }

  /** `getOpsClient`. */
  function GetClient(v: Variables): (r: (Variables, nat))
  {
    var v' := if v.opsClient.None? then NewClient(v) else v;
    (v', v'.opsClient.value)
  }

  function SetToken(v: Variables, client: nat, token: Option<nat>): Variables {
    if client < |v.clients| then v.(clients := v.clients[client := v.clients[client].(token := token)]) else v
  }

  /** What a call of `detectCompanionStatus` does first: share, answer from the cache, or probe. */
  datatype Detection = Shared(probe: nat) | FromCache(value: Status) | Probing

  function Detect(v: Variables, force: bool, now: int): Detection {
    if v.statusProbeInFlight.Some? then Shared(v.statusProbeInFlight.value)
    else if !force && v.statusCache.Some? && v.statusCache.value.expiresAt > now then FromCache(v.statusCache.value.value)
    else Probing
  }

  /** What it does when its own probe has settled; a failed probe has no result. */
  function Finish(v: Variables, probe: nat, generation: nat, result: Option<Status>, now: int): Variables {
    v.(statusCache := if result.Some? && generation == v.generation
                      then Some(Cached(result.value, now + STATUS_TTL_MS, probe)) else v.statusCache,
       statusProbeInFlight := if v.statusProbeInFlight == Some(probe) then None else v.statusProbeInFlight)
  }

  /** The end of `initCompanionClient`, which began in `generation` and found a token or not. */
  function InjectToken(v: Variables, generation: nat, found: bool): Variables {
    if generation == v.generation && found && v.opsClient.Some? then SetToken(v, v.opsClient.value, Some(generation)) else v
  }

  class CompanionService {
    var generation: nat
    var clients: seq<Client>
    var opsClient: Option<nat>
    var statusCache: Option<Cached>
    var statusProbeInFlight: Option<nat>

    function State(): Variables
      reads this
    {
      Variables(generation, clients, opsClient, statusCache, statusProbeInFlight)
    }

    constructor ()
      ensures State() == Variables(0, [], None, None, None)
    {
      generation, clients, opsClient, statusCache, statusProbeInFlight := 0, [], None, None, None;
    }

    method ResetCompanionClientState()
      modifies this
      ensures State() == ResetAll(old(State()))
      ensures State() == Variables(old(generation) + 1, old(clients), None, None, None)
    {
      generation := generation + 1;
      opsClient := None;
      statusCache := None;
      statusProbeInFlight := None;
    }

    method InvalidateCompanionStatusCache()
      modifies this
      ensures State() == old(State()).(statusCache := None)
    {
      statusCache := None;
    }

    method GetOpsClient() returns (client: nat)
      modifies this
      ensures (State(), client) == GetClient(old(State()))
      ensures old(opsClient).Some? ==> client == old(opsClient).value && State() == old(State())
      ensures old(opsClient).None? ==>
        client == |old(clients)| && clients == old(clients) + [Client(generation, None)] &&
        State() == old(State()).(clients := clients, opsClient := Some(client))
    {
      if opsClient.None? {
        clients := clients + [Client(generation, None)];
        opsClient := Some(|clients| - 1);
      }
      client := opsClient.value;
    }

    /** `detectCompanionStatus` up to its first wait; `probe` names the probe it may start. */
    method BeginDetection(force: bool, now: int, probe: nat) returns (d: Detection)
      modifies this
      ensures d == Detect(old(State()), force, now)
      ensures State() == if d.Probing? then old(State()).(statusProbeInFlight := Some(probe)) else old(State())
    {
      if statusProbeInFlight.Some? {
        return Shared(statusProbeInFlight.value);
      }
      if !force && statusCache.Some? && statusCache.value.expiresAt > now {
        return FromCache(statusCache.value.value);
      }
      statusProbeInFlight := Some(probe);
      return Probing;
    }

    /** `detectCompanionStatus` after its probe, which began in `began`. */
    method EndDetection(probe: nat, began: nat, result: Option<Status>, now: int)
      modifies this
      ensures State() == Finish(old(State()), probe, began, result, now)
      ensures clients == old(clients) && opsClient == old(opsClient) && generation == old(generation)
      ensures if result.Some? && began == generation then statusCache == Some(Cached(result.value, now + 5_000, probe))
              else statusCache == old(statusCache)
      ensures statusProbeInFlight == if old(statusProbeInFlight) == Some(probe) then None else old(statusProbeInFlight)
    {
      if result.Some? && began == generation {
        statusCache := Some(Cached(result.value, now + STATUS_TTL_MS, probe));
      }
      if statusProbeInFlight == Some(probe) {
        statusProbeInFlight := None;
      }
    }

    /** `initCompanionClient` after the settings: a new client, whatever the generation. */
    method ReplaceClient()
      modifies this
      ensures State() == NewClient(old(State()))
      ensures clients == old(clients) + [Client(generation, None)] && opsClient == Some(|old(clients)|)
    {
      clients := clients + [Client(generation, None)];
      opsClient := Some(|clients| - 1);
    }

    /** `initCompanionClient` after the stored token was looked up. */
    method InjectStoredToken(began: nat, found: bool)
      requires opsClient.Some? ==> opsClient.value < |clients|
      modifies this
      ensures State() == InjectToken(old(State()), began, found)
      ensures State() == old(State()).(clients := clients)
      ensures if began == generation && found && opsClient.Some?
              then clients == old(clients)[opsClient.value := Client(old(clients)[opsClient.value].born, Some(began))]
              else clients == old(clients)
    {
      if began != generation {
        return;
      }
      if found && opsClient.Some? {
        clients := clients[opsClient.value := clients[opsClient.value].(token := Some(began))];
      }
    }
  }

  // ----- Runs -----

  /** Where a probe waits: for the settings, for its client, for the companion, for a deletion; or it is settled, or over. */
  datatype ProbeAt =
    | Settings | Initializing(init: nat) | Talking(client: nat) | Deleting(client: nat) | Settled(result: Option<Status>) | Over

  datatype Probe = Probe(generation: nat, at: ProbeAt)

  datatype InitAt = LoadingSettings | LoadingToken | Ended

  datatype Init = Init(generation: nat, at: InitAt)

  datatype Pairing = Pairing(client: nat, generation: nat)

  /** `deletions` are the probes that had the stored token deleted, with the generation they did it in. */
  datatype World = World(
    v: Variables, probes: seq<Probe>, inits: seq<Init>, pairings: seq<Pairing>, deletions: seq<(nat, nat)>)

  datatype Step =
    | CallDetect(force: bool, now: int)
    | SettingsLoaded(probe: nat, opsEnabled: bool)
    | StartInit
    | InitClient(init: nat)
    | InitToken(init: nat, found: bool)
    | ClientReady(probe: nat)
    | Answer(probe: nat, result: Status)
    | Rejected(probe: nat)
    | TokenDeleted(probe: nat)
    | Fail(probe: nat)
    | End(probe: nat, now: int)
    | StartPairing
    | Paired(pairing: nat)
    | Invalidate
    | Reset

  predicate Enabled(w: World, s: Step) {
    match s
    case SettingsLoaded(p, _) => p < |w.probes| && w.probes[p].at.Settings?
    case InitClient(i) => i < |w.inits| && w.inits[i].at.LoadingSettings?
    case InitToken(i, _) => i < |w.inits| && w.inits[i].at.LoadingToken?
    case ClientReady(p) =>
      p < |w.probes| && w.probes[p].at.Initializing? && w.probes[p].at.init < |w.inits| && w.inits[w.probes[p].at.init].at.Ended?
    case Answer(p, _) => p < |w.probes| && w.probes[p].at.Talking?
    case Rejected(p) => p < |w.probes| && w.probes[p].at.Talking?
    case TokenDeleted(p) => p < |w.probes| && w.probes[p].at.Deleting?
    case Fail(p) => p < |w.probes| && !w.probes[p].at.Settled? && !w.probes[p].at.Over?
    case End(p, _) => p < |w.probes| && w.probes[p].at.Settled?
    case Paired(k) => k < |w.pairings|
    case _ => true
  }

  function Move(w: World, p: nat, at: ProbeAt): World
    requires p < |w.probes|
  {
    w.(probes := w.probes[p := w.probes[p].(at := at)])
  }

  function MoveInit(w: World, i: nat, at: InitAt): World
    requires i < |w.inits|
  {
    w.(inits := w.inits[i := w.inits[i].(at := at)])
  }

  const UNAVAILABLE: Status := Lit("unavailable")

  /** A generation check that fails settles the probe as unavailable. */
  predicate Current(w: World, p: nat)
    requires p < |w.probes|
  {
    w.probes[p].generation == w.v.generation
  }

  function Next(w: World, s: Step): World
    requires Enabled(w, s)
  {
    match s
    case CallDetect(force, now) =>
      if Detect(w.v, force, now).Probing?
      then w.(v := w.v.(statusProbeInFlight := Some(|w.probes|)), probes := w.probes + [Probe(w.v.generation, Settings)])
      else w
    case SettingsLoaded(p, opsEnabled) =>
      if !opsEnabled then Move(w, p, Settled(Some(UNAVAILABLE)))
      else Move(w, p, Initializing(|w.inits|)).(inits := w.inits + [Init(w.v.generation, LoadingSettings)])
    case StartInit => w.(inits := w.inits + [Init(w.v.generation, LoadingSettings)])
    case InitClient(i) => MoveInit(w, i, LoadingToken).(v := NewClient(w.v))
    case InitToken(i, found) => MoveInit(w, i, Ended).(v := InjectToken(w.v, w.inits[i].generation, found))
    case ClientReady(p) =>
      if !Current(w, p) then Move(w, p, Settled(Some(UNAVAILABLE)))
      else var (v, client) := GetClient(w.v); Move(w, p, Talking(client)).(v := v)
    case Answer(p, result) => Move(w, p, Settled(Some(result)))
    case Rejected(p) =>
      if !Current(w, p) then Move(w, p, Settled(Some(UNAVAILABLE)))
      else Move(w, p, Deleting(w.probes[p].at.client)).(deletions := w.deletions + [(p, w.v.generation)])
    case TokenDeleted(p) =>
      if !Current(w, p) then Move(w, p, Settled(Some(UNAVAILABLE)))
      else Move(w, p, Settled(Some(Lit("unpaired")))).(v := SetToken(w.v, w.probes[p].at.client, None))
    case Fail(p) => Move(w, p, Settled(None))
    case End(p, now) =>
      Move(w, p, Over).(v := Finish(w.v, p, w.probes[p].generation, w.probes[p].at.result, now))
    case StartPairing => var (v, client) := GetClient(w.v); w.(v := v, pairings := w.pairings + [Pairing(client, v.generation)])
    case Paired(k) => w.(v := SetToken(w.v, w.pairings[k].client, Some(w.pairings[k].generation)).(statusCache := None))
    case Invalidate => w.(v := w.v.(statusCache := None))
    case Reset => w.(v := ResetAll(w.v))
  }

  const INITIAL := World(Variables(0, [], None, None, None), [], [], [], [])

  function After(run: seq<Step>): Option<World> {
    if |run| == 0 then Some(INITIAL)
    else
      var w :- After(run[..|run| - 1]);
      if Enabled(w, run[|run| - 1]) then Some(Next(w, run[|run| - 1])) else None
  }

  // ----- The invariant -----

  predicate Pending(p: Probe) {
    !p.at.Over?
  }

  /** The probe in flight is the pending one of this generation, and each generation has one at most. */
  predicate OneProbe(w: World) {
    (forall p :: 0 <= p < |w.probes| ==> w.probes[p].generation <= w.v.generation) &&
    (w.v.statusProbeInFlight.Some? ==> w.v.statusProbeInFlight.value < |w.probes|) &&
    (forall p :: 0 <= p < |w.probes| ==>
      (w.v.statusProbeInFlight == Some(p) <==> Pending(w.probes[p]) && Current(w, p))) &&
    (forall p, q :: 0 <= p < q < |w.probes| && Pending(w.probes[p]) && Pending(w.probes[q]) ==>
      w.probes[p].generation != w.probes[q].generation)
  }

  predicate CacheIsCurrent(w: World) {
    w.v.statusCache.Some? ==>
      w.v.statusCache.value.probe < |w.probes| && Current(w, w.v.statusCache.value.probe)
  }

  /** The shared client is of this generation, and no client has a token from another one than its own. */
  predicate ClientsAreCurrent(w: World) {
    (w.v.opsClient.Some? ==> w.v.opsClient.value < |w.v.clients| && w.v.clients[w.v.opsClient.value].born == w.v.generation) &&
    (forall c :: 0 <= c < |w.v.clients| && w.v.clients[c].token.Some? ==> w.v.clients[c].token.value == w.v.clients[c].born) &&
    (forall k :: 0 <= k < |w.pairings| ==>
      w.pairings[k].client < |w.v.clients| && w.v.clients[w.pairings[k].client].born == w.pairings[k].generation) &&
    (forall i :: 0 <= i < |w.inits| && w.inits[i].at.LoadingToken? && w.inits[i].generation == w.v.generation ==>
      w.v.opsClient.Some?) &&
    (forall i :: 0 <= i < |w.inits| ==> w.inits[i].generation <= w.v.generation)
  }

  predicate DeletionsAreCurrent(w: World) {
    forall d :: 0 <= d < |w.deletions| ==>
      w.deletions[d].0 < |w.probes| && w.probes[w.deletions[d].0].generation == w.deletions[d].1
  }

  /** Steps that neither start nor end a probe, nor reset. */
  lemma SameProbes(w: World, w': World)
    requires OneProbe(w)
    requires w'.v.generation == w.v.generation && w'.v.statusProbeInFlight == w.v.statusProbeInFlight
    requires |w'.probes| == |w.probes|
    requires forall p :: 0 <= p < |w.probes| ==>
      w'.probes[p].generation == w.probes[p].generation && (Pending(w'.probes[p]) <==> Pending(w.probes[p]))
    ensures OneProbe(w')
  {
  }

  lemma ProbeBegins(w: World, s: Step)
    requires OneProbe(w) && s.CallDetect?
    ensures OneProbe(Next(w, s))
  {
  }

  lemma ProbeEnds(w: World, s: Step)
    requires OneProbe(w) && Enabled(w, s) && s.End?
    ensures OneProbe(Next(w, s))
  {
  }

  lemma ProbesOutlive(w: World)
    requires OneProbe(w)
    ensures OneProbe(Next(w, Reset))
  {
  }

  lemma OneProbeKept(w: World, s: Step)
    requires OneProbe(w) && Enabled(w, s)
    ensures OneProbe(Next(w, s))
  {
    hide OneProbe;
    match s
    case CallDetect(_, _) => ProbeBegins(w, s);
    case End(_, _) => ProbeEnds(w, s);
    case Reset => ProbesOutlive(w);
    case _ => SameProbes(w, Next(w, s));
  }

  lemma CacheKept(w: World, s: Step)
    requires OneProbe(w) && CacheIsCurrent(w) && Enabled(w, s)
    ensures CacheIsCurrent(Next(w, s))
  {
  }

  lemma SameClients(w: World, w': World)
    requires ClientsAreCurrent(w)
    requires w'.v.generation == w.v.generation && w'.v.clients == w.v.clients && w'.v.opsClient == w.v.opsClient
    requires w'.pairings == w.pairings && w'.inits == w.inits
    ensures ClientsAreCurrent(w')
  {
  }

  lemma InitStepsKeepClients(w: World, s: Step)
    requires ClientsAreCurrent(w) && Enabled(w, s)
    requires s.SettingsLoaded? || s.StartInit? || s.InitClient? || s.InitToken?
    ensures ClientsAreCurrent(Next(w, s))
  {
  }

  lemma UsesKeepClients(w: World, s: Step)
    requires ClientsAreCurrent(w) && Enabled(w, s)
    requires s.ClientReady? || s.TokenDeleted? || s.StartPairing? || s.Paired? || s.Reset?
    ensures ClientsAreCurrent(Next(w, s))
  {
  }

  lemma ClientsKept(w: World, s: Step)
    requires ClientsAreCurrent(w) && Enabled(w, s)
    ensures ClientsAreCurrent(Next(w, s))
  {
    hide ClientsAreCurrent;
    if s.SettingsLoaded? || s.StartInit? || s.InitClient? || s.InitToken? {
      InitStepsKeepClients(w, s);
    } else if s.ClientReady? || s.TokenDeleted? || s.StartPairing? || s.Paired? || s.Reset? {
      UsesKeepClients(w, s);
    } else {
      SameClients(w, Next(w, s));
    }
  }

  lemma DeletionsKept(w: World, s: Step)
    requires DeletionsAreCurrent(w) && Enabled(w, s)
    ensures DeletionsAreCurrent(Next(w, s))
  {
  }

  predicate Invariant(w: World) {
    OneProbe(w) && CacheIsCurrent(w) && ClientsAreCurrent(w) && DeletionsAreCurrent(w)
  }

  lemma {:induction false} EveryRunKeeps(run: seq<Step>)
    requires After(run).Some?
    ensures Invariant(After(run).value)
  {
    hide Next, Enabled, OneProbe, CacheIsCurrent, ClientsAreCurrent, DeletionsAreCurrent;
    if |run| > 0 {
      var w, s := After(run[..|run| - 1]).value, run[|run| - 1];
      EveryRunKeeps(run[..|run| - 1]);
      OneProbeKept(w, s);
      CacheKept(w, s);
      ClientsKept(w, s);
      DeletionsKept(w, s);
    } else {
      NothingYet();
    }
  }

  lemma NothingYet()
    ensures Invariant(INITIAL) && After([]) == Some(INITIAL)
  {
  }

  // ----- What the generation counter is for -----

  /** Two probes that are both under way began on different sides of a reset. */
  lemma OneProbePerGeneration(run: seq<Step>, p: nat, q: nat)
    requires After(run).Some? && p < q < |After(run).value.probes|
    requires Pending(After(run).value.probes[p]) && Pending(After(run).value.probes[q])
    ensures After(run).value.probes[p].generation != After(run).value.probes[q].generation
  {
    hide After;
    EveryRunKeeps(run);
  }

  /** A cached status comes from a probe that began after the last reset. */
  lemma CachedStatusIsCurrent(run: seq<Step>)
    requires After(run).Some? && After(run).value.v.statusCache.Some?
    ensures var w := After(run).value; var probe := w.v.statusCache.value.probe;
      probe < |w.probes| && w.probes[probe].generation == w.v.generation
  {
    hide After, OneProbe, ClientsAreCurrent, DeletionsAreCurrent;
    EveryRunKeeps(run);
  }

  /** The step at which the cached status was found, and nothing since that clears it. */
  predicate FoundAt(run: seq<Step>, j: nat, c: Cached) {
    j < |run| && run[j].End? && run[j].probe == c.probe && c.expiresAt == run[j].now + 5_000 &&
    After(run[..j]).Some? && var w := After(run[..j]).value;
    c.probe < |w.probes| && Current(w, c.probe) && w.probes[c.probe].at == Settled(Some(c.value)) &&
    forall i :: j < i < |run| ==> !run[i].Reset? && !run[i].Invalidate? && !run[i].Paired?
  }

  lemma {:induction false} CacheWasFilled(run: seq<Step>) returns (j: nat)
    requires After(run).Some? && After(run).value.v.statusCache.Some?
    ensures FoundAt(run, j, After(run).value.v.statusCache.value)
  {
    var before, s := run[..|run| - 1], run[|run| - 1];
    var w := After(before).value;
    if s.End? && Current(w, s.probe) && w.probes[s.probe].at.result.Some? {
      j := |run| - 1;
    } else {
      CacheStays(w, s);
      hide Next, Enabled;
      j := CacheWasFilled(before);
      assert before[..j] == run[..j];
    }
  }

  lemma CacheStays(w: World, s: Step)
    requires Enabled(w, s) && Next(w, s).v.statusCache.Some?
    requires s.End? ==> !(Current(w, s.probe) && w.probes[s.probe].at.result.Some?)
    ensures w.v.statusCache == Next(w, s).v.statusCache && !s.Reset? && !s.Invalidate? && !s.Paired?
  {
  }

  /**
   * An answer from the cache is in date: in every run, a probe of this generation found
   * just this status less than five seconds before, and no reset, invalidation or pairing
   * came after. And such a status is the answer, unless a probe is under way or forced.
   */
  lemma CachedAnswerIsInDate(run: seq<Step>, force: bool, now: int)
    requires After(run).Some?
    ensures var v := After(run).value.v; var d := Detect(v, force, now);
      (d.FromCache? <==>
        !force && v.statusProbeInFlight == None &&
        v.statusCache.Some? && exists j: nat ::
          j < |run| && run[j].End? && FoundAt(run, j, v.statusCache.value) && now < run[j].now + 5_000) &&
      (d.FromCache? ==> d.value == v.statusCache.value.value) &&
      forall p: nat :: d == Shared(p) <==> v.statusProbeInFlight == Some(p)
  {
    hide After, FoundAt;
    var v := After(run).value.v;
    if v.statusCache.Some? {
      var j := CacheWasFilled(run);
      FoundMeans(run, j, v.statusCache.value);
      forall k: nat | FoundAt(run, k, v.statusCache.value)
        ensures k < |run| && run[k].End? && run[k].now + 5_000 == v.statusCache.value.expiresAt
      {
        FoundMeans(run, k, v.statusCache.value);
      }
    }
  }

  lemma FoundMeans(run: seq<Step>, j: nat, c: Cached)
    requires FoundAt(run, j, c)
    ensures j < |run| && run[j].End? && c.expiresAt == run[j].now + 5_000
  {
    hide After;
  }

  /** A probe from before a reset changes nothing when it ends: not the cache, not a newer probe in flight. */
  lemma OldProbeEndsQuietly(run: seq<Step>, p: nat, now: int)
    requires After(run).Some? && Enabled(After(run).value, End(p, now)) && !Current(After(run).value, p)
    ensures Next(After(run).value, End(p, now)).v == After(run).value.v
  {
    hide After, CacheIsCurrent, ClientsAreCurrent, DeletionsAreCurrent;
    EveryRunKeeps(run);
  }

  /**
   * The shared client was made after the last reset, and the load or pairing that gave
   * it its token began after it too. A stored token is deleted only for a probe of the
   * generation that deletes it.
   */
  lemma TokensAreCurrent(run: seq<Step>, c: nat)
    requires After(run).Some? && After(run).value.v.opsClient == Some(c)
    ensures var w := After(run).value;
      c < |w.v.clients| && w.v.clients[c].born == w.v.generation &&
      (w.v.clients[c].token.Some? ==> w.v.clients[c].token.value == w.v.generation) &&
      forall d :: 0 <= d < |w.deletions| ==>
        w.deletions[d].0 < |w.probes| && w.probes[w.deletions[d].0].generation == w.deletions[d].1
  {
    hide After, OneProbe, CacheIsCurrent;
    EveryRunKeeps(run);
  }

  /** `_opsClient.setClientToken` never finds the client gone: the generation check comes first. */
  lemma InjectionFindsItsClient(run: seq<Step>, i: nat)
    requires After(run).Some? && Enabled(After(run).value, InitToken(i, true))
    requires After(run).value.inits[i].generation == After(run).value.v.generation
    ensures After(run).value.v.opsClient.Some?
  {
    hide After, OneProbe, CacheIsCurrent, DeletionsAreCurrent;
    EveryRunKeeps(run);
  }

  // ----- Invalidation is not a reset -----

  /** Right after an invalidation, a probe that ends leaves a status exactly if it is current and has one. */
  lemma EndAfterInvalidation(w: World, p: nat, now: int)
    requires Enabled(w, End(p, now))
    ensures Next(Next(w, Invalidate), End(p, now)).v.statusCache.Some? <==>
      Current(w, p) && w.probes[p].at.result.Some?
  {
  }

  /** A probe under way in this generation has not failed. */
  predicate MayAnswer(w: World) {
    w.v.statusProbeInFlight.Some? && w.v.statusProbeInFlight.value < |w.probes| &&
    w.probes[w.v.statusProbeInFlight.value].at != Settled(None)
  }

  /** The longer run goes on without a new detection, and then a status is cached. */
  predicate CachesAgain(run: seq<Step>, longer: seq<Step>) {
    run <= longer && (forall i :: |run| <= i < |longer| ==> !longer[i].CallDetect?) &&
    After(longer).Some? && After(longer).value.v.statusCache.Some?
  }

  predicate InitsKnown(w: World) {
    forall p :: 0 <= p < |w.probes| && w.probes[p].at.Initializing? ==> w.probes[p].at.init < |w.inits|
  }

  lemma InitsKnownKept(w: World, s: Step)
    requires InitsKnown(w) && Enabled(w, s)
    ensures InitsKnown(Next(w, s))
  {
    hide GetClient, NewClient, SetToken, InjectToken, Finish, Detect, ResetAll;
  }

  lemma {:induction false} EveryRunKnowsInits(run: seq<Step>)
    requires After(run).Some?
    ensures InitsKnown(After(run).value)
  {
    hide Next, Enabled, InitsKnown;
    if |run| > 0 {
      EveryRunKnowsInits(run[..|run| - 1]);
      InitsKnownKept(After(run[..|run| - 1]).value, run[|run| - 1]);
    } else {
      NobodyWaits();
    }
  }

  lemma NobodyWaits()
    ensures InitsKnown(INITIAL)
  {
  }

  /** The next step of a probe towards an answer. */
  function Towards(w: World, p: nat): Step
    requires p < |w.probes| && Pending(w.probes[p]) && InitsKnown(w)
  {
    match w.probes[p].at
    case Settings => SettingsLoaded(p, false)
    case Initializing(i) =>
      if w.inits[i].at.LoadingSettings? then InitClient(i)
      else if w.inits[i].at.LoadingToken? then InitToken(i, false)
      else ClientReady(p)
    case Talking(_) => Answer(p, UNAVAILABLE)
    case Deleting(_) => TokenDeleted(p)
    case Settled(_) => End(p, 0)
  }

  function Distance(w: World, p: nat): nat
    requires p < |w.probes| && Pending(w.probes[p]) && InitsKnown(w)
  {
    match w.probes[p].at
    case Settled(_) => 0
    case Initializing(i) =>
      if w.inits[i].at.LoadingSettings? then 4 else if w.inits[i].at.LoadingToken? then 3 else 2
    case _ => 1
  }

  lemma OneStepTowards(w: World, p: nat)
    requires p < |w.probes| && Pending(w.probes[p]) && InitsKnown(w) && !w.probes[p].at.Settled?
    requires w.v.statusProbeInFlight == Some(p) && Current(w, p)
    ensures Enabled(w, Towards(w, p)) && !Towards(w, p).CallDetect?
    ensures var w' := Next(w, Towards(w, p));
      w'.v.statusProbeInFlight == Some(p) && p < |w'.probes| && Current(w', p) && Pending(w'.probes[p]) &&
      w'.probes[p].at != Settled(None) && InitsKnown(w') && Distance(w', p) < Distance(w, p)
  {
  }

  /** A probe that may answer can be brought to cache its status. */
  lemma {:induction false} ProbeAnswers(run: seq<Step>, w: World, p: nat) returns (longer: seq<Step>)
    requires After(run) == Some(w) && p < |w.probes| && Pending(w.probes[p]) && InitsKnown(w)
    requires w.v.statusProbeInFlight == Some(p) && Current(w, p) && w.probes[p].at != Settled(None)
    ensures CachesAgain(run, longer)
    decreases Distance(w, p)
  {
    var s := Towards(w, p);
    var next := run + [s];
    assert next[..|run|] == run;
    if w.probes[p].at.Settled? {
      longer := next;
    } else {
      OneStepTowards(w, p);
      hide Next, Enabled, Distance, Towards;
      longer := ProbeAnswers(next, Next(w, s), p);
    }
  }

  /** Nothing under way in this generation can cache a status. */
  predicate Quiet(w: World) {
    w.v.statusCache == None &&
    forall p :: 0 <= p < |w.probes| && Pending(w.probes[p]) && Current(w, p) ==> w.probes[p].at == Settled(None)
  }

  lemma QuietKept(w: World, s: Step)
    requires OneProbe(w) && Quiet(w) && Enabled(w, s) && !s.CallDetect?
    ensures Quiet(Next(w, s))
  {
  }

  lemma {:induction false} QuietLasts(run: seq<Step>, longer: seq<Step>)
    requires After(run).Some? && Quiet(After(run).value) && run <= longer && After(longer).Some?
    requires forall i :: |run| <= i < |longer| ==> !longer[i].CallDetect?
    ensures Quiet(After(longer).value)
  {
    hide Next, Enabled, Quiet, CacheIsCurrent, ClientsAreCurrent, DeletionsAreCurrent, OneProbe;
    if |longer| == |run| {
      assert longer == run;
    } else {
      QuietLasts(run, longer[..|longer| - 1]);
      EveryRunKeeps(longer[..|longer| - 1]);
      QuietKept(After(longer[..|longer| - 1]).value, longer[|longer| - 1]);
    }
  }

  lemma InvalidationClearsTheCache(w: World)
    ensures Enabled(w, Invalidate) && Next(w, Invalidate) == w.(v := w.v.(statusCache := None))
  {
  }

  lemma AfterInvalidation(run: seq<Step>)
    requires After(run).Some?
    ensures var w := After(run).value;
      After(run + [Invalidate]) == Some(w.(v := w.v.(statusCache := None)))
  {
    InvalidationClearsTheCache(After(run).value);
    hide Next, Enabled;
    assert (run + [Invalidate])[..|run|] == run;
  }

  /**
   * An invalidated status can come back without a new detection exactly if a probe is
   * under way and has not failed: invalidation clears the snapshot, not the probe.
   */
  lemma InvalidationHoldsExactlyWithoutProbe(run: seq<Step>)
    requires After(run).Some?
    ensures MayAnswer(After(run).value) <==> exists longer: seq<Step> :: CachesAgain(run + [Invalidate], longer)
  {
    hide CacheIsCurrent, ClientsAreCurrent, DeletionsAreCurrent, After, CachesAgain, InitsKnown, Next, Enabled;
    var w := After(run).value;
    var next := run + [Invalidate];
    AfterInvalidation(run);
    var w' := After(next).value;
    EveryRunKeeps(run);
    EveryRunKnowsInits(run);
    EveryRunKnowsInits(next);
    if MayAnswer(w) {
      var longer := ProbeAnswers(next, w', w.v.statusProbeInFlight.value);
    } else {
      assert Quiet(w');
      forall longer: seq<Step> ensures !CachesAgain(next, longer) {
        CannotCacheAgain(next, longer);
      }
    }
  }

  lemma CannotCacheAgain(run: seq<Step>, longer: seq<Step>)
    requires After(run).Some? && Quiet(After(run).value)
    ensures !CachesAgain(run, longer)
  {
    if CachesAgain(run, longer) {
      QuietLasts(run, longer);
    }
  }

  lemma Extend(run: seq<Step>, w: World, s: Step) returns (longer: seq<Step>, w': World)
    requires After(run) == Some(w) && Enabled(w, s)
    ensures longer == run + [s] && w' == Next(w, s) && After(longer) == Some(w')
  {
    longer, w' := run + [s], Next(w, s);
    assert longer[..|run|] == run;
  }

  /** Such a run: a probe begins, the status is invalidated, and the probe caches what it found before. */
  lemma InvalidatedStatusComesBack() returns (run: seq<Step>)
    ensures run == [CallDetect(false, 0), Invalidate, SettingsLoaded(0, false), End(0, 0)] && After(run).Some?
    ensures After(run).value.v.statusCache == Some(Cached(UNAVAILABLE, STATUS_TTL_MS, 0))
  {
    hide After;
    var w := INITIAL;
    run := [];
    NothingYet();
    run, w := Extend(run, w, CallDetect(false, 0));
    run, w := Extend(run, w, Invalidate);
    run, w := Extend(run, w, SettingsLoaded(0, false));
    run, w := Extend(run, w, End(0, 0));
  }
}
