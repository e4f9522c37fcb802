/**
 * The side panel's session context in the background worker: handlers that may
 * outlive a reset, a worker that may restart, and storage that applies what it is
 * given in order.
 */
module SessionContext {
  import opened JsText

  /** Storage keys; both kinds are built from an id and told apart by their prefix. */
  datatype Key = ContextKey(tabId: int) | BindingKey(windowId: int)

  datatype Value =
    | Context(tabId: int, windowId: int, vacancyId: Text, timestamp: int)
    | Binding(tabId: int, windowId: int)

  /** `canonical(id, url)`: the address is this vacancy's page. */
  type Canonical = (Text, Option<Text>) -> bool

  /** A storage operation. `began` is the number of clears issued when its handler began, `url` the address it checked. */
  datatype Operation =
    | Put(entries: map<Key, Value>, began: nat, url: Option<Text>)
    | Remove(keys: set<Key>)
    | Clear

  datatype Sender = Sender(tabId: Option<int>, windowId: Option<int>, url: Option<Text>)

  // ----- What the handlers issue -----

  predicate Positive(x: Option<int>) {
    x.Some? && x.value > 0
  }

  /** A context and, if asked for, the binding of its window. */
  function PutContext(tabId: int, windowId: int, vacancyId: Text, bind: bool, now: int, began: nat, url: Option<Text>): Operation {
    var context := map[ContextKey(tabId) := Context(tabId, windowId, vacancyId, now)];
    Put(if bind then context[BindingKey(windowId) := Binding(tabId, windowId)] else context, began, url)
  }

  /** `registerVacancyContext`: it does not wait before it writes. */
  function Register(canonical: Canonical, sender: Sender, vacancyId: Text, isVacancyPage: bool, now: int, began: nat): Option<Operation> {
    if !Positive(sender.tabId) || !Positive(sender.windowId) || !isVacancyPage || |vacancyId| == 0 ||
       !canonical(vacancyId, sender.url) then None
    else Some(PutContext(sender.tabId.value, sender.windowId.value, vacancyId, false, now, began, sender.url))
  }

  /** `persistContext`: the message's ids win over the sender's; without a vacancy it removes both entries. */
  function Persist(
    canonical: Canonical, sender: Sender, tabId: Option<int>, windowId: Option<int>, vacancyId: Option<Text>,
    url: Option<Text>, now: int, began: nat): Option<Operation>
  {
    var tab := if tabId.Some? then tabId else sender.tabId;
    var window := if windowId.Some? then windowId else sender.windowId;
    var sourceUrl := if sender.url.Some? then sender.url else url;
    if !Positive(tab) || !Positive(window) then None
    else if vacancyId.None? || |vacancyId.value| == 0 then Some(Remove({ContextKey(tab.value), BindingKey(window.value)}))
    else if !canonical(vacancyId.value, sourceUrl) then None
    else Some(PutContext(tab.value, window.value, vacancyId.value, true, now, began, sourceUrl))
  }

  /** The OPEN_SIDE_PANEL handler. */
  function Open(canonical: Canonical, sender: Sender, vacancyId: Option<Text>, now: int, began: nat): Option<Operation> {
    if !Positive(sender.tabId) || !Positive(sender.windowId) || vacancyId.None? || |vacancyId.value| == 0 ||
       !canonical(vacancyId.value, sender.url) then None
    else Some(PutContext(sender.tabId.value, sender.windowId.value, vacancyId.value, true, now, began, sender.url))
  }

  /** What a tab answers about its page; `url` is already canonicalised, if it could be. */
  datatype Live = NoAnswer | Page(isVacancy: bool, vacancyId: Option<Text>, url: Option<Text>)

  /** The end of `resolveSidePanelContext` for the tab it settled on. */
  function Resolve(canonical: Canonical, tabId: int, windowId: int, live: Live, current: bool, now: int, began: nat): Option<Operation> {
    match live
    case NoAnswer => Some(Remove({ContextKey(tabId)}))
    case Page(isVacancy, vacancyId, url) =>
      if !isVacancy then None
      else if vacancyId.None? || |vacancyId.value| == 0 || url.None? || !canonical(vacancyId.value, url)
      then Some(Remove({ContextKey(tabId)}))
      else if !current then None
      else Some(PutContext(tabId, windowId, vacancyId.value, false, now, began, url))
  }

  // ----- Storage -----

  /** A stored value with what its write knew. */
  datatype Entry = Entry(value: Value, began: nat, url: Option<Text>)

  function Apply(storage: map<Key, Entry>, op: Operation): map<Key, Entry> {
    match op
    case Put(entries, began, url) => storage + map key | key in entries :: Entry(entries[key], began, url)
    case Remove(keys) => storage - keys
    case Clear => map[]
  }

  function Clears(ops: seq<Operation>): nat {
    if |ops| == 0 then 0 else Clears(ops[..|ops| - 1]) + if ops[|ops| - 1].Clear? then 1 else 0
  }

  // ----- The worker -----

  function ToSeq(op: Option<Operation>): seq<Operation> {
    if op.Some? then [op.value] else []
  }

  /** The sender's tab and window are known. */
  predicate IsOpen(sender: Sender) {
    sender.tabId != None && sender.tabId.value > 0 && sender.windowId != None && sender.windowId.value > 0
  }

  /** What storage holds after an operation: what was put, nothing that was removed, and the rest as before. */
  lemma AppliedExactly(storage: map<Key, Entry>, op: Operation, key: Key)
    ensures var after := Apply(storage, op);
      if op.Clear? then key !in after
      else if op.Put? && key in op.entries then key in after && after[key] == Entry(op.entries[key], op.began, op.url)
      else if op.Remove? && key in op.keys then key !in after
      else if key in storage then key in after && after[key] == storage[key]
      else key !in after
  {
  }

  /** `earlier` counts the clears issued by workers before this one, whose generation starts at 0 again. */
  class Background {
    const canonical: Canonical
    var sessionResetGeneration: nat
    var earlier: nat
    var issued: seq<Operation>

    /** Clears issued by now. */
    function Began(): nat
      reads this
    {
      earlier + sessionResetGeneration
    }

    constructor (canonical: Canonical, earlier: nat)
      ensures this.canonical == canonical && this.earlier == earlier && sessionResetGeneration == 0 && issued == []
    {
      this.canonical, this.earlier, sessionResetGeneration, issued := canonical, earlier, 0, [];
    }

    method Set(entries: map<Key, Value>, began: nat, url: Option<Text>)
      modifies this`issued
      ensures issued == old(issued) + [Put(entries, began, url)]
    {
      issued := issued + [Put(entries, began, url)];
    }

    /** The synchronous part of `notifyContentScriptsOfReset`. */
    method NotifyContentScriptsOfReset()
      modifies this`sessionResetGeneration, this`issued
      ensures sessionResetGeneration == old(sessionResetGeneration) + 1 && issued == old(issued) + [Clear]
    {
      sessionResetGeneration := sessionResetGeneration + 1;
      issued := issued + [Clear];
    }

    method RegisterVacancyContext(sender: Sender, vacancyId: Text, isVacancyPage: bool, now: int) returns (done: bool)
      modifies this`issued
      ensures issued == old(issued) + ToSeq(Register(canonical, sender, vacancyId, isVacancyPage, now, Began()))
      ensures done <==> issued != old(issued)
      ensures done <==> IsOpen(sender) && isVacancyPage && vacancyId != [] && canonical(vacancyId, sender.url)
      ensures done ==>
        var (tab, window) := (sender.tabId.value, sender.windowId.value);
        issued == old(issued) + [Put(map[ContextKey(tab) := Context(tab, window, vacancyId, now)], Began(), sender.url)]
    {
      var generation := sessionResetGeneration;
      if !Positive(sender.tabId) || !Positive(sender.windowId) {
        return false;
      }
      if !isVacancyPage || |vacancyId| == 0 {
        return false;
      }
      if !canonical(vacancyId, sender.url) {
        return false;
      }
      if generation != sessionResetGeneration {
        return false;
      }
      var tabId := sender.tabId.value;
      Set(map[ContextKey(tabId) := Context(tabId, sender.windowId.value, vacancyId, now)], earlier + generation, sender.url);
      return true;
    }

    method PersistContext(
        sender: Sender, tabId: Option<int>, windowId: Option<int>, vacancyId: Option<Text>, url: Option<Text>, now: int)
      returns (done: bool)
      modifies this`issued
      ensures issued == old(issued) + ToSeq(Persist(canonical, sender, tabId, windowId, vacancyId, url, now, Began()))
      ensures done <==> issued != old(issued)
      ensures var place := Sender(if tabId == None then sender.tabId else tabId, if windowId == None then sender.windowId else windowId,
          if sender.url == None then url else sender.url);
        var removes := vacancyId == None || vacancyId == Some([]);
        (done <==> IsOpen(place) && (removes || canonical(vacancyId.value, place.url))) &&
        (done ==>
          var (tab, window) := (place.tabId.value, place.windowId.value);
          issued == old(issued) +
            [if removes then Remove({ContextKey(tab), BindingKey(window)})
             else Put(map[ContextKey(tab) := Context(tab, window, vacancyId.value, now), BindingKey(window) := Binding(tab, window)],
               Began(), place.url)])
    {
      var generation := sessionResetGeneration;
      var nextTabId := if tabId.Some? then tabId.value else if sender.tabId.Some? then sender.tabId.value else -1;
      if nextTabId <= 0 {
        return false;
      }
      var window := if windowId.Some? then windowId else sender.windowId;
      if window.None? || window.value <= 0 {
        return false;
      }
      if vacancyId.None? || |vacancyId.value| == 0 {
        issued := issued + [Remove({ContextKey(nextTabId), BindingKey(window.value)})];
        return true;
      }
      var sourceUrl := if sender.url.Some? then sender.url else url;
      if !canonical(vacancyId.value, sourceUrl) {
        return false;
      }
      Set(map[ContextKey(nextTabId) := Context(nextTabId, window.value, vacancyId.value, now),
              BindingKey(window.value) := Binding(nextTabId, window.value)], earlier + generation, sourceUrl);
      return true;
    }

    method OpenSidePanel(sender: Sender, vacancyId: Option<Text>, now: int)
      modifies this`issued
      ensures issued == old(issued) + ToSeq(Open(canonical, sender, vacancyId, now, Began()))
      ensures issued == old(issued) +
        if IsOpen(sender) && vacancyId != None && vacancyId != Some([]) && canonical(vacancyId.value, sender.url)
        then
          var (tab, window) := (sender.tabId.value, sender.windowId.value);
          [Put(map[ContextKey(tab) := Context(tab, window, vacancyId.value, now), BindingKey(window) := Binding(tab, window)],
             Began(), sender.url)]
        else []
    {
      if !Positive(sender.tabId) || !Positive(sender.windowId) || vacancyId.None? || |vacancyId.value| == 0 ||
         !canonical(vacancyId.value, sender.url) {
        return;
      }
      var tabId, windowId := sender.tabId.value, sender.windowId.value;
      Set(map[ContextKey(tabId) := Context(tabId, windowId, vacancyId.value, now),
              BindingKey(windowId) := Binding(tabId, windowId)], earlier + sessionResetGeneration, sender.url);
    }

    /** The last part of `resolveSidePanelContext`, which began in `generation` and has waited since. */
    method EndResolution(generation: nat, tabId: int, windowId: int, live: Live, now: int)
      modifies this`issued
      ensures issued == old(issued) +
        ToSeq(Resolve(canonical, tabId, windowId, live, generation == sessionResetGeneration, now, earlier + generation))
      ensures var checked := live.Page? && live.vacancyId != None && live.vacancyId != Some([]) && live.url != None &&
          canonical(live.vacancyId.value, live.url);
        issued == old(issued) +
          if live == NoAnswer || (live.isVacancy && !checked) then [Remove({ContextKey(tabId)})]
          else if live.isVacancy && generation == sessionResetGeneration
          then [Put(map[ContextKey(tabId) := Context(tabId, windowId, live.vacancyId.value, now)], earlier + generation, live.url)]
          else []
    {
      if live.NoAnswer? {
        issued := issued + [Remove({ContextKey(tabId)})];
        return;
      }
      if live.isVacancy {
        if live.vacancyId.None? || |live.vacancyId.value| == 0 || live.url.None? || !canonical(live.vacancyId.value, live.url) {
          issued := issued + [Remove({ContextKey(tabId)})];
          return;
        }
        if generation != sessionResetGeneration {
          return;
        }
        Set(map[ContextKey(tabId) := Context(tabId, windowId, live.vacancyId.value, now)], earlier + generation, live.url);
      }
    }
  }

  // ----- Runs -----

  /** `resolutions` are the generations of the worker's unfinished resolutions; `applied` counts the clears applied. */
  datatype World = World(
    generation: nat, earlier: nat, resolutions: seq<nat>, issued: seq<Operation>, storage: map<Key, Entry>, applied: nat)

  datatype Step =
    | RegisterStep(sender: Sender, vacancyId: Text, isVacancyPage: bool, now: int)
    | PersistStep(sender: Sender, tabId: Option<int>, windowId: Option<int>, vacancy: Option<Text>, url: Option<Text>, now: int)
    | OpenStep(sender: Sender, vacancy: Option<Text>, now: int)
    | BeginResolve
    | EndResolve(resolution: nat, tab: int, window: int, live: Live, now: int)
    | TabChanged(tab: int)
    | ResetStep
    | ApplyStep
    | RestartWorker

  predicate Enabled(w: World, s: Step) {
    match s
    case EndResolve(k, tab, window, _, _) => k < |w.resolutions| && tab > 0 && window > 0
    case ApplyStep => |w.issued| > 0
    case _ => true
  }

  /** The storage operation a step issues, if any. */
  function IssuedBy(canonical: Canonical, w: World, s: Step): Option<Operation>
    requires Enabled(w, s)
  {
    var began := w.earlier + w.generation;
    match s
    case RegisterStep(sender, vacancyId, isVacancyPage, now) => Register(canonical, sender, vacancyId, isVacancyPage, now, began)
    case PersistStep(sender, tabId, windowId, vacancy, url, now) =>
      Persist(canonical, sender, tabId, windowId, vacancy, url, now, began)
    case OpenStep(sender, vacancy, now) => Open(canonical, sender, vacancy, now, began)
    case EndResolve(k, tab, window, live, now) =>
      Resolve(canonical, tab, window, live, w.resolutions[k] == w.generation, now, w.earlier + w.resolutions[k])
    case TabChanged(tab) => Some(Remove({ContextKey(tab)}))
    case ResetStep => Some(Clear)
    case _ => None
  }

  function Next(canonical: Canonical, w: World, s: Step): World
    requires Enabled(w, s)
  {
    if s.ApplyStep? then
      w.(issued := w.issued[1..], storage := Apply(w.storage, w.issued[0]),
         applied := w.applied + if w.issued[0].Clear? then 1 else 0)
    else if s.RestartWorker? then w.(generation := 0, earlier := w.earlier + w.generation, resolutions := [])
    else
      w.(issued := w.issued + ToSeq(IssuedBy(canonical, w, s)),
         generation := if s.ResetStep? then w.generation + 1 else w.generation,
         resolutions :=
           if s.BeginResolve? then w.resolutions + [w.generation]
           else if s.EndResolve? then w.resolutions[..s.resolution] + w.resolutions[s.resolution + 1..]
           else w.resolutions)
  }

  const INITIAL := World(0, 0, [], [], map[], 0)

  function After(canonical: Canonical, run: seq<Step>): Option<World> {
    if |run| == 0 then Some(INITIAL)
    else
      var w :- After(canonical, run[..|run| - 1]);
      if Enabled(w, run[|run| - 1]) then Some(Next(canonical, w, run[|run| - 1])) else None
  }

  // ----- The invariant -----

  /** A context has the tab of its key and a checked vacancy; a binding has the window of its key. */
  predicate ValidEntry(canonical: Canonical, key: Key, value: Value, url: Option<Text>) {
    match key
    case ContextKey(tabId) =>
      value.Context? && value.tabId == tabId > 0 && value.windowId > 0 && |value.vacancyId| > 0 && canonical(value.vacancyId, url)
    case BindingKey(windowId) => value.Binding? && value.windowId == windowId > 0 && value.tabId > 0
  }

  predicate ValidOperation(canonical: Canonical, op: Operation, began: nat) {
    op.Put? ==> op.began == began && forall key :: key in op.entries ==> ValidEntry(canonical, key, op.entries[key], op.url)
  }

  predicate StorageIsCurrent(canonical: Canonical, w: World) {
    forall key :: key in w.storage ==>
      w.storage[key].began == w.applied && ValidEntry(canonical, key, w.storage[key].value, w.storage[key].url)
  }

  /** Each waiting write was issued by a handler that began after all clears before it. */
  predicate QueueIsCurrent(canonical: Canonical, w: World) {
    w.applied + Clears(w.issued) == w.earlier + w.generation &&
    forall i :: 0 <= i < |w.issued| ==> ValidOperation(canonical, w.issued[i], w.applied + Clears(w.issued[..i]))
  }

  predicate Invariant(canonical: Canonical, w: World) {
    StorageIsCurrent(canonical, w) && QueueIsCurrent(canonical, w)
  }

  lemma ClearsPush(ops: seq<Operation>, op: Operation)
    ensures Clears(ops + [op]) == Clears(ops) + if op.Clear? then 1 else 0
  {
    assert (ops + [op])[..|ops|] == ops;
  }

  lemma {:induction false} ClearsPop(ops: seq<Operation>)
    requires |ops| > 0
    ensures Clears(ops) == Clears(ops[1..]) + if ops[0].Clear? then 1 else 0
  {
    if |ops| > 1 {
      ClearsPop(ops[..|ops| - 1]);
      assert ops[..|ops| - 1][1..] == ops[1..][..|ops| - 2];
    } else {
      assert ops[..0] == [] && ops[1..] == [];
    }
  }

  lemma IssueKeeps(canonical: Canonical, w: World, w': World, op: Operation)
    requires Invariant(canonical, w) && ValidOperation(canonical, op, w.earlier + w.generation)
    requires w' == w.(issued := w.issued + [op], generation := w'.generation, resolutions := w'.resolutions)
    requires w'.generation == w.generation + if op.Clear? then 1 else 0
    ensures Invariant(canonical, w')
  {
    hide ValidOperation, ValidEntry, Clears;
    ClearsPush(w.issued, op);
    forall i | 0 <= i < |w'.issued| ensures ValidOperation(canonical, w'.issued[i], w.applied + Clears(w'.issued[..i])) {
      if i < |w.issued| {
        assert w'.issued[..i] == w.issued[..i];
      } else {
        assert w'.issued[..i] == w.issued;
      }
    }
  }

  lemma ApplyKeeps(canonical: Canonical, w: World)
    requires Invariant(canonical, w) && Enabled(w, ApplyStep)
    ensures Invariant(canonical, Next(canonical, w, ApplyStep))
  {
    hide ValidEntry, Clears;
    var w' := Next(canonical, w, ApplyStep);
    var op := w.issued[0];
    assert w.issued[..0] == [] && ValidOperation(canonical, op, w.applied + Clears([]));
    NoClears();
    ClearsPop(w.issued);
    forall i | 0 <= i < |w'.issued| ensures ValidOperation(canonical, w'.issued[i], w'.applied + Clears(w'.issued[..i])) {
      assert w'.issued[i] == w.issued[i + 1];
      assert ValidOperation(canonical, w.issued[i + 1], w.applied + Clears(w.issued[..i + 1]));
      ClearsPop(w.issued[..i + 1]);
      assert w.issued[..i + 1][1..] == w'.issued[..i];
    }
  }

  lemma NoClears()
    ensures Clears([]) == 0
  {
  }

  /** Whatever a handler issues is valid and belongs to the generation it is issued in. */
  lemma IssuedIsValid(canonical: Canonical, w: World, s: Step)
    requires Enabled(w, s) && IssuedBy(canonical, w, s).Some?
    ensures ValidOperation(canonical, IssuedBy(canonical, w, s).value, w.earlier + w.generation)
    ensures IssuedBy(canonical, w, s).value.Clear? <==> s.ResetStep?
  {
  }

  /** Nothing issued or applied: a resolution begins, or the worker restarts and its generation with it. */
  lemma SameQueueKeeps(canonical: Canonical, w: World, w': World)
    requires Invariant(canonical, w)
    requires w'.issued == w.issued && w'.storage == w.storage && w'.applied == w.applied
    requires w'.earlier + w'.generation == w.earlier + w.generation
    ensures Invariant(canonical, w')
  {
    hide ValidOperation, ValidEntry, Clears;
  }

  lemma StepKeeps(canonical: Canonical, w: World, s: Step)
    requires Invariant(canonical, w) && Enabled(w, s)
    ensures Invariant(canonical, Next(canonical, w, s))
  {
    hide IssuedBy, Invariant, Apply;
    var w' := Next(canonical, w, s);
    if s.ApplyStep? {
      ApplyKeeps(canonical, w);
    } else if IssuedBy(canonical, w, s).Some? && !s.RestartWorker? {
      IssuedIsValid(canonical, w, s);
      IssueKeeps(canonical, w, w', IssuedBy(canonical, w, s).value);
    } else {
      ResetIssues(canonical, w, s);
      assert w'.issued == w.issued;
      SameQueueKeeps(canonical, w, w');
    }
  }

  lemma ResetIssues(canonical: Canonical, w: World, s: Step)
    requires Enabled(w, s)
    ensures s.ResetStep? ==> IssuedBy(canonical, w, s).Some?
  {
  }

  lemma {:induction false} EveryRunKeeps(canonical: Canonical, run: seq<Step>)
    requires After(canonical, run).Some?
    ensures Invariant(canonical, After(canonical, run).value)
  {
    hide Next, Invariant, Enabled;
    if |run| > 0 {
      EveryRunKeeps(canonical, run[..|run| - 1]);
      StepKeeps(canonical, After(canonical, run[..|run| - 1]).value, run[|run| - 1]);
    } else {
      NothingYet(canonical);
    }
  }

  lemma NothingYet(canonical: Canonical)
    ensures Invariant(canonical, INITIAL)
  {
  }

  /**
   * Nothing that a handler began before a reset survives the reset's clear: what is
   * stored was written by handlers that began after every clear applied so far. Each
   * stored context carries the tab of its key and a vacancy checked against its page,
   * each binding the window of its key.
   */
  lemma NothingOutlivesAReset(canonical: Canonical, run: seq<Step>, key: Key)
    requires After(canonical, run).Some? && key in After(canonical, run).value.storage
    ensures var w := After(canonical, run).value;
      w.storage[key].began == w.applied && ValidEntry(canonical, key, w.storage[key].value, w.storage[key].url)
  {
    hide After, ValidEntry;
    EveryRunKeeps(canonical, run);
  }
}
