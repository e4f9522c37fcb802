/** The outbox of operations for the companion: a FIFO with backoff that never loses or alters an entry. */
module Outbox {
  import opened Words
  import opened JsText
  import opened JsonTree
  import opened JsonPaths

  type Id = Text

  // ----- Sanitized payloads -----

  /** `/i` without `/u` folds ASCII letters only. */
  function Fold(t: Text): (r: Text)
    ensures |r| == |t|
  {
    seq(|t|, i requires 0 <= i < |t| => if 0x41 <= t[i] <= 0x5A then t[i] + 0x20 else t[i])
  }

  const NAMES := [
    "pairing_token", "pairingtoken", "client_token", "clienttoken", "access_token", "accesstoken", "refresh_token",
    "refreshtoken", "password", "secret", "api_key", "api-key", "apikey", "authorization", "cookie"]

  const SENSITIVE_KEYS: set<Text> := set i | 0 <= i < |NAMES| :: Lit(NAMES[i])

  predicate Sensitive(key: Text) {
    Fold(key) in SENSITIVE_KEYS
  }

  /** Somebody's token, an API key, or one of four words. */
  predicate FitsPattern(name: string) {
    (exists owner, joint :: owner in ["pairing", "client", "access", "refresh"] && joint in ["", "_"] &&
      name == owner + joint + "token") ||
    name in ["password", "secret", "authorization", "cookie"] ||
    (exists joint :: joint in ["", "_", "-"] && name == "api" + joint + "key")
  }

  /** A key is sensitive exactly if it fits the pattern, whatever the case of its letters. */
  lemma SensitiveFitsPattern(key: Text)
    ensures Sensitive(key) <==> exists name :: FitsPattern(name) && Fold(key) == Lit(name)
  {
    hide Lit, Fold, SENSITIVE_KEYS;
    forall name | FitsPattern(name) ensures Lit(name) in SENSITIVE_KEYS {
      PatternIsListed(name);
    }
    if Sensitive(key) {
      var name := ListedFits(Fold(key));
    }
  }

  lemma PatternIsListed(name: string)
    requires FitsPattern(name)
    ensures Lit(name) in SENSITIVE_KEYS
  {
    hide Lit;
    PatternNames(name);
  }

  lemma PatternNames(name: string)
    requires FitsPattern(name)
    ensures name in NAMES
  {
    hide NAMES;
    if owner, joint :| owner in ["pairing", "client", "access", "refresh"] && joint in ["", "_"] && name == owner + joint + "token" {
      TokenName(owner, joint);
    } else if joint :| joint in ["", "_", "-"] && name == "api" + joint + "key" {
      ApiKeyName(joint);
    } else {
      OtherName(name);
    }
  }

  lemma TokenName(owner: string, joint: string)
    requires owner in ["pairing", "client", "access", "refresh"] && joint in ["", "_"]
    ensures owner + joint + "token" in NAMES
  {
    assert NAMES[0] == "pairing" + "_" + "token" && NAMES[1] == "pairing" + "" + "token";
    assert NAMES[2] == "client" + "_" + "token" && NAMES[3] == "client" + "" + "token";
    assert NAMES[4] == "access" + "_" + "token" && NAMES[5] == "access" + "" + "token";
    assert NAMES[6] == "refresh" + "_" + "token" && NAMES[7] == "refresh" + "" + "token";
    hide NAMES;
  }

  lemma ApiKeyName(joint: string)
    requires joint in ["", "_", "-"]
    ensures "api" + joint + "key" in NAMES
  {
    assert NAMES[10] == "api" + "_" + "key" && NAMES[11] == "api" + "-" + "key" && NAMES[12] == "api" + "" + "key";
    hide NAMES;
  }

  lemma OtherName(name: string)
    requires name in ["password", "secret", "authorization", "cookie"]
    ensures name in NAMES
  {
    assert NAMES[8] == "password" && NAMES[9] == "secret" && NAMES[13] == "authorization" && NAMES[14] == "cookie";
    hide NAMES;
  }

  lemma NamesFit(i: nat)
    requires i < |NAMES|
    ensures FitsPattern(NAMES[i])
  {
    if i < 8 {
      var owner := ["pairing", "client", "access", "refresh"][i / 2];
      var joint := if i % 2 == 0 then "_" else "";
      assert NAMES[i] == owner + joint + "token";
    } else if 10 <= i < 13 {
      var joint := ["_", "-", ""][i - 10];
      assert NAMES[i] == "api" + joint + "key";
    }
  }

  lemma ListedFits(t: Text) returns (name: string)
    requires t in SENSITIVE_KEYS
    ensures FitsPattern(name) && t == Lit(name)
  {
    hide Lit, FitsPattern;
    var i :| 0 <= i < |NAMES| && t == Lit(NAMES[i]);
    NamesFit(i);
    name := NAMES[i];
  }

  /** `assertSanitizedOpsPayload` does not throw. */
  predicate Sanitized(v: Json) {
    match v
    case Array(items) => forall i :: 0 <= i < |items| ==> Sanitized(items[i])
    case Object(fields) => forall i :: 0 <= i < |fields| ==> !Sensitive(fields[i].key) && Sanitized(fields[i].value)
    case _ => true
  }

  predicate Exposes(v: Json) {
    v.Object? && exists i :: 0 <= i < |v.fields| && Sensitive(v.fields[i].key)
  }

  predicate ExposedAt(v: Json, path: seq<nat>) {
    At(v, path).Some? && Exposes(At(v, path).value)
  }

  lemma {:induction false} SanitizedAtEveryDepth(v: Json, path: seq<nat>)
    requires Sanitized(v)
    ensures !ExposedAt(v, path)
    decreases |path|
  {
    hide Sensitive;
    if |path| > 0 && path[0] < |Children(v)| {
      SanitizedAtEveryDepth(Children(v)[path[0]], path[1..]);
    }
  }

  lemma {:induction false} UnsanitizedSomewhere(v: Json) returns (path: seq<nat>)
    requires !Sanitized(v)
    ensures ExposedAt(v, path)
  {
    hide Sensitive;
    if Exposes(v) {
      return [];
    }
    var i: nat;
    match v {
      case Array(items) => i :| 0 <= i < |items| && !Sanitized(items[i]);
      case Object(fields) => i :| 0 <= i < |fields| && !Sanitized(fields[i].value);
    }
    var rest := UnsanitizedSomewhere(Children(v)[i]);
    AtChild(v, i, rest);
    return [i] + rest;
  }

  /** A payload passes exactly if no object in it, at any depth, has a sensitive key. */
  lemma SanitizedExactly(v: Json)
    ensures Sanitized(v) <==> forall path: seq<nat> :: !ExposedAt(v, path)
  {
    hide Sanitized, ExposedAt;
    if Sanitized(v) {
      forall path: seq<nat> ensures !ExposedAt(v, path) {
        SanitizedAtEveryDepth(v, path);
      }
    } else {
      var path := UnsanitizedSomewhere(v);
    }
  }

  // ----- Entries -----

  datatype Status = Pending | Retrying | Committed | Dead | Conflict

  datatype Command = Command(
    entityType: Text, operation: Text, payload: Json, payloadVersion: real, expectedRevision: Option<int>)

  datatype Entry = Entry(
    id: Id, sequence: nat, command: Command, idempotencyKey: Text, createdAt: int,
    retryCount: nat, nextAttemptAt: int, lastError: Option<Text>, status: Status)

  datatype Queue = Queue(counter: nat, entries: map<Id, Entry>)

  datatype Failure = BadPayloadVersion | ForbiddenField | DuplicateKey

  predicate IsPositiveInteger(x: real) {
    x.Floor as real == x && x >= 1.0
  }

  predicate SequenceTaken(q: Queue, sequence: nat) {
    exists id :: id in q.entries && q.entries[id].sequence == sequence
  }

  function NewEntry(q: Queue, command: Command, id: Option<Id>, idempotencyKey: Option<Text>, uuid: Id, now: int): Entry {
    var chosen := if id.Some? then id.value else uuid;
    Entry(chosen, q.counter + 1, command, if idempotencyKey.Some? then idempotencyKey.value else chosen,
      now, 0, now, None, Pending)
  }

  function Enqueue(q: Queue, command: Command, id: Option<Id>, idempotencyKey: Option<Text>, uuid: Id, now: int)
    : (Queue, Result<Entry, Failure>)
  {
    if !IsPositiveInteger(command.payloadVersion) then (q, Err(BadPayloadVersion))
    else if !Sanitized(command.payload) then (q, Err(ForbiddenField))
    else
      var entry := NewEntry(q, command, id, idempotencyKey, uuid, now);
      if entry.id in q.entries || SequenceTaken(q, entry.sequence) then (q, Err(DuplicateKey))
      else (Queue(q.counter + 1, q.entries[entry.id := entry]), Ok(entry))
  }

  /** `update`: nothing where the entry is gone. */
  function Update(q: Queue, id: Id, f: Entry -> Entry): Queue {
    if id in q.entries then q.(entries := q.entries[id := f(q.entries[id])]) else q
  }

  // ----- Backoff -----

  function BaseMs(retryCount: nat): int {
    if 500 * Pow2(retryCount) < 300_000 then 500 * Pow2(retryCount) else 300_000
  }

  /** `Math.round`. */
  function Round(x: real): int {
    (x + 0.5).Floor
  }

  function Jitter(baseMs: real, random: real): real {
    baseMs * 0.15 * (random * 2.0 - 1.0)
  }

  /** `random` is what `Math.random()` gave. */
  function DelayMs(retryCount: nat, random: real): int {
    var baseMs := BaseMs(retryCount) as real;
    var rounded := Round(baseMs + Jitter(baseMs, random));
    if rounded < 500 then 500 else rounded
  }

  lemma SmallPowers()
    ensures Pow2(1) == 2 && Pow2(8) == 256 && Pow2(9) == 512 && Pow2(10) == 1024
  {
  }

  /** The jitter is at most fifteen percent. */
  lemma DelayNearBase(n: nat, random: real)
    requires 0.0 <= random < 1.0 && n >= 1
    ensures 1000 <= BaseMs(n) <= 300_000
    ensures 0.85 * BaseMs(n) as real - 0.5 <= DelayMs(n, random) as real <= 1.15 * BaseMs(n) as real + 0.5
    ensures DelayMs(n, random) >= 850
  {
    Pow2Grows(1, n);
    SmallPowers();
    var b := BaseMs(n) as real;
    assert 1000.0 <= b;
    hide Pow2, BaseMs, Jitter;
    JitterBound(b, random);
  }

  lemma JitterBound(b: real, random: real)
    requires 0.0 <= random < 1.0 && b >= 0.0
    ensures -0.15 * b <= Jitter(b, random) <= 0.15 * b
  {
    ProductSign(b, random);
    ProductSign(b, 1.0 - random);
    assert Jitter(b, random) == 0.3 * (b * random) - 0.15 * b;
  }

  lemma ProductSign(a: real, b: real)
    requires a >= 0.0 && b >= 0.0
    ensures a * b >= 0.0
  {
  }

  lemma DelayBounds(retryCount: nat, random: real)
    requires 0.0 <= random < 1.0
    ensures 850 <= DelayMs(retryCount + 1, random) <= 345_000
  {
    DelayNearBase(retryCount + 1, random);
  }

  predicate Longer(n: nat, random: real, previous: real)
    requires n >= 1
  {
    0.0 <= random < 1.0 && 0.0 <= previous < 1.0 ==> DelayMs(n, random) > DelayMs(n - 1, previous)
  }

  /** Whatever the jitter, the next delay is longer, exactly up to the ninth retry. */
  lemma DelayGrowsExactlyToNine(n: nat)
    requires n >= 2
    ensures n <= 9 <==> forall random: real, previous: real :: Longer(n, random, previous)
  {
    SmallPowers();
    if n <= 9 {
      Pow2Grows(n, 9);
      forall random: real, previous: real ensures Longer(n, random, previous) {
        if 0.0 <= random < 1.0 && 0.0 <= previous < 1.0 {
          DelayNearBase(n - 1, previous);
          DelayNearBase(n, random);
        }
      }
    } else {
      Pow2Grows(9, n - 1);
      Pow2Grows(10, n);
      assert BaseMs(n) == 300_000 && BaseMs(n - 1) >= 256_000;
      hide BaseMs, Pow2;
      assert DelayMs(n, 0.0) <= 255_000;
      assert DelayMs(n - 1, 0.5) >= 256_000;
      assert !Longer(n, 0.0, 0.5);
    }
  }

  // ----- Transitions of one entry -----

  function Ended(e: Entry, status: Status, error: Text): Entry {
    e.(status := status, lastError := Some(error))
  }

  /** `retryCount` is the count read before, plus one. */
  function Rescheduled(e: Entry, retryCount: nat, error: Text, now: int, random: real): Entry {
    e.(retryCount := retryCount, lastError := Some(error), status := Retrying, nextAttemptAt := now + DelayMs(retryCount, random))
  }

  function Reopened(e: Entry, now: int): Entry {
    e.(status := Pending, retryCount := 0, lastError := None, nextAttemptAt := now)
  }

  /** What no transition changes. */
  predicate SameOperation(a: Entry, b: Entry) {
    a.id == b.id && a.sequence == b.sequence && a.command == b.command && a.idempotencyKey == b.idempotencyKey &&
    a.createdAt == b.createdAt
  }

  // ----- Delivery order -----

  predicate Eligible(e: Entry, now: int) {
    (e.status == Pending || e.status == Retrying) && e.nextAttemptAt <= now
  }

  function EligibleOf(q: Queue, now: int): set<Entry> {
    set id | id in q.entries && Eligible(q.entries[id], now) :: q.entries[id]
  }

  predicate UniqueSequences(q: Queue) {
    forall id, other :: id in q.entries && other in q.entries && id != other ==>
      q.entries[id].sequence != q.entries[other].sequence
  }

  function Elements(list: seq<Entry>): set<Entry> {
    set i | 0 <= i < |list| :: list[i]
  }

  predicate Increasing(list: seq<Entry>) {
    forall i, j :: 0 <= i < j < |list| ==> list[i].sequence < list[j].sequence
  }

  lemma ElementsOfTail(list: seq<Entry>)
    requires |list| > 0 && Increasing(list)
    ensures Elements(list[1..]) == Elements(list) - {list[0]} && Increasing(list[1..])
  {
    forall i | 1 <= i < |list| ensures list[i] in Elements(list[1..]) && list[i] != list[0] {
      assert list[i] == list[1..][i - 1];
    }
  }

  /** The eligible entries have one order by sequence, so the delivery order is determined. */
  lemma {:induction false} FifoOrderIsUnique(a: seq<Entry>, b: seq<Entry>)
    requires Increasing(a) && Increasing(b) && Elements(a) == Elements(b)
    ensures a == b
  {
    if |a| > 0 {
      assert a[0] in Elements(b);
    }
    if |b| > 0 {
      assert b[0] in Elements(a);
      ElementsOfTail(a);
      ElementsOfTail(b);
      FifoOrderIsUnique(a[1..], b[1..]);
      assert a == [a[0]] + a[1..] && b == [b[0]] + b[1..];
    }
  }

  lemma {:induction false} LeastSequence(es: set<Entry>) returns (e: Entry)
    requires es != {}
    ensures e in es && forall f :: f in es ==> e.sequence <= f.sequence
  {
    e :| e in es;
    if es != {e} {
      var least := LeastSequence(es - {e});
      if least.sequence <= e.sequence {
        e := least;
      }
    }
  }

  /** All listed entries come before the rest. */
  predicate Before(list: seq<Entry>, rest: set<Entry>) {
    forall i, f :: 0 <= i < |list| && f in rest ==> list[i].sequence < f.sequence
  }

  lemma NothingListed(rest: set<Entry>)
    ensures Increasing([]) && Before([], rest)
  {
  }

  lemma AppendLeast(list: seq<Entry>, rest: set<Entry>, e: Entry)
    requires Increasing(list) && Before(list, rest) && e in rest
    requires forall f :: f in rest && f != e ==> e.sequence < f.sequence
    ensures Increasing(list + [e]) && Before(list + [e], rest - {e})
    ensures Elements(list + [e]) == Elements(list) + {e}
  {
    var longer := list + [e];
    assert longer[|list|] == e;
    forall i | 0 <= i < |list| ensures list[i] in Elements(longer) {
      assert longer[i] == list[i];
    }
  }

  // ----- The repository -----

  lemma ListedExactly(q: Queue, now: int)
    ensures forall id :: id in q.entries ==>
      (q.entries[id] in EligibleOf(q, now) <==>
        (q.entries[id].status == Pending || q.entries[id].status == Retrying) && q.entries[id].nextAttemptAt <= now)
  {
  }

  class OutboxRepo {
    var counter: nat
    var entries: map<Id, Entry>

    function State(): Queue
      reads this
    {
      Queue(counter, entries)
    }

    constructor ()
      ensures State() == Queue(0, map[])
    {
      counter, entries := 0, map[];
    }

    /** One transaction: a duplicate key rolls the counter back. */
    method EnqueueEntry(command: Command, id: Option<Id>, idempotencyKey: Option<Text>, uuid: Id, now: int)
      returns (r: Result<Entry, Failure>)
      modifies this
      ensures (State(), r) == Enqueue(old(State()), command, id, idempotencyKey, uuid, now)
      ensures r.Err? ==> State() == old(State())
      ensures r.Ok? ==>
        counter == old(counter) + 1 && r.value.sequence == counter &&
        r.value.id !in old(entries) && entries == old(entries)[r.value.id := r.value] &&
        r.value.command == command && r.value.createdAt == now &&
        r.value.id == (if id.Some? then id.value else uuid) &&
        r.value.idempotencyKey == (if idempotencyKey.Some? then idempotencyKey.value else r.value.id) &&
        r.value.status == Pending && r.value.retryCount == 0 && r.value.nextAttemptAt == now && r.value.lastError == None
    {
      if command.payloadVersion.Floor as real != command.payloadVersion || command.payloadVersion < 1.0 {
        return Err(BadPayloadVersion);
      }
      if !Sanitized(command.payload) {
        return Err(ForbiddenField);
      }
      var sequence := counter + 1;
      var chosen := if id.Some? then id.value else uuid;
      var full := Entry(chosen, sequence, command, if idempotencyKey.Some? then idempotencyKey.value else chosen,
        now, 0, now, None, Pending);
      counter := sequence;
      if full.id in entries || exists other :: other in entries && entries[other].sequence == sequence {
        counter := sequence - 1;
        return Err(DuplicateKey);
      }
      entries := entries[full.id := full];
      r := Ok(full);
    }

    /** Exactly the eligible entries, oldest first. */
    method ListPending(now: int) returns (list: seq<Entry>)
      requires UniqueSequences(State())
      ensures Elements(list) == EligibleOf(State(), now) && Increasing(list)
      ensures forall id :: id in entries ==>
        (entries[id] in Elements(list) <==>
          (entries[id].status == Pending || entries[id].status == Retrying) && entries[id].nextAttemptAt <= now)
    {
      ListedExactly(State(), now);
      hide Eligible, Increasing, Before;
      var rest := set id | id in entries && Eligible(entries[id], now) :: entries[id];
      list := [];
      assert Increasing([]) && Before([], rest) by { NothingListed(rest); }
      while rest != {}
        invariant Elements(list) + rest == EligibleOf(State(), now)
        invariant Increasing(list) && Before(list, rest)
        decreases |rest|
      {
        ghost var least := LeastSequence(rest);
        var e :| e in rest && forall f :: f in rest ==> e.sequence <= f.sequence;
        forall f | f in rest && f != e ensures e.sequence < f.sequence {
          DistinctEntries(State(), now, e, f);
        }
        AppendLeast(list, rest, e);
        list := list + [e];
        rest := rest - {e};
      }
    }

    method Commit(id: Id)
      modifies this
      ensures State() == old(State()).(entries := old(entries) - {id})
    {
      entries := entries - {id};
    }

    method MarkDead(id: Id, error: Text)
      modifies this
      ensures State() == Update(old(State()), id, (e: Entry) => Ended(e, Dead, error))
      ensures id in old(entries) ==>
        entries == old(entries)[id := old(entries)[id].(status := Dead, lastError := Some(error))]
    {
      if id in entries {
        entries := entries[id := entries[id].(status := Dead, lastError := Some(error))];
      }
    }

    method MarkConflict(id: Id, error: Text)
      modifies this
      ensures State() == Update(old(State()), id, (e: Entry) => Ended(e, Conflict, error))
      ensures id in old(entries) ==>
        entries == old(entries)[id := old(entries)[id].(status := Conflict, lastError := Some(error))]
    {
      if id in entries {
        entries := entries[id := entries[id].(status := Conflict, lastError := Some(error))];
      }
    }

    method ScheduleRetry(id: Id, error: Text, now: int, random: real)
      modifies this
      ensures State() == Update(old(State()), id, (e: Entry) => Rescheduled(e, e.retryCount + 1, error, now, random))
      ensures id in old(entries) ==>
        var e := old(entries)[id];
        entries == old(entries)[id := e.(retryCount := e.retryCount + 1, lastError := Some(error), status := Retrying,
          nextAttemptAt := now + DelayMs(e.retryCount + 1, random))]
    {
      if id !in entries {
        return;
      }
      var entry := entries[id];
      var retryCount := entry.retryCount + 1;
      var nextAttemptAt := now + DelayMs(retryCount, random);
      entries := entries[id := entry.(retryCount := retryCount, lastError := Some(error), status := Retrying,
        nextAttemptAt := nextAttemptAt)];
    }

    method RetryManual(id: Id, now: int)
      modifies this
      ensures State() == Update(old(State()), id, (e: Entry) => Reopened(e, now))
      ensures id in old(entries) ==>
        entries == old(entries)[id := old(entries)[id].(status := Pending, retryCount := 0, lastError := None, nextAttemptAt := now)]
    {
      if id in entries {
        entries := entries[id := entries[id].(status := Pending, retryCount := 0, lastError := None, nextAttemptAt := now)];
      }
    }
  }

  lemma DistinctEntries(q: Queue, now: int, e: Entry, f: Entry)
    requires UniqueSequences(q) && e in EligibleOf(q, now) && f in EligibleOf(q, now) && e != f
    ensures e.sequence != f.sequence
  {
    var i :| i in q.entries && q.entries[i] == e;
    var j :| j in q.entries && q.entries[j] == f;
  }
}
