/**
 * Who is authoritative, the browser or the companion: the migration that switches,
 * the intent that overrides it, and every crash and interleaving between their writes.
 */
module Authority {
  import opened JsText

  datatype Mode = Standalone | Migration | Ops

  datatype Snapshot = Snapshot(hash: Text, counts: map<Text, nat>)

  /** What `opsMeta` and the settings hold. */
  datatype Stored = Stored(
    intent: bool, authority: Mode,
    migratedAt: Option<int>, migratedHash: Option<Text>, migratedCounts: Option<map<Text, nat>>, checkpoint: Option<Text>)

  const FRESH := Stored(false, Standalone, None, None, None, None)

  /** `effectiveModeFor`: the companion decides only if the user wants it and the switch was made. */
  function Effective(intent: bool, authority: Mode): Mode {
    if intent && authority == Ops then Ops else Standalone
  }

  /** What the companion answers to an import. */
  datatype Answer = Throws | Refused | Imported(checkpoint: Option<Text>)

  // ----- Operations, one storage access at a time -----

  datatype Confirm =
    | Begin | Import | PutTime(checkpoint: Option<Text>) | PutHash(checkpoint: Option<Text>)
    | PutCounts(checkpoint: Option<Text>) | PutCheckpoint(token: Text) | Commit | GiveUp | Confirmed

  /** `Seen` has read the settings; `Repair` found authority that the intent denies. */
  datatype Reading = LoadSettings | Seen(intent: bool) | Repair | Returned(effective: Mode)

  datatype Toggle = SaveIntent | DropAuthority | Reread(reading: Reading)

  datatype Thread =
    | Confirming(snapshot: Snapshot, at: Confirm)
    | Toggling(enabled: bool, next: Toggle)
    | Asking(reading: Reading)
    | Leaving(done: bool)

  predicate Over(t: Thread) {
    match t
    case Confirming(_, at) => at == Confirmed
    case Toggling(_, next) => next.Reread? && next.reading.Returned?
    case Asking(reading) => reading.Returned?
    case Leaving(done) => done
  }

  predicate Initial(t: Thread) {
    match t
    case Confirming(_, at) => at == Begin
    case Toggling(_, next) => next == SaveIntent
    case Asking(reading) => reading == LoadSettings
    case Leaving(done) => !done
  }

  /** One step of `readMode`, after it has the settings. */
  function ReadStep(s: Stored, r: Reading): (Stored, Reading)
    requires !r.Returned?
  {
    match r
    case LoadSettings => (s, Seen(s.intent))
    case Seen(intent) =>
      if !intent && s.authority != Standalone then (s, Repair) else (s, Returned(Effective(intent, s.authority)))
    case Repair => (s.(authority := Standalone), Returned(Standalone))
  }

  /** One step of `confirmMigration`. */
  function ConfirmStep(s: Stored, snapshot: Snapshot, at: Confirm, answer: Answer, now: int): (Stored, Confirm)
    requires at != Confirmed
  {
    match at
    case Begin => (s.(authority := Migration), Import)
    case Import => (s, if answer.Imported? then PutTime(answer.checkpoint) else GiveUp)
    case PutTime(c) => (s.(migratedAt := Some(now)), PutHash(c))
    case PutHash(c) => (s.(migratedHash := Some(snapshot.hash)), PutCounts(c))
    case PutCounts(c) =>
      (s.(migratedCounts := Some(snapshot.counts)),
       if c.Some? && |c.value| > 0 then PutCheckpoint(c.value) else Commit)
    case PutCheckpoint(token) => (s.(checkpoint := Some(token)), Commit)
    case Commit => (s.(authority := Ops), Confirmed)
    case GiveUp => (s.(authority := Standalone), Confirmed)
  }

  function ToggleStep(s: Stored, enabled: bool, next: Toggle): (Stored, Toggle)
    requires next.Reread? ==> !next.reading.Returned?
  {
    match next
    case SaveIntent => (s.(intent := enabled), if enabled then Reread(Seen(true)) else DropAuthority)
    case DropAuthority => (s.(authority := Standalone), Reread(Seen(false)))
    case Reread(reading) => var (s', r) := ReadStep(s, reading); (s', Reread(r))
  }

  function ThreadStep(s: Stored, t: Thread, answer: Answer, now: int): (Stored, Thread)
    requires !Over(t)
  {
    match t
    case Confirming(snapshot, at) => var (s', at') := ConfirmStep(s, snapshot, at, answer, now); (s', Confirming(snapshot, at'))
    case Toggling(enabled, next) => var (s', next') := ToggleStep(s, enabled, next); (s', Toggling(enabled, next'))
    case Asking(reading) => var (s', r) := ReadStep(s, reading); (s', Asking(r))
    case Leaving(_) => (s.(authority := Standalone), Leaving(true))
  }

  // ----- The operations without interruption -----

  /** Steps left at most. */
  function Left(at: Confirm): nat {
    match at
    case Begin => 7
    case Import => 6
    case PutTime(_) => 5
    case PutHash(_) => 4
    case PutCounts(_) => 3
    case PutCheckpoint(_) => 2
    case Commit => 1
    case GiveUp => 1
    case Confirmed => 0
  }

  /** What is stored after each of the remaining writes of `confirmMigration`. */
  function ConfirmWrites(s: Stored, snapshot: Snapshot, at: Confirm, answer: Answer, now: int): seq<Stored>
    decreases Left(at)
  {
    if at == Confirmed then []
    else
      var (s', at') := ConfirmStep(s, snapshot, at, answer, now);
      (if at == Import then [] else [s']) + ConfirmWrites(s', snapshot, at', answer, now)
  }

  /** Steps of a toggle left at most. */
  function ToggleLeft(next: Toggle): nat {
    match next
    case SaveIntent => 5
    case DropAuthority => 4
    case Reread(reading) =>
      match reading
      case LoadSettings => 3
      case Seen(_) => 2
      case Repair => 1
      case Returned(_) => 0
  }

  /** The toggle steps that write. */
  predicate Writes(next: Toggle) {
    next.SaveIntent? || next.DropAuthority? || next == Reread(Repair)
  }

  /** What is stored after each of the remaining writes of `setOpsModeIntent`, and the mode it returns. */
  function ToggleWrites(s: Stored, enabled: bool, next: Toggle): (seq<Stored>, Mode)
    decreases ToggleLeft(next)
  {
    if next.Reread? && next.reading.Returned? then ([], next.reading.effective)
    else
      var (s', next') := ToggleStep(s, enabled, next);
      var (rest, effective) := ToggleWrites(s', enabled, next');
      ((if Writes(next) then [s'] else []) + rest, effective)
  }

  /** What is stored after each write of an import's time, hash, counts and checkpoint token, if it has one. */
  function Recorded(s: Stored, snapshot: Snapshot, checkpoint: Option<Text>, now: int): seq<Stored> {
    var s1 := s.(migratedAt := Some(now));
    var s2 := s1.(migratedHash := Some(snapshot.hash));
    var s3 := s2.(migratedCounts := Some(snapshot.counts));
    [s1, s2, s3] + if checkpoint.Some? && |checkpoint.value| > 0 then [s3.(checkpoint := checkpoint)] else []
  }

  class ModeStore {
    var stored: Stored
    ghost var writes: seq<Stored>

    constructor ()
      ensures stored == FRESH && writes == []
    {
      stored, writes := FRESH, [];
    }

    method Put(s: Stored)
      modifies this
      ensures stored == s && writes == old(writes) + [s]
    {
      stored := s;
      writes := writes + [s];
    }

    /** `readMode`, after the settings were loaded. */
    method ReadMode(requested: bool) returns (effective: Mode)
      modifies this
      ensures effective == Effective(requested, old(stored).authority)
      ensures effective == if requested && old(stored).authority == Ops then Ops else Standalone
      ensures stored == if requested then old(stored) else old(stored).(authority := Standalone)
      ensures writes == old(writes) + if !requested && old(stored).authority != Standalone then [stored] else []
    {
      var authorityMode := stored.authority;
      if !requested && authorityMode != Standalone {
        Put(stored.(authority := Standalone));
        authorityMode := Standalone;
      }
      effective := if requested && authorityMode == Ops then Ops else Standalone;
    }

    /** `setOpsModeIntent`: every write of the toggle in order, the intent first. */
    method SetOpsModeIntent(enabled: bool) returns (effective: Mode)
      modifies this
      ensures stored == old(stored).(intent := enabled, authority := if enabled then old(stored).authority else Standalone)
      ensures writes == old(writes) + ToggleWrites(old(stored), enabled, SaveIntent).0
      ensures effective == ToggleWrites(old(stored), enabled, SaveIntent).1
      ensures var saved := old(stored).(intent := enabled);
        writes == old(writes) + if enabled then [saved] else [saved, saved.(authority := Standalone)]
      ensures effective == Effective(stored.intent, stored.authority)
    {
      hide ToggleWrites;
      AllToggleWrites(stored, enabled);
      Put(stored.(intent := enabled));
      if !enabled {
        Put(stored.(authority := Standalone));
      }
      effective := ReadMode(enabled);
    }

    /** `saveMigrationCheckpoint`: four writes at most, in this order. */
    method SaveMigrationCheckpoint(snapshot: Snapshot, checkpoint: Option<Text>, now: int)
      modifies this
      ensures stored.authority == old(stored).authority
      ensures writes + [stored.(authority := Ops)] ==
        old(writes) + ConfirmWrites(old(stored), snapshot, PutTime(checkpoint), Imported(checkpoint), now)
      ensures writes == old(writes) + Recorded(old(stored), snapshot, checkpoint, now)
      ensures stored == old(stored).(migratedAt := Some(now), migratedHash := Some(snapshot.hash),
        migratedCounts := Some(snapshot.counts),
        checkpoint := if checkpoint.Some? && |checkpoint.value| > 0 then checkpoint else old(stored).checkpoint)
    {
      ghost var s0, answer := stored, Imported(checkpoint);
      Put(stored.(migratedAt := Some(now)));
      Put(stored.(migratedHash := Some(snapshot.hash)));
      Put(stored.(migratedCounts := Some(snapshot.counts)));
      ghost var s3 := stored;
      if checkpoint.Some? && |checkpoint.value| > 0 {
        Put(stored.(checkpoint := checkpoint));
        assert ConfirmWrites(s3, snapshot, PutCheckpoint(checkpoint.value), answer, now) ==
          [stored] + ConfirmWrites(stored, snapshot, Commit, answer, now);
      }
      CommitWrites(stored, snapshot, answer, now);
      CheckpointWrites(s0, snapshot, checkpoint, now);
    }

    /** `confirmMigration`, once it is confirmed: every write it makes, in order. */
    method ConfirmMigration(snapshot: Snapshot, answer: Answer, now: int) returns (switched: bool)
      modifies this
      ensures switched <==> answer.Imported?
      ensures stored.authority == if switched then Ops else Standalone
      ensures writes == old(writes) + ConfirmWrites(old(stored), snapshot, Begin, answer, now)
      ensures var begun := old(stored).(authority := Migration);
        writes == old(writes) + [begun] +
          (if answer.Imported? then Recorded(begun, snapshot, answer.checkpoint, now) else []) + [stored]
      ensures stored == if !switched then old(stored).(authority := Standalone)
        else old(stored).(authority := Ops, migratedAt := Some(now), migratedHash := Some(snapshot.hash),
          migratedCounts := Some(snapshot.counts),
          checkpoint := if answer.checkpoint.Some? && |answer.checkpoint.value| > 0 then answer.checkpoint else old(stored).checkpoint)
    {
      hide ConfirmWrites;
      ImportWrites(stored, snapshot, answer, now);
      Put(stored.(authority := Migration));
      if answer.Imported? {
        SaveMigrationCheckpoint(snapshot, answer.checkpoint, now);
        Put(stored.(authority := Ops));
      } else {
        Put(stored.(authority := Standalone));
      }
      switched := answer.Imported?;
    }
  }

  lemma AllToggleWrites(s: Stored, enabled: bool)
    ensures var s1 := s.(intent := enabled); var (writes, effective) := ToggleWrites(s, enabled, SaveIntent);
      writes == (if enabled then [s1] else [s1, s1.(authority := Standalone)]) &&
      effective == Effective(enabled, s.authority)
  {
    var s1 := s.(intent := enabled);
    var s2 := if enabled then s1 else s1.(authority := Standalone);
    var last := ToggleWrites(s2, enabled, Reread(Seen(enabled)));
    assert ToggleStep(s2, enabled, Reread(Seen(enabled))) == (s2, Reread(Returned(Effective(enabled, s2.authority))));
    var none := ToggleWrites(s2, enabled, Reread(Returned(Effective(enabled, s2.authority))));
    assert none.0 == [] && none.1 == Effective(enabled, s2.authority);
    assert last.0 == [] && last.1 == Effective(enabled, s2.authority);
    if !enabled {
      assert ToggleWrites(s1, enabled, DropAuthority).0 == [s2];
    }
  }

  lemma ImportWrites(s: Stored, snapshot: Snapshot, answer: Answer, now: int)
    ensures var s1 := s.(authority := Migration);
      ConfirmWrites(s, snapshot, Begin, answer, now) ==
        [s1] + if answer.Imported? then ConfirmWrites(s1, snapshot, PutTime(answer.checkpoint), answer, now)
               else [s1.(authority := Standalone)]
  {
    var s1 := s.(authority := Migration);
    GiveUpWrites(s1, snapshot, answer, now);
    assert ConfirmWrites(s1, snapshot, Import, answer, now) ==
      ConfirmWrites(s1, snapshot, if answer.Imported? then PutTime(answer.checkpoint) else GiveUp, answer, now);
  }

  lemma CommitWrites(s: Stored, snapshot: Snapshot, answer: Answer, now: int)
    ensures ConfirmWrites(s, snapshot, Commit, answer, now) == [s.(authority := Ops)]
  {
    assert ConfirmWrites(s.(authority := Ops), snapshot, Confirmed, answer, now) == [];
  }

  lemma GiveUpWrites(s: Stored, snapshot: Snapshot, answer: Answer, now: int)
    ensures ConfirmWrites(s, snapshot, GiveUp, answer, now) == [s.(authority := Standalone)]
  {
    assert ConfirmWrites(s.(authority := Standalone), snapshot, Confirmed, answer, now) == [];
  }

  lemma OneWrite(s: Stored, snapshot: Snapshot, at: Confirm, answer: Answer, now: int)
    requires at != Confirmed && at != Import
    ensures var (s', at') := ConfirmStep(s, snapshot, at, answer, now);
      ConfirmWrites(s, snapshot, at, answer, now) == [s'] + ConfirmWrites(s', snapshot, at', answer, now)
  {
  }

  lemma CheckpointWrites(s: Stored, snapshot: Snapshot, checkpoint: Option<Text>, now: int)
    ensures var answer := Imported(checkpoint);
      var s1 := s.(migratedAt := Some(now));
      var s2 := s1.(migratedHash := Some(snapshot.hash));
      var s3 := s2.(migratedCounts := Some(snapshot.counts));
      ConfirmWrites(s, snapshot, PutTime(checkpoint), answer, now) ==
        [s1, s2, s3] + ConfirmWrites(s3, snapshot,
          if checkpoint.Some? && |checkpoint.value| > 0 then PutCheckpoint(checkpoint.value) else Commit, answer, now)
  {
    hide ConfirmWrites;
    var answer := Imported(checkpoint);
    var s1 := s.(migratedAt := Some(now));
    var s2 := s1.(migratedHash := Some(snapshot.hash));
    OneWrite(s, snapshot, PutTime(checkpoint), answer, now);
    OneWrite(s1, snapshot, PutHash(checkpoint), answer, now);
    OneWrite(s2, snapshot, PutCounts(checkpoint), answer, now);
  }

  // ----- Runs -----

  /** `imports` are the snapshots the companion committed. A crashed operation takes no more steps. */
  datatype World = World(stored: Stored, threads: seq<Thread>, imports: set<Snapshot>)

  datatype Step = Start(thread: Thread) | Advance(index: nat, answer: Answer, now: int) | Reset

  /** A migration that has begun to write its checkpoint and has not switched yet. */
  predicate Recording(t: Thread) {
    t.Confirming? && (t.at.PutHash? || t.at.PutCounts? || t.at.PutCheckpoint? || t.at.Commit?)
  }

  predicate Enabled(w: World, s: Step) {
    match s
    case Start(t) => Initial(t)
    case Advance(k, _, _) => k < |w.threads| && !Over(w.threads[k])
    case Reset => true
  }

  function Next(w: World, s: Step): World
    requires Enabled(w, s)
  {
    match s
    case Start(t) => w.(threads := w.threads + [t])
    case Advance(k, answer, now) =>
      var t := w.threads[k];
      var (stored, t') := ThreadStep(w.stored, t, answer, now);
      World(stored, w.threads[k := t'],
        if t.Confirming? && t.at == Import && answer.Imported? then w.imports + {t.snapshot} else w.imports)
    case Reset => w.(stored := FRESH)
  }

  const INITIAL := World(FRESH, [], {})

  function After(run: seq<Step>): Option<World> {
    if |run| == 0 then Some(INITIAL)
    else
      var w :- After(run[..|run| - 1]);
      if Enabled(w, run[|run| - 1]) then Some(Next(w, run[|run| - 1])) else None
  }

  /** Resets of the run came when no migration was recording. */
  predicate ResetsApart(run: seq<Step>)
    requires After(run).Some?
  {
    |run| > 0 ==>
      ResetsApart(run[..|run| - 1]) &&
      (run[|run| - 1].Reset? ==> forall t :: t in After(run[..|run| - 1]).value.threads ==> !Recording(t))
  }

  // ----- Authority implies a recorded import -----

  predicate TimeKept(w: World) { w.stored.migratedAt.Some? && w.imports != {} }

  predicate HashKept(w: World) {
    TimeKept(w) && w.stored.migratedHash.Some? && exists i :: i in w.imports && i.hash == w.stored.migratedHash.value
  }

  predicate CountsKept(w: World) {
    HashKept(w) && w.stored.migratedCounts.Some? && exists i :: i in w.imports && i.counts == w.stored.migratedCounts.value
  }

  /** What a migration has written and the companion has committed by each of its points. */
  predicate Prepared(w: World, t: Thread) {
    t.Confirming? ==>
      (t.at.PutTime? || Recording(t) ==> t.snapshot in w.imports) &&
      (t.at.PutHash? ==> TimeKept(w)) &&
      (t.at.PutCounts? ==> HashKept(w)) &&
      (t.at.PutCheckpoint? || t.at.Commit? ==> CountsKept(w))
  }

  predicate Invariant(w: World) {
    (w.stored.authority == Ops ==> CountsKept(w)) &&
    forall k :: 0 <= k < |w.threads| ==> Prepared(w, w.threads[k])
  }

  /** What is recorded stays recorded, if perhaps by a later migration. */
  predicate Kept(w: World, w': World) {
    w.imports <= w'.imports && (TimeKept(w) ==> TimeKept(w')) && (HashKept(w) ==> HashKept(w')) &&
    (CountsKept(w) ==> CountsKept(w'))
  }

  lemma AdvanceKeeps(w: World, s: Step)
    requires Invariant(w) && Enabled(w, s) && s.Advance?
    ensures Kept(w, Next(w, s))
    ensures Prepared(Next(w, s), Next(w, s).threads[s.index])
    ensures Next(w, s).stored.authority == Ops ==> CountsKept(Next(w, s))
  {
    var w' := Next(w, s);
    var t := w.threads[s.index];
    assert Prepared(w, t);
    if t.Confirming? && t.snapshot in w'.imports {
      assert t.snapshot.hash == t.snapshot.hash && t.snapshot.counts == t.snapshot.counts;
    }
  }

  lemma StepKeeps(w: World, s: Step)
    requires Invariant(w) && Enabled(w, s)
    requires s.Reset? ==> forall t :: t in w.threads ==> !Recording(t)
    ensures Invariant(Next(w, s))
  {
    var w' := Next(w, s);
    match s
    case Advance(k, _, _) =>
      AdvanceKeeps(w, s);
      hide TimeKept, HashKept, CountsKept, ThreadStep;
      forall j | 0 <= j < |w'.threads| ensures Prepared(w', w'.threads[j]) {
        assert Prepared(w, w.threads[j]);
      }
    case Start(t) =>
      hide TimeKept, HashKept, CountsKept;
      SameRecord(w, w');
      forall j | 0 <= j < |w'.threads| ensures Prepared(w', w'.threads[j]) {
        assert j < |w.threads| ==> Prepared(w, w.threads[j]);
      }
    case Reset =>
      forall j | 0 <= j < |w'.threads| ensures Prepared(w', w'.threads[j]) {
        assert Prepared(w, w.threads[j]) && w.threads[j] in w.threads;
      }
  }

  lemma SameRecord(w: World, w': World)
    requires w'.stored == w.stored && w'.imports == w.imports
    ensures Kept(w, w') && Kept(w', w)
  {
  }

  lemma {:induction false} EveryRunKeeps(run: seq<Step>)
    requires After(run).Some? && ResetsApart(run)
    ensures Invariant(After(run).value)
  {
    hide Next, Invariant, Enabled;
    if |run| > 0 {
      EveryRunKeeps(run[..|run| - 1]);
      StepKeeps(After(run[..|run| - 1]).value, run[|run| - 1]);
    } else {
      NothingStored();
    }
  }

  lemma NothingStored()
    ensures Invariant(INITIAL)
  {
  }

  /**
   * At every point of every run, with crashes, toggles and several migrations
   * interleaved, authority `ops` comes after a committed import whose time, hash and
   * counts are stored.
   */
  lemma OpsIsRecorded(run: seq<Step>)
    requires After(run).Some? && ResetsApart(run) && After(run).value.stored.authority == Ops
    ensures var w := After(run).value;
      w.stored.migratedAt.Some? && w.stored.migratedHash.Some? && w.stored.migratedCounts.Some? &&
      (exists i :: i in w.imports && i.hash == w.stored.migratedHash.value) &&
      (exists i :: i in w.imports && i.counts == w.stored.migratedCounts.value)
  {
    hide After;
    EveryRunKeeps(run);
  }

  // ----- Intent -----

  predicate Enables(w: World, s: Step) {
    s.Advance? && s.index < |w.threads| && w.threads[s.index] == Toggling(true, SaveIntent)
  }

  /**
   * From the first write of disabling on, whatever is interrupted or goes on besides,
   * the effective mode is Standalone until Ops is enabled again.
   */
  lemma {:induction false} OffStaysStandalone(run: seq<Step>, j: nat)
    requires After(run).Some? && j <= |run| && After(run[..j]).Some? && !After(run[..j]).value.stored.intent
    requires forall i :: j <= i < |run| && After(run[..i]).Some? ==> !Enables(After(run[..i]).value, run[i])
    ensures !After(run).value.stored.intent
    ensures Effective(After(run).value.stored.intent, After(run).value.stored.authority) == Standalone
  {
    if j == |run| {
      assert run[..j] == run;
    } else {
      var before := run[..|run| - 1];
      forall i | 0 <= i <= |before| ensures before[..i] == run[..i] {
      }
      assert forall i :: j <= i < |before| ==> before[i] == run[i];
      OffStaysStandalone(before, j);
      IntentChange(After(before).value, run[|run| - 1]);
    }
  }

  lemma IntentChange(w: World, s: Step)
    requires Enabled(w, s) && !w.stored.intent && !Enables(w, s)
    ensures !Next(w, s).stored.intent
  {
  }

  /** A read of the mode that has seen the intent saw it on at some point. */
  lemma {:induction false} SeenIntentWasOn(run: seq<Step>, k: nat) returns (i: nat)
    requires After(run).Some? && k < |After(run).value.threads|
    requires After(run).value.threads[k] == Asking(Seen(true))
    ensures i <= |run| && After(run[..i]).Some? && After(run[..i]).value.stored.intent
  {
    var before := run[..|run| - 1];
    var w := After(before).value;
    if k < |w.threads| && w.threads[k] == Asking(Seen(true)) {
      i := SeenIntentWasOn(before, k);
      assert before[..i] == run[..i];
    } else {
      i := |run| - 1;
    }
  }

  /** A mode read as `ops` saw the intent on and, at the same time or later, authority with the companion. */
  lemma {:induction false} OpsAnswerWasSeen(run: seq<Step>, k: nat) returns (i: nat, j: nat)
    requires After(run).Some? && k < |After(run).value.threads|
    requires After(run).value.threads[k] == Asking(Returned(Ops))
    ensures i <= j <= |run| && After(run[..i]).Some? && After(run[..j]).Some?
    ensures After(run[..i]).value.stored.intent && After(run[..j]).value.stored.authority == Ops
  {
    var before := run[..|run| - 1];
    var w := After(before).value;
    if k < |w.threads| && w.threads[k] == Asking(Returned(Ops)) {
      i, j := OpsAnswerWasSeen(before, k);
      assert before[..i] == run[..i] && before[..j] == run[..j];
    } else {
      assert w.threads[k] == Asking(Seen(true));
      i := SeenIntentWasOn(before, k);
      j := |run| - 1;
      assert before[..i] == run[..i];
    }
  }

  // ----- When `ops` is the mode -----

  predicate BothAt(w: World) {
    w.stored.intent && w.stored.authority == Ops
  }

  /** Where a thread is in `readMode`, if it is there: alone or at the end of a toggle. */
  function ReadingOf(t: Thread): Option<Reading> {
    match t
    case Asking(reading) => Some(reading)
    case Toggling(_, Reread(reading)) => Some(reading)
    case _ => None
  }

  predicate At(w: World, k: nat, reading: Reading) {
    k < |w.threads| && ReadingOf(w.threads[k]) == Some(reading)
  }

  /** The step reads the authority and answers `ops`. */
  predicate AnswersOps(w: World, s: Step) {
    s.Advance? && Enabled(w, s) && At(w, s.index, Seen(true)) && At(Next(w, s), s.index, Returned(Ops))
  }

  /** An `ops` answer is true of the moment it is given exactly if the intent is still on then. */
  lemma OpsAnswerIsCurrentExactlyWithIntent(w: World, s: Step)
    requires AnswersOps(w, s)
    ensures BothAt(w) <==> w.stored.intent
  {
  }

  /** A step that takes the intent away: disabling, or a reset to the default settings. */
  predicate TakesIntent(w: World, s: Step) {
    s.Reset? || (s.Advance? && s.index < |w.threads| && w.threads[s.index] == Toggling(false, SaveIntent))
  }

  lemma IntentStaysOn(w: World, s: Step)
    requires Enabled(w, s) && w.stored.intent && !TakesIntent(w, s)
    ensures Next(w, s).stored.intent
  {
  }

  predicate KeepsIntent(run: seq<Step>, i: nat) {
    i < |run| && After(run[..i]).Some? ==> !TakesIntent(After(run[..i]).value, run[i])
  }

  lemma {:induction false} IntentLasts(run: seq<Step>, i: nat)
    requires After(run).Some? && i <= |run| && After(run[..i]).Some? && After(run[..i]).value.stored.intent
    requires forall j: nat :: i <= j ==> KeepsIntent(run, j)
    ensures After(run).value.stored.intent
  {
    hide Next, Enabled, TakesIntent;
    if i == |run| {
      assert run[..i] == run;
    } else {
      var before := run[..|run| - 1];
      assert before[..i] == run[..i];
      forall j: nat | i <= j ensures KeepsIntent(before, j) {
        assert KeepsIntent(run, j);
        if j < |before| {
          assert before[..j] == run[..j] && before[j] == run[j];
        }
      }
      IntentLasts(before, i);
      assert KeepsIntent(run, |run| - 1);
      IntentStaysOn(After(before).value, run[|run| - 1]);
    }
  }

  /** The step by which a thread comes to have seen the intent on. */
  lemma SeeingTheIntent(w: World, s: Step, k: nat)
    requires Enabled(w, s) && !At(w, k, Seen(true)) && At(Next(w, s), k, Seen(true))
    ensures Next(w, s).stored.intent
  {
  }

  /**
   * If neither a disabling nor a reset falls between the two reads, an `ops` answer is
   * true of the moment it is given: intent and authority stand together. The first read
   * is the step `i` of thread `k`, the second the step `s`.
   */
  lemma OpsAnswerIsCurrent(run: seq<Step>, i: nat, s: Step)
    requires After(run).Some? && AnswersOps(After(run).value, s)
    requires i < |run| && After(run[..i]).Some? && After(run[..i + 1]).Some?
    requires !At(After(run[..i]).value, s.index, Seen(true)) && At(After(run[..i + 1]).value, s.index, Seen(true))
    requires forall j: nat :: i + 1 <= j ==> KeepsIntent(run, j)
    ensures BothAt(After(run).value)
  {
    assert run[..i + 1][..i] == run[..i] && run[..i + 1][i] == run[i];
    SeeingTheIntent(After(run[..i]).value, run[i], s.index);
    hide Next, Enabled;
    IntentLasts(run, i + 1);
    OpsAnswerIsCurrentExactlyWithIntent(After(run).value, s);
  }

  // ----- What does not hold -----

  /** Intent and authority never stood together. */
  predicate NeverBoth(run: seq<Step>) {
    forall i :: 0 <= i <= |run| && After(run[..i]).Some? ==> !BothAt(After(run[..i]).value)
  }

  lemma Extend(run: seq<Step>, w: World, s: Step) returns (longer: seq<Step>, w': World)
    requires After(run) == Some(w) && NeverBoth(run) && Enabled(w, s) && !BothAt(Next(w, s))
    ensures longer == run + [s] && w' == Next(w, s) && After(longer) == Some(w') && NeverBoth(longer)
  {
    longer, w' := run + [s], Next(w, s);
    assert longer[..|longer| - 1] == run;
    forall i | 0 <= i <= |longer| && After(longer[..i]).Some? ensures !BothAt(After(longer[..i]).value) {
      if i <= |run| {
        assert longer[..i] == run[..i];
      } else {
        assert longer[..i] == longer;
      }
    }
  }

  /** With the intent on, a confirmed migration is about to switch. */
  lemma AboutToSwitch(snapshot: Snapshot) returns (run: seq<Step>, w: World)
    ensures After(run) == Some(w) && NeverBoth(run) && w.stored.intent && w.stored.authority == Migration
    ensures w.threads == [Toggling(true, Reread(Seen(true))), Confirming(snapshot, Commit)]
  {
    hide After, NeverBoth;
    var some := Imported(None);
    run, w := [], INITIAL;
    NothingYet();
    run, w := Extend(run, w, Start(Toggling(true, SaveIntent)));
    run, w := Extend(run, w, Advance(0, some, 0));
    run, w := Extend(run, w, Start(Confirming(snapshot, Begin)));
    run, w := Extend(run, w, Advance(1, some, 0));
    run, w := Extend(run, w, Advance(1, some, 0));
    run, w := Extend(run, w, Advance(1, some, 0));
    run, w := Extend(run, w, Advance(1, some, 0));
    run, w := Extend(run, w, Advance(1, some, 0));
  }

  /**
   * The two reads are apart, so `ops` can be answered although intent and authority
   * never stood together: the intent goes off between the reads, and a migration that
   * was confirmed before switches authority after.
   */
  lemma OpsAnswerWithoutOpsMode(snapshot: Snapshot) returns (run: seq<Step>, k: nat)
    ensures After(run).Some? && NeverBoth(run) && k < |After(run).value.threads|
    ensures After(run).value.threads[k] == Asking(Returned(Ops))
  {
    hide After, NeverBoth;
    var w;
    run, w := AboutToSwitch(snapshot);
    run, w := Extend(run, w, Start(Asking(LoadSettings)));
    run, w := Extend(run, w, Advance(2, Refused, 0));
    run, w := Extend(run, w, Start(Toggling(false, SaveIntent)));
    run, w := Extend(run, w, Advance(3, Refused, 0));
    run, w := Extend(run, w, Advance(1, Refused, 0));
    run, w := Extend(run, w, Advance(2, Refused, 0));
    k := 2;
  }

  lemma NothingYet()
    ensures After([]) == Some(INITIAL) && NeverBoth([])
  {
  }

  // ----- When a reset is safe -----

  /** One more step of thread `k`. */
  lemma Proceed(run: seq<Step>, w: World, k: nat) returns (longer: seq<Step>, w': World)
    requires After(run) == Some(w) && k < |w.threads| && !Over(w.threads[k])
    ensures longer == run + [Advance(k, Refused, 0)] && w' == Next(w, Advance(k, Refused, 0)) && After(longer) == Some(w')
  {
    longer, w' := run + [Advance(k, Refused, 0)], Next(w, Advance(k, Refused, 0));
    assert longer[..|longer| - 1] == run;
  }

  /** The longer run goes on without a reset. */
  predicate GoesOn(run: seq<Step>, longer: seq<Step>) {
    run <= longer && forall i :: |run| <= i < |longer| ==> !longer[i].Reset?
  }

  /** A recording migration switches authority whether or not its time is still there. */
  lemma {:induction false} RecordingSwitches(run: seq<Step>, w: World, k: nat) returns (longer: seq<Step>)
    requires After(run) == Some(w) && k < |w.threads| && Recording(w.threads[k]) && w.stored.migratedAt == None
    ensures GoesOn(run, longer) && After(longer).Some?
    ensures After(longer).value.stored.authority == Ops && After(longer).value.stored.migratedAt == None
    decreases Left(w.threads[k].at)
  {
    hide After;
    var w';
    longer, w' := Proceed(run, w, k);
    if !w.threads[k].at.Commit? {
      longer := RecordingSwitches(longer, w', k);
    }
  }

  /**
   * Whenever a migration is recording, a reset can leave authority `ops` without the
   * time of its import. The guard of a reset keeps writes of its own context from
   * coming between, so this takes two contexts.
   */
  lemma ResetWhileRecording(run: seq<Step>, k: nat) returns (longer: seq<Step>)
    requires After(run).Some? && k < |After(run).value.threads| && Recording(After(run).value.threads[k])
    ensures GoesOn(run + [Reset], longer) && After(longer).Some?
    ensures After(longer).value.stored.authority == Ops && After(longer).value.stored.migratedAt == None
  {
    var w := After(run).value;
    assert (run + [Reset])[..|run|] == run;
    assert After(run + [Reset]) == Some(Next(w, Reset));
    longer := RecordingSwitches(run + [Reset], Next(w, Reset), k);
  }

  lemma {:induction false} ApartWithoutResets(run: seq<Step>, longer: seq<Step>)
    requires GoesOn(run, longer) && After(longer).Some? && After(run).Some? && ResetsApart(run)
    ensures ResetsApart(longer)
  {
    hide Next, Enabled;
    if |longer| == |run| {
      assert longer == run;
    } else {
      ApartWithoutResets(run, longer[..|longer| - 1]);
    }
  }

  predicate OpsRecorded(w: World) {
    w.stored.authority == Ops ==>
      w.stored.migratedAt.Some? && w.stored.migratedHash.Some? && w.stored.migratedCounts.Some?
  }

  /** However the run goes on, without another reset, `ops` stays recorded. */
  predicate StaysRecorded(run: seq<Step>, longer: seq<Step>) {
    GoesOn(run, longer) && After(longer).Some? ==> OpsRecorded(After(longer).value)
  }

  /** A reset keeps the promise of `OpsIsRecorded` exactly if no migration is recording. */
  lemma ResetIsSafeExactlyApart(run: seq<Step>)
    requires After(run).Some? && ResetsApart(run)
    ensures (forall t :: t in After(run).value.threads ==> !Recording(t)) <==>
      forall longer: seq<Step> :: StaysRecorded(run + [Reset], longer)
  {
    hide Recording, Next, GoesOn;
    var w := After(run).value;
    assert (run + [Reset])[..|run|] == run;
    if forall t :: t in w.threads ==> !Recording(t) {
      forall longer: seq<Step> ensures StaysRecorded(run + [Reset], longer) {
        if GoesOn(run + [Reset], longer) && After(longer).Some? {
          ApartWithoutResets(run + [Reset], longer);
          RunIsRecorded(longer);
        }
      }
    } else {
      var k :| 0 <= k < |w.threads| && Recording(w.threads[k]);
      var longer := ResetWhileRecording(run, k);
      assert !StaysRecorded(run + [Reset], longer);
    }
  }

  lemma RunIsRecorded(run: seq<Step>)
    requires After(run).Some? && ResetsApart(run)
    ensures OpsRecorded(After(run).value)
  {
    hide After, ResetsApart;
    if After(run).value.stored.authority == Ops {
      OpsIsRecorded(run);
    }
  }

  // ----- One import or several -----

  /** The migration that began last, since the last reset. */
  function LastBegun(run: seq<Step>): Option<nat>
    requires After(run).Some?
  {
    if |run| == 0 || run[|run| - 1].Reset? then None
    else
      var w, s := After(run[..|run| - 1]).value, run[|run| - 1];
      if s.Advance? && w.threads[s.index].Confirming? && w.threads[s.index].at == Begin then Some(s.index)
      else LastBegun(run[..|run| - 1])
  }

  /**
   * Only the migration that began last writes a hash, writes counts or switches: none that
   * another one, or a reset, has overtaken.
   */
  predicate GoesOnAlone(w: World, s: Step, last: Option<nat>)
    requires Enabled(w, s)
  {
    s.Advance? && w.threads[s.index].Confirming? &&
    (w.threads[s.index].at.PutHash? || w.threads[s.index].at.PutCounts? || w.threads[s.index].at.Commit?) ==>
      last == Some(s.index)
  }

  predicate OneByOne(run: seq<Step>)
    requires After(run).Some?
  {
    |run| > 0 ==>
      OneByOne(run[..|run| - 1]) &&
      GoesOnAlone(After(run[..|run| - 1]).value, run[|run| - 1], LastBegun(run[..|run| - 1]))
  }

  /** Time, hash and counts are stored, the last two of one committed import. */
  predicate OneImport(w: World) {
    w.stored.migratedAt.Some? && w.stored.migratedHash.Some? && w.stored.migratedCounts.Some? &&
    Snapshot(w.stored.migratedHash.value, w.stored.migratedCounts.value) in w.imports
  }

  /** What the migration that began last has written by each of its points. */
  predicate Alone(w: World, k: nat) {
    k < |w.threads| && w.threads[k].Confirming? &&
    var t := w.threads[k];
    t.at != Begin && (t.at != Confirmed ==> w.stored.authority != Ops) &&
    (t.at.PutTime? || Recording(t) ==> t.snapshot in w.imports) &&
    (Recording(t) ==> w.stored.migratedAt.Some?) &&
    (Recording(t) && !t.at.PutHash? ==> w.stored.migratedHash == Some(t.snapshot.hash)) &&
    (t.at.PutCheckpoint? || t.at.Commit? ==> w.stored.migratedCounts == Some(t.snapshot.counts))
  }

  predicate AloneInvariant(w: World, last: Option<nat>) {
    (w.stored.authority == Ops ==> OneImport(w)) && (last.Some? ==> Alone(w, last.value))
  }

  lemma AloneKept(w: World, s: Step, last: Option<nat>)
    requires Enabled(w, s) && AloneInvariant(w, last) && GoesOnAlone(w, s, last)
    ensures AloneInvariant(Next(w, s),
      if s.Reset? then None
      else if s.Advance? && w.threads[s.index].Confirming? && w.threads[s.index].at == Begin then Some(s.index)
      else last)
  {
  }

  lemma {:induction false} EveryRunAlone(run: seq<Step>)
    requires After(run).Some? && OneByOne(run)
    ensures AloneInvariant(After(run).value, LastBegun(run))
  {
    hide Next, Enabled, GoesOnAlone, AloneInvariant;
    if |run| > 0 {
      EveryRunAlone(run[..|run| - 1]);
      AloneKept(After(run[..|run| - 1]).value, run[|run| - 1], LastBegun(run[..|run| - 1]));
    } else {
      NothingAlone();
    }
  }

  lemma NothingAlone()
    ensures AloneInvariant(INITIAL, None)
  {
  }

  /**
   * If no migration goes on to record or switch after another one has begun, or after a
   * reset, authority `ops` comes with time, hash and counts of one committed import,
   * whenever resets fall.
   */
  lemma OpsIsOfOneImport(run: seq<Step>)
    requires After(run).Some? && OneByOne(run) && After(run).value.stored.authority == Ops
    ensures OneImport(After(run).value)
  {
    hide After, OneByOne, LastBegun;
    EveryRunAlone(run);
  }

  /** Two migrations that interleave can switch with the hash of one and the counts of the other. */
  lemma TwoImportsMix(a: Snapshot, b: Snapshot) returns (run: seq<Step>)
    requires a.hash != b.hash && a.counts != b.counts
    ensures After(run).Some? && ResetsApart(run) && !OneByOne(run)
    ensures After(run).value.stored.authority == Ops && !OneImport(After(run).value)
  {
    hide After, NeverBoth, ResetsApart, OneByOne;
    var some := Imported(None);
    var w := INITIAL;
    run := [];
    NothingYet();
    run, w := Extend(run, w, Start(Confirming(a, Begin)));
    run, w := Extend(run, w, Start(Confirming(b, Begin)));
    run, w := Extend(run, w, Advance(0, some, 0));
    run, w := Extend(run, w, Advance(1, some, 0));
    run, w := Extend(run, w, Advance(0, some, 0));
    run, w := Extend(run, w, Advance(1, some, 0));
    run, w := Extend(run, w, Advance(0, some, 0));
    run, w := Extend(run, w, Advance(1, some, 0));
    run, w := Extend(run, w, Advance(0, some, 0));
    run, w := Extend(run, w, Advance(1, some, 0));
    run, w := Extend(run, w, Advance(0, some, 0));
    run, w := Extend(run, w, Advance(0, some, 0));
    NoResets(run);
    if OneByOne(run) {
      OpsIsOfOneImport(run);
    }
  }

  lemma {:induction false} NoResets(run: seq<Step>)
    requires After(run).Some? && forall i :: 0 <= i < |run| ==> !run[i].Reset?
    ensures ResetsApart(run)
  {
    if |run| > 0 {
      NoResets(run[..|run| - 1]);
    }
  }

  // ----- When a migration may begin -----

  /** A migration that has begun and can still switch. */
  predicate UnderWay(t: Thread) {
    t.Confirming? && (t.at == Import || t.at.PutTime? || Recording(t))
  }

  predicate NoneUnderWay(w: World) {
    forall t :: t in w.threads ==> !UnderWay(t)
  }

  predicate Begins(w: World, s: Step) {
    s.Advance? && s.index < |w.threads| && w.threads[s.index].Confirming? && w.threads[s.index].at == Begin
  }

  /** The longer run goes on without a reset and without another beginning. */
  predicate Undisturbed(run: seq<Step>, longer: seq<Step>)
    requires After(longer).Some?
  {
    if |longer| <= |run| then longer == run
    else
      Undisturbed(run, longer[..|longer| - 1]) && !longer[|longer| - 1].Reset? &&
      !Begins(After(longer[..|longer| - 1]).value, longer[|longer| - 1])
  }

  /** The run in which one more migration begins. */
  function Beginning(run: seq<Step>, k: nat, snapshot: Snapshot): seq<Step> {
    run + [Start(Confirming(snapshot, Begin))] + [Advance(k, Refused, 0)]
  }

  lemma BeginningIsPossible(run: seq<Step>, snapshot: Snapshot)
    requires After(run).Some?
    ensures var w := After(run).value;
      After(Beginning(run, |w.threads|, snapshot)) ==
        Some(w.(stored := w.stored.(authority := Migration), threads := w.threads + [Confirming(snapshot, Import)]))
  {
    var w := After(run).value;
    var first := run + [Start(Confirming(snapshot, Begin))];
    assert first[..|run|] == run;
    assert Beginning(run, |w.threads|, snapshot)[..|first|] == first;
    var threads := w.threads + [Confirming(snapshot, Begin)];
    assert threads[|w.threads| := Confirming(snapshot, Import)] == w.threads + [Confirming(snapshot, Import)];
  }

  /** After the beginning, `ops` has come only with one import. */
  predicate KeepsOneImport(run: seq<Step>, longer: seq<Step>) {
    After(longer).Some? && Undisturbed(run, longer) && After(longer).value.stored.authority == Ops ==>
      OneImport(After(longer).value)
  }

  ghost predicate MayBegin(run: seq<Step>, snapshot: Snapshot)
    requires After(run).Some?
  {
    forall longer: seq<Step> :: KeepsOneImport(Beginning(run, |After(run).value.threads|, snapshot), longer)
  }

  /** Besides thread `k` no migration is under way. */
  predicate OthersIdle(w: World, k: nat) {
    forall j :: 0 <= j < |w.threads| && j != k ==> !UnderWay(w.threads[j])
  }

  lemma OthersStayIdle(w: World, s: Step, k: nat)
    requires Enabled(w, s) && OthersIdle(w, k) && k < |w.threads| && !Begins(w, s)
    ensures OthersIdle(Next(w, s), k) && k < |Next(w, s).threads|
    ensures GoesOnAlone(w, s, Some(k))
  {
  }

  lemma {:induction false} AloneToTheEnd(run: seq<Step>, longer: seq<Step>, k: nat)
    requires After(run).Some? && OthersIdle(After(run).value, k) && AloneInvariant(After(run).value, Some(k))
    requires After(longer).Some? && Undisturbed(run, longer)
    ensures OthersIdle(After(longer).value, k) && AloneInvariant(After(longer).value, Some(k))
  {
    hide Next, Enabled, OthersIdle, Begins, GoesOnAlone;
    if |longer| > |run| {
      var before, s := longer[..|longer| - 1], longer[|longer| - 1];
      AloneToTheEnd(run, before, k);
      OthersStayIdle(After(before).value, s, k);
      BeginsUnfolds(After(before).value, s);
      AloneKept(After(before).value, s, Some(k));
    }
  }

  lemma BeginsUnfolds(w: World, s: Step)
    requires Enabled(w, s)
    ensures Begins(w, s) <==> s.Advance? && w.threads[s.index].Confirming? && w.threads[s.index].at == Begin
  {
  }

  /** Thread `k` takes one more step. */
  lemma ProceedUndisturbed(base: seq<Step>, run: seq<Step>, w: World, k: nat, answer: Answer)
    returns (longer: seq<Step>, w': World)
    requires After(run) == Some(w) && Undisturbed(base, run) && k < |w.threads| && UnderWay(w.threads[k])
    ensures w' == Next(w, Advance(k, answer, 0)) && After(longer) == Some(w') && Undisturbed(base, longer)
  {
    longer, w' := run + [Advance(k, answer, 0)], Next(w, Advance(k, answer, 0));
    assert longer[..|longer| - 1] == run;
    UndisturbedIsLonger(base, run);
  }

  lemma {:induction false} UndisturbedIsLonger(base: seq<Step>, run: seq<Step>)
    requires After(run).Some? && Undisturbed(base, run)
    ensures |run| >= |base|
  {
  }

  /** The snapshots committed so far, and what this migration may add. */
  predicate Advanced(w: World, w': World, j: nat)
    requires j < |w.threads| && w.threads[j].Confirming?
  {
    var snapshot := w.threads[j].snapshot;
    w'.threads == w.threads[j := Confirming(snapshot, Commit)] && w'.imports <= w.imports + {snapshot} &&
    (w'.stored.migratedCounts == w.stored.migratedCounts || w'.stored.migratedCounts == Some(snapshot.counts))
  }

  /** A migration under way can come to the point where it only has to switch. */
  lemma {:induction false} ComesToCommit(base: seq<Step>, run: seq<Step>, w: World, j: nat)
    returns (longer: seq<Step>, w': World)
    requires After(run) == Some(w) && Undisturbed(base, run) && j < |w.threads| && UnderWay(w.threads[j])
    ensures After(longer) == Some(w') && Undisturbed(base, longer) && Advanced(w, w', j)
    decreases Left(w.threads[j].at)
  {
    hide After, Undisturbed;
    if w.threads[j].at.Commit? {
      longer, w' := run, w;
    } else {
      var w1;
      longer, w1 := ProceedUndisturbed(base, run, w, j, Imported(None));
      longer, w' := ComesToCommit(base, longer, w1, j);
    }
  }

  /** Counts that are neither of these. */
  lemma OtherCounts(a: map<Text, nat>, b: map<Text, nat>) returns (counts: map<Text, nat>)
    ensures counts != a && counts != b
  {
    var none: map<Text, nat>, zero: map<Text, nat>, one: map<Text, nat> := map[], map[[] := 0], map[[] := 1];
    assert zero[[]] == 0 && one[[]] == 1 && [] !in none;
    counts := if none != a && none != b then none else if zero != a && zero != b then zero else one;
  }

  /** The new migration writes its time and hash, then the old one switches. */
  lemma SwitchesMixed(base: seq<Step>, run: seq<Step>, w: World, j: nat, k: nat) returns (longer: seq<Step>, w': World)
    requires After(run) == Some(w) && Undisturbed(base, run) && j < k < |w.threads|
    requires w.threads[j].Confirming? && w.threads[j].at == Commit
    requires w.threads[k].Confirming? && w.threads[k].at == Import
    ensures After(longer) == Some(w') && Undisturbed(base, longer) && w'.stored.authority == Ops
    ensures w'.stored.migratedHash == Some(w.threads[k].snapshot.hash)
    ensures w'.stored.migratedCounts == w.stored.migratedCounts && w'.imports == w.imports + {w.threads[k].snapshot}
  {
    hide After, Undisturbed;
    longer, w' := ProceedUndisturbed(base, run, w, k, Imported(None));
    longer, w' := ProceedUndisturbed(base, longer, w', k, Refused);
    longer, w' := ProceedUndisturbed(base, longer, w', k, Refused);
    longer, w' := ProceedUndisturbed(base, longer, w', j, Refused);
  }

  /** A snapshot whose hash is new and whose counts are neither stored nor those of this migration. */
  lemma UnlikeSnapshot(w: World, first: Snapshot) returns (snapshot: Snapshot)
    ensures forall i :: i in w.imports + {first} ==> i.hash != snapshot.hash
    ensures w.stored.migratedCounts != Some(snapshot.counts) && first.counts != snapshot.counts
  {
    var hash := FreshText(set i | i in w.imports + {first} :: i.hash);
    var counts := OtherCounts(first.counts,
      if w.stored.migratedCounts.Some? then w.stored.migratedCounts.value else first.counts);
    snapshot := Snapshot(hash, counts);
  }

  lemma MixedIsNotOneImport(w: World, w': World, first: Snapshot, snapshot: Snapshot)
    requires forall i :: i in w.imports + {first} ==> i.hash != snapshot.hash
    requires w.stored.migratedCounts != Some(snapshot.counts) && first.counts != snapshot.counts
    requires w'.imports <= w.imports + {first, snapshot} && w'.stored.migratedHash == Some(snapshot.hash)
    requires w'.stored.migratedCounts == w.stored.migratedCounts || w'.stored.migratedCounts == Some(first.counts)
    ensures !OneImport(w')
  {
  }

  lemma NothingDisturbs(run: seq<Step>)
    requires After(run).Some?
    ensures Undisturbed(run, run)
  {
  }

  /**
   * While a migration is under way, another one that begins can give the first one's
   * switch its own hash: `ops` then has the hash of one import and the counts of another.
   */
  lemma BeginningMixes(run: seq<Step>, j: nat) returns (snapshot: Snapshot, longer: seq<Step>)
    requires After(run).Some? && j < |After(run).value.threads| && UnderWay(After(run).value.threads[j])
    ensures !KeepsOneImport(Beginning(run, |After(run).value.threads|, snapshot), longer)
  {
    hide After, Undisturbed, Beginning, OneImport, Next;
    var w0 := After(run).value;
    var k, first := |w0.threads|, w0.threads[j].snapshot;
    snapshot := UnlikeSnapshot(w0, first);
    var base := Beginning(run, k, snapshot);
    BeginningIsPossible(run, snapshot);
    NothingDisturbs(base);
    var w1 := After(base).value;
    var w2, w3;
    longer, w2 := ComesToCommit(base, base, w1, j);
    longer, w3 := SwitchesMixed(base, longer, w2, j, k);
    MixedIsNotOneImport(w0, w3, first, snapshot);
  }

  /**
   * A migration may begin, whatever it carries and however the run goes on to the next
   * beginning or reset, exactly if no other one is under way.
   */
  lemma MigrationMayBeginExactlyAlone(run: seq<Step>)
    requires After(run).Some?
    ensures NoneUnderWay(After(run).value) <==> forall snapshot: Snapshot :: MayBegin(run, snapshot)
  {
    var w := After(run).value;
    hide Next, Enabled, Beginning, KeepsOneImport, UnderWay, After;
    if NoneUnderWay(w) {
      forall snapshot: Snapshot ensures MayBegin(run, snapshot) {
        forall longer: seq<Step> ensures KeepsOneImport(Beginning(run, |w.threads|, snapshot), longer) {
          BeginsAlone(run, snapshot, longer);
        }
      }
    } else {
      var t :| t in w.threads && UnderWay(t);
      var j :| 0 <= j < |w.threads| && w.threads[j] == t;
      var snapshot, longer := BeginningMixes(run, j);
      assert !MayBegin(run, snapshot);
    }
  }

  lemma BeginsAlone(run: seq<Step>, snapshot: Snapshot, longer: seq<Step>)
    requires After(run).Some? && NoneUnderWay(After(run).value)
    ensures KeepsOneImport(Beginning(run, |After(run).value.threads|, snapshot), longer)
  {
    hide After, Beginning, Undisturbed;
    var k := |After(run).value.threads|;
    BeginningIsPossible(run, snapshot);
    var base := Beginning(run, k, snapshot);
    assert OthersIdle(After(base).value, k) && AloneInvariant(After(base).value, Some(k));
    if After(longer).Some? && Undisturbed(base, longer) {
      AloneToTheEnd(base, longer, k);
    }
  }
}
