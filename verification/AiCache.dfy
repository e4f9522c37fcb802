/**
 * The AI request cache: index rows in one table, result values in another, and
 * the order in which each operation writes the two.
 */
module AiCache {
  import opened JsText
  import opened JsonTree

  type RowId = Text

  datatype Kind = AnalysisResult | LetterResult

  datatype Row = Row(
    kind: Kind, inputHash: Text, provider: Text, model: Text, promptVersion: Text,
    planHash: Option<Text>, resultRef: Text, createdAt: int, expiresAt: Option<int>)

  datatype Tables = Tables(meta: map<Text, Json>, rows: map<RowId, Row>)

  datatype Write =
    | PutMeta(key: Text, value: Json)
    | PutRow(id: RowId, row: Row)
    | DeleteRow(id: RowId)
    | DeleteRows(hash: Option<Text>)
    | DeleteMeta(keys: set<Text>)

  // ----- Keys -----

  const ANALYSIS_PREFIX := "ai_analysis_"

  const LETTER_PREFIX := "ai_cover_letter_"

  function MetaKey(kind: Kind, resultRef: Text): Text {
    Lit(if kind.LetterResult? then LETTER_PREFIX else ANALYSIS_PREFIX) + resultRef
  }

  function KeyOf(row: Row): Text {
    MetaKey(row.kind, row.resultRef)
  }

  lemma MetaKeyInjective(k: Kind, r: Text, k': Kind, r': Text)
    ensures MetaKey(k, r) == MetaKey(k', r') <==> k == k' && r == r'
  {
    var a, b := MetaKey(k, r), MetaKey(k', r');
    assert a[3] == (if k.LetterResult? then 0x63 else 0x61);
    assert b[3] == (if k'.LetterResult? then 0x63 else 0x61);
    if k == k' {
      var n := |a| - |r|;
      assert a[n..] == r && b[n..] == r';
    }
  }

  // ----- Single writes -----

  /** `inputHash ? rows of that hash : all rows`; an empty hash selects all rows too. */
  predicate Selects(hash: Option<Text>, row: Row) {
    hash == None || hash == Some([]) || row.inputHash == hash.value
  }

  function Selected(t: Tables, hash: Option<Text>): set<RowId> {
    set id | id in t.rows && Selects(hash, t.rows[id])
  }

  function KeysOf(rows: map<RowId, Row>, ids: set<RowId>): set<Text>
    requires ids <= rows.Keys
  {
    set id | id in ids :: KeyOf(rows[id])
  }

  function Apply(t: Tables, w: Write): Tables {
    match w
    case PutMeta(key, value) => t.(meta := t.meta[key := value])
    case PutRow(id, row) => t.(rows := t.rows[id := row])
    case DeleteRow(id) => t.(rows := t.rows - {id})
    case DeleteRows(hash) => t.(rows := t.rows - Selected(t, hash))
    case DeleteMeta(keys) => t.(meta := t.meta - keys)
  }

  function ApplyAll(t: Tables, ws: seq<Write>): Tables {
    if |ws| == 0 then t else Apply(ApplyAll(t, ws[..|ws| - 1]), ws[|ws| - 1])
  }

  lemma ApplyOne(t: Tables, a: Write)
    ensures ApplyAll(t, [a]) == Apply(t, a)
  {
    assert [a][..0] == [];
  }

  lemma ApplyTwo(t: Tables, a: Write, b: Write)
    ensures ApplyAll(t, [a, b]) == Apply(Apply(t, a), b)
  {
    assert [a, b][..1] == [a];
    ApplyOne(t, a);
  }

  // ----- The writes of each operation, in order -----

  function StoreProgram(id: RowId, row: Row, value: Json): seq<Write> {
    [PutMeta(KeyOf(row), value), PutRow(id, row)]
  }

  function ExpireProgram(id: RowId, row: Row): seq<Write> {
    [DeleteRow(id), DeleteMeta({KeyOf(row)})]
  }

  /** Invalidation deletes the values of the rows it read before. */
  function InvalidateProgram(hash: Option<Text>, keys: set<Text>): seq<Write> {
    [DeleteRows(hash)] + if keys == {} then [] else [DeleteMeta(keys)]
  }

  // ----- Lookups -----

  datatype Query = Query(
    inputHash: Text, kind: Kind, provider: Text, model: Text, promptVersion: Text, planHash: Option<Text>)

  predicate Matches(row: Row, q: Query) {
    row.inputHash == q.inputHash && row.kind == q.kind && row.provider == q.provider && row.model == q.model &&
    row.promptVersion == q.promptVersion && (q.planHash.Some? ==> row.planHash == q.planHash)
  }

  /** `candidates.find`: the first match in the order of the row ids, by code units. */
  predicate IsFirstMatch(rows: map<RowId, Row>, q: Query, id: RowId) {
    id in rows && Matches(rows[id], q) &&
    forall other :: other in rows && Matches(rows[other], q) ==> other == id || Less(id, other)
  }

  lemma {:induction false} LeastId(ids: set<RowId>) returns (id: RowId)
    requires ids != {}
    ensures id in ids && forall other :: other in ids ==> other == id || Less(id, other)
  {
    id :| id in ids;
    if ids != {id} {
      var least := LeastId(ids - {id});
      LessTotal(id, least);
      if Less(least, id) {
        id := least;
      } else {
        forall other | other in ids && other != id ensures Less(id, other) {
          if other != least {
            LessTransitive(id, least, other);
          }
        }
      }
    }
  }

  /** Row ids are told apart, so the first match is one row. */
  lemma FirstMatchIsUnique(rows: map<RowId, Row>, q: Query, a: RowId, b: RowId)
    requires IsFirstMatch(rows, q, a) && IsFirstMatch(rows, q, b)
    ensures a == b
  {
    LessTotal(a, b);
  }

  predicate Expired(row: Row, now: int) {
    row.expiresAt.Some? && row.expiresAt.value < now
  }

  /** The text of a cached letter: stored bare, or as a record with the job it belongs to. */
  function LetterText(value: Json): Option<Text> {
    match value
    case String(s) => Some(s)
    case Object(fields) =>
      if Lit("letter") in KeySet(fields) && fields[IndexOf(fields, Lit("letter"))].value.String?
      then Some(fields[IndexOf(fields, Lit("letter"))].value.s)
      else None
    case _ => None
  }

  /** What a loader makes of a stored value. */
  function Loaded(kind: Kind, value: Json): Option<Json> {
    if kind.AnalysisResult? then if value.Null? || value.Undefined? then None else Some(value)
    else if LetterText(value).Some? then Some(String(LetterText(value).value)) else None
  }

  function Load(t: Tables, row: Row): Option<Json> {
    if KeyOf(row) in t.meta then Loaded(row.kind, t.meta[KeyOf(row)]) else None
  }

  datatype Lookup = Hit(value: Json, id: RowId) | Miss

  /** What a letter is stored as: a record with its job, if the job is named. */
  function LetterValue(letter: Text, jobId: Option<Text>): Json {
    if jobId.Some? && |jobId.value| > 0
    then Object([Field(Lit("jobId"), String(jobId.value)), Field(Lit("letter"), String(letter))])
    else String(letter)
  }

  /** A stored letter is loaded back as it was, whatever job it is linked to. */
  lemma LetterRoundTrip(letter: Text, jobId: Option<Text>)
    ensures LetterText(LetterValue(letter, jobId)) == Some(letter)
  {
    if LetterValue(letter, jobId).Object? {
      var fields := LetterValue(letter, jobId).fields;
      assert |Lit("jobId")| == 5 && |Lit("letter")| == 6;
      assert fields[1].key in KeySet(fields);
    }
  }

  // ----- The cache the extension updates -----

  class Cache {
    var meta: map<Text, Json>
    var rows: map<RowId, Row>
    ghost var writes: seq<Write>

    function State(): Tables
      reads this
    {
      Tables(meta, rows)
    }

    /** From a state and a history of writes, exactly these writes were made, in this order. */
    ghost predicate Wrote(before: Tables, history: seq<Write>, program: seq<Write>)
      reads this
    {
      State() == ApplyAll(before, program) && writes == history + program
    }

    constructor ()
      ensures State() == Tables(map[], map[]) && writes == []
    {
      meta, rows, writes := map[], map[], [];
    }

    method StoreCoverLetterCache(q: Query, letter: Text, jobId: Option<Text>, resultRef: Text, id: RowId, now: int)
      modifies this
      ensures Wrote(old(State()), old(writes),
        StoreProgram(id, Row(LetterResult, q.inputHash, q.provider, q.model, q.promptVersion, q.planHash, resultRef, now, None),
          LetterValue(letter, jobId)))
      ensures rows == old(rows)[id :=
        Row(LetterResult, q.inputHash, q.provider, q.model, q.promptVersion, q.planHash, resultRef, now, None)]
      ensures var key := Lit("ai_cover_letter_") + resultRef;
        key in meta && meta == old(meta)[key := meta[key]] && LetterText(meta[key]) == Some(letter)
    {
      LetterRoundTrip(letter, jobId);
      hide LetterText;
      var value := if jobId.Some? && |jobId.value| > 0
        then Object([Field(Lit("jobId"), String(jobId.value)), Field(Lit("letter"), String(letter))])
        else String(letter);
      StoreRow(id, Row(LetterResult, q.inputHash, q.provider, q.model, q.promptVersion, q.planHash, resultRef, now, None), value);
    }

    /** The analysis brings its own id. */
    method StoreAnalysisCache(q: Query, analysis: Json, analysisId: Text, id: RowId, now: int)
      modifies this
      ensures Wrote(old(State()), old(writes),
        StoreProgram(id, Row(AnalysisResult, q.inputHash, q.provider, q.model, q.promptVersion, q.planHash, analysisId, now, None),
          analysis))
      ensures rows == old(rows)[id :=
        Row(AnalysisResult, q.inputHash, q.provider, q.model, q.promptVersion, q.planHash, analysisId, now, None)]
      ensures meta == old(meta)[Lit("ai_analysis_") + analysisId := analysis]
    {
      StoreRow(id, Row(AnalysisResult, q.inputHash, q.provider, q.model, q.promptVersion, q.planHash, analysisId, now, None), analysis);
    }

    method StoreRow(id: RowId, row: Row, value: Json)
      modifies this
      ensures Wrote(old(State()), old(writes), StoreProgram(id, row, value))
      ensures rows == old(rows)[id := row] && meta == old(meta)[KeyOf(row) := value]
    {
      ghost var before := State();
      meta := meta[KeyOf(row) := value];
      writes := writes + [PutMeta(KeyOf(row), value)];
      rows := rows[id := row];
      writes := writes + [PutRow(id, row)];
      ApplyTwo(before, PutMeta(KeyOf(row), value), PutRow(id, row));
    }

    /** `invalidateCache`: the number of rows it read. */
    method InvalidateCache(hash: Option<Text>) returns (count: nat)
      modifies this
      ensures count == |Selected(old(State()), hash)|
      ensures Wrote(old(State()), old(writes),
        InvalidateProgram(hash, KeysOf(old(rows), Selected(old(State()), hash))))
    {
      ghost var before := State();
      var entries := set id | id in rows && Selects(hash, rows[id]);
      var metaKeys := set id | id in entries :: KeyOf(rows[id]);
      rows := rows - entries;
      writes := writes + [DeleteRows(hash)];
      assert entries == Selected(before, hash) && metaKeys == KeysOf(before.rows, entries);
      ApplyOne(before, DeleteRows(hash));
      if |metaKeys| > 0 {
        meta := meta - metaKeys;
        writes := writes + [DeleteMeta(metaKeys)];
        ApplyTwo(before, DeleteRows(hash), DeleteMeta(metaKeys));
        assert InvalidateProgram(hash, metaKeys) == [DeleteRows(hash), DeleteMeta(metaKeys)];
      } else {
        assert InvalidateProgram(hash, metaKeys) == [DeleteRows(hash)];
      }
      count := |entries|;
    }

    /**
     * `checkCacheEntry`. It looks at the first matching row only. A hit changes nothing. A
     * miss found no row, or deletes the row it found: an expired one with its value, one
     * whose value does not load alone.
     */
    method CheckCacheEntry(q: Query, now: int) returns (r: Lookup)
      modifies this
      ensures r.Hit? ==>
        State() == old(State()) && writes == old(writes) && IsFirstMatch(rows, q, r.id) &&
        !Expired(rows[r.id], now) && Load(State(), rows[r.id]) == Some(r.value)
      ensures r.Hit? ==>
        r.id in rows && var row := rows[r.id];
        (row.inputHash, row.kind, row.provider, row.model, row.promptVersion) ==
          (q.inputHash, q.kind, q.provider, q.model, q.promptVersion) &&
        (q.planHash.Some? ==> row.planHash == q.planHash) && (row.expiresAt.Some? ==> now <= row.expiresAt.value)
      // The first match alone decides.
      ensures forall id :: IsFirstMatch(old(rows), q, id) ==>
        (r.Hit? <==> !Expired(old(rows)[id], now) && Load(old(State()), old(rows)[id]).Some?)
      ensures r.Miss? ==>
        (State() == old(State()) && writes == old(writes) && forall id :: id in rows ==> !Matches(rows[id], q)) ||
        exists id :: IsFirstMatch(old(rows), q, id) &&
          if Expired(old(rows)[id], now) then Wrote(old(State()), old(writes), ExpireProgram(id, old(rows)[id]))
          else Load(old(State()), old(rows)[id]) == None && Wrote(old(State()), old(writes), [DeleteRow(id)])
    {
      ghost var before, history := State(), writes;
      var candidates := set id | id in rows && Matches(rows[id], q);
      if candidates == {} {
        assert forall id :: id in rows && Matches(rows[id], q) ==> id in candidates;
        return Miss;
      }
      ghost var least := LeastId(candidates);
      assert forall id :: id in rows && Matches(rows[id], q) ==> id in candidates;
      var id :| id in candidates && forall other :: other in candidates ==> other == id || Less(id, other);
      assert IsFirstMatch(rows, q, id);
      forall other | IsFirstMatch(rows, q, other) ensures other == id {
        FirstMatchIsUnique(rows, q, id, other);
      }
      var match_ := rows[id];
      var key := KeyOf(match_);
      if match_.expiresAt.Some? && match_.expiresAt.value < now {
        rows := rows - {id};
        writes := writes + [DeleteRow(id)];
        meta := meta - {key};
        writes := writes + [DeleteMeta({key})];
        ApplyTwo(before, DeleteRow(id), DeleteMeta({key}));
        assert Wrote(before, history, ExpireProgram(id, before.rows[id]));
        return Miss;
      }
      var value := if key in meta then Loaded(match_.kind, meta[key]) else None;
      if value == None {
        rows := rows - {id};
        writes := writes + [DeleteRow(id)];
        ApplyOne(before, DeleteRow(id));
        assert Wrote(before, history, [DeleteRow(id)]);
        return Miss;
      }
      return Hit(value.value, id);
    }
  }

  // ----- Rows and values -----

  /** No row is without its value. */
  predicate Backed(t: Tables) {
    forall id :: id in t.rows ==> KeyOf(t.rows[id]) in t.meta
  }

  lemma AfterInvalidation(t: Tables, hash: Option<Text>)
    ensures var keys := KeysOf(t.rows, Selected(t, hash));
      ApplyAll(t, InvalidateProgram(hash, keys)) == Tables(t.meta - keys, t.rows - Selected(t, hash))
  {
    hide KeysOf;
    var keys := KeysOf(t.rows, Selected(t, hash));
    ApplyOne(t, DeleteRows(hash));
    if keys == {} {
      assert InvalidateProgram(hash, keys) == [DeleteRows(hash)];
      assert t.meta - keys == t.meta;
    } else {
      ApplyTwo(t, DeleteRows(hash), DeleteMeta(keys));
      assert InvalidateProgram(hash, keys) == [DeleteRows(hash), DeleteMeta(keys)];
    }
  }

  /** Without a hash all rows go, with one just the rows of it, each with the value under its own key; all else stays. */
  lemma InvalidatedExactly(t: Tables, hash: Option<Text>)
    ensures var gone := set id | id in t.rows && (hash in {None, Some([])} || t.rows[id].inputHash == hash.value);
      Selected(t, hash) == gone &&
      ApplyAll(t, InvalidateProgram(hash, KeysOf(t.rows, Selected(t, hash)))) == Tables(
        t.meta - (set id | id in gone ::
          Lit(if t.rows[id].kind.LetterResult? then "ai_cover_letter_" else "ai_analysis_") + t.rows[id].resultRef),
        t.rows - gone)
  {
    hide Lit;
    AfterInvalidation(t, hash);
    hide ApplyAll;
    assert Selected(t, hash) == set id | id in t.rows && (hash in {None, Some([])} || t.rows[id].inputHash == hash.value);
    assert KeysOf(t.rows, Selected(t, hash)) == set id | id in Selected(t, hash) ::
      Lit(if t.rows[id].kind.LetterResult? then "ai_cover_letter_" else "ai_analysis_") + t.rows[id].resultRef;
  }

  /**
   * Invalidation keeps every row backed exactly when no row it spares shares its
   * value with one it deletes. Fresh result ids ensure that; an analysis id stored
   * twice does not.
   */
  lemma InvalidationKeepsBackedExactlyWithoutSharing(t: Tables, hash: Option<Text>)
    requires Backed(t)
    ensures Backed(ApplyAll(t, InvalidateProgram(hash, KeysOf(t.rows, Selected(t, hash))))) <==>
      forall id, other :: id in Selected(t, hash) && other in t.rows && other !in Selected(t, hash) ==>
        KeyOf(t.rows[id]) != KeyOf(t.rows[other])
  {
    hide MetaKey;
    var keys := KeysOf(t.rows, Selected(t, hash));
    var t' := Tables(t.meta - keys, t.rows - Selected(t, hash));
    AfterInvalidation(t, hash);
    if Backed(t') {
      forall id, other | id in Selected(t, hash) && other in t.rows && other !in Selected(t, hash)
        ensures KeyOf(t.rows[id]) != KeyOf(t.rows[other])
      {
        assert other in t'.rows && KeyOf(t.rows[id]) in keys;
      }
    }
  }

  /**
   * Two `storeAnalysisCache` calls with one analysis id and different input hashes, then
   * `invalidateCache` with one of the hashes: the other row is stranded. The adapters make
   * their ids from time and chance, and the extension itself invalidates without a hash.
   */
  lemma ReusedAnalysisIdDangles(id: RowId, other: RowId, row: Row, hash: Text, value: Json)
    requires id != other && |row.inputHash| > 0 && hash != row.inputHash
    ensures var stored := ApplyAll(Tables(map[], map[]),
        StoreProgram(id, row, value) + StoreProgram(other, row.(inputHash := hash), value));
      Backed(stored) &&
      !Backed(ApplyAll(stored, InvalidateProgram(Some(row.inputHash), KeysOf(stored.rows, Selected(stored, Some(row.inputHash))))))
  {
    var second := row.(inputHash := hash);
    var a, b := StoreProgram(id, row, value), StoreProgram(other, second, value);
    var empty := Tables(map[], map[]);
    var t1 := Tables(map[KeyOf(row) := value], map[id := row]);
    assert ApplyAll(empty, a) == t1 by {
      ApplyTwo(empty, a[0], a[1]);
    }
    ApplyConcat(empty, a, b);
    ApplyTwo(t1, b[0], b[1]);
    var stored := ApplyAll(empty, a + b);
    assert id in stored.rows && other in stored.rows && KeyOf(stored.rows[id]) == KeyOf(stored.rows[other]);
    assert id in Selected(stored, Some(row.inputHash)) && other !in Selected(stored, Some(row.inputHash));
    InvalidationKeepsBackedExactlyWithoutSharing(stored, Some(row.inputHash));
  }

  lemma {:induction false} ApplyConcat(t: Tables, a: seq<Write>, b: seq<Write>)
    ensures ApplyAll(t, a + b) == ApplyAll(ApplyAll(t, a), b)
  {
    if |b| == 0 {
      assert a + b == a;
    } else {
      assert (a + b)[..|a + b| - 1] == a + b[..|b| - 1];
      ApplyConcat(t, a, b[..|b| - 1]);
    }
  }
}
