/**
 * The document store as the server actions of src/app/actions/projects.ts use it: three collections
 * (`projects`, `skills`, `content`), each a sequence of documents in the store's natural order, with
 * `find`, `findOne`, `insertOne`, `updateOne` with `$set` (and `upsert`) and `deleteOne`.
 */
module ContentStore {
  import opened Wrappers
  import opened Documents

  /** What the server actions can throw. */
  datatype StoreError =
    | InvalidObjectId   // `new ObjectId(id)` rejects the text
    | DuplicateKey      // an insert whose `_id` is already in the collection

  // ---------------------------------------------------------------------------
  // ObjectId text

  predicate IsHexDigit(c: char)
  {
    '0' <= c <= '9' || 'a' <= c <= 'f' || 'A' <= c <= 'F'
  }

  /** Text that `new ObjectId(text)` accepts: exactly 24 hexadecimal digits. */
  predicate IsObjectIdText(s: string)
  {
    |s| == 24 && forall i :: 0 <= i < |s| ==> IsHexDigit(s[i])
  }

  /** An ObjectId's own text (`toHexString`): 24 lower-case hexadecimal digits. */
  predicate IsCanonicalHex(s: string)
  {
    |s| == 24 && forall i :: 0 <= i < |s| ==> '0' <= s[i] <= '9' || 'a' <= s[i] <= 'f'
  }

  function LowerHexDigit(c: char): char
  {
    if 'A' <= c <= 'F' then (c as int - 'A' as int + 'a' as int) as char else c
  }

  /** `new ObjectId(s)`: the ObjectId's text, or nothing where the constructor throws. */
  function ParseObjectId(s: string): (r: Option<string>)
    ensures r.Some? <==> IsObjectIdText(s)
    ensures r.Some? ==> IsCanonicalHex(r.value)
    ensures r.Some? ==> forall i :: 0 <= i < 24 ==> r.value[i] == LowerHexDigit(s[i])
  {
    if IsObjectIdText(s) then Some(seq(24, i requires 0 <= i < 24 => LowerHexDigit(s[i]))) else None
  }

  /** The text an ObjectId is shown as is accepted back and denotes the same ObjectId. */
  lemma ParseCanonical(h: string)
    requires IsCanonicalHex(h)
    ensures ParseObjectId(h) == Some(h)
  {
    assert IsObjectIdText(h);
    assert ParseObjectId(h).value == h;
  }

  // ---------------------------------------------------------------------------
  // filters and identifiers

  /** The equality filter `{ field: v }`: the field equals `v`, or is an array holding `v`. */
  predicate Matches(d: Doc, field: string, v: Value)
  {
    field in d && (d[field] == v || (d[field].Arr? && v in d[field].items))
  }

  /** Index of the first document matching `{ field: v }` at or after `from`. */
  function FindFrom(c: seq<Doc>, field: string, v: Value, from: nat): (r: Option<nat>)
    requires from <= |c|
    ensures r.Some? ==> from <= r.value < |c| && Matches(c[r.value], field, v)
    ensures r.Some? ==> forall j :: from <= j < r.value ==> !Matches(c[j], field, v)
    ensures r.None? ==> forall j :: from <= j < |c| ==> !Matches(c[j], field, v)
    decreases |c| - from
  {
    if from == |c| then None
    else if Matches(c[from], field, v) then Some(from)
    else FindFrom(c, field, v, from + 1)
  }

  /** The document `findOne`, `updateOne` and `deleteOne` act on: the first match in natural order. */
  function FindFirst(c: seq<Doc>, field: string, v: Value): (r: Option<nat>)
    ensures r.Some? ==> r.value < |c| && Matches(c[r.value], field, v)
    ensures r.Some? ==> forall j :: 0 <= j < r.value ==> !Matches(c[j], field, v)
    ensures r.None? ==> forall j :: 0 <= j < |c| ==> !Matches(c[j], field, v)
  {
    FindFrom(c, field, v, 0)
  }

  /** Every document has an `_id` that is not an array, and no two documents share one. */
  ghost predicate UniqueIds(c: seq<Doc>)
  {
    && (forall i :: 0 <= i < |c| ==> "_id" in c[i] && !c[i]["_id"].Arr?)
    && (forall i, j :: 0 <= i < j < |c| ==> c[i]["_id"] != c[j]["_id"])
  }

  predicate HasId(c: seq<Doc>, key: Value)
  {
    exists i :: 0 <= i < |c| && "_id" in c[i] && c[i]["_id"] == key
  }

  /** On a collection with unique ids, `{ _id: key }` matches exactly the document holding that `_id`. */
  lemma FindById(c: seq<Doc>, key: Value)
    requires UniqueIds(c) && !key.Arr?
    ensures FindFirst(c, "_id", key).Some? <==> HasId(c, key)
    ensures forall i :: 0 <= i < |c| && c[i]["_id"] == key ==> FindFirst(c, "_id", key) == Some(i)
  {
  }

  // ---------------------------------------------------------------------------
  // updateOne with $set, deleteOne

  /** `const { id: _, _id, ...updateData } = formData`: the payload without its identifier fields. */
  function StripIds(payload: Doc): (r: Doc)
    ensures "id" !in r && "_id" !in r
    ensures forall k :: k in payload && k != "id" && k != "_id" <==> k in r
    ensures forall k :: k in r ==> r[k] == payload[k]
  {
    payload - {"id", "_id"}
  }

  /**
   * `updateOne({ field: v }, { $set: upd })`: the first matching document gets the fields of `upd`,
   * replacing those it had; every other document and every other field is left as it was.
   */
  function SetFirst(c: seq<Doc>, field: string, v: Value, upd: Doc): (r: seq<Doc>)
    ensures |r| == |c|
    ensures FindFirst(c, field, v).None? ==> r == c
    ensures forall j :: 0 <= j < |c| && Some(j) != FindFirst(c, field, v) ==> r[j] == c[j]
    ensures FindFirst(c, field, v).Some? ==> var i := FindFirst(c, field, v).value;
      && r[i].Keys == c[i].Keys + upd.Keys
      && (forall k :: k in upd ==> r[i][k] == upd[k])
      && (forall k :: k in c[i] && k !in upd ==> r[i][k] == c[i][k])
  {
    match FindFirst(c, field, v)
    case None => c
    case Some(i) => c[i := c[i] + upd]
  }

  /** `deleteOne({ field: v })`: the first matching document is removed, the others keep their order. */
  function DeleteFirst(c: seq<Doc>, field: string, v: Value): (r: seq<Doc>)
    ensures FindFirst(c, field, v).None? ==> r == c
    ensures FindFirst(c, field, v).Some? ==> var i := FindFirst(c, field, v).value;
      |r| == |c| - 1 && r[..i] == c[..i] && r[i..] == c[i + 1..]
  {
    match FindFirst(c, field, v)
    case None => c
    case Some(i) => c[..i] + c[i + 1..]
  }

  /** A `$set` that does not name `_id` keeps every document's `_id`, so the ids stay unique. */
  lemma SetFirstKeepsIds(c: seq<Doc>, field: string, v: Value, upd: Doc)
    requires UniqueIds(c) && "_id" !in upd
    ensures UniqueIds(SetFirst(c, field, v, upd))
    ensures forall j :: 0 <= j < |c| ==> SetFirst(c, field, v, upd)[j]["_id"] == c[j]["_id"]
  {
    var r := SetFirst(c, field, v, upd);
    forall j | 0 <= j < |c| ensures "_id" in r[j] && r[j]["_id"] == c[j]["_id"] {
      if Some(j) == FindFirst(c, field, v) {
      }
    }
  }

  lemma DeleteFirstKeepsIds(c: seq<Doc>, field: string, v: Value)
    requires UniqueIds(c)
    ensures UniqueIds(DeleteFirst(c, field, v))
  {
    var r := DeleteFirst(c, field, v);
    match FindFirst(c, field, v)
    case None =>
    case Some(i) =>
      assert forall j :: 0 <= j < |r| ==> r[j] == (if j < i then c[j] else c[j + 1]);
  }

  // ---------------------------------------------------------------------------
  // the update and delete server actions on one collection

  /** `updateProject(id, formData)` / `updateSkillCategory(id, category)` on the collection `c`. */
  function UpdateById(c: seq<Doc>, id: string, payload: Doc): (r: Result<seq<Doc>, StoreError>)
    ensures r.Err? <==> !IsObjectIdText(id)
    ensures r.Err? ==> r.error == InvalidObjectId
  {
    match ParseObjectId(id)
    case None => Err(InvalidObjectId)
    case Some(h) => Ok(SetFirst(c, "_id", Oid(h), StripIds(payload)))
  }

  /** `deleteProject(id)` on the collection `c`. */
  function DeleteById(c: seq<Doc>, id: string): (r: Result<seq<Doc>, StoreError>)
    ensures r.Err? <==> !IsObjectIdText(id)
    ensures r.Err? ==> r.error == InvalidObjectId
  {
    match ParseObjectId(id)
    case None => Err(InvalidObjectId)
    case Some(h) => Ok(DeleteFirst(c, "_id", Oid(h)))
  }

  /**
   * An update through a well-formed id touches at most the document with that id: it gains the
   * payload's fields other than `id` and `_id`, keeps its other fields and its `_id`, and nothing
   * else in the collection changes. An id that matches nothing leaves the collection as it was.
   */
  lemma UpdateByIdFrame(c: seq<Doc>, id: string, payload: Doc)
    requires UniqueIds(c) && IsObjectIdText(id)
    ensures UpdateById(c, id, payload).Ok?
    ensures var r, key := UpdateById(c, id, payload).value, Oid(ParseObjectId(id).value);
      && UniqueIds(r) && |r| == |c|
      && (!HasId(c, key) ==> r == c)
      && (forall j :: 0 <= j < |c| ==> r[j]["_id"] == c[j]["_id"])
      && (forall j :: 0 <= j < |c| && c[j]["_id"] != key ==> r[j] == c[j])
      && (forall j :: 0 <= j < |c| && c[j]["_id"] == key ==>
            && r[j].Keys == c[j].Keys + StripIds(payload).Keys
            && (forall k :: k in payload && k != "id" && k != "_id" ==> r[j][k] == payload[k])
            && (forall k :: k in c[j] && (k !in payload || k == "id" || k == "_id") ==> r[j][k] == c[j][k]))
  {
    var key := Oid(ParseObjectId(id).value);
    FindById(c, key);
    SetFirstKeepsIds(c, "_id", key, StripIds(payload));
  }

  /** Cutting out the one document holding `key` leaves no document with that key and every other one. */
  lemma CutOut(c: seq<Doc>, i: int, key: Value)
    requires UniqueIds(c) && 0 <= i < |c| && c[i]["_id"] == key
    ensures !HasId(c[..i] + c[i + 1..], key)
    ensures forall d :: d in c && d["_id"] != key ==> d in c[..i] + c[i + 1..]
  {
    var r := c[..i] + c[i + 1..];
    forall j | 0 <= j < |r| ensures r[j]["_id"] != key {
      if j < i { assert r[j] == c[j]; } else { assert r[j] == c[j + 1]; }
    }
    forall d | d in c && d["_id"] != key ensures d in r {
      var j :| 0 <= j < |c| && c[j] == d;
      if j < i { assert r[j] == d; } else { assert r[j - 1] == d; }
    }
  }

  /**
   * A delete through a well-formed id removes exactly the document with that id, if there is one,
   * and keeps the others in order; an id that matches nothing leaves the collection as it was.
   */
  lemma DeleteByIdFrame(c: seq<Doc>, id: string)
    requires UniqueIds(c) && IsObjectIdText(id)
    ensures DeleteById(c, id).Ok?
    ensures var r, key := DeleteById(c, id).value, Oid(ParseObjectId(id).value);
      && UniqueIds(r)
      && (!HasId(c, key) ==> r == c)
      && (HasId(c, key) ==> |r| == |c| - 1 && !HasId(r, key))
      && (forall d :: d in c && d["_id"] != key ==> d in r)
  {
    var key := Oid(ParseObjectId(id).value);
    FindById(c, key);
    DeleteFirstKeepsIds(c, "_id", key);
    if HasId(c, key) {
      var i := FindFirst(c, "_id", key).value;
      assert DeleteById(c, id).value == c[..i] + c[i + 1..];
      CutOut(c, i, key);
    }
  }

  /**
   * `new ObjectId(undefined)` generates a fresh id. An update through a fresh id matches no document,
   * succeeds and leaves the collection as it was.
   */
  lemma UpdateByFreshId(c: seq<Doc>, g: string, payload: Doc)
    requires UniqueIds(c) && IsCanonicalHex(g) && !HasId(c, Oid(g))
    ensures UpdateById(c, g, payload) == Ok(c)
  {
    ParseCanonical(g);
    UpdateByIdFrame(c, g, payload);
  }

  /** A delete through a fresh id matches no document, succeeds and leaves the collection as it was. */
  lemma DeleteByFreshId(c: seq<Doc>, g: string)
    requires UniqueIds(c) && IsCanonicalHex(g) && !HasId(c, Oid(g))
    ensures DeleteById(c, g) == Ok(c)
  {
    ParseCanonical(g);
    DeleteByIdFrame(c, g);
  }

  // ---------------------------------------------------------------------------
  // the site-content singleton

  /** `{ type: 'global' }` */
  const GlobalType: Value := Str("global")

  /** `findOne({ type: 'global' })` */
  function FindGlobal(c: seq<Doc>): (r: Option<Doc>)
    ensures r.Some? <==> exists j :: 0 <= j < |c| && Matches(c[j], "type", GlobalType)
    ensures r.Some? ==> Matches(r.value, "type", GlobalType)
  {
    match FindFirst(c, "type", GlobalType)
    case None => None
    case Some(i) => Some(c[i])
  }

  /**
   * `updateOne({ type: 'global' }, { $set: data }, { upsert: true })`: the first global document gets
   * the fields of `data`; with none, a new document `{ _id, type: 'global', ...data }` is appended.
   */
  function UpsertGlobal(c: seq<Doc>, data: Doc, newId: string): (r: seq<Doc>)
  {
    match FindFirst(c, "type", GlobalType)
    case Some(i) => c[i := c[i] + data]
    case None => c + [map["_id" := Oid(newId), "type" := GlobalType] + data]
  }

  /** `const { _id, ...updateData } = content`: only `_id` is removed, `id` is kept. */
  function StripStoreId(payload: Doc): (r: Doc)
    ensures "_id" !in r
    ensures forall k :: k in payload && k != "_id" <==> k in r
    ensures forall k :: k in r ==> r[k] == payload[k]
  {
    payload - {"_id"}
  }

  /**
   * The upsert creates the singleton only when there is none and otherwise writes into the existing one:
   * the collection grows by at most one document, the document found afterwards carries every field
   * of `data` (so a payload's `id` is written to the store), and unless `data` renames the type,
   * the singleton is found afterwards.
   */
  lemma UpsertGlobalSpec(c: seq<Doc>, data: Doc, newId: string)
    requires "_id" !in data
    ensures var r := UpsertGlobal(c, data, newId);
      && |r| == |c| + (if FindGlobal(c).None? then 1 else 0)
      && (("type" !in data || data["type"] == GlobalType) ==>
            && FindGlobal(r).Some?
            && (forall k :: k in data ==> k in FindGlobal(r).value && FindGlobal(r).value[k] == data[k]))
      && (forall j :: 0 <= j < |c| && Some(j) != FindFirst(c, "type", GlobalType) ==> r[j] == c[j])
      && (FindFirst(c, "type", GlobalType).Some? ==> var i := FindFirst(c, "type", GlobalType).value;
            && r[i].Keys == c[i].Keys + data.Keys
            && (forall k :: k in data ==> r[i][k] == data[k])
            && (forall k :: k in c[i] && k !in data ==> r[i][k] == c[i][k]))
      && (FindFirst(c, "type", GlobalType).None? ==>
            && r[|c|].Keys == {"_id", "type"} + data.Keys
            && r[|c|]["_id"] == Oid(newId)
            && r[|c|]["type"] == (if "type" in data then data["type"] else GlobalType)
            && (forall k :: k in data ==> r[|c|][k] == data[k]))
  {
    var r := UpsertGlobal(c, data, newId);
    if "type" !in data || data["type"] == GlobalType {
      match FindFirst(c, "type", GlobalType)
      case Some(i) =>
        assert Matches(r[i], "type", GlobalType);
        forall j | 0 <= j < i ensures !Matches(r[j], "type", GlobalType) {
          assert r[j] == c[j];
        }
        assert FindFirst(r, "type", GlobalType) == Some(i);
      case None =>
        var n := |c|;
        assert Matches(r[n], "type", GlobalType);
        forall j | 0 <= j < n ensures !Matches(r[j], "type", GlobalType) {
          assert r[j] == c[j];
        }
        assert FindFirst(r, "type", GlobalType) == Some(n);
    }
  }

  /** Writing the content twice never makes a second global document. */
  lemma UpsertTwiceOneSingleton(c: seq<Doc>, a: Doc, b: Doc, id1: string, id2: string)
    requires "_id" !in a && "_id" !in b
    requires "type" !in a || a["type"] == GlobalType
    ensures |UpsertGlobal(UpsertGlobal(c, a, id1), b, id2)| == |UpsertGlobal(c, a, id1)|
  {
    UpsertGlobalSpec(c, a, id1);
    UpsertGlobalSpec(UpsertGlobal(c, a, id1), b, id2);
  }

  // ---------------------------------------------------------------------------
  // find({}).sort({ createdAt: -1 })

  /** The sort key: a missing `createdAt` sorts as null. */
  function CreatedAt(d: Doc): Value
  {
    if "createdAt" in d then d["createdAt"] else Null
  }

  /** Newest first: every document's key is at least that of every later one. */
  ghost predicate NewestFirst(s: seq<Doc>)
  {
    forall i, j :: 0 <= i < j < |s| ==> BsonLe(CreatedAt(s[j]), CreatedAt(s[i]))
  }

  /** Places `d` before the first document that is not newer than it. */
  function InsertByCreatedAt(d: Doc, s: seq<Doc>): (r: seq<Doc>)
    ensures multiset(r) == multiset(s) + multiset{d}
  {
    if s == [] then [d]
    else if BsonLe(CreatedAt(s[0]), CreatedAt(d)) then [d] + s
    else
      assert s == [s[0]] + s[1..];
      [s[0]] + InsertByCreatedAt(d, s[1..])
  }

  /** Everything in `s` is at most `top`. */
  ghost predicate AllAtMost(s: seq<Doc>, top: Value)
  {
    forall j :: 0 <= j < |s| ==> BsonLe(CreatedAt(s[j]), top)
  }

  lemma NewestFirstCons(x: Doc, s: seq<Doc>)
    requires NewestFirst(s) && AllAtMost(s, CreatedAt(x))
    ensures NewestFirst([x] + s)
  {
    var r := [x] + s;
    forall i, j | 0 <= i < j < |r| ensures BsonLe(CreatedAt(r[j]), CreatedAt(r[i])) {
      if i > 0 { assert r[i] == s[i - 1] && r[j] == s[j - 1]; } else { assert r[j] == s[j - 1]; }
    }
  }

  /** Past its first document, a newest-first listing is newest first and no newer than that document. */
  lemma NewestFirstTail(s: seq<Doc>)
    requires |s| > 0 && NewestFirst(s)
    ensures NewestFirst(s[1..]) && AllAtMost(s[1..], CreatedAt(s[0]))
  {
    var tail := s[1..];
    forall i, j | 0 <= i < j < |tail| ensures BsonLe(CreatedAt(tail[j]), CreatedAt(tail[i])) {
      assert tail[i] == s[i + 1] && tail[j] == s[j + 1];
    }
    forall j | 0 <= j < |tail| ensures BsonLe(CreatedAt(tail[j]), CreatedAt(s[0])) {
      assert tail[j] == s[j + 1];
    }
  }

  lemma AllAtMostCons(x: Doc, s: seq<Doc>, top: Value)
    requires BsonLe(CreatedAt(x), top) && AllAtMost(s, top)
    ensures AllAtMost([x] + s, top)
  {
    var r := [x] + s;
    forall j | 0 < j < |r| ensures BsonLe(CreatedAt(r[j]), top) {
      assert r[j] == s[j - 1];
    }
  }

  lemma AllAtMostTail(s: seq<Doc>, top: Value)
    requires |s| > 0 && AllAtMost(s, top)
    ensures AllAtMost(s[1..], top)
  {
    var tail := s[1..];
    forall j | 0 <= j < |tail| ensures BsonLe(CreatedAt(tail[j]), top) {
      assert tail[j] == s[j + 1];
    }
  }

  /** Inserting a document no newer than `top` keeps everything at most `top`. */
  lemma {:induction false} InsertAtMost(d: Doc, s: seq<Doc>, top: Value)
    requires AllAtMost(s, top) && BsonLe(CreatedAt(d), top)
    ensures AllAtMost(InsertByCreatedAt(d, s), top)
  {
    if s == [] {
      AllAtMostCons(d, s, top);
      assert [d] + s == [d];
    } else if BsonLe(CreatedAt(s[0]), CreatedAt(d)) {
      AllAtMostCons(d, s, top);
    } else {
      AllAtMostTail(s, top);
      InsertAtMost(d, s[1..], top);
      AllAtMostCons(s[0], InsertByCreatedAt(d, s[1..]), top);
    }
  }

  /** Inserting into a newest-first listing keeps it newest first. */
  lemma {:induction false} InsertKeepsNewestFirst(d: Doc, s: seq<Doc>)
    requires NewestFirst(s)
    ensures NewestFirst(InsertByCreatedAt(d, s))
  {
    if s == [] {
    } else if BsonLe(CreatedAt(s[0]), CreatedAt(d)) {
      forall j | 0 <= j < |s| ensures BsonLe(CreatedAt(s[j]), CreatedAt(d)) {
        if j > 0 { BsonLeTrans(CreatedAt(s[j]), CreatedAt(s[0]), CreatedAt(d)); }
      }
      NewestFirstCons(d, s);
    } else {
      BsonLeTotal(CreatedAt(s[0]), CreatedAt(d));
      var tail := s[1..];
      NewestFirstTail(s);
      InsertKeepsNewestFirst(d, tail);
      InsertAtMost(d, tail, CreatedAt(s[0]));
      assert InsertByCreatedAt(d, s) == [s[0]] + InsertByCreatedAt(d, tail);
      NewestFirstCons(s[0], InsertByCreatedAt(d, tail));
    }
  }

  /** `sort({ createdAt: -1 })`: every document once, newest first. */
  function SortByCreatedAtDesc(s: seq<Doc>): (r: seq<Doc>)
    ensures NewestFirst(r)
    ensures multiset(r) == multiset(s)
    ensures |r| == |s|
  {
    if s == [] then []
    else
      assert s == [s[0]] + s[1..];
      InsertKeepsNewestFirst(s[0], SortByCreatedAtDesc(s[1..]));
      InsertByCreatedAt(s[0], SortByCreatedAtDesc(s[1..]))
  }

  /**
   * In a newest-first listing such as the sorted one, a document whose `createdAt` is a date comes
   * before every document whose `createdAt` is a text, whatever the two times are: BSON orders all
   * dates above all strings.
   */
  lemma DatesBeforeTexts(r: seq<Doc>, i: nat, j: nat)
    requires NewestFirst(r) && i < |r| && j < |r|
    requires CreatedAt(r[i]).Date? && CreatedAt(r[j]).Str?
    ensures i < j
  {
    assert !BsonLe(CreatedAt(r[i]), CreatedAt(r[j]));
  }

  /** `projects.map(p => sanitize(p))` */
  function SanitizeAll(s: seq<Doc>): (r: seq<Doc>)
    ensures |r| == |s| && forall i :: 0 <= i < |s| ==> r[i] == SanitizeDoc(s[i])
  {
    seq(|s|, i requires 0 <= i < |s| => SanitizeDoc(s[i]))
  }

  // ---------------------------------------------------------------------------
  // createProject

  /** `{ ...formData, createdAt: new Date() }` as inserted under the ObjectId `generatedId`. */
  function NewProject(formData: Doc, generatedId: string, now: Millis): (r: Doc)
    ensures r.Keys == formData.Keys + {"createdAt", "_id"}
    ensures r["createdAt"] == Date(now) && r["_id"] == Oid(generatedId)
    ensures forall k :: k in formData && k != "createdAt" && k != "_id" ==> r[k] == formData[k]
  {
    formData["createdAt" := Date(now)]["_id" := Oid(generatedId)]
  }

  /**
   * The id `createProject` returns addresses the project it created: an update through that text
   * writes into the new project and into no other.
   */
  lemma CreateThenUpdate(c: seq<Doc>, formData: Doc, g: string, now: Millis, edit: Doc)
    requires UniqueIds(c) && IsCanonicalHex(g) && !HasId(c, Oid(g))
    ensures UpdateById(c + [NewProject(formData, g, now)], g, edit)
         == Ok(c + [NewProject(formData, g, now) + StripIds(edit)])
  {
    var doc := NewProject(formData, g, now);
    var c' := c + [doc];
    ParseCanonical(g);
    forall j | 0 <= j < |c| ensures !Matches(c'[j], "_id", Oid(g)) {
      assert c'[j] == c[j];
    }
    assert Matches(c'[|c|], "_id", Oid(g));
    assert FindFirst(c', "_id", Oid(g)) == Some(|c|);
    assert c'[|c| := doc + StripIds(edit)] == c + [doc + StripIds(edit)];
  }

  /**
   * Saving a listed project back through `updateProject` unchanged replaces its stored `createdAt` date
   * with that date's ISO text; by `DatesBeforeTexts` it then sorts after every project still
   * holding a date.
   */
  lemma SaveListedProjectStoresText(c: seq<Doc>, i: nat, h: string)
    requires UniqueIds(c) && i < |c| && IsCanonicalHex(h) && c[i]["_id"] == Oid(h)
    requires "createdAt" in c[i] && c[i]["createdAt"].Date?
    ensures UpdateById(c, h, SanitizeDoc(c[i])).Ok?
    ensures var r := UpdateById(c, h, SanitizeDoc(c[i])).value;
      && r[i]["createdAt"] == Str(IsoString(c[i]["createdAt"].ms))
      && CreatedAt(r[i]).Str?
  {
    ParseCanonical(h);
    UpdateByIdFrame(c, h, SanitizeDoc(c[i]));
    SanitizeFields(Some(c[i]));
  }

  // ---------------------------------------------------------------------------
  // the store and the server actions

  class Store {
    var projects: seq<Doc>
    var skills: seq<Doc>
    var content: seq<Doc>

    ghost predicate Valid()
      reads this
    {
      UniqueIds(projects) && UniqueIds(skills) && UniqueIds(content)
    }

    constructor (projects0: seq<Doc>, skills0: seq<Doc>, content0: seq<Doc>)
      requires UniqueIds(projects0) && UniqueIds(skills0) && UniqueIds(content0)
      ensures Valid()
      ensures projects == projects0 && skills == skills0 && content == content0
    {
      projects, skills, content := projects0, skills0, content0;
    }

    /** `getProjects()`: every project once, newest first, each sanitized. */
    function GetProjects(): (r: seq<Doc>)
      reads this
      ensures var listing := SortByCreatedAtDesc(projects);
        && multiset(listing) == multiset(projects) && NewestFirst(listing)
        && r == SanitizeAll(listing)
    {
      SanitizeAll(SortByCreatedAtDesc(projects))
    }

    /** `getSkills()`: every skill category in the store's natural order, each sanitized. */
    function GetSkills(): (r: seq<Doc>)
      reads this
      ensures |r| == |skills| && forall i :: 0 <= i < |skills| ==> r[i] == SanitizeDoc(skills[i])
    {
      SanitizeAll(skills)
    }

    /** `getSiteContent()`: the first global document, sanitized, or null when there is none. */
    function GetSiteContent(): (r: Option<Doc>)
      reads this
      ensures r.None? <==> forall j :: 0 <= j < |content| ==> !Matches(content[j], "type", GlobalType)
      ensures r.Some? ==> exists j ::
        && 0 <= j < |content|
        && FindFirst(content, "type", GlobalType) == Some(j)
        && Matches(content[j], "type", GlobalType)
        && (forall i :: 0 <= i < j ==> !Matches(content[i], "type", GlobalType))
        && r.value == SanitizeDoc(content[j])
    {
      Sanitize(FindGlobal(content))
    }

    /**
     * `createProject(formData)`: appends the payload with a fresh `createdAt`, replacing any supplied one,
     * under the ObjectId the driver generates, and returns that id's text.
     */
    method CreateProject(formData: Doc, generatedId: string, now: Millis) returns (r: Result<string, StoreError>)
      requires Valid()
      requires "_id" !in formData
      requires IsCanonicalHex(generatedId) && !HasId(projects, Oid(generatedId))
      modifies this
      ensures Valid()
      ensures r == Ok(generatedId)
      ensures projects == old(projects) + [NewProject(formData, generatedId, now)]
      ensures skills == old(skills) && content == old(content)
    {
      var doc := NewProject(formData, generatedId, now);
      projects := projects + [doc];
      r := Ok(generatedId);
    }

    /** `updateProject(id, formData)` */
    method UpdateProject(id: string, formData: Doc) returns (r: Outcome<StoreError>)
      requires Valid()
      modifies this
      ensures Valid()
      ensures r == (if IsObjectIdText(id) then Pass else Fail(InvalidObjectId))
      ensures projects == match UpdateById(old(projects), id, formData)
                          case Ok(c) => c
                          case Err(_) => old(projects)
      ensures skills == old(skills) && content == old(content)
    {
      match UpdateById(projects, id, formData)
      case Err(e) =>
        r := Fail(e);
      case Ok(c) =>
        UpdateByIdFrame(projects, id, formData);
        projects := c;
        r := Pass;
    }

    /** `deleteProject(id)` */
    method DeleteProject(id: string) returns (r: Outcome<StoreError>)
      requires Valid()
      modifies this
      ensures Valid()
      ensures r == (if IsObjectIdText(id) then Pass else Fail(InvalidObjectId))
      ensures projects == match DeleteById(old(projects), id)
                          case Ok(c) => c
                          case Err(_) => old(projects)
      ensures skills == old(skills) && content == old(content)
    {
      match DeleteById(projects, id)
      case Err(e) =>
        r := Fail(e);
      case Ok(c) =>
        DeleteByIdFrame(projects, id);
        projects := c;
        r := Pass;
    }

    /** `updateSkillCategory(id, category)` */
    method UpdateSkillCategory(id: string, category: Doc) returns (r: Outcome<StoreError>)
      requires Valid()
      modifies this
      ensures Valid()
      ensures r == (if IsObjectIdText(id) then Pass else Fail(InvalidObjectId))
      ensures skills == match UpdateById(old(skills), id, category)
                        case Ok(c) => c
                        case Err(_) => old(skills)
      ensures projects == old(projects) && content == old(content)
    {
      match UpdateById(skills, id, category)
      case Err(e) =>
        r := Fail(e);
      case Ok(c) =>
        UpdateByIdFrame(skills, id, category);
        skills := c;
        r := Pass;
    }

    /**
     * `updateSiteContent(content)`: upserts the global document with the payload minus `_id`;
     * `generatedId` is the ObjectId the store gives the document if it has to create it.
     */
    method UpdateSiteContent(payload: Doc, generatedId: string) returns (r: Outcome<StoreError>)
      requires Valid()
      requires IsCanonicalHex(generatedId) && !HasId(content, Oid(generatedId))
      modifies this
      ensures Valid()
      ensures r == Pass
      ensures content == UpsertGlobal(old(content), StripStoreId(payload), generatedId)
      ensures projects == old(projects) && skills == old(skills)
    {
      var data := StripStoreId(payload);
      var c := UpsertGlobal(content, data, generatedId);
      assert UniqueIds(c) by {
        match FindFirst(content, "type", GlobalType)
        case Some(i) =>
          assert forall j :: 0 <= j < |c| ==> "_id" in c[j] && c[j]["_id"] == content[j]["_id"];
        case None =>
          assert forall j :: 0 <= j < |content| ==> c[j] == content[j];
          assert c[|content|]["_id"] == Oid(generatedId);
      }
      content := c;
      r := Pass;
    }
  }
}
