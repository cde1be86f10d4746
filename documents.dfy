/**
 * Documents of the portfolio's document store and the `sanitize` helper of
 * src/app/actions/projects.ts, which passes a stored document through a JSON round trip
 * (`JSON.parse(JSON.stringify(obj))`) and copies `_id` to `id`.
 */
module Documents {
  import opened Wrappers

  /** Milliseconds since the Unix epoch of a date between 1970 and the end of year 9999. */
  type Millis = ms: int | 0 <= ms < 253402300800000

  /**
   * A field value as the store holds it: JSON values plus the two kinds the JSON round trip
   * turns into strings, a `Date` and an ObjectId (`Oid`, its hexadecimal text).
   * Numbers are integers here.
   */
  datatype Value =
    | Null
    | Bool(b: bool)
    | Num(n: int)
    | Str(s: string)
    | Date(ms: Millis)
    | Oid(hex: string)
    | Arr(items: seq<Value>)
    | Obj(fields: map<string, Value>)

  /** A document: field name to value. */
  type Doc = map<string, Value>

  /** An array of texts, such as a list of paragraphs or of skill names. */
  function Texts(xs: seq<string>): (r: Value)
    ensures r.Arr? && |r.items| == |xs| && forall i :: 0 <= i < |xs| ==> r.items[i] == Str(xs[i])
  {
    Arr(seq(|xs|, i requires 0 <= i < |xs| => Str(xs[i])))
  }

  /** The fields an object spread (`{ ...v }`) copies: those of an object, none for null or a missing value. */
  function Fields(v: Value): map<string, Value>
  {
    if v.Obj? then v.fields else map[]
  }

  /** JavaScript truthiness (`if (x)`): null, false, 0 and "" are falsy; objects, arrays and dates are truthy. */
  predicate Truthy(v: Value)
  {
    match v
    case Null => false
    case Bool(b) => b
    case Num(n) => n != 0
    case Str(s) => s != ""
    case _ => true
  }

  // ---------------------------------------------------------------------------
  // Date.prototype.toISOString for dates of years 1970 to 9999

  predicate IsDigit(c: char) { '0' <= c <= '9' }

  /** The last `width` decimal digits of `n`, most significant first. */
  function Digits(n: nat, width: nat): (r: string)
    ensures |r| == width
    ensures forall i :: 0 <= i < width ==> IsDigit(r[i])
  {
    if width == 0 then "" else Digits(n / 10, width - 1) + [('0' as int + n % 10) as char]
  }

  /** Proleptic Gregorian (year, month, day) of a day count since 1970-01-01. */
  function CivilFromDays(days: nat): (nat, nat, nat)
  {
    var z := days + 719468;
    var era := z / 146097;
    var doe := z - era * 146097;
    var yoe := (doe - doe / 1460 + doe / 36524 - doe / 146096) / 365;
    var doy := doe - (365 * yoe + yoe / 4 - yoe / 100);
    var mp := (5 * doy + 2) / 153;
    var d := doy - (153 * mp + 2) / 5 + 1;
    var m := if mp < 10 then mp + 3 else mp - 9;
    var y := yoe + era * 400 + (if m <= 2 then 1 else 0);
    (if y < 0 then 0 else y, if m < 0 then 0 else m, if d < 0 then 0 else d)
  }

  /** `YYYY-MM-DDTHH:mm:ss.sssZ`, the text `JSON.stringify` writes for a date. */
  function IsoString(ms: Millis): (r: string)
    ensures |r| == 24
    ensures r[4] == '-' && r[7] == '-' && r[10] == 'T' && r[13] == ':' && r[16] == ':' && r[19] == '.' && r[23] == 'Z'
  {
    var days, t := ms / 86400000, ms % 86400000;
    var (y, m, d) := CivilFromDays(days);
    Digits(y, 4) + "-" + Digits(m, 2) + "-" + Digits(d, 2) + "T"
      + Digits(t / 3600000, 2) + ":" + Digits(t / 60000 % 60, 2) + ":" + Digits(t / 1000 % 60, 2)
      + "." + Digits(t % 1000, 3) + "Z"
  }

  // ---------------------------------------------------------------------------
  // the JSON round trip

  /** A value that JSON can carry unchanged: no dates and no ObjectIds anywhere inside. */
  predicate IsPlain(v: Value)
  {
    match v
    case Date(_) => false
    case Oid(_) => false
    case Arr(xs) => forall i :: 0 <= i < |xs| ==> IsPlain(xs[i])
    case Obj(m) => forall k :: k in m ==> IsPlain(m[k])
    case _ => true
  }

  predicate IsPlainDoc(d: Doc)
  {
    forall k :: k in d ==> IsPlain(d[k])
  }

  /** `JSON.parse(JSON.stringify(v))`: a date becomes its ISO text, an ObjectId its hexadecimal text. */
  function RoundTrip(v: Value): Value
  {
    match v
    case Date(ms) => Str(IsoString(ms))
    case Oid(h) => Str(h)
    case Arr(xs) => Arr(seq(|xs|, i requires 0 <= i < |xs| => RoundTrip(xs[i])))
    case Obj(m) => Obj(map k | k in m :: RoundTrip(m[k]))
    case _ => v
  }

  function RoundTripDoc(d: Doc): (r: Doc)
    ensures r.Keys == d.Keys
  {
    map k | k in d :: RoundTrip(d[k])
  }

  /** What comes out of the JSON round trip is plain. */
  lemma {:induction false} RoundTripIsPlain(v: Value)
    ensures IsPlain(RoundTrip(v))
  {
    match v
    case Arr(xs) =>
      forall i | 0 <= i < |xs| ensures IsPlain(RoundTrip(xs[i])) {
        RoundTripIsPlain(xs[i]);
      }
    case Obj(m) =>
      forall k | k in m ensures IsPlain(RoundTrip(m[k])) {
        RoundTripIsPlain(m[k]);
      }
    case _ =>
  }

  /** A plain value survives the JSON round trip unchanged. */
  lemma {:induction false} RoundTripKeepsPlain(v: Value)
    requires IsPlain(v)
    ensures RoundTrip(v) == v
  {
    match v
    case Arr(xs) =>
      forall i | 0 <= i < |xs| ensures RoundTrip(xs[i]) == xs[i] {
        RoundTripKeepsPlain(xs[i]);
      }
      assert seq(|xs|, i requires 0 <= i < |xs| => RoundTrip(xs[i])) == xs;
    case Obj(m) =>
      forall k | k in m ensures RoundTrip(m[k]) == m[k] {
        RoundTripKeepsPlain(m[k]);
      }
      assert (map k | k in m :: RoundTrip(m[k])) == m;
    case _ =>
  }

  lemma RoundTripDocIsPlain(d: Doc)
    ensures IsPlainDoc(RoundTripDoc(d))
  {
    forall k | k in d ensures IsPlain(RoundTrip(d[k])) {
      RoundTripIsPlain(d[k]);
    }
  }

  lemma RoundTripDocKeepsPlain(d: Doc)
    requires IsPlainDoc(d)
    ensures RoundTripDoc(d) == d
  {
    forall k | k in d ensures RoundTrip(d[k]) == d[k] {
      RoundTripKeepsPlain(d[k]);
    }
  }

  // ---------------------------------------------------------------------------
  // sanitize

  /** `sanitize` of a document that is present. */
  function SanitizeDoc(d: Doc): Doc
  {
    var s := RoundTripDoc(d);
    if "_id" in s && Truthy(s["_id"]) then s["id" := s["_id"]] else s
  }

  /** `sanitize(obj)`: null for a missing document, otherwise the round-tripped document with `id` set. */
  function Sanitize(obj: Option<Doc>): Option<Doc>
  {
    match obj
    case None => None
    case Some(d) => Some(SanitizeDoc(d))
  }

  /**
   * Sanitize keeps every field, each passed through the JSON round trip; `id` is added, equal to the
   * round-tripped `_id`, exactly when that is truthy; a field `id` is otherwise kept as it was.
   */
  lemma SanitizeFields(obj: Option<Doc>)
    ensures obj.None? <==> Sanitize(obj).None?
    ensures obj.Some? ==> var d, r := obj.value, Sanitize(obj).value;
      && (forall k :: k in d && k != "id" ==> k in r && r[k] == RoundTrip(d[k]))
      && (var copied := "_id" in d && Truthy(RoundTrip(d["_id"]));
          && r.Keys == d.Keys + (if copied then {"id"} else {})
          && (copied ==> r["id"] == RoundTrip(d["_id"]))
          && (!copied && "id" in d ==> r["id"] == RoundTrip(d["id"])))
  {
  }

  /** A stored ObjectId comes out as its hexadecimal text under both `_id` and `id`. */
  lemma SanitizeObjectId(d: Doc, hex: string)
    requires "_id" in d && d["_id"] == Oid(hex) && hex != ""
    ensures SanitizeDoc(d)["_id"] == Str(hex) && SanitizeDoc(d)["id"] == Str(hex)
  {
  }

  /** Sanitizing a sanitized document changes nothing. */
  lemma SanitizeIdempotent(obj: Option<Doc>)
    ensures Sanitize(Sanitize(obj)) == Sanitize(obj)
  {
    if obj.Some? {
      var d := obj.value;
      var s := RoundTripDoc(d);
      RoundTripDocIsPlain(d);
      var r := SanitizeDoc(d);
      assert IsPlainDoc(r);
      RoundTripDocKeepsPlain(r);
      if "_id" in r && Truthy(r["_id"]) {
        assert r["id" := r["_id"]] == r;
      }
    }
  }

  // ---------------------------------------------------------------------------
  // BSON sort order of values (the order `sort({ field: 1 })` uses)

  /** Position of a value's kind in the BSON comparison order (null < numbers < strings < ... < dates). */
  function KindRank(v: Value): (r: nat)
    ensures 1 <= r <= 9
  {
    match v
    case Null => 1
    case Num(_) => 2
    case Str(_) => 3
    case Obj(_) => 4
    case Arr(_) => 5
    case Oid(_) => 7
    case Bool(_) => 8
    case Date(_) => 9
  }

  /** Lexicographic order of texts, character by character. */
  predicate TextLe(a: string, b: string)
  {
    |a| == 0 || (|b| > 0 && (a[0] < b[0] || (a[0] == b[0] && TextLe(a[1..], b[1..]))))
  }

  lemma {:induction false} TextLeTotal(a: string, b: string)
    ensures TextLe(a, b) || TextLe(b, a)
  {
    if |a| > 0 && |b| > 0 && a[0] == b[0] {
      TextLeTotal(a[1..], b[1..]);
    }
  }

  lemma {:induction false} TextLeTrans(a: string, b: string, c: string)
    requires TextLe(a, b) && TextLe(b, c)
    ensures TextLe(a, c)
  {
    if |a| > 0 && a[0] == b[0] && b[0] == c[0] {
      TextLeTrans(a[1..], b[1..], c[1..]);
    }
  }

  /**
   * `a` sorts at or before `b`: by kind first, then numbers by value, texts and ObjectIds lexicographically,
   * false before true and dates by time. Two objects or two arrays compare equal here.
   */
  predicate BsonLe(a: Value, b: Value)
  {
    if KindRank(a) != KindRank(b) then KindRank(a) < KindRank(b)
    else match (a, b)
      case (Num(x), Num(y)) => x <= y
      case (Str(x), Str(y)) => TextLe(x, y)
      case (Oid(x), Oid(y)) => TextLe(x, y)
      case (Bool(x), Bool(y)) => !x || y
      case (Date(x), Date(y)) => x <= y
      case _ => true
  }

  lemma BsonLeTotal(a: Value, b: Value)
    ensures BsonLe(a, b) || BsonLe(b, a)
  {
    match (a, b)
    case (Str(x), Str(y)) => TextLeTotal(x, y);
    case (Oid(x), Oid(y)) => TextLeTotal(x, y);
    case _ =>
  }

  lemma BsonLeTrans(a: Value, b: Value, c: Value)
    requires BsonLe(a, b) && BsonLe(b, c)
    ensures BsonLe(a, c)
  {
    if KindRank(a) == KindRank(b) == KindRank(c) {
      match (a, b, c)
      case (Str(x), Str(y), Str(z)) => TextLeTrans(x, y, z);
      case (Oid(x), Oid(y), Oid(z)) => TextLeTrans(x, y, z);
      case _ =>
    }
  }
}
