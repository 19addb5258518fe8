/**
 The capability manifest's canonicalisers in the mock producer and in the client; ManifestCheck adds
 the contract check's.
 A JSON object row is a map from field to scalar, the digest stands for the canonical text, and
 alphabetical field lists stand for sort_keys.
 */
module Manifests {
  import opened Options

  datatype Scalar = Str(s: string) | Bool(b: bool) | OtherValue

  type Row = map<string, Scalar>

  datatype Payload = Payload(
    schemaVersion: int,
    tenant: string,
    region: string,
    products: seq<Row>,
    metrics: seq<Row>,
    generatedAt: string,
    version: string)

  const PRODUCT_FIELDS := ["enabled", "product_id"]
  const METRIC_FIELDS := ["enabled", "metric_key", "product_id", "unit"]

  predicate Fits(row: Row, fields: seq<string>) {
    && row.Keys == (set f | f in fields)
    && (forall f | f in fields :: if f == "enabled" then row[f].Bool? else row[f].Str? && row[f].s != "")
  }

  predicate AllFit(rows: seq<Row>, fields: seq<string>) {
    forall i | 0 <= i < |rows| :: Fits(rows[i], fields)
  }

  predicate Named(row: Row, id: string) {
    id in row && row[id].Str?
  }

  predicate AllNamed(rows: seq<Row>, id: string) {
    forall i | 0 <= i < |rows| :: Named(rows[i], id)
  }

  predicate DistinctNames(rows: seq<Row>, id: string)
    requires AllNamed(rows, id)
  {
    forall i, j | 0 <= i < j < |rows| :: rows[i][id].s != rows[j][id].s
  }

  // ----- sorting by a name -------------------------------------------------

  /** Python's order of strings: code point by code point. */
  predicate Less(a: string, b: string) {
    b != "" && (a == "" || a[0] < b[0] || (a[0] == b[0] && Less(a[1..], b[1..])))
  }

  lemma {:induction false} LessIsTotal(a: string, b: string)
    ensures a == b || Less(a, b) || Less(b, a)
    ensures !(Less(a, b) && Less(b, a)) && !Less(a, a)
  {
    if a != "" && b != "" {
      LessIsTotal(a[1..], b[1..]);
      LessIsTotal(a[1..], a[1..]);
      assert a == [a[0]] + a[1..] && b == [b[0]] + b[1..];
    } else if a != "" {
      LessIsTotal(a[1..], a[1..]);
    }
  }

  lemma {:induction false} LessIsTransitive(a: string, b: string, c: string)
    requires Less(a, b) && Less(b, c)
    ensures Less(a, c)
  {
    if a != "" && a[0] == b[0] == c[0] {
      LessIsTransitive(a[1..], b[1..], c[1..]);
    }
  }

  /** The stable insertion that sorted() amounts to for one more row. */
  function Insert(row: Row, rows: seq<Row>, id: string): seq<Row>
    requires Named(row, id) && AllNamed(rows, id)
  {
    if rows == [] || !Less(rows[0][id].s, row[id].s) then [row] + rows
    else [rows[0]] + Insert(row, rows[1..], id)
  }

  lemma {:induction false} InsertKeeps(row: Row, rows: seq<Row>, id: string)
    requires Named(row, id) && AllNamed(rows, id)
    ensures multiset(Insert(row, rows, id)) == multiset(rows) + multiset{row}
    ensures AllNamed(Insert(row, rows, id), id)
  {
    hide Less;
    if rows != [] && Less(rows[0][id].s, row[id].s) {
      var rest := Insert(row, rows[1..], id);
      InsertKeeps(row, rows[1..], id);
      HeadCounts(rows);
      hide Named;
      assert multiset([rows[0]] + rest) == multiset{rows[0]} + multiset(rest);
    }
  }

  lemma HeadCounts(rows: seq<Row>)
    requires rows != []
    ensures multiset(rows) == multiset{rows[0]} + multiset(rows[1..])
  {
    assert rows == [rows[0]] + rows[1..];
  }

  function SortBy(rows: seq<Row>, id: string): (r: seq<Row>)
    requires AllNamed(rows, id)
    ensures AllNamed(r, id) && multiset(r) == multiset(rows)
  {
    if rows == [] then []
    else
      InsertKeeps(rows[0], SortBy(rows[1..], id), id);
      assert rows == [rows[0]] + rows[1..];
      Insert(rows[0], SortBy(rows[1..], id), id)
  }

  predicate Ascending(rows: seq<Row>, id: string)
    requires AllNamed(rows, id)
  {
    forall i, j | 0 <= i < j < |rows| :: Less(rows[i][id].s, rows[j][id].s)
  }

  predicate AllAbove(name: string, rows: seq<Row>, id: string)
    requires AllNamed(rows, id)
  {
    forall j | 0 <= j < |rows| :: Less(name, rows[j][id].s)
  }

  lemma AscendingCons(row: Row, rows: seq<Row>, id: string)
    requires Named(row, id) && AllNamed(rows, id) && Ascending(rows, id) && AllAbove(row[id].s, rows, id)
    ensures AllNamed([row] + rows, id) && Ascending([row] + rows, id)
  {
    hide Less;
    var all: seq<Row> := [row] + rows;
    forall i, j | 0 <= i < j < |all| ensures Less(all[i][id].s, all[j][id].s) {
      assert all[j] == rows[j - 1];
      if i > 0 { assert all[i] == rows[i - 1]; }
    }
  }

  lemma {:induction false} InsertAbove(name: string, row: Row, rows: seq<Row>, id: string)
    requires Named(row, id) && AllNamed(rows, id) && AllAbove(name, rows, id) && Less(name, row[id].s)
    ensures AllNamed(Insert(row, rows, id), id) && AllAbove(name, Insert(row, rows, id), id)
  {
    InsertKeeps(row, rows, id);
    var all: seq<Row> := Insert(row, rows, id);
    forall j | 0 <= j < |all| ensures Less(name, all[j][id].s) {
      assert all[j] in multiset(rows) + multiset{row};
    }
  }

  lemma AboveFirst(row: Row, rows: seq<Row>, id: string)
    requires Named(row, id) && AllNamed(rows, id) && Ascending(rows, id) && rows != [] && Less(row[id].s, rows[0][id].s)
    ensures AllAbove(row[id].s, rows, id)
  {
    forall j | 0 < j < |rows| ensures Less(row[id].s, rows[j][id].s) {
      LessIsTransitive(row[id].s, rows[0][id].s, rows[j][id].s);
    }
    hide Less;
  }

  lemma {:induction false} InsertAscending(row: Row, rows: seq<Row>, id: string)
    requires Named(row, id) && AllNamed(rows, id) && Ascending(rows, id)
    requires forall i | 0 <= i < |rows| :: rows[i][id].s != row[id].s
    ensures AllNamed(Insert(row, rows, id), id) && Ascending(Insert(row, rows, id), id)
  {
    hide Less;
    if rows != [] {
      LessIsTotal(rows[0][id].s, row[id].s);
      if Less(rows[0][id].s, row[id].s) {
        InsertAscending(row, rows[1..], id);
        InsertAbove(rows[0][id].s, row, rows[1..], id);
        AscendingCons(rows[0], Insert(row, rows[1..], id), id);
      } else {
        AboveFirst(row, rows, id);
        AscendingCons(row, rows, id);
      }
    }
  }

  lemma {:induction false} SortAscending(rows: seq<Row>, id: string)
    requires AllNamed(rows, id) && DistinctNames(rows, id)
    ensures Ascending(SortBy(rows, id), id)
  {
    if rows != [] {
      SortAscending(rows[1..], id);
      var rest: seq<Row> := SortBy(rows[1..], id);
      forall i | 0 <= i < |rest| ensures rest[i][id].s != rows[0][id].s {
        assert rest[i] in multiset(rest);
        assert rest[i] in rows[1..];
      }
      InsertAscending(rows[0], rest, id);
    }
  }

  lemma SameHead(a: seq<Row>, b: seq<Row>, id: string)
    requires AllNamed(a, id) && AllNamed(b, id) && Ascending(a, id) && Ascending(b, id)
    requires multiset(a) == multiset(b) && a != [] && b != []
    ensures a[0] == b[0]
  {
    hide Less;
    assert a[0] in multiset(b) && b[0] in multiset(a);
    var i :| 0 <= i < |b| && b[i] == a[0];
    var j :| 0 <= j < |a| && a[j] == b[0];
    if i > 0 && j > 0 { LessIsTotal(a[0][id].s, b[0][id].s); }
  }

  lemma TailsMatch<T>(a: seq<T>, b: seq<T>)
    requires multiset(a) == multiset(b) && a != [] && b != [] && a[0] == b[0]
    ensures multiset(a[1..]) == multiset(b[1..])
  {
    assert a == [a[0]] + a[1..] && b == [b[0]] + b[1..];
    assert multiset(a) == multiset{a[0]} + multiset(a[1..]);
    assert multiset(b) == multiset{b[0]} + multiset(b[1..]);
    assert multiset(a[1..]) == multiset(a) - multiset{a[0]};
    assert multiset(b[1..]) == multiset(b) - multiset{b[0]};
  }

  /** There is one ascending order of a collection of distinctly named rows. */
  lemma {:induction false} AscendingIsUnique(a: seq<Row>, b: seq<Row>, id: string)
    requires AllNamed(a, id) && AllNamed(b, id) && Ascending(a, id) && Ascending(b, id)
    requires multiset(a) == multiset(b)
    ensures a == b
    decreases |a|
  {
    hide Less;
    assert |a| == |multiset(a)| && |b| == |multiset(b)|;
    if a != [] {
      SameHead(a, b, id);
      TailsMatch(a, b);
      AscendingIsUnique(a[1..], b[1..], id);
      assert a == [a[0]] + a[1..] && b == [b[0]] + b[1..];
    }
  }

  // ----- the canonical text ------------------------------------------------

  function Hex(n: nat): char
    requires n < 16
  {
    "0123456789abcdef"[n]
  }

  /** One character of a JSON string with ensure_ascii off. */
  function EncodedChar(c: char): string {
    if c == '"' then "\\\"" else if c == '\\' then "\\\\" else if c == '\n' then "\\n" else if c == '\r' then "\\r"
    else if c == '\t' then "\\t" else if c == '\U{0C}' then "\\f" else if c == '\U{08}' then "\\b"
    else if c as int < 32 then "\\u00" + [Hex(c as int / 16), Hex(c as int % 16)]
    else [c]
  }

  function EncodedBody(s: string): string {
    if s == "" then "" else EncodedChar(s[0]) + EncodedBody(s[1..])
  }

  function Quoted(s: string): string {
    "\"" + EncodedBody(s) + "\""
  }

  function ScalarText(v: Scalar): string {
    match v
    case Str(s) => Quoted(s)
    case Bool(b) => if b then "true" else "false"
    case OtherValue => "null"
  }

  function FieldsText(row: Row, fields: seq<string>): string
    requires forall f | f in fields :: f in row
  {
    if fields == [] then ""
    else "\"" + fields[0] + "\":" + ScalarText(row[fields[0]])
         + (if |fields| == 1 then "" else "," + FieldsText(row, fields[1..]))
  }

  function RowsText(rows: seq<Row>, fields: seq<string>): string
    requires AllFit(rows, fields)
  {
    if rows == [] then ""
    else "{" + FieldsText(rows[0], fields) + "}" + (if |rows| == 1 then "" else "," + RowsText(rows[1..], fields))
  }

  /** json.dumps of the semantic part, for rows that are sorted already. */
  function FormText(tenant: string, region: string, products: seq<Row>, metrics: seq<Row>): string
    requires AllFit(products, PRODUCT_FIELDS) && AllFit(metrics, METRIC_FIELDS)
  {
    "{\"products\":[" + RowsText(products, PRODUCT_FIELDS) + "],\"region\":" + Quoted(region)
    + ",\"schema_version\":1,\"tenant_id\":" + Quoted(tenant)
    + ",\"usage_metrics\":[" + RowsText(metrics, METRIC_FIELDS) + "]}"
  }

  // ----- the producer ------------------------------------------------------

  lemma FitsIsNamed(rows: seq<Row>, fields: seq<string>, id: string)
    requires AllFit(rows, fields) && id in fields && id != "enabled"
    ensures AllNamed(rows, id)
  {
    forall i | 0 <= i < |rows| ensures Named(rows[i], id) {
      assert Fits(rows[i], fields);
    }
  }

  predicate Owned(products: seq<Row>, metric: Row)
    requires AllNamed(products, "product_id") && Named(metric, "product_id")
  {
    exists j | 0 <= j < |products| :: products[j]["product_id"] == metric["product_id"]
  }

  predicate References(products: seq<Row>, metrics: seq<Row>)
    requires AllNamed(products, "product_id") && AllNamed(metrics, "product_id")
  {
    forall i | 0 <= i < |metrics| :: Owned(products, metrics[i])
  }

  /** What semantic_version accepts before hashing. */
  predicate Stampable(p: Payload) {
    && p.schemaVersion == 1 && p.tenant != "" && p.region != ""
    && AllFit(p.products, PRODUCT_FIELDS) && AllFit(p.metrics, METRIC_FIELDS)
    && AllNamed(p.products, "product_id") && AllNamed(p.metrics, "metric_key") && AllNamed(p.metrics, "product_id")
    && DistinctNames(p.products, "product_id") && DistinctNames(p.metrics, "metric_key")
    && References(p.products, p.metrics)
  }

  lemma SortedFit(rows: seq<Row>, fields: seq<string>, id: string)
    requires AllFit(rows, fields) && AllNamed(rows, id)
    ensures AllFit(SortBy(rows, id), fields)
  {
    forall i | 0 <= i < |SortBy(rows, id)| ensures Fits(SortBy(rows, id)[i], fields) {
      assert SortBy(rows, id)[i] in multiset(SortBy(rows, id));
      assert SortBy(rows, id)[i] in rows;
    }
  }

  /** The text that semantic_version hashes. */
  function Canonical(p: Payload): string
    requires AllFit(p.products, PRODUCT_FIELDS) && AllFit(p.metrics, METRIC_FIELDS)
  {
    FitsIsNamed(p.products, PRODUCT_FIELDS, "product_id");
    FitsIsNamed(p.metrics, METRIC_FIELDS, "metric_key");
    SortedFit(p.products, PRODUCT_FIELDS, "product_id");
    SortedFit(p.metrics, METRIC_FIELDS, "metric_key");
    FormText(p.tenant, p.region, SortBy(p.products, "product_id"), SortBy(p.metrics, "metric_key"))
  }

  // ----- the text determines the meaning -----------------------------------

  lemma CharsAreRead(c: char, d: char, x: string, y: string)
    requires EncodedChar(c) + x == EncodedChar(d) + y
    ensures c == d && x == y
  {
    var s, t := EncodedChar(c) + x, EncodedChar(d) + y;
    assert s[0] == t[0];
    if EncodedChar(c)[0] == '\\' {
      assert s[1] == EncodedChar(c)[1] && t[1] == EncodedChar(d)[1];
      if EncodedChar(c)[1] == 'u' {
        assert s[4] == t[4] && s[5] == t[5];
        HexIsRead(c as int / 16, d as int / 16);
        HexIsRead(c as int % 16, d as int % 16);
      }
    }
    assert s[|EncodedChar(c)|..] == x && t[|EncodedChar(d)|..] == y;
  }

  lemma HexIsRead(m: nat, n: nat)
    requires m < 16 && n < 16 && Hex(m) == Hex(n)
    ensures m == n
  {
  }

  lemma {:induction false} BodyIsRead(s: string, t: string, x: string, y: string)
    requires EncodedBody(s) + "\"" + x == EncodedBody(t) + "\"" + y
    ensures s == t && x == y
  {
    hide EncodedChar;
    if s == "" || t == "" {
      BodyStart(s, x);
      BodyStart(t, y);
      assert EncodedBody("") + "\"" + x == "\"" + x && EncodedBody("") + "\"" + y == "\"" + y;
      AfterPrefix("\"", x, y);
    } else {
      var u, v := EncodedBody(s[1..]) + "\"" + x, EncodedBody(t[1..]) + "\"" + y;
      assert EncodedBody(s) + "\"" + x == EncodedChar(s[0]) + u;
      assert EncodedBody(t) + "\"" + y == EncodedChar(t[0]) + v;
      CharsAreRead(s[0], t[0], u, v);
      BodyIsRead(s[1..], t[1..], x, y);
      assert s == [s[0]] + s[1..] && t == [t[0]] + t[1..];
    }
  }

  lemma BodyStart(s: string, x: string)
    ensures (EncodedBody(s) + "\"" + x)[0] == '"' <==> s == ""
  {
    if s != "" {
      assert (EncodedBody(s) + "\"" + x)[0] == EncodedChar(s[0])[0];
    }
  }

  lemma QuotedIsRead(s: string, t: string, x: string, y: string)
    requires Quoted(s) + x == Quoted(t) + y
    ensures s == t && x == y
  {
    var b, c := EncodedBody(s), EncodedBody(t);
    hide EncodedBody;
    assert Quoted(s) + x == "\"" + (b + "\"" + x);
    assert Quoted(t) + y == "\"" + (c + "\"" + y);
    AfterPrefix("\"", b + "\"" + x, c + "\"" + y);
    BodyIsRead(s, t, x, y);
  }

  lemma ScalarIsRead(v: Scalar, w: Scalar, x: string, y: string)
    requires ScalarText(v) + x == ScalarText(w) + y
    ensures v == w && x == y
  {
    var s, t := ScalarText(v) + x, ScalarText(w) + y;
    assert s[0] == t[0] && s[0] == ScalarText(v)[0] && t[0] == ScalarText(w)[0];
    if v.Str? {
      hide EncodedBody;
      QuotedIsRead(v.s, w.s, x, y);
    } else {
      hide EncodedBody;
      assert s[|ScalarText(v)|..] == x && t[|ScalarText(w)|..] == y;
    }
  }

  lemma AfterPrefix(p: string, x: string, y: string)
    requires p + x == p + y
    ensures x == y
  {
    assert (p + x)[|p|..] == x && (p + y)[|p|..] == y;
  }

  lemma {:induction false} FieldsAreRead(r: Row, q: Row, fields: seq<string>, x: string, y: string)
    requires forall f | f in fields :: f in r && f in q
    requires FieldsText(r, fields) + x == FieldsText(q, fields) + y
    ensures (forall f | f in fields :: r[f] == q[f]) && x == y
  {
    hide ScalarText;
    if fields == [] {
      assert "" + x == x && "" + y == y;
    } else {
      var f := fields[0];
      var p := "\"" + f + "\":";
      var more := |fields| > 1;
      var u := (if more then "," + FieldsText(r, fields[1..]) else "") + x;
      var v := (if more then "," + FieldsText(q, fields[1..]) else "") + y;
      assert FieldsText(r, fields) + x == p + (ScalarText(r[f]) + u);
      assert FieldsText(q, fields) + y == p + (ScalarText(q[f]) + v);
      AfterPrefix(p, ScalarText(r[f]) + u, ScalarText(q[f]) + v);
      ScalarIsRead(r[f], q[f], u, v);
      if more {
        assert u == "," + (FieldsText(r, fields[1..]) + x) && v == "," + (FieldsText(q, fields[1..]) + y);
        AfterPrefix(",", FieldsText(r, fields[1..]) + x, FieldsText(q, fields[1..]) + y);
        FieldsAreRead(r, q, fields[1..], x, y);
        assert forall g | g in fields :: g == f || g in fields[1..];
      } else {
        assert u == x && v == y;
      }
    }
  }

  lemma RowIsRead(r: Row, q: Row, fields: seq<string>, x: string, y: string)
    requires Fits(r, fields) && Fits(q, fields)
    requires "{" + FieldsText(r, fields) + "}" + x == "{" + FieldsText(q, fields) + "}" + y
    ensures r == q && x == y
  {
    hide FieldsText;
    AfterPrefix("{", FieldsText(r, fields) + ("}" + x), FieldsText(q, fields) + ("}" + y)) by {
      assert "{" + FieldsText(r, fields) + "}" + x == "{" + (FieldsText(r, fields) + ("}" + x));
      assert "{" + FieldsText(q, fields) + "}" + y == "{" + (FieldsText(q, fields) + ("}" + y));
    }
    FieldsAreRead(r, q, fields, "}" + x, "}" + y);
    AfterPrefix("}", x, y);
    assert forall f | f in r :: f in fields;
  }

  /** What follows a row tells whether another one comes. */
  function Following(rows: seq<Row>, fields: seq<string>, x: string): string
    requires rows != [] && AllFit(rows, fields)
  {
    (if |rows| == 1 then "" else "," + RowsText(rows[1..], fields)) + "]" + x
  }

  lemma RowsSplit(rows: seq<Row>, fields: seq<string>, x: string)
    requires AllFit(rows, fields) && rows != []
    ensures RowsText(rows, fields) + "]" + x == "{" + FieldsText(rows[0], fields) + "}" + Following(rows, fields, x)
  {
    hide FieldsText;
    var head := "{" + FieldsText(rows[0], fields) + "}";
    var rest := if |rows| == 1 then "" else "," + RowsText(rows[1..], fields);
    assert RowsText(rows, fields) == head + rest;
    assert head + rest + "]" + x == head + (rest + "]" + x);
  }

  lemma RowsStart(rows: seq<Row>, fields: seq<string>, x: string)
    requires AllFit(rows, fields)
    ensures (RowsText(rows, fields) + "]" + x)[0] == (if rows == [] then ']' else '{')
  {
    hide FieldsText, Fits;
    if rows != [] {
      RowsSplit(rows, fields, x);
    }
  }

  lemma FollowingIs(rows: seq<Row>, fields: seq<string>, x: string)
    requires AllFit(rows, fields) && rows != []
    ensures Following(rows, fields, x)
            == if |rows| == 1 then "]" + x else "," + (RowsText(rows[1..], fields) + "]" + x)
    ensures Following(rows, fields, x)[0] == if |rows| == 1 then ']' else ','
  {
    hide RowsText, Fits;
    if |rows| == 1 {
      assert "" + "]" + x == "]" + x;
    } else {
      assert "," + RowsText(rows[1..], fields) + "]" + x == "," + (RowsText(rows[1..], fields) + "]" + x);
    }
  }

  lemma {:induction false} RowsAreRead(a: seq<Row>, b: seq<Row>, fields: seq<string>, x: string, y: string)
    requires AllFit(a, fields) && AllFit(b, fields)
    requires RowsText(a, fields) + "]" + x == RowsText(b, fields) + "]" + y
    ensures a == b && x == y
    decreases |a|
  {
    RowsStart(a, fields, x);
    RowsStart(b, fields, y);
    if a == [] {
      assert "" + "]" + x == "]" + x && "" + "]" + y == "]" + y;
      AfterPrefix("]", x, y);
    } else {
      hide FieldsText, Fits, RowsText, Following;
      RowsSplit(a, fields, x);
      RowsSplit(b, fields, y);
      RowIsRead(a[0], b[0], fields, Following(a, fields, x), Following(b, fields, y));
      FollowingIs(a, fields, x);
      FollowingIs(b, fields, y);
      if |a| == 1 {
        AfterPrefix("]", x, y);
      } else {
        AfterPrefix(",", RowsText(a[1..], fields) + "]" + x, RowsText(b[1..], fields) + "]" + y);
        RowsAreRead(a[1..], b[1..], fields, x, y);
      }
      assert a == [a[0]] + a[1..] && b == [b[0]] + b[1..];
    }
  }

  /** Equal texts come from the same scope and the same rows in the same order. */
  lemma FormIsRead(tenant: string, region: string, products: seq<Row>, metrics: seq<Row>,
                   tenant': string, region': string, products': seq<Row>, metrics': seq<Row>)
    requires AllFit(products, PRODUCT_FIELDS) && AllFit(metrics, METRIC_FIELDS)
    requires AllFit(products', PRODUCT_FIELDS) && AllFit(metrics', METRIC_FIELDS)
    requires FormText(tenant, region, products, metrics) == FormText(tenant', region', products', metrics')
    ensures tenant == tenant' && region == region' && products == products' && metrics == metrics'
  {
    hide RowsText, Quoted, AllFit;
    var m, m' := RowsText(metrics, METRIC_FIELDS) + "]" + "}", RowsText(metrics', METRIC_FIELDS) + "]" + "}";
    var c, c' := ",\"usage_metrics\":[" + m, ",\"usage_metrics\":[" + m';
    var b, b' := ",\"schema_version\":1,\"tenant_id\":" + (Quoted(tenant) + c), ",\"schema_version\":1,\"tenant_id\":" + (Quoted(tenant') + c');
    var a, a' := ",\"region\":" + (Quoted(region) + b), ",\"region\":" + (Quoted(region') + b');
    FormShape(tenant, region, products, metrics);
    FormShape(tenant', region', products', metrics');
    AfterPrefix("{\"products\":[", RowsText(products, PRODUCT_FIELDS) + "]" + a, RowsText(products', PRODUCT_FIELDS) + "]" + a');
    RowsAreRead(products, products', PRODUCT_FIELDS, a, a');
    AfterPrefix(",\"region\":", Quoted(region) + b, Quoted(region') + b');
    QuotedIsRead(region, region', b, b');
    AfterPrefix(",\"schema_version\":1,\"tenant_id\":", Quoted(tenant) + c, Quoted(tenant') + c');
    QuotedIsRead(tenant, tenant', c, c');
    AfterPrefix(",\"usage_metrics\":[", m, m');
    RowsAreRead(metrics, metrics', METRIC_FIELDS, "}", "}");
  }

  lemma FormShape(tenant: string, region: string, products: seq<Row>, metrics: seq<Row>)
    requires AllFit(products, PRODUCT_FIELDS) && AllFit(metrics, METRIC_FIELDS)
    ensures FormText(tenant, region, products, metrics)
            == "{\"products\":[" + (RowsText(products, PRODUCT_FIELDS) + "]"
               + (",\"region\":" + (Quoted(region)
               + (",\"schema_version\":1,\"tenant_id\":" + (Quoted(tenant)
               + (",\"usage_metrics\":[" + (RowsText(metrics, METRIC_FIELDS) + "]" + "}")))))))
  {
    hide RowsText, Quoted, AllFit;
  }

  // ----- main results ------------------------------------------------------

  /** The scope and the collections of rows: what a digest should identify. */
  predicate SameMeaning(p: Payload, q: Payload) {
    p.tenant == q.tenant && p.region == q.region
    && multiset(p.products) == multiset(q.products) && multiset(p.metrics) == multiset(q.metrics)
  }

  lemma SortedSame(a: seq<Row>, b: seq<Row>, id: string)
    requires AllNamed(a, id) && AllNamed(b, id) && DistinctNames(a, id) && DistinctNames(b, id)
    ensures SortBy(a, id) == SortBy(b, id) <==> multiset(a) == multiset(b)
  {
    hide SortBy;
    if multiset(a) == multiset(b) {
      SortAscending(a, id);
      SortAscending(b, id);
      AscendingIsUnique(SortBy(a, id), SortBy(b, id), id);
    }
  }

  /**
   Two stampable manifests have the same digest exactly when they name the same scope and the same
   products and metrics, in any order and at any time.
   */
  lemma DigestIdentifiesMeaning(p: Payload, q: Payload)
    requires Stampable(p) && Stampable(q)
    ensures Canonical(p) == Canonical(q) <==> SameMeaning(p, q)
  {
    hide SortBy, FormText, Fits, DistinctNames, References;
    SortedFit(p.products, PRODUCT_FIELDS, "product_id");
    SortedFit(p.metrics, METRIC_FIELDS, "metric_key");
    SortedFit(q.products, PRODUCT_FIELDS, "product_id");
    SortedFit(q.metrics, METRIC_FIELDS, "metric_key");
    SortedSame(p.products, q.products, "product_id");
    SortedSame(p.metrics, q.metrics, "metric_key");
    if Canonical(p) == Canonical(q) {
      FormIsRead(p.tenant, p.region, SortBy(p.products, "product_id"), SortBy(p.metrics, "metric_key"),
                 q.tenant, q.region, SortBy(q.products, "product_id"), SortBy(q.metrics, "metric_key"));
    }
  }

  // ----- the producer's check, as its loops run ----------------------------

  /** One collection of semantic_version: shape, names and duplicates, row by row. */
  method CheckRows(rows: seq<Row>, fields: seq<string>, id: string) returns (names: Option<set<string>>)
    requires id in fields && id != "enabled"
    ensures names.Some? <==> AllFit(rows, fields) && AllNamed(rows, id) && DistinctNames(rows, id)
    ensures names.Some? ==> forall n :: n in names.value <==> exists i | 0 <= i < |rows| :: rows[i][id].s == n
  {
    var seen: set<string> := {};
    var i := 0;
    while i < |rows|
      invariant 0 <= i <= |rows|
      invariant AllFit(rows[..i], fields) && AllNamed(rows[..i], id) && DistinctNames(rows[..i], id)
      invariant forall n :: n in seen <==> exists j | 0 <= j < i :: rows[..i][j][id].s == n
    {
      var row := rows[i];
      if !Fits(row, fields) {
        return None;
      }
      assert Named(row, id);
      if row[id].s in seen {
        assert AllNamed(rows, id) ==> !DistinctNames(rows, id);
        return None;
      }
      seen := seen + {row[id].s};
      assert rows[..i + 1] == rows[..i] + [row];
      i := i + 1;
    }
    assert rows[..|rows|] == rows;
    return Some(seen);
  }

  method SemanticVersion(p: Payload) returns (text: Option<string>)
    ensures text == if Stampable(p) then Some(Canonical(p)) else None
  {
    hide Fits, FormText, SortBy;
    if p.schemaVersion != 1 || p.tenant == "" || p.region == "" {
      return None;
    }
    var products := CheckRows(p.products, PRODUCT_FIELDS, "product_id");
    if products.None? {
      return None;
    }
    var metrics := CheckRows(p.metrics, METRIC_FIELDS, "metric_key");
    if metrics.None? {
      return None;
    }
    FitsIsNamed(p.metrics, METRIC_FIELDS, "product_id");
    if exists i | 0 <= i < |p.metrics| :: p.metrics[i]["product_id"].s !in products.value {
      assert !References(p.products, p.metrics);
      return None;
    }
    assert References(p.products, p.metrics) by {
      forall i | 0 <= i < |p.metrics|
        ensures Owned(p.products, p.metrics[i])
      {
        assert p.metrics[i]["product_id"].s in products.value;
        var j :| 0 <= j < |p.products| && p.products[j]["product_id"].s == p.metrics[i]["product_id"].s;
      }
    }
    return Some(Canonical(p));
  }

  // ----- the client --------------------------------------------------------

  datatype Product = Product(productId: string, enabled: bool)

  datatype Metric = Metric(metricKey: string, productId: string, unit: string, enabled: bool)

  function ProductOf(row: Row): Product
    requires Fits(row, PRODUCT_FIELDS)
  {
    Product(row["product_id"].s, row["enabled"].b)
  }

  function MetricOf(row: Row): Metric
    requires Fits(row, METRIC_FIELDS)
  {
    Metric(row["metric_key"].s, row["product_id"].s, row["unit"].s, row["enabled"].b)
  }

  /** model_dump of one wire row. */
  function ProductRow(p: Product): Row {
    map["product_id" := Str(p.productId), "enabled" := Bool(p.enabled)]
  }

  function MetricRow(m: Metric): Row {
    map["metric_key" := Str(m.metricKey), "product_id" := Str(m.productId), "unit" := Str(m.unit), "enabled" := Bool(m.enabled)]
  }

  function InsertItem<T>(x: T, xs: seq<T>, key: T -> string): seq<T> {
    if xs == [] || !Less(key(xs[0]), key(x)) then [x] + xs else [xs[0]] + InsertItem(x, xs[1..], key)
  }

  function SortItems<T>(xs: seq<T>, key: T -> string): seq<T> {
    if xs == [] then [] else InsertItem(xs[0], SortItems(xs[1..], key), key)
  }

  function Dumped<T>(xs: seq<T>, dump: T -> Row): (rows: seq<Row>)
    ensures |rows| == |xs| && forall i | 0 <= i < |xs| :: rows[i] == dump(xs[i])
  {
    if xs == [] then [] else [dump(xs[0])] + Dumped(xs[1..], dump)
  }

  ghost predicate Dumps<T(!new)>(dump: T -> Row, key: T -> string, id: string) {
    forall x :: Named(dump(x), id) && dump(x)[id].s == key(x)
  }

  lemma DumpedNamed<T(!new)>(xs: seq<T>, dump: T -> Row, key: T -> string, id: string)
    requires Dumps(dump, key, id)
    ensures AllNamed(Dumped(xs, dump), id)
  {
  }

  lemma {:induction false} InsertDumped<T(!new)>(x: T, xs: seq<T>, dump: T -> Row, key: T -> string, id: string)
    requires Dumps(dump, key, id)
    ensures Named(dump(x), id) && AllNamed(Dumped(xs, dump), id)
    ensures Dumped(InsertItem(x, xs, key), dump) == Insert(dump(x), Dumped(xs, dump), id)
  {
    DumpedNamed(xs, dump, key, id);
    if xs != [] && Less(key(xs[0]), key(x)) {
      InsertDumped(x, xs[1..], dump, key, id);
      assert Dumped(xs, dump)[1..] == Dumped(xs[1..], dump);
      assert InsertItem(x, xs, key)[1..] == InsertItem(x, xs[1..], key);
    } else {
      assert ([x] + xs)[1..] == xs;
    }
  }

  /** Sorting the decoded items and dumping them is sorting the dumped rows. */
  lemma {:induction false} SortDumped<T(!new)>(xs: seq<T>, dump: T -> Row, key: T -> string, id: string)
    requires Dumps(dump, key, id)
    ensures AllNamed(Dumped(xs, dump), id)
    ensures Dumped(SortItems(xs, key), dump) == SortBy(Dumped(xs, dump), id)
  {
    DumpedNamed(xs, dump, key, id);
    if xs != [] {
      SortDumped(xs[1..], dump, key, id);
      InsertDumped(xs[0], SortItems(xs[1..], key), dump, key, id);
      assert Dumped(xs, dump)[1..] == Dumped(xs[1..], dump);
    }
  }

  lemma FirstAndRestFit(rows: seq<Row>, fields: seq<string>)
    requires AllFit(rows, fields) && rows != []
    ensures Fits(rows[0], fields) && AllFit(rows[1..], fields)
  {
    hide Fits;
  }

  function Products(rows: seq<Row>): (ps: seq<Product>)
    requires AllFit(rows, PRODUCT_FIELDS)
    ensures |ps| == |rows| && forall i | 0 <= i < |rows| :: ps[i] == ProductOf(rows[i])
  {
    if rows == [] then []
    else
      FirstAndRestFit(rows, PRODUCT_FIELDS);
      [ProductOf(rows[0])] + Products(rows[1..])
  }

  function Metrics(rows: seq<Row>): (ms: seq<Metric>)
    requires AllFit(rows, METRIC_FIELDS)
    ensures |ms| == |rows| && forall i | 0 <= i < |rows| :: ms[i] == MetricOf(rows[i])
  {
    if rows == [] then []
    else
      FirstAndRestFit(rows, METRIC_FIELDS);
      [MetricOf(rows[0])] + Metrics(rows[1..])
  }

  const PRODUCT_KEY := (p: Product) => p.productId
  const METRIC_KEY := (m: Metric) => m.metricKey
  const DUMP_PRODUCT := (p: Product) => ProductRow(p)
  const DUMP_METRIC := (m: Metric) => MetricRow(m)

  /** The rows the client serializes: decoded, sorted, dumped. */
  function ClientProducts(rows: seq<Row>): seq<Row>
    requires AllFit(rows, PRODUCT_FIELDS)
  {
    Dumped(SortItems(Products(rows), PRODUCT_KEY), DUMP_PRODUCT)
  }

  function ClientMetrics(rows: seq<Row>): seq<Row>
    requires AllFit(rows, METRIC_FIELDS)
  {
    Dumped(SortItems(Metrics(rows), METRIC_KEY), DUMP_METRIC)
  }

  lemma ProductDumps(row: Row)
    requires Fits(row, PRODUCT_FIELDS)
    ensures ProductRow(ProductOf(row)) == row
  {
    assert "enabled" in PRODUCT_FIELDS && "product_id" in PRODUCT_FIELDS;
    assert row.Keys == {"enabled", "product_id"};
  }

  lemma MetricDumps(row: Row)
    requires Fits(row, METRIC_FIELDS)
    ensures MetricRow(MetricOf(row)) == row
  {
    assert forall f | f in {"enabled", "metric_key", "product_id", "unit"} :: f in METRIC_FIELDS;
    assert row.Keys == {"enabled", "metric_key", "product_id", "unit"};
  }

  lemma ClientProductsAreSorted(products: seq<Row>)
    requires AllFit(products, PRODUCT_FIELDS)
    ensures AllNamed(products, "product_id") && ClientProducts(products) == SortBy(products, "product_id")
  {
    hide SortBy, SortItems, Fits;
    FitsIsNamed(products, PRODUCT_FIELDS, "product_id");
    forall i | 0 <= i < |products| ensures Dumped(Products(products), DUMP_PRODUCT)[i] == products[i] {
      ProductDumps(products[i]);
    }
    assert Dumped(Products(products), DUMP_PRODUCT) == products;
    SortDumped(Products(products), DUMP_PRODUCT, PRODUCT_KEY, "product_id");
  }

  lemma ClientMetricsAreSorted(metrics: seq<Row>)
    requires AllFit(metrics, METRIC_FIELDS)
    ensures AllNamed(metrics, "metric_key") && ClientMetrics(metrics) == SortBy(metrics, "metric_key")
  {
    hide SortBy, SortItems, Fits;
    FitsIsNamed(metrics, METRIC_FIELDS, "metric_key");
    forall i | 0 <= i < |metrics| ensures Dumped(Metrics(metrics), DUMP_METRIC)[i] == metrics[i] {
      MetricDumps(metrics[i]);
    }
    assert Dumped(Metrics(metrics), DUMP_METRIC) == metrics;
    SortDumped(Metrics(metrics), DUMP_METRIC, METRIC_KEY, "metric_key");
  }

  datatype Decoded =
    | Accepted(products: seq<Product>, metrics: seq<Metric>)
    | ScopeMismatch
    | Invalid

  function Names(rows: seq<Row>, id: string): set<string>
    requires AllNamed(rows, id)
  {
    set i | 0 <= i < |rows| :: rows[i][id].s
  }

  /** _decode_manifest on a parsed document; `dated` tells whether generated_at is a date-time. */
  function Decode(p: Payload, tenant: string, region: string, dated: bool): Decoded {
    if p.schemaVersion != 1 || p.tenant == "" || p.region == "" || !dated
       || !AllFit(p.products, PRODUCT_FIELDS) || !AllFit(p.metrics, METRIC_FIELDS)
    then Invalid
    else if p.tenant != tenant || p.region != region then ScopeMismatch
    else
      FitsIsNamed(p.products, PRODUCT_FIELDS, "product_id");
      FitsIsNamed(p.metrics, METRIC_FIELDS, "metric_key");
      FitsIsNamed(p.metrics, METRIC_FIELDS, "product_id");
      if |Names(p.products, "product_id")| != |p.products| || |Names(p.metrics, "metric_key")| != |p.metrics|
         || exists i | 0 <= i < |p.metrics| :: p.metrics[i]["product_id"].s !in Names(p.products, "product_id")
      then Invalid
      else
        ClientProductsAreSorted(p.products);
        ClientMetricsAreSorted(p.metrics);
        SortedFit(p.products, PRODUCT_FIELDS, "product_id");
        SortedFit(p.metrics, METRIC_FIELDS, "metric_key");
        if p.version != FormText(p.tenant, p.region, ClientProducts(p.products), ClientMetrics(p.metrics))
        then Invalid
        else Accepted(Products(p.products), Metrics(p.metrics))
  }

  lemma DistinctSplit(rows: seq<Row>, id: string)
    requires AllNamed(rows, id) && rows != []
    ensures var front := rows[..|rows| - 1];
            AllNamed(front, id)
            && (DistinctNames(rows, id) <==> DistinctNames(front, id) && rows[|rows| - 1][id].s !in Names(front, id))
  {
    var front := rows[..|rows| - 1];
    var last := rows[|rows| - 1][id].s;
    if last in Names(front, id) {
      var i :| 0 <= i < |front| && front[i][id].s == last;
      assert rows[i][id].s == rows[|rows| - 1][id].s;
    } else {
      forall i | 0 <= i < |front| ensures rows[i][id].s != last {
        assert front[i][id].s in Names(front, id);
      }
    }
    assert forall i | 0 <= i < |front| :: rows[i] == front[i];
  }

  lemma {:induction false} NamesCount(rows: seq<Row>, id: string)
    requires AllNamed(rows, id)
    ensures |Names(rows, id)| <= |rows|
    ensures |Names(rows, id)| == |rows| <==> DistinctNames(rows, id)
  {
    hide Names, DistinctNames;
    if rows == [] {
      NoNames(id);
    } else {
      NamesExtend(rows, id);
      DistinctSplit(rows, id);
      NamesCount(rows[..|rows| - 1], id);
    }
  }

  lemma NoNames(id: string)
    ensures Names([], id) == {} && DistinctNames([], id)
  {
  }

  lemma NamesExtend(rows: seq<Row>, id: string)
    requires AllNamed(rows, id) && rows != []
    ensures AllNamed(rows[..|rows| - 1], id)
    ensures Names(rows, id) == Names(rows[..|rows| - 1], id) + {rows[|rows| - 1][id].s}
  {
    var front := rows[..|rows| - 1];
    forall n | n in Names(rows, id) ensures n in Names(front, id) + {rows[|rows| - 1][id].s} {
      var i :| 0 <= i < |rows| && rows[i][id].s == n;
      if i < |front| { assert front[i][id].s == n; }
    }
    forall n | n in Names(front, id) ensures n in Names(rows, id) {
      var i :| 0 <= i < |front| && front[i][id].s == n;
      assert rows[i][id].s == n;
    }
  }

  /** The client accepts for a scope exactly what the producer stamps for it: same checks, same digest. */
  lemma ClientAcceptsExactlyStamped(p: Payload, tenant: string, region: string, dated: bool)
    ensures Decode(p, tenant, region, dated).Accepted?
            <==> Stampable(p) && p.version == Canonical(p) && p.tenant == tenant && p.region == region && dated
    ensures Decode(p, tenant, region, dated).ScopeMismatch? && Stampable(p) ==> (p.tenant, p.region) != (tenant, region)
  {
    hide Fits, FormText, SortBy, ClientProducts, ClientMetrics, DistinctNames;
    if AllFit(p.products, PRODUCT_FIELDS) && AllFit(p.metrics, METRIC_FIELDS) {
      FitsIsNamed(p.products, PRODUCT_FIELDS, "product_id");
      FitsIsNamed(p.metrics, METRIC_FIELDS, "metric_key");
      FitsIsNamed(p.metrics, METRIC_FIELDS, "product_id");
      NamesCount(p.products, "product_id");
      NamesCount(p.metrics, "metric_key");
      ReferencesByName(p.products, p.metrics);
      ClientProductsAreSorted(p.products);
      ClientMetricsAreSorted(p.metrics);
    }
  }

  lemma ReferencesByName(products: seq<Row>, metrics: seq<Row>)
    requires AllNamed(products, "product_id") && AllNamed(metrics, "product_id")
    ensures References(products, metrics)
            <==> forall i | 0 <= i < |metrics| :: metrics[i]["product_id"].s in Names(products, "product_id")
  {
    if References(products, metrics) {
      forall i | 0 <= i < |metrics| ensures metrics[i]["product_id"].s in Names(products, "product_id") {
        assert Owned(products, metrics[i]);
        var j :| 0 <= j < |products| && products[j]["product_id"] == metrics[i]["product_id"];
        assert products[j]["product_id"].s == metrics[i]["product_id"].s;
      }
    }
    if forall i | 0 <= i < |metrics| :: metrics[i]["product_id"].s in Names(products, "product_id") {
      forall i | 0 <= i < |metrics|
        ensures Owned(products, metrics[i])
      {
        assert metrics[i]["product_id"].s in Names(products, "product_id");
        var j :| 0 <= j < |products| && products[j]["product_id"].s == metrics[i]["product_id"].s;
        assert products[j]["product_id"] == metrics[i]["product_id"];
      }
    }
  }

  // ----- fields of one JSON object -----------------------------------------

  /** _unique_object: the pairs of a JSON object become a map, unless a field repeats. */
  method UniqueObject<V>(pairs: seq<(string, V)>) returns (result: Option<map<string, V>>)
    ensures result.Some? <==> forall i, j | 0 <= i < j < |pairs| :: pairs[i].0 != pairs[j].0
    ensures result.Some? ==>
              && (forall k | 0 <= k < |pairs| :: pairs[k].0 in result.value && result.value[pairs[k].0] == pairs[k].1)
              && (forall f | f in result.value :: exists k | 0 <= k < |pairs| :: pairs[k].0 == f)
  {
    var fields: map<string, V> := map[];
    var i := 0;
    while i < |pairs|
      invariant 0 <= i <= |pairs|
      invariant forall j, k | 0 <= j < k < i :: pairs[j].0 != pairs[k].0
      invariant forall k | 0 <= k < i :: pairs[k].0 in fields && fields[pairs[k].0] == pairs[k].1
      invariant forall f | f in fields :: exists k | 0 <= k < i :: pairs[k].0 == f
    {
      if pairs[i].0 in fields {
        return None;
      }
      fields := fields[pairs[i].0 := pairs[i].1];
      i := i + 1;
    }
    return Some(fields);
  }
}
