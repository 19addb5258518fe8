/**
 The contract check's canonicaliser of the capability manifest: it reads a JSON document, projects
 the semantic fields, sorts the two collections and dumps every object by its sorted keys.
 */
module ManifestCheck {
  import opened Manifests
  import CanonicalDecimal

  datatype Value = One(scalar: Scalar) | Number(n: int) | Rows(rows: seq<Row>)

  type Document = map<string, Value>

  function DocumentOf(p: Payload): Document {
    map["schema_version" := Number(p.schemaVersion), "tenant_id" := One(Str(p.tenant)), "region" := One(Str(p.region)),
        "products" := Rows(p.products), "usage_metrics" := Rows(p.metrics),
        "generated_at" := One(Str(p.generatedAt)), "manifest_version" := One(Str(p.version))]
  }

  // ----- json.dumps with sort_keys -----------------------------------------

  predicate Least(key: string, keys: set<string>) {
    key in keys && forall k | k in keys :: k == key || Less(key, k)
  }

  lemma {:induction false} LeastExists(keys: set<string>)
    requires keys != {}
    ensures exists key :: Least(key, keys)
  {
    hide Less;
    var k :| k in keys;
    var others := keys - {k};
    if others == {} {
      forall o | o in keys ensures o == k { assert o !in others; }
      assert Least(k, keys);
    } else {
      LeastExists(others);
      var least :| Least(least, others);
      LessIsTotal(k, least);
      if Less(k, least) {
        forall o | o in others && o != least ensures Less(k, o) { LessIsTransitive(k, least, o); }
        assert Least(k, keys);
      } else {
        assert Least(least, keys);
      }
    }
  }

  ghost function SortedKeys(keys: set<string>): seq<string>
    decreases |keys|
  {
    if keys == {} then []
    else
      LeastExists(keys);
      var key :| Least(key, keys);
      assert keys == {key} + (keys - {key});
      [key] + SortedKeys(keys - {key})
  }

  function Joined(parts: seq<string>): string {
    if parts == [] then "" else if |parts| == 1 then parts[0] else parts[0] + "," + Joined(parts[1..])
  }

  function Member(name: string, text: string): string {
    Quoted(name) + ":" + text
  }

  function Members(row: Row, keys: seq<string>): (r: seq<string>)
    requires forall k | k in keys :: k in row
    ensures |r| == |keys|
  {
    if keys == [] then [] else [Member(keys[0], ScalarText(row[keys[0]]))] + Members(row, keys[1..])
  }

  lemma SortedHead(keys: set<string>)
    requires keys != {}
    ensures SortedKeys(keys) != []
    ensures var key := SortedKeys(keys)[0]; Least(key, keys) && SortedKeys(keys) == [key] + SortedKeys(keys - {key})
  {
    hide Less;
  }

  lemma {:induction false} KeysListed(keys: set<string>)
    ensures forall k :: k in SortedKeys(keys) <==> k in keys
    decreases |keys|
  {
    if keys != {} {
      SortedHead(keys);
      var key := SortedKeys(keys)[0];
      hide SortedKeys;
      assert keys == {key} + (keys - {key});
      KeysListed(keys - {key});
    }
  }

  ghost function RowText(row: Row): string {
    KeysListed(row.Keys);
    "{" + Joined(Members(row, SortedKeys(row.Keys))) + "}"
  }

  ghost function RowTexts(rows: seq<Row>): seq<string> {
    if rows == [] then [] else [RowText(rows[0])] + RowTexts(rows[1..])
  }

  function NumberText(n: int): string {
    if n < 0 then "-" + CanonicalDecimal.Digits(-n) else CanonicalDecimal.Digits(n)
  }

  ghost function ValueText(v: Value): string {
    match v
    case One(scalar) => ScalarText(scalar)
    case Number(n) => NumberText(n)
    case Rows(rows) => "[" + Joined(RowTexts(rows)) + "]"
  }

  ghost function Entries(d: Document, keys: seq<string>): seq<string>
    requires forall k | k in keys :: k in d
  {
    if keys == [] then [] else [Member(keys[0], ValueText(d[keys[0]]))] + Entries(d, keys[1..])
  }

  ghost function Dumped(d: Document): string {
    KeysListed(d.Keys);
    "{" + Joined(Entries(d, SortedKeys(d.Keys))) + "}"
  }

  // ----- semantic_digest ---------------------------------------------------

  const SEMANTIC_KEYS := ["schema_version", "tenant_id", "region", "products", "usage_metrics"]

  /** What the schema has promised by then. */
  predicate HasRows(d: Document) {
    && (forall k | k in SEMANTIC_KEYS :: k in d)
    && "products" in d && d["products"].Rows? && AllNamed(d["products"].rows, "product_id")
    && "usage_metrics" in d && d["usage_metrics"].Rows? && AllNamed(d["usage_metrics"].rows, "metric_key")
  }

  function Semantic(d: Document): Document
    requires HasRows(d)
  {
    var kept := map k | k in SEMANTIC_KEYS :: d[k];
    kept["products" := Rows(SortBy(d["products"].rows, "product_id"))]
        ["usage_metrics" := Rows(SortBy(d["usage_metrics"].rows, "metric_key"))]
  }

  /** semantic_digest. */
  ghost function Digest(d: Document): string
    requires HasRows(d)
  {
    Dumped(Semantic(d))
  }

  // ----- the sorted keys ---------------------------------------------------

  predicate Ascend(keys: seq<string>) {
    forall i, j | 0 <= i < j < |keys| :: Less(keys[i], keys[j])
  }

  function Listed(keys: seq<string>): set<string> {
    set k | k in keys
  }

  lemma {:induction false} AscendingIsSorted(keys: seq<string>)
    requires Ascend(keys)
    ensures SortedKeys(Listed(keys)) == keys
  {
    hide Less;
    if keys == [] {
      assert Listed(keys) == {};
    } else {
      var all := Listed(keys);
      assert keys[0] in all;
      SortedHead(all);
      OneLeast(keys, SortedKeys(all)[0]);
      RestListed(keys);
      AscendingIsSorted(keys[1..]);
    }
  }

  lemma OneLeast(keys: seq<string>, key: string)
    requires Ascend(keys) && keys != [] && Least(key, Listed(keys))
    ensures key == keys[0]
  {
    hide Less;
    assert keys[0] in Listed(keys);
    var i :| 0 <= i < |keys| && keys[i] == key;
    if i != 0 {
      LessIsTotal(keys[0], key);
    }
  }

  lemma RestListed(keys: seq<string>)
    requires Ascend(keys) && keys != []
    ensures Listed(keys) - {keys[0]} == Listed(keys[1..])
  {
    hide Less;
    forall k | k in keys[1..] ensures k != keys[0] {
      var i :| 0 <= i < |keys[1..]| && keys[1..][i] == k;
      assert Less(keys[0], keys[i + 1]);
      LessIsTotal(keys[0], k);
    }
    forall k | k in keys && k != keys[0] ensures k in keys[1..] {
      var i :| 0 <= i < |keys| && keys[i] == k;
      assert keys[1..][i - 1] == k;
    }
  }

  /** Names in the order of their initials. */
  lemma ByInitials(keys: seq<string>)
    requires forall i | 0 <= i < |keys| :: keys[i] != ""
    requires forall i, j | 0 <= i < j < |keys| :: keys[i][0] < keys[j][0]
    ensures Ascend(keys)
  {
  }

  /** A name of small letters and underscores is written as it is. */
  predicate Bare(s: string) {
    forall i | 0 <= i < |s| :: 'a' <= s[i] <= 'z' || s[i] == '_'
  }

  lemma BareChar(c: char)
    requires 'a' <= c <= 'z' || c == '_'
    ensures EncodedChar(c) == [c]
  {
  }

  lemma {:induction false} BareBody(s: string)
    requires Bare(s)
    ensures EncodedBody(s) == s
  {
    hide EncodedChar;
    if s != "" {
      BareChar(s[0]);
      BareBody(s[1..]);
      assert EncodedBody(s) == [s[0]] + s[1..];
    }
  }

  lemma BareMember(name: string, text: string)
    requires Bare(name)
    ensures Member(name, text) == "\"" + name + "\":" + text
  {
    BareBody(name);
    hide EncodedBody;
    assert "\"" + name + "\"" + ":" == "\"" + name + "\":";
  }

  // ----- one row, and all rows ---------------------------------------------

  lemma FieldsOn(row: Row, fields: seq<string>)
    requires fields != [] && (forall f | f in fields :: f in row) && Bare(fields[0])
    ensures FieldsText(row, fields) == Member(fields[0], ScalarText(row[fields[0]]))
                                       + if |fields| == 1 then "" else "," + FieldsText(row, fields[1..])
  {
    hide ScalarText, Member, Bare;
    BareMember(fields[0], ScalarText(row[fields[0]]));
  }

  lemma JoinedOn(first: string, rest: seq<string>)
    ensures Joined([first] + rest) == first + if rest == [] then "" else "," + Joined(rest)
  {
    assert ([first] + rest)[1..] == rest;
    assert first + "" == first;
  }

  lemma MembersOn(row: Row, fields: seq<string>)
    requires fields != [] && (forall f | f in fields :: f in row)
    ensures Joined(Members(row, fields)) == Member(fields[0], ScalarText(row[fields[0]]))
                                            + if |fields| == 1 then "" else "," + Joined(Members(row, fields[1..]))
  {
    hide ScalarText, Member, Joined;
    JoinedOn(Member(fields[0], ScalarText(row[fields[0]])), Members(row, fields[1..]));
  }

  lemma {:induction false} MembersAreFields(row: Row, fields: seq<string>)
    requires forall f | f in fields :: f in row && Bare(f)
    ensures Joined(Members(row, fields)) == FieldsText(row, fields)
  {
    if fields != [] {
      hide ScalarText, Member, Bare, Joined, Members, FieldsText;
      FieldsOn(row, fields);
      MembersOn(row, fields);
      if |fields| > 1 {
        MembersAreFields(row, fields[1..]);
      }
    }
  }

  /** A list of fields in the order that sort_keys gives them. */
  predicate InOrder(fields: seq<string>) {
    Ascend(fields) && forall f | f in fields :: Bare(f)
  }

  lemma RowIsFields(row: Row, fields: seq<string>)
    requires Fits(row, fields) && InOrder(fields)
    ensures RowText(row) == "{" + FieldsText(row, fields) + "}"
  {
    hide Less, Bare, FieldsText;
    assert row.Keys == Listed(fields);
    AscendingIsSorted(fields);
    MembersAreFields(row, fields);
  }

  lemma {:induction false} RowsAreJoined(rows: seq<Row>, fields: seq<string>)
    requires AllFit(rows, fields) && InOrder(fields)
    ensures Joined(RowTexts(rows)) == RowsText(rows, fields)
  {
    hide RowText, Fits, InOrder, FieldsText;
    if rows != [] {
      FirstAndRestFit(rows, fields);
      RowIsFields(rows[0], fields);
      assert RowTexts(rows)[1..] == RowTexts(rows[1..]);
      assert |RowTexts(rows[1..])| == |rows| - 1 by { TextPerRow(rows[1..]); }
      if |rows| > 1 {
        RowsAreJoined(rows[1..], fields);
      }
    }
  }

  lemma {:induction false} TextPerRow(rows: seq<Row>)
    ensures |RowTexts(rows)| == |rows|
  {
    if rows != [] { TextPerRow(rows[1..]); }
  }

  lemma FieldsInOrder()
    ensures InOrder(PRODUCT_FIELDS) && InOrder(METRIC_FIELDS)
  {
    ByInitials(PRODUCT_FIELDS);
    ByInitials(METRIC_FIELDS);
  }

  // ----- the whole document ------------------------------------------------

  const SORTED_KEYS := ["products", "region", "schema_version", "tenant_id", "usage_metrics"]
  const FROM_REGION := ["region", "schema_version", "tenant_id", "usage_metrics"]
  const FROM_VERSION := ["schema_version", "tenant_id", "usage_metrics"]
  const FROM_TENANT := ["tenant_id", "usage_metrics"]

  lemma SemanticKeys(d: Document)
    requires HasRows(d)
    ensures Semantic(d).Keys == Listed(SORTED_KEYS) && SortedKeys(Semantic(d).Keys) == SORTED_KEYS
  {
    ByInitials(SORTED_KEYS);
    AscendingIsSorted(SORTED_KEYS);
    hide Less, Ascend, SortedKeys;
    assert forall k :: k in Semantic(d) <==> k in SORTED_KEYS;
  }

  lemma EntriesOn(d: Document, key: string, rest: seq<string>)
    requires key in d && (forall k | k in rest :: k in d) && Bare(key)
    ensures Entries(d, [key] + rest) == [Member(key, ValueText(d[key]))] + Entries(d, rest)
    ensures Joined(Entries(d, [key] + rest))
            == "\"" + key + "\":" + ValueText(d[key]) + (if rest == [] then "" else "," + Joined(Entries(d, rest)))
  {
    BareMember(key, ValueText(d[key]));
    hide ValueText, Member, Bare;
    assert ([key] + rest)[1..] == rest;
    var more := Entries(d, rest);
    assert rest != [] ==> more != [];
    assert ([Member(key, ValueText(d[key]))] + more)[1..] == more;
  }

  lemma OneText()
    ensures NumberText(1) == "1"
  {
    assert CanonicalDecimal.Digits(1) == [CanonicalDecimal.Digit(1)];
  }

  // The text from each key on.

  function MetricsText(metrics: string): string {
    "\"usage_metrics\":" + ("[" + metrics + "]")
  }

  function TenantText(tenant: string, rest: string): string {
    "\"tenant_id\":" + tenant + "," + rest
  }

  function VersionText(rest: string): string {
    "\"schema_version\":" + "1" + "," + rest
  }

  function RegionText(region: string, rest: string): string {
    "\"region\":" + region + "," + rest
  }

  function ProductsText(products: string, rest: string): string {
    "\"products\":" + ("[" + products + "]") + "," + rest
  }

  /** One more key in front: its name and value, and a comma before the rest. */
  lemma KeyOn(d: Document, key: string, rest: seq<string>, name: string)
    requires key in d && rest != [] && (forall k | k in rest :: k in d) && Bare(key) && name == "\"" + key + "\":"
    ensures Joined(Entries(d, [key] + rest)) == name + ValueText(d[key]) + "," + Joined(Entries(d, rest))
  {
    EntriesOn(d, key, rest);
    hide ValueText, Joined, Entries, Bare;
    assert name + ValueText(d[key]) + ("," + Joined(Entries(d, rest)))
           == name + ValueText(d[key]) + "," + Joined(Entries(d, rest));
  }

  lemma LastKey(d: Document, key: string, name: string)
    requires key in d && Bare(key) && name == "\"" + key + "\":"
    ensures Joined(Entries(d, [key])) == name + ValueText(d[key])
  {
    EntriesOn(d, key, []);
    hide ValueText, Joined, Entries, Bare;
    assert [key] + [] == [key];
    assert name + ValueText(d[key]) + "" == name + ValueText(d[key]);
  }

  lemma DumpMetrics(d: Document, metrics: string)
    requires "usage_metrics" in d && ValueText(d["usage_metrics"]) == "[" + metrics + "]"
    ensures Joined(Entries(d, ["usage_metrics"])) == MetricsText(metrics)
  {
    hide ValueText, Joined, Entries;
    assert "\"" + "usage_metrics" + "\":" == "\"usage_metrics\":";
    LastKey(d, "usage_metrics", "\"usage_metrics\":");
  }

  lemma DumpTenant(d: Document, tenant: string)
    requires "tenant_id" in d && "usage_metrics" in d && ValueText(d["tenant_id"]) == tenant
    ensures Joined(Entries(d, FROM_TENANT)) == TenantText(tenant, Joined(Entries(d, ["usage_metrics"])))
  {
    hide ValueText, Joined, Entries;
    assert "\"" + "tenant_id" + "\":" == "\"tenant_id\":";
    KeyOn(d, "tenant_id", ["usage_metrics"], "\"tenant_id\":");
    assert FROM_TENANT == ["tenant_id"] + ["usage_metrics"];
  }

  lemma DumpVersion(d: Document)
    requires "schema_version" in d && (forall k | k in FROM_TENANT :: k in d) && ValueText(d["schema_version"]) == "1"
    ensures Joined(Entries(d, FROM_VERSION)) == VersionText(Joined(Entries(d, FROM_TENANT)))
  {
    hide ValueText, Joined, Entries;
    assert "\"" + "schema_version" + "\":" == "\"schema_version\":";
    KeyOn(d, "schema_version", FROM_TENANT, "\"schema_version\":");
    assert FROM_VERSION == ["schema_version"] + FROM_TENANT;
  }

  lemma DumpRegion(d: Document, region: string)
    requires "region" in d && (forall k | k in FROM_VERSION :: k in d) && ValueText(d["region"]) == region
    ensures Joined(Entries(d, FROM_REGION)) == RegionText(region, Joined(Entries(d, FROM_VERSION)))
  {
    hide ValueText, Joined, Entries;
    assert "\"" + "region" + "\":" == "\"region\":";
    KeyOn(d, "region", FROM_VERSION, "\"region\":");
    assert FROM_REGION == ["region"] + FROM_VERSION;
  }

  lemma DumpProducts(d: Document, products: string)
    requires "products" in d && (forall k | k in FROM_REGION :: k in d)
    requires ValueText(d["products"]) == "[" + products + "]"
    ensures Joined(Entries(d, SORTED_KEYS)) == ProductsText(products, Joined(Entries(d, FROM_REGION)))
  {
    hide ValueText, Joined, Entries;
    assert "\"" + "products" + "\":" == "\"products\":";
    KeyOn(d, "products", FROM_REGION, "\"products\":");
    assert SORTED_KEYS == ["products"] + FROM_REGION;
  }

  lemma SpellMetrics(metrics: string)
    ensures "," + MetricsText(metrics) + "}" == ",\"usage_metrics\":[" + (metrics + "]" + "}")
  {
  }

  lemma SpellTenant(tenant: string, rest: string, end: string)
    requires "," + rest + "}" == end
    ensures "," + TenantText(tenant, rest) + "}" == ",\"tenant_id\":" + (tenant + end)
  {
    assert "," + "\"tenant_id\":" == ",\"tenant_id\":";
    assert "," + TenantText(tenant, rest) + "}" == "," + "\"tenant_id\":" + (tenant + ("," + rest + "}"));
  }

  lemma VersionPiece()
    ensures "," + "\"schema_version\":" + "1" + ",\"tenant_id\":" == ",\"schema_version\":1,\"tenant_id\":"
  {
  }

  lemma Regroup(a: string, b: string, c: string, rest: string, key: string, end: string)
    requires a + rest + "}" == key + end
    ensures a + (b + c + a + rest) + "}" == a + b + c + key + end
  {
    assert a + (b + c + a + rest) + "}" == a + b + c + (a + rest + "}");
  }

  lemma SpellVersion(rest: string, end: string)
    requires "," + rest + "}" == ",\"tenant_id\":" + end
    ensures "," + VersionText(rest) + "}" == ",\"schema_version\":1,\"tenant_id\":" + end
  {
    VersionPiece();
    Regroup(",", "\"schema_version\":", "1", rest, ",\"tenant_id\":", end);
  }

  lemma SpellRegion(region: string, rest: string, end: string)
    requires "," + rest + "}" == end
    ensures "," + RegionText(region, rest) + "}" == ",\"region\":" + (region + end)
  {
    assert "," + "\"region\":" == ",\"region\":";
    assert "," + RegionText(region, rest) + "}" == "," + "\"region\":" + (region + ("," + rest + "}"));
  }

  lemma SpellProducts(products: string, rest: string, end: string)
    requires "," + rest + "}" == end
    ensures "{" + ProductsText(products, rest) + "}" == "{\"products\":[" + (products + "]" + end)
  {
    assert "{" + "\"products\":" + "[" == "{\"products\":[";
    assert "{" + ProductsText(products, rest) + "}"
           == "{" + "\"products\":" + "[" + (products + "]" + ("," + rest + "}"));
  }

  lemma DumpOfFive(d: Document, products: string, region: string, tenant: string, metrics: string)
    requires forall k | k in SORTED_KEYS :: k in d
    requires ValueText(d["products"]) == "[" + products + "]" && ValueText(d["region"]) == region
    requires ValueText(d["schema_version"]) == "1" && ValueText(d["tenant_id"]) == tenant
    requires ValueText(d["usage_metrics"]) == "[" + metrics + "]"
    ensures Joined(Entries(d, SORTED_KEYS))
            == ProductsText(products, RegionText(region, VersionText(TenantText(tenant, MetricsText(metrics)))))
  {
    hide ValueText, Joined, Entries, MetricsText, TenantText, VersionText, RegionText, ProductsText;
    DumpMetrics(d, metrics);
    DumpTenant(d, tenant);
    DumpVersion(d);
    DumpRegion(d, region);
    DumpProducts(d, products);
  }

  lemma Spelled(products: string, region: string, tenant: string, metrics: string)
    ensures "{" + ProductsText(products, RegionText(region, VersionText(TenantText(tenant, MetricsText(metrics))))) + "}"
            == "{\"products\":[" + (products + "]" + (",\"region\":" + (region
               + (",\"schema_version\":1,\"tenant_id\":" + (tenant
               + (",\"usage_metrics\":[" + (metrics + "]" + "}")))))))
  {
    hide MetricsText, TenantText, VersionText, RegionText, ProductsText;
    var m := MetricsText(metrics);
    var m' := ",\"usage_metrics\":[" + (metrics + "]" + "}");
    var v := VersionText(TenantText(tenant, m));
    var v' := ",\"schema_version\":1,\"tenant_id\":" + (tenant + m');
    SpellMetrics(metrics);
    SpellTenant(tenant, m, m');
    SpellVersion(TenantText(tenant, m), tenant + m');
    SpellRegion(region, v, v');
    SpellProducts(products, RegionText(region, v), ",\"region\":" + (region + v'));
  }

  lemma RowsValue(rows: seq<Row>, fields: seq<string>)
    requires AllFit(rows, fields) && InOrder(fields)
    ensures ValueText(Rows(rows)) == "[" + RowsText(rows, fields) + "]"
  {
    RowsAreJoined(rows, fields);
    hide Joined, RowTexts, RowsText, InOrder, Fits;
  }

  lemma ScalarValues(s: string)
    ensures ValueText(One(Str(s))) == Quoted(s) && ValueText(Number(1)) == "1"
  {
    OneText();
    hide Quoted, NumberText;
  }

  /** The dumped document is the text that the producer hashes. */
  lemma DumpIsForm(d: Document, tenant: string, region: string, products: seq<Row>, metrics: seq<Row>)
    requires AllFit(products, PRODUCT_FIELDS) && AllFit(metrics, METRIC_FIELDS)
    requires forall k | k in SORTED_KEYS :: k in d
    requires d["schema_version"] == Number(1) && d["tenant_id"] == One(Str(tenant)) && d["region"] == One(Str(region))
    requires d["products"] == Rows(products) && d["usage_metrics"] == Rows(metrics)
    ensures "{" + Joined(Entries(d, SORTED_KEYS)) + "}" == FormText(tenant, region, products, metrics)
  {
    hide Joined, Entries, ValueText, RowsText, Quoted, InOrder, Fits, AllFit, FormText, MetricsText, TenantText,
      VersionText, RegionText, ProductsText;
    FieldsInOrder();
    RowsValue(products, PRODUCT_FIELDS);
    RowsValue(metrics, METRIC_FIELDS);
    ScalarValues(tenant);
    ScalarValues(region);
    FormShape(tenant, region, products, metrics);
    var p, m := RowsText(products, PRODUCT_FIELDS), RowsText(metrics, METRIC_FIELDS);
    DumpOfFive(d, p, Quoted(region), Quoted(tenant), m);
    Spelled(p, Quoted(region), Quoted(tenant), m);
  }

  lemma DocumentHasRows(p: Payload)
    requires AllNamed(p.products, "product_id") && AllNamed(p.metrics, "metric_key")
    ensures HasRows(DocumentOf(p))
  {
  }

  /** On a document of the schema the contract check and the producer hash the same text. */
  lemma DigestsAgree(p: Payload)
    requires p.schemaVersion == 1 && AllFit(p.products, PRODUCT_FIELDS) && AllFit(p.metrics, METRIC_FIELDS)
    ensures HasRows(DocumentOf(p)) && Digest(DocumentOf(p)) == Canonical(p)
  {
    FitsIsNamed(p.products, PRODUCT_FIELDS, "product_id");
    FitsIsNamed(p.metrics, METRIC_FIELDS, "metric_key");
    DocumentHasRows(p);
    SortedFit(p.products, PRODUCT_FIELDS, "product_id");
    SortedFit(p.metrics, METRIC_FIELDS, "metric_key");
    var d := Semantic(DocumentOf(p));
    SemanticKeys(DocumentOf(p));
    SemanticValues(p);
    hide SortBy, Fits, FormText, Entries, Joined, Semantic, SortedKeys, DocumentOf, HasRows;
    DumpIsForm(d, p.tenant, p.region, SortBy(p.products, "product_id"), SortBy(p.metrics, "metric_key"));
  }

  lemma SemanticValues(p: Payload)
    requires AllNamed(p.products, "product_id") && AllNamed(p.metrics, "metric_key") && HasRows(DocumentOf(p))
    ensures var d := Semantic(DocumentOf(p));
            && (forall k | k in SORTED_KEYS :: k in d)
            && d["schema_version"] == Number(p.schemaVersion)
            && d["tenant_id"] == One(Str(p.tenant)) && d["region"] == One(Str(p.region))
            && d["products"] == Rows(SortBy(p.products, "product_id"))
            && d["usage_metrics"] == Rows(SortBy(p.metrics, "metric_key"))
  {
    hide SortBy;
  }

  /** validate_manifest of the contract check: the schema, the scope, the lists of names and the digest. */
  ghost predicate CheckAccepts(p: Payload, tenant: string, region: string, dated: bool) {
    && p.schemaVersion == 1 && p.tenant != "" && p.region != "" && dated
    && AllFit(p.products, PRODUCT_FIELDS) && AllFit(p.metrics, METRIC_FIELDS)
    && p.tenant == tenant && p.region == region
    && AllNamed(p.products, "product_id") && AllNamed(p.metrics, "metric_key") && AllNamed(p.metrics, "product_id")
    && |p.products| == |Names(p.products, "product_id")| && |p.metrics| == |Names(p.metrics, "metric_key")|
    && (forall i | 0 <= i < |p.metrics| :: p.metrics[i]["product_id"].s in Names(p.products, "product_id"))
    && HasRows(DocumentOf(p)) && p.version == Digest(DocumentOf(p))
  }

  /** The contract check and the client decide alike. */
  lemma CheckAgreesWithClient(p: Payload, tenant: string, region: string, dated: bool)
    ensures CheckAccepts(p, tenant, region, dated) <==> Decode(p, tenant, region, dated).Accepted?
  {
    hide Fits, FormText, SortBy, ClientProducts, ClientMetrics, DistinctNames, Decode;
    ClientAcceptsExactlyStamped(p, tenant, region, dated);
    if p.schemaVersion == 1 && AllFit(p.products, PRODUCT_FIELDS) && AllFit(p.metrics, METRIC_FIELDS) {
      FitsIsNamed(p.products, PRODUCT_FIELDS, "product_id");
      FitsIsNamed(p.metrics, METRIC_FIELDS, "metric_key");
      FitsIsNamed(p.metrics, METRIC_FIELDS, "product_id");
      NamesCount(p.products, "product_id");
      NamesCount(p.metrics, "metric_key");
      ReferencesByName(p.products, p.metrics);
      DigestsAgree(p);
    }
  }
}
