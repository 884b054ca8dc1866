/** The Cypher text the `medicines` and `categories` resolvers build, and the
    mapping of returned records to Medicine objects
    (server/graphql/schema-simple.ts). Running the query is not modelled:
    the records are an input. */
module SchemaSimple {
  import opened Wrappers
  import opened Text
  import opened Js

  // ---------------------------------------------------------------------
  // The medicines query

  /** The resolver's string arguments; `None` is a missing or `null` argument. */
  datatype MedicineArgs = MedicineArgs(name: Option<string>, category: Option<string>, edition: Option<string>)

  /** An argument the resolver uses: present and not empty. */
  predicate Given(a: Option<string>) {
    a.Some? && a.value != ""
  }

  const MatchClause: string := "MATCH (m:Medicine) "
  const OptionalMatch: string := "OPTIONAL MATCH "
  const CollectDistinct: string := ", collect(DISTINCT "
  const PharmacopoeiaMatch: string := OptionalMatch + "(m)-[:BELONGS_TO]->(p:Pharmacopoeia) "
  const ReferMatch: string := OptionalMatch + "(m)-[:REFER_TO]->(ref:Medicine) "
  const RelatedMatch: string := OptionalMatch + "(related:Medicine) WHERE related.category = m.category AND related.doc_id <> m.doc_id "
  const ReturnClause: string := "RETURN m, p"
  const ReferCollect: string := CollectDistinct + "ref) as refersTo"
  const RelatedCollect: string := CollectDistinct + "related)[0..5] as relatedByCategory"
  const OrderLimit: string := " ORDER BY m.doc_id LIMIT 20"

  const NameCondition: string := "m.name CONTAINS $name"
  const CategoryCondition: string := "m.category CONTAINS $category"
  const EditionCondition: string := "m.edition = $edition"

  /** The WHERE conditions, in the order name, category, edition. */
  function Conditions(args: MedicineArgs): (c: seq<string>)
    ensures |c| <= 3
    ensures c == [] <==> !Given(args.name) && !Given(args.category) && !Given(args.edition)
  {
    (if Given(args.name) then [NameCondition] else [])
    + (if Given(args.category) then [CategoryCondition] else [])
    + (if Given(args.edition) then [EditionCondition] else [])
  }

  /** The WHERE piece, present when there are conditions. */
  function WherePart(conditions: seq<string>): seq<string> {
    if conditions != [] then ["WHERE " + Join(conditions, " AND ") + " "] else []
  }

  /** The OPTIONAL MATCH pieces. */
  function MatchParts(needsRefersTo: bool, needsRelated: bool): seq<string> {
    [PharmacopoeiaMatch]
    + (if needsRefersTo then [ReferMatch] else [])
    + (if needsRelated then [RelatedMatch] else [])
  }

  /** The RETURN pieces with the closing ORDER BY. */
  function ReturnParts(needsRefersTo: bool, needsRelated: bool): seq<string> {
    [ReturnClause] + Optional(needsRefersTo, ReferCollect) + Optional(needsRelated, RelatedCollect) + [OrderLimit]
  }

  /** The piece when it is needed, else nothing. */
  function Optional(needed: bool, piece: string): seq<string> {
    if needed then [piece] else []
  }

  /** The query as the list of pieces the resolver appends to it, in order. */
  function QueryParts(args: MedicineArgs, needsRefersTo: bool, needsRelated: bool): seq<string> {
    [MatchClause] + WherePart(Conditions(args)) + MatchParts(needsRefersTo, needsRelated) + ReturnParts(needsRefersTo, needsRelated)
  }

  /** The concatenation of pieces, left to right. */
  function Concat(parts: seq<string>): string {
    if parts == [] then "" else Concat(parts[..|parts| - 1]) + parts[|parts| - 1]
  }

  /** The shape of the query: it opens with the MATCH; its second piece is
      the WHERE, with the conditions joined by " AND ", exactly when some
      argument is given, and the pharmacopoeia match otherwise; it has the
      reference and related pieces exactly when those fields are selected,
      and it ends with the ORDER BY. */
  lemma QueryPartsFacts(args: MedicineArgs, needsRefersTo: bool, needsRelated: bool)
    ensures var parts := QueryParts(args, needsRefersTo, needsRelated);
      && parts[0] == MatchClause
      && parts[|parts| - 1] == OrderLimit
      && PharmacopoeiaMatch in parts
      && (Conditions(args) != [] ==> parts[1] == "WHERE " + Join(Conditions(args), " AND ") + " ")
      && (Conditions(args) == [] ==> parts[1] == PharmacopoeiaMatch)
      && (ReferMatch in parts <==> needsRefersTo) && (ReferCollect in parts <==> needsRefersTo)
      && (RelatedMatch in parts <==> needsRelated) && (RelatedCollect in parts <==> needsRelated)
  {
    var parts := QueryParts(args, needsRefersTo, needsRelated);
    var w := WherePart(Conditions(args));
    var m := MatchParts(needsRefersTo, needsRelated);
    var rp := ReturnParts(needsRefersTo, needsRelated);
    assert parts == [MatchClause] + w + m + rp;
    assert forall x :: x in parts <==> x == MatchClause || x in w || x in m || x in rp;
    if Conditions(args) != [] {
      assert w[0][0] == 'W' && RelatedMatch[0] == 'O' && RelatedCollect[0] == ',';
      assert ReferMatch[0] == 'O' && ReferCollect[0] == ',';
    }
  }

  /** The query text does not depend on the argument values, only on which
      arguments are given and which fields are selected. */
  lemma {:induction false} QueryTextValueIndependent(a: MedicineArgs, b: MedicineArgs, needsRefersTo: bool, needsRelated: bool)
    requires Given(a.name) == Given(b.name) && Given(a.category) == Given(b.category) && Given(a.edition) == Given(b.edition)
    ensures Concat(QueryParts(a, needsRefersTo, needsRelated)) == Concat(QueryParts(b, needsRefersTo, needsRelated))
  {
    assert Conditions(a) == Conditions(b);
  }

  lemma {:induction false} ConcatEndsWith(parts: seq<string>)
    requires parts != []
    ensures var s := Concat(parts); var last := parts[|parts| - 1];
      |s| >= |last| && s[|s| - |last|..] == last
  {
  }

  /** The query always ends with the ORDER BY and the 20-row limit. */
  lemma QueryEndsWithLimit(args: MedicineArgs, needsRefersTo: bool, needsRelated: bool)
    ensures var q := Concat(QueryParts(args, needsRefersTo, needsRelated));
      |q| >= |OrderLimit| && q[|q| - |OrderLimit|..] == OrderLimit
  {
    ConcatEndsWith(QueryParts(args, needsRefersTo, needsRelated));
  }

  /** The query parameters: exactly the given arguments, under their own names. */
  function ParamsFor(args: MedicineArgs): (p: map<string, string>)
    ensures ("name" in p <==> Given(args.name)) && ("name" in p ==> p["name"] == args.name.value)
    ensures ("category" in p <==> Given(args.category)) && ("category" in p ==> p["category"] == args.category.value)
    ensures ("edition" in p <==> Given(args.edition)) && ("edition" in p ==> p["edition"] == args.edition.value)
    ensures p.Keys <= {"name", "category", "edition"}
  {
    var p1: map<string, string> := if Given(args.name) then map["name" := args.name.value] else map[];
    var p2 := if Given(args.category) then p1["category" := args.category.value] else p1;
    if Given(args.edition) then p2["edition" := args.edition.value] else p2
  }

  /** `fieldNames.includes(name)` over the selected field names. */
  predicate Selected(fieldNames: seq<string>, name: string) {
    name in fieldNames
  }

  /** The text and parameters of the `medicines` query, built with `+=`,
      pushes onto `whereConditions` and assignments to `params`. */
  method BuildMedicineQuery(args: MedicineArgs, fieldNames: seq<string>) returns (query: string, params: map<string, string>)
    ensures query == Concat(QueryParts(args, Selected(fieldNames, "refersTo"), Selected(fieldNames, "relatedByCategory")))
    ensures params == ParamsFor(args)
  {
    var needsRefersTo := "refersTo" in fieldNames;
    var needsRelated := "relatedByCategory" in fieldNames;
    var whereConditions;
    whereConditions, params := CollectConditions(args);
    query := MatchClause;
    ghost var parts := [MatchClause];
    assert query == Concat(parts) by { assert parts[..0] == []; }
    if |whereConditions| > 0 {
      query, parts := Append(query, parts, "WHERE " + Join(whereConditions, " AND ") + " ");
    }
    assert parts == [MatchClause] + WherePart(Conditions(args));
    query, parts := AppendMatches(query, parts, needsRefersTo, needsRelated);
    query, parts := AppendReturns(query, parts, needsRefersTo, needsRelated);
  }

  /** The OPTIONAL MATCH clauses appended to the query. */
  method AppendMatches(query: string, ghost parts: seq<string>, needsRefersTo: bool, needsRelated: bool)
      returns (query': string, ghost parts': seq<string>)
    requires query == Concat(parts)
    ensures parts' == parts + MatchParts(needsRefersTo, needsRelated) && query' == Concat(parts')
  {
    query', parts' := Append(query, parts, PharmacopoeiaMatch);
    if needsRefersTo {
      query', parts' := Append(query', parts', ReferMatch);
    }
    if needsRelated {
      query', parts' := Append(query', parts', RelatedMatch);
    }
  }

  /** The RETURN clause, the selected collections and the ORDER BY appended to the query. */
  method AppendReturns(query: string, ghost parts: seq<string>, needsRefersTo: bool, needsRelated: bool)
      returns (query': string, ghost parts': seq<string>)
    requires query == Concat(parts)
    ensures parts' == parts + ReturnParts(needsRefersTo, needsRelated) && query' == Concat(parts')
  {
    ghost var refer := Optional(needsRefersTo, ReferCollect);
    ghost var related := Optional(needsRelated, RelatedCollect);
    query', parts' := Append(query, parts, ReturnClause);
    query', parts' := AppendWhen(query', parts', needsRefersTo, ReferCollect);
    PartsAssoc(parts, [ReturnClause], refer);
    query', parts' := AppendWhen(query', parts', needsRelated, RelatedCollect);
    PartsAssoc(parts, [ReturnClause] + refer, related);
    query', parts' := Append(query', parts', OrderLimit);
    PartsAssoc(parts, [ReturnClause] + refer + related, [OrderLimit]);
  }

  lemma PartsAssoc(a: seq<string>, b: seq<string>, c: seq<string>)
    ensures a + b + c == a + (b + c)
  {
  }

  /** `if (needed) query += piece`. */
  method AppendWhen(query: string, ghost parts: seq<string>, needed: bool, piece: string) returns (query': string, ghost parts': seq<string>)
    requires query == Concat(parts)
    ensures parts' == parts + Optional(needed, piece) && query' == Concat(parts')
  {
    if needed {
      query', parts' := Append(query, parts, piece);
    } else {
      query', parts' := query, parts;
      assert parts + [] == parts;
    }
  }

  /** The pushes onto `whereConditions` and the assignments to `params`. */
  method CollectConditions(args: MedicineArgs) returns (whereConditions: seq<string>, params: map<string, string>)
    ensures whereConditions == Conditions(args) && params == ParamsFor(args)
  {
    whereConditions := [];
    params := map[];
    if Given(args.name) {
      whereConditions := whereConditions + [NameCondition];
      params := params["name" := args.name.value];
    }
    if Given(args.category) {
      whereConditions := whereConditions + [CategoryCondition];
      params := params["category" := args.category.value];
    }
    if Given(args.edition) {
      whereConditions := whereConditions + [EditionCondition];
      params := params["edition" := args.edition.value];
    }
  }

  /** `query += piece`, with the pieces so far recorded alongside. */
  method Append(query: string, ghost parts: seq<string>, piece: string) returns (query': string, ghost parts': seq<string>)
    requires query == Concat(parts)
    ensures parts' == parts + [piece] && query' == Concat(parts')
  {
    query' := query + piece;
    parts' := parts + [piece];
    assert parts'[..|parts'| - 1] == parts;
  }

  // ---------------------------------------------------------------------
  // Mapping the medicines records

  /** A node as the driver returns it: its identity and its property map. */
  datatype Neo4jNode = Neo4jNode(identity: Option<int>, properties: Value)

  /** One returned row: the medicine, its pharmacopoeia (`null` when the
      OPTIONAL MATCH found none), and the collected lists when they were asked for. */
  datatype MedicineRecord = MedicineRecord(
    m: Neo4jNode, p: Option<Neo4jNode>,
    refersTo: Option<seq<Option<Neo4jNode>>>, related: Option<seq<Option<Neo4jNode>>>)

  const SummaryKeys: seq<string> := ["doc_id", "name", "edition", "category", "name_pinyin", "name_en", "content"]

  /** `props.key || ""`. */
  function OrEmpty(props: Value, key: string): Json {
    Or(Get(props, key), Some(JStr(""))).value
  }

  /** The seven string fields of a medicine, each falling back to "". */
  function SummaryFields(props: Value): (r: seq<(string, Json)>)
    ensures |r| == |SummaryKeys|
    ensures forall i :: 0 <= i < |r| ==> r[i] == (SummaryKeys[i], OrEmpty(props, SummaryKeys[i]))
  {
    seq(|SummaryKeys|, i requires 0 <= i < |SummaryKeys| => (SummaryKeys[i], OrEmpty(props, SummaryKeys[i])))
  }

  /** Every summary field is its property when that is truthy, else "". */
  lemma SummaryFieldsFacts(props: Value)
    ensures forall i :: 0 <= i < |SummaryKeys| ==>
      var v := SummaryFields(props)[i].1;
      (Truthy(Get(props, SummaryKeys[i])) ==> Some(v) == Get(props, SummaryKeys[i]))
      && (!Truthy(Get(props, SummaryKeys[i])) ==> v == JStr(""))
      && (Truthy(Some(v)) || v == JStr(""))
  {
  }

  /** The pharmacopoeia object, or `null`; the id is the identity's string
      form, else `properties.id`, else "2998". */
  function PharmacopoeiaData(p: Option<Neo4jNode>): (r: Result<Json>)
    ensures p.None? ==> r == Success(JNull)
    ensures p.Some? ==> (r.Failure? <==> IsNullish(p.value.properties))
  {
    if p.None? then Success(JNull)
    else
      var node := p.value;
      var id :=
        if node.identity.Some? then JStr(IntToString(node.identity.value))
        else if IsNullish(node.properties) then JNull
        else Or(Get(node.properties, "id"), Some(JStr("2998"))).value;
      if IsNullish(node.properties) then Failure(TypeError)
      else Success(JObj([("id", id), ("name", Or(Get(node.properties, "name"), Some(JStr("中华人民共和国药典2025版"))).value)]))
  }

  lemma PharmacopoeiaIdFallback(p: Neo4jNode)
    requires !IsNullish(p.properties)
    ensures var r := PharmacopoeiaData(Some(p)).value;
      Truthy(Get(Some(r), "id"))
      && (p.identity.Some? ==> Get(Some(r), "id") == Some(JStr(IntToString(p.identity.value))))
      && (p.identity.None? && Truthy(Get(p.properties, "id")) ==> Get(Some(r), "id") == Get(p.properties, "id"))
      && (p.identity.None? && !Truthy(Get(p.properties, "id")) ==> Get(Some(r), "id") == Some(JStr("2998")))
  {
    var r := PharmacopoeiaData(Some(p)).value;
    assert Lookup(r.fields, "id") == Some(r.fields[0].1);
    if p.identity.Some? {
      assert IntToString(p.identity.value) != "";
    }
  }

  /** The entries `filter((n) => n && n.properties)` keeps. */
  predicate Kept(n: Option<Neo4jNode>) {
    n.Some? && Truthy(n.value.properties)
  }

  /** The summaries of the kept entries of a collected list, in order. */
  function LinkedSummaries(nodes: seq<Option<Neo4jNode>>): seq<Json> {
    if nodes == [] then []
    else
      var last := nodes[|nodes| - 1];
      LinkedSummaries(nodes[..|nodes| - 1]) + (if Kept(last) then [JObj(SummaryFields(last.value.properties))] else [])
  }

  function KeptCount(nodes: seq<Option<Neo4jNode>>): nat {
    if nodes == [] then 0 else KeptCount(nodes[..|nodes| - 1]) + (if Kept(nodes[|nodes| - 1]) then 1 else 0)
  }

  /** Entries without properties are dropped and nothing else is: one summary
      per kept entry, each built from a kept entry's properties. */
  lemma {:induction false} LinkedSummariesFacts(nodes: seq<Option<Neo4jNode>>)
    ensures |LinkedSummaries(nodes)| == KeptCount(nodes) <= |nodes|
    ensures forall s :: s in LinkedSummaries(nodes) ==>
      exists n :: n in nodes && Kept(n) && s == JObj(SummaryFields(n.value.properties))
    ensures (forall n :: n in nodes ==> Kept(n)) ==> KeptCount(nodes) == |nodes|
  {
    if nodes != [] {
      var init := nodes[..|nodes| - 1];
      LinkedSummariesFacts(init);
      assert forall n :: n in init ==> n in nodes;
      assert nodes[|nodes| - 1] in nodes;
    }
  }

  /** `medicineData` for a record, with the selected lists added. */
  function MedicineData(record: MedicineRecord, needsRefersTo: bool, needsRelated: bool): Result<Json> {
    if IsNullish(record.m.properties) then Failure(TypeError)
    else
      var ph :- PharmacopoeiaData(record.p);
      Success(JObj(
        SummaryFields(record.m.properties) + [("pharmacopoeia", ph)]
        + (if needsRefersTo then [("refersTo", JArr(LinkedSummaries(record.refersTo.GetOr([]))))] else [])
        + (if needsRelated then [("relatedByCategory", JArr(LinkedSummaries(record.related.GetOr([]))))] else [])))
  }

  /** A mapped medicine has the seven summary keys and the pharmacopoeia, and
      its reference and related lists exactly when those were selected. */
  lemma MedicineDataKeys(record: MedicineRecord, needsRefersTo: bool, needsRelated: bool)
    requires MedicineData(record, needsRefersTo, needsRelated).Success?
    ensures var keys := Keys(MedicineData(record, needsRefersTo, needsRelated).value.fields);
      && keys[..8] == SummaryKeys + ["pharmacopoeia"]
      && ("refersTo" in keys <==> needsRefersTo)
      && ("relatedByCategory" in keys <==> needsRelated)
  {
    var fields := MedicineData(record, needsRefersTo, needsRelated).value.fields;
    var keys := Keys(fields);
    assert forall i :: 0 <= i < 8 ==> keys[i] == (SummaryKeys + ["pharmacopoeia"])[i];
    assert forall k :: k in keys ==> k in SummaryKeys + ["pharmacopoeia", "refersTo", "relatedByCategory"];
    if needsRefersTo {
      assert keys[8] == "refersTo";
    }
    if needsRelated {
      assert keys[|keys| - 1] == "relatedByCategory";
    }
  }

  /** The filter and map over a collected list, as a loop. */
  method MapLinked(nodes: seq<Option<Neo4jNode>>) returns (r: seq<Json>)
    ensures r == LinkedSummaries(nodes)
  {
    r := [];
    for i := 0 to |nodes|
      invariant r == LinkedSummaries(nodes[..i])
    {
      assert nodes[..i + 1][..i] == nodes[..i];
      var n := nodes[i];
      if n.Some? && Truthy(n.value.properties) {
        r := r + [JObj(SummaryFields(n.value.properties))];
      }
    }
    assert nodes[..|nodes|] == nodes;
  }

  /** The mapping of one record: the object is filled, then the lists are
      assigned to it when selected. */
  method MapRecord(record: MedicineRecord, needsRefersTo: bool, needsRelated: bool) returns (r: Result<Json>)
    ensures r == MedicineData(record, needsRefersTo, needsRelated)
  {
    if IsNullish(record.m.properties) {
      return Failure(TypeError);
    }
    var ph := PharmacopoeiaData(record.p);
    if ph.Failure? {
      return Failure(ph.error);
    }
    var base := SummaryFields(record.m.properties) + [("pharmacopoeia", ph.value)];
    var refs: seq<(string, Json)> := [];
    if needsRefersTo {
      var linked := MapLinked(record.refersTo.GetOr([]));
      refs := [("refersTo", JArr(linked))];
    }
    var rel: seq<(string, Json)> := [];
    if needsRelated {
      var linked := MapLinked(record.related.GetOr([]));
      rel := [("relatedByCategory", JArr(linked))];
    }
    assert PharmacopoeiaData(record.p) == Success(ph.value);
    return Success(JObj(base + refs + rel));
  }

  /** `result.records.map(...)`; the first record that throws ends the resolver. */
  function MedicinesData(records: seq<MedicineRecord>, needsRefersTo: bool, needsRelated: bool): Result<seq<Json>> {
    if records == [] then Success([])
    else
      var init :- MedicinesData(records[..|records| - 1], needsRefersTo, needsRelated);
      var last :- MedicineData(records[|records| - 1], needsRefersTo, needsRelated);
      Success(init + [last])
  }

  lemma {:induction false} MedicinesDataLength(records: seq<MedicineRecord>, needsRefersTo: bool, needsRelated: bool)
    requires MedicinesData(records, needsRefersTo, needsRelated).Success?
    ensures var r := MedicinesData(records, needsRefersTo, needsRelated).value;
      |r| == |records| && forall i :: 0 <= i < |r| ==> Success(r[i]) == MedicineData(records[i], needsRefersTo, needsRelated)
  {
    if records != [] {
      MedicinesDataLength(records[..|records| - 1], needsRefersTo, needsRelated);
    }
  }

  method MapRecords(records: seq<MedicineRecord>, needsRefersTo: bool, needsRelated: bool) returns (r: Result<seq<Json>>)
    ensures r == MedicinesData(records, needsRefersTo, needsRelated)
  {
    var out: seq<Json> := [];
    for i := 0 to |records|
      invariant MedicinesData(records[..i], needsRefersTo, needsRelated) == Success(out)
    {
      assert records[..i + 1][..i] == records[..i];
      var m := MapRecord(records[i], needsRefersTo, needsRelated);
      if m.Failure? {
        MedicinesDataFailsFrom(records, i + 1, needsRefersTo, needsRelated);
        return Failure(m.error);
      }
      out := out + [m.value];
    }
    assert records[..|records|] == records;
    return Success(out);
  }

  /** A failing prefix makes the whole mapping fail with the same error. */
  lemma {:induction false} MedicinesDataFailsFrom(records: seq<MedicineRecord>, k: nat, needsRefersTo: bool, needsRelated: bool)
    requires k <= |records| && MedicinesData(records[..k], needsRefersTo, needsRelated).Failure?
    ensures MedicinesData(records, needsRefersTo, needsRelated) == MedicinesData(records[..k], needsRefersTo, needsRelated)
    decreases |records| - k
  {
    if k < |records| {
      assert records[..k + 1][..k] == records[..k];
      MedicinesDataFailsFrom(records, k + 1, needsRefersTo, needsRelated);
    } else {
      assert records[..k] == records;
    }
  }

  // ---------------------------------------------------------------------
  // The categories query

  /** `volumeMap[volume] || parseInt(volume) || 1`. */
  function VolumeNumber(volume: string): (n: int)
    ensures n != 0
  {
    if volume == "第一部" then 1
    else if volume == "第二部" then 2
    else if volume == "第三部" then 3
    else if volume == "第四部" then 4
    else
      var parsed := ParseIntAuto(volume);
      if parsed.Some? && parsed.value != 0 then parsed.value else 1
  }

  lemma VolumeNumberFacts(volume: string)
    ensures volume in ["第一部", "第二部", "第三部", "第四部"] ==> 1 <= VolumeNumber(volume) <= 4
    ensures volume !in ["第一部", "第二部", "第三部", "第四部"] && ParseIntAuto(volume).None? ==> VolumeNumber(volume) == 1
    ensures volume !in ["第一部", "第二部", "第三部", "第四部"] && ParseIntAuto(volume) == Some(0) ==> VolumeNumber(volume) == 1
    ensures volume == "第一部" ==> VolumeNumber(volume) == 1
    ensures volume == "第二部" ==> VolumeNumber(volume) == 2
    ensures volume == "第三部" ==> VolumeNumber(volume) == 3
    ensures volume == "第四部" ==> VolumeNumber(volume) == 4
    ensures volume !in ["第一部", "第二部", "第三部", "第四部"] && ParseIntAuto(volume).Some? && ParseIntAuto(volume).value != 0
            ==> VolumeNumber(volume) == ParseIntAuto(volume).value
  {
  }

  const CategoryMatch: string := "MATCH (c:Category) "
  const VolumeWhere: string := "WHERE c.volume = toInteger($volume) "
  const CategoryReturn: string := "RETURN c ORDER BY c.volume, c.name"

  /** The `categories` query text and parameters: the WHERE and the
      `volume` parameter exactly when a volume is given. */
  method BuildCategoriesQuery(volume: Option<string>) returns (query: string, params: map<string, int>)
    ensures Given(volume) ==> query == CategoryMatch + VolumeWhere + CategoryReturn
    ensures !Given(volume) ==> query == CategoryMatch + CategoryReturn
    ensures Given(volume) ==> params == map["volume" := VolumeNumber(volume.value)]
    ensures !Given(volume) ==> params == map[]
  {
    query := CategoryMatch;
    params := map[];
    if Given(volume) {
      query := query + VolumeWhere;
      params := params["volume" := VolumeNumber(volume.value)];
    }
    query := query + CategoryReturn;
  }
}
