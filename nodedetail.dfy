/** The pure helpers of components/NodeDetailPanel.tsx: the badge colour of
    a node type, the formatting of a property value, the ordered property
    list and the related-node groups. */
module NodeDetail {
  import opened Wrappers
  import opened Text
  import opened Js
  import PostProcess
  import AdminList

  type Entry = (string, Json)

  const MedicineColor: string := "bg-green-100 text-green-800 border-green-300"
  const PharmacopoeiaColor: string := "bg-red-100 text-red-800 border-red-300"
  const VolumeColor: string := "bg-purple-100 text-purple-800 border-purple-300"
  const CategoryColor: string := "bg-amber-100 text-amber-800 border-amber-300"
  const DefaultColor: string := "bg-blue-100 text-blue-800 border-blue-300"

  /** `getTypeColor`: a `switch` with strict equality on the type. */
  function TypeColor(nodeType: Json): string {
    if nodeType == JStr("Medicine") then MedicineColor
    else if nodeType == JStr("Pharmacopoeia") then PharmacopoeiaColor
    else if nodeType == JStr("Volume") then VolumeColor
    else if nodeType == JStr("Category") then CategoryColor
    else DefaultColor
  }

  predicate KnownType(nodeType: Json) {
    nodeType in {JStr("Medicine"), JStr("Pharmacopoeia"), JStr("Volume"), JStr("Category")}
  }

  /** Blue exactly for the types outside the four known ones, and the four
      known types each get a colour of their own. */
  lemma TypeColorFacts(a: Json, b: Json)
    ensures TypeColor(a) == DefaultColor <==> !KnownType(a)
    ensures KnownType(a) && KnownType(b) ==> (TypeColor(a) == TypeColor(b) <==> a == b)
  {
  }

  /** Strings longer than this are cut by `formatValue`. */
  const ValueLimit: int := 500

  /** `formatValue`: "无" for `null` and `undefined`, the indented JSON text
      (`stringify`) for objects and arrays, a long string cut after 500
      characters, and `String(value)` for the rest. */
  function FormatValue(value: Value, stringify: Json -> string): string {
    if IsNullish(value) then "无"
    else if value.value.JArr? || value.value.JObj? then stringify(value.value)
    else if value.value.JStr? && |value.value.s| > ValueLimit then Prefix(value.value.s, ValueLimit) + "..."
    else ToJsString(value)
  }

  /** A string is shown as the managers' text cut at 500 shows it, so never
      beyond 503 characters and unchanged when it fits; `null` and
      `undefined` are "无"; objects and arrays are their JSON text; numbers
      and booleans their `String` form. */
  lemma FormatValueFacts(value: Value, stringify: Json -> string)
    ensures IsNullish(value) ==> FormatValue(value, stringify) == "无"
    ensures value.Some? && value.value.JStr? ==>
      && FormatValue(value, stringify) == AdminList.CutText(value.value.s, ValueLimit)
      && |FormatValue(value, stringify)| <= ValueLimit + 3
      && (|value.value.s| <= ValueLimit ==> FormatValue(value, stringify) == value.value.s)
    ensures value.Some? && (value.value.JArr? || value.value.JObj?) ==> FormatValue(value, stringify) == stringify(value.value)
    ensures value.Some? && (value.value.JNum? || value.value.JBool?) ==> FormatValue(value, stringify) == JsonToString(value.value)
  {
    if value.Some? && value.value.JStr? {
      AdminList.CutTextBound(value.value.s, ValueLimit);
    }
  }

  /** Keys `getDisplayProperties` never shows. */
  const ExcludeKeys: seq<string> := ["__typename", "refersTo", "relatedByCategory", "pharmacopoeia"]

  /** `priority[key] || 999`. */
  function Priority(key: string): int {
    if key == "doc_id" || key == "id" then 1
    else if key == "name" then 2
    else if key == "edition" then 3
    else if key == "category" then 4
    else if key == "name_pinyin" then 5
    else if key == "name_en" then 6
    else 999
  }

  /** `Object.entries` of the value `node.properties || {}` yields: an
      object's own fields, an array's or a string's indexed elements, and
      nothing for the other primitives. */
  function Entries(props: Json): seq<Entry> {
    match props
    case JObj(fields) => fields
    case JArr(items) => seq(|items|, i requires 0 <= i < |items| => (IntToString(i), items[i]))
    case JStr(s) => seq(|s|, i requires 0 <= i < |s| => (IntToString(i), JStr([s[i]])))
    case _ => []
  }

  /** `.filter(([key]) => !excludeKeys.includes(key))`. */
  function Kept(entries: seq<Entry>): (r: seq<Entry>)
    ensures forall e :: e in r <==> e in entries && e.0 !in ExcludeKeys
  {
    if entries == [] then []
    else
      var last := entries[|entries| - 1];
      var rest := Kept(entries[..|entries| - 1]);
      assert entries == entries[..|entries| - 1] + [last];
      if last.0 in ExcludeKeys then rest else rest + [last]
  }

  /** Kept of a list with one more entry at the end. */
  lemma KeptSnoc(xs: seq<Entry>, e: Entry)
    ensures Kept(xs + [e]) == Kept(xs) + (if e.0 in ExcludeKeys then [] else [e])
  {
    var c := xs + [e];
    assert c[..|c| - 1] == xs;
  }

  /** The filter keeps the order and the multiplicity of the entries:
      filtering a concatenation concatenates the filtered parts. */
  lemma {:induction false} KeptAppend(a: seq<Entry>, b: seq<Entry>)
    ensures Kept(a + b) == Kept(a) + Kept(b)
  {
    if b == [] {
      assert a + b == a;
    } else {
      var init := b[..|b| - 1];
      var last := b[|b| - 1];
      assert b == init + [last];
      assert a + b == (a + init) + [last];
      KeptAppend(a, init);
      KeptSnoc(a + init, last);
      KeptSnoc(init, last);
    }
  }

  /** A single entry is kept exactly when its key is not excluded. */
  lemma KeptOne(e: Entry)
    ensures Kept([e]) == if e.0 in ExcludeKeys then [] else [e]
  {
    assert [e][..0] == [];
  }

  /** Non-decreasing priority. */
  predicate Sorted(s: seq<Entry>) {
    forall i, j :: 0 <= i < j < |s| ==> Priority(s[i].0) <= Priority(s[j].0)
  }

  /** The entries of priority `p`, in order. */
  function WithPriority(s: seq<Entry>, p: int): seq<Entry> {
    if s == [] then []
    else WithPriority(s[..|s| - 1], p) + (if Priority(s[|s| - 1].0) == p then [s[|s| - 1]] else [])
  }

  /** One step of the stable sort: `x` goes after every entry whose priority
      is not above its own. */
  function Insert(x: Entry, s: seq<Entry>): (r: seq<Entry>)
    ensures multiset(r) == multiset(s) + multiset{x}
  {
    if s == [] || Priority(s[|s| - 1].0) <= Priority(x.0) then s + [x]
    else
      assert s == s[..|s| - 1] + [s[|s| - 1]];
      Insert(x, s[..|s| - 1]) + [s[|s| - 1]]
  }

  /** `Array.prototype.sort` with the priority comparator, which is stable:
      each entry in turn is inserted into the sorted prefix. */
  function SortByPriority(entries: seq<Entry>): (r: seq<Entry>)
    ensures multiset(r) == multiset(entries)
  {
    if entries == [] then []
    else
      assert entries == entries[..|entries| - 1] + [entries[|entries| - 1]];
      Insert(entries[|entries| - 1], SortByPriority(entries[..|entries| - 1]))
  }

  lemma {:induction false} InsertSorted(x: Entry, s: seq<Entry>)
    requires Sorted(s)
    ensures Sorted(Insert(x, s))
    decreases |s|
  {
    if s == [] || Priority(s[|s| - 1].0) <= Priority(x.0) {
    } else {
      var init := s[..|s| - 1];
      var last := s[|s| - 1];
      InsertSorted(x, init);
      var t := Insert(x, init);
      forall i | 0 <= i < |t| ensures Priority(t[i].0) <= Priority(last.0) {
        assert t[i] in multiset(t);
        if t[i] != x {
          assert t[i] in multiset(init);
          var k :| 0 <= k < |init| && init[k] == t[i];
          assert s[k] == init[k];
        }
      }
    }
  }

  lemma {:induction false} InsertKeepsOrder(x: Entry, s: seq<Entry>, p: int)
    ensures WithPriority(Insert(x, s), p) == WithPriority(s, p) + (if Priority(x.0) == p then [x] else [])
    decreases |s|
  {
    if s == [] || Priority(s[|s| - 1].0) <= Priority(x.0) {
      assert (s + [x])[..|s|] == s;
    } else {
      var init := s[..|s| - 1];
      var last := s[|s| - 1];
      InsertKeepsOrder(x, init, p);
      var t := Insert(x, init);
      assert (t + [last])[..|t + [last]| - 1] == t;
    }
  }

  lemma {:induction false} SortFacts(entries: seq<Entry>, p: int)
    ensures Sorted(SortByPriority(entries))
    ensures WithPriority(SortByPriority(entries), p) == WithPriority(entries, p)
    decreases |entries|
  {
    if entries != [] {
      var init := entries[..|entries| - 1];
      SortFacts(init, p);
      InsertSorted(entries[|entries| - 1], SortByPriority(init));
      InsertKeepsOrder(entries[|entries| - 1], SortByPriority(init), p);
    }
  }

  /** `getDisplayProperties`. */
  function DisplayProperties(node: PostProcess.GraphNode): seq<Entry> {
    SortByPriority(Kept(Entries(Or(Some(node.properties), Some(JObj([]))).value)))
  }

  /** The property list shows no excluded key and every other entry once as
      often as the properties hold it; its priorities never decrease; and
      entries of equal priority keep their order. */
  lemma DisplayPropertiesFacts(node: PostProcess.GraphNode, p: int)
    ensures var all := Entries(Or(Some(node.properties), Some(JObj([]))).value);
      var r := DisplayProperties(node);
      && (forall e :: e in r ==> e.0 !in ExcludeKeys)
      && (forall e :: e in r <==> e in all && e.0 !in ExcludeKeys)
      && multiset(r) == multiset(Kept(all))
      && Sorted(r)
      && WithPriority(r, p) == WithPriority(Kept(all), p)
  {
    var all := Entries(Or(Some(node.properties), Some(JObj([]))).value);
    SortFacts(Kept(all), p);
    var r := DisplayProperties(node);
    forall e | e in r ensures e in Kept(all) {
      assert e in multiset(r);
    }
    forall e | e in Kept(all) ensures e in r {
      assert e in multiset(Kept(all));
    }
  }

  const ReferencedGroup: string := "引用的通则"
  const SameCategoryGroup: string := "同类药品"
  const PharmacopoeiaGroup: string := "所属药典"

  /** One entry of `getRelatedNodes`' list. */
  datatype RelatedGroup = RelatedGroup(groupType: string, nodes: seq<Json>)

  /** The place of each group in the list. */
  function GroupRank(groupType: string): int {
    if groupType == ReferencedGroup then 0 else if groupType == SameCategoryGroup then 1 else 2
  }

  predicate HasGroup(related: seq<RelatedGroup>, groupType: string) {
    exists i :: 0 <= i < |related| && related[i].groupType == groupType
  }

  /** The group `g` when `present`, else nothing. */
  function When(present: bool, g: RelatedGroup): seq<RelatedGroup> {
    if present then [g] else []
  }

  /** The list `getRelatedNodes` builds from a property value. */
  function RelatedGroups(props: Json): seq<RelatedGroup> {
    var refersTo := Get(Some(props), "refersTo");
    var sameCategory := Get(Some(props), "relatedByCategory");
    var pharmacopoeia := Get(Some(props), "pharmacopoeia");
    When(Truthy(refersTo) && IsArray(refersTo), RelatedGroup(ReferencedGroup, ArrayOf(refersTo)))
    + When(Truthy(sameCategory) && IsArray(sameCategory), RelatedGroup(SameCategoryGroup, ArrayOf(sameCategory)))
    + When(Truthy(pharmacopoeia), RelatedGroup(PharmacopoeiaGroup, if pharmacopoeia.Some? then [pharmacopoeia.value] else []))
  }

  /** The referenced general notices appear exactly when `refersTo` is an
      array, the drugs of the same category exactly when `relatedByCategory`
      is one, and the pharmacopoeia exactly when it is truthy, as a
      one-element list; each group at most once, in that order, carrying
      exactly the property's nodes. */
  lemma RelatedGroupsFacts(props: Json)
    ensures var related := RelatedGroups(props);
      var refersTo := Get(Some(props), "refersTo");
      var sameCategory := Get(Some(props), "relatedByCategory");
      var pharmacopoeia := Get(Some(props), "pharmacopoeia");
      && (HasGroup(related, ReferencedGroup) <==> IsArray(refersTo))
      && (HasGroup(related, SameCategoryGroup) <==> IsArray(sameCategory))
      && (HasGroup(related, PharmacopoeiaGroup) <==> Truthy(pharmacopoeia))
      && (forall i :: 0 <= i < |related| ==> related[i].groupType in {ReferencedGroup, SameCategoryGroup, PharmacopoeiaGroup})
      && (forall i, j :: 0 <= i < j < |related| ==> GroupRank(related[i].groupType) < GroupRank(related[j].groupType))
      && (forall i :: 0 <= i < |related| && related[i].groupType == ReferencedGroup ==> related[i].nodes == ArrayOf(refersTo))
      && (forall i :: 0 <= i < |related| && related[i].groupType == SameCategoryGroup ==> related[i].nodes == ArrayOf(sameCategory))
      && (forall i :: 0 <= i < |related| && related[i].groupType == PharmacopoeiaGroup ==> related[i].nodes == [pharmacopoeia.value])
  {
    var related := RelatedGroups(props);
    var refersTo := Get(Some(props), "refersTo");
    var sameCategory := Get(Some(props), "relatedByCategory");
    var a := When(Truthy(refersTo) && IsArray(refersTo), RelatedGroup(ReferencedGroup, ArrayOf(refersTo)));
    var b := When(Truthy(sameCategory) && IsArray(sameCategory), RelatedGroup(SameCategoryGroup, ArrayOf(sameCategory)));
    if IsArray(refersTo) {
      assert related[0].groupType == ReferencedGroup;
    }
    if IsArray(sameCategory) {
      assert related[|a|].groupType == SameCategoryGroup;
    }
    if Truthy(Get(Some(props), "pharmacopoeia")) {
      assert related[|a| + |b|].groupType == PharmacopoeiaGroup;
    }
  }

  /** `getRelatedNodes`: one `push` per group whose condition holds. */
  method GetRelatedNodes(node: PostProcess.GraphNode) returns (related: seq<RelatedGroup>)
    ensures related == RelatedGroups(node.properties)
  {
    var props := Some(node.properties);
    related := [];
    var refersTo := Get(props, "refersTo");
    if Truthy(refersTo) && IsArray(refersTo) {
      related := related + [RelatedGroup(ReferencedGroup, refersTo.value.items)];
    }
    var sameCategory := Get(props, "relatedByCategory");
    if Truthy(sameCategory) && IsArray(sameCategory) {
      related := related + [RelatedGroup(SameCategoryGroup, sameCategory.value.items)];
    }
    var pharmacopoeia := Get(props, "pharmacopoeia");
    if Truthy(pharmacopoeia) {
      related := related + [RelatedGroup(PharmacopoeiaGroup, [pharmacopoeia.value])];
    }
  }
}
