/** The list helpers the two admin managers share. NodeManager.tsx and
    RelationshipManager.tsx carry identical copies of the page arithmetic,
    the five-button page window, the local `truncateText` and the expansion
    toggle; each is modelled once here. */
module AdminList {
  import opened Text

  /** `pageSize`, fixed at 20 in both managers. */
  const PageSize: int := 20

  /** The managers' `truncateText` defaults. */
  const NodeTextLimit: int := 100
  const RelationshipTextLimit: int := 50

  /** `(currentPage - 1) * pageSize`: the rows the list request skips. */
  function Skip(page: int): int {
    (page - 1) * PageSize
  }

  /** `Math.ceil(total / pageSize)`: the least page count whose pages hold
      every row. */
  function TotalPages(total: int): (r: int)
    ensures (r - 1) * PageSize < total <= r * PageSize
  {
    -((-total) / PageSize)
  }

  /** `(currentPage - 1) * pageSize + 1`: the first row shown, counting from 1. */
  function StartIndex(page: int): int {
    (page - 1) * PageSize + 1
  }

  /** `Math.min(currentPage * pageSize, total)`: the last row shown. */
  function EndIndex(page: int, total: int): int {
    Min(page * PageSize, total)
  }

  /** On any existing page the "showing rows a to b" line is a non-empty
      range within the total: it starts right after the skipped rows, it
      covers `min(pageSize, total - skip)` rows (all that the list request
      returns), a full page when the page is not the last, and the next page
      starts where this one ends; the last page ends at the total. */
  lemma PageRange(page: int, total: int)
    requires 1 <= page <= TotalPages(total)
    ensures 0 <= Skip(page) < total
    ensures StartIndex(page) == Skip(page) + 1
    ensures 1 <= StartIndex(page) <= EndIndex(page, total) <= total
    ensures EndIndex(page, total) - StartIndex(page) + 1 == Min(PageSize, total - Skip(page))
    ensures page < TotalPages(total) ==> EndIndex(page, total) - StartIndex(page) + 1 == PageSize
    ensures page < TotalPages(total) ==> StartIndex(page + 1) == EndIndex(page, total) + 1
    ensures page == TotalPages(total) ==> EndIndex(page, total) == total
  {
  }

  /** No rows, no pages; otherwise at least one. */
  lemma TotalPagesZero(total: int)
    requires total >= 0
    ensures TotalPages(total) >= 0
    ensures TotalPages(total) == 0 <==> total == 0
  {
  }

  /** The number on button `i` of the window (the `Array.from` callback). */
  function WindowPage(totalPages: int, currentPage: int, i: int): int {
    if totalPages <= 5 then i + 1
    else if currentPage <= 3 then i + 1
    else if currentPage >= totalPages - 2 then totalPages - 4 + i
    else currentPage - 2 + i
  }

  /** `Array.from({length: Math.min(5, totalPages)}, …)`; a length below
      zero makes an empty array. */
  function PageWindow(totalPages: int, currentPage: int): seq<int> {
    var n := Min(5, totalPages);
    seq(if n < 0 then 0 else n, i => WindowPage(totalPages, currentPage, i))
  }

  /** The page buttons: `min(5, totalPages)` consecutive page numbers, all
      of them existing pages whatever the current page is, and the current
      page among them when it exists; away from both ends it is the middle
      button. */
  lemma PageWindowFacts(totalPages: int, currentPage: int)
    ensures var w := PageWindow(totalPages, currentPage);
      && |w| == (if totalPages <= 0 then 0 else Min(5, totalPages))
      && (forall i :: 0 <= i < |w| ==> 1 <= w[i] <= totalPages)
      && (forall i :: 0 < i < |w| ==> w[i] == w[i - 1] + 1)
      && (1 <= currentPage <= totalPages ==> currentPage in w)
      && (5 < totalPages && 3 < currentPage < totalPages - 2 ==> w[2] == currentPage)
  {
    var w := PageWindow(totalPages, currentPage);
    if 1 <= currentPage <= totalPages {
      var i := if totalPages <= 5 || currentPage <= 3 then currentPage - 1
               else if currentPage >= totalPages - 2 then currentPage - totalPages + 4
               else 2;
      assert w[i] == currentPage;
    }
  }

  /** The managers' local `truncateText`: the text when it fits, else the
      first `maxLength` characters followed by "..." (`substring` clamps a
      negative length to nothing). */
  function CutText(text: string, maxLength: int): (r: string)
    ensures |text| <= maxLength ==> r == text
    ensures |text| > maxLength >= 0 ==> |r| == maxLength + 3 && r[..maxLength] == text[..maxLength] && r[maxLength..] == "..."
    ensures maxLength < 0 ==> r == "..."
  {
    if |text| <= maxLength then text else Prefix(text, maxLength) + "..."
  }

  /** A cut never costs more than the three dots, and a text that was cut
      stays unchanged when cut again at the new length. */
  lemma CutTextBound(text: string, maxLength: int)
    requires maxLength >= 0
    ensures |CutText(text, maxLength)| <= maxLength + 3
    ensures CutText(CutText(text, maxLength), maxLength + 3) == CutText(text, maxLength)
  {
  }

  /** `new Set(prev)` with `id` deleted when present and added otherwise. */
  function Toggled(s: set<string>, id: string): (r: set<string>)
    ensures id in r <==> id !in s
    ensures forall x :: x != id ==> (x in r <==> x in s)
  {
    if id in s then s - {id} else s + {id}
  }

  /** Toggling the same row twice restores the set. */
  lemma ToggleTwice(s: set<string>, id: string)
    ensures Toggled(Toggled(s, id), id) == s
  {
  }

  /** The `expandedNodes` and `expandedRelationships` state: the ids whose
      long values are shown in full. */
  class Expansion {
    var expanded: set<string>

    /** `useState(new Set())`. */
    constructor ()
      ensures expanded == {}
    {
      expanded := {};
    }

    /** `toggleNodeExpansion` / `toggleRelationshipExpansion`: the id's
        membership flips and no other id's changes. */
    method Toggle(id: string)
      modifies this
      ensures expanded == Toggled(old(expanded), id)
      ensures id in expanded <==> id !in old(expanded)
      ensures forall x :: x != id ==> (x in expanded <==> x in old(expanded))
    {
      var next := expanded;
      if id in next {
        next := next - {id};
      } else {
        next := next + {id};
      }
      expanded := next;
    }
  }
}

/** The pure helpers of components/admin/NodeManager.tsx: the parsing of the
    create form's label field and the display name of a node. */
module NodeManager {
  import opened Wrappers
  import opened Text
  import opened Js

  const LabelsMissing: string := "请输入至少一个标签"

  /** The name properties, in the order `getNodeDisplayName` tries them. */
  const NameKeys: seq<string> := ["name", "title", "label", "doc_id", "id"]

  /** A node as the admin API lists it: its identity as a string and its
      property object. */
  datatype Node = Node(identity: string, labels: seq<string>, properties: seq<(string, Json)>)

  /** `.filter((l) => l)` on strings: the non-empty ones, in order. */
  function NonEmpty(xs: seq<string>): (r: seq<string>)
    ensures |r| <= |xs|
    ensures forall x :: x in r <==> x in xs && x != ""
    ensures r == [] <==> forall i :: 0 <= i < |xs| ==> xs[i] == ""
    ensures (forall i :: 0 <= i < |xs| ==> xs[i] != "") ==> r == xs
  {
    if xs == [] then []
    else
      var rest := NonEmpty(xs[1..]);
      assert xs == [xs[0]] + xs[1..];
      if xs[0] == "" then rest else [xs[0]] + rest
  }

  /** `.map((l) => l.trim())`. */
  function TrimAll(xs: seq<string>): (r: seq<string>)
    ensures |r| == |xs|
    ensures forall i :: 0 <= i < |xs| ==> r[i] == Trim(xs[i])
  {
    seq(|xs|, i requires 0 <= i < |xs| => Trim(xs[i]))
  }

  /** The filter works element by element and keeps the order: filtering a
      concatenation concatenates the filtered parts. */
  lemma {:induction false} NonEmptyAppend(a: seq<string>, b: seq<string>)
    ensures NonEmpty(a + b) == NonEmpty(a) + NonEmpty(b)
  {
    if a != [] {
      assert (a + b)[1..] == a[1..] + b;
      assert (a + b)[0] == a[0];
      NonEmptyAppend(a[1..], b);
    } else {
      assert a + b == b;
    }
  }

  /** A single element is kept exactly when it is non-empty. */
  lemma NonEmptyOne(x: string)
    ensures NonEmpty([x]) == if x == "" then [] else [x]
  {
    assert [x][1..] == [];
  }

  /** Every trimmed label is trimmed; trimming them again changes nothing;
      trimming works element by element. */
  lemma TrimAllFacts(xs: seq<string>, ys: seq<string>)
    ensures forall i :: 0 <= i < |xs| ==> Trimmed(TrimAll(xs)[i])
    ensures TrimAll(TrimAll(xs)) == TrimAll(xs)
    ensures TrimAll(xs + ys) == TrimAll(xs) + TrimAll(ys)
  {
    forall i | 0 <= i < |xs| ensures Trimmed(TrimAll(xs)[i]) && Trim(TrimAll(xs)[i]) == TrimAll(xs)[i] {
      TrimmedTrim(xs[i]);
      TrimIdempotent(xs[i]);
    }
  }

  /** `formLabels.split(",").map((l) => l.trim()).filter((l) => l)`. */
  function ParseLabels(input: string): seq<string> {
    NonEmpty(TrimAll(Split(input, ',')))
  }

  /** The label step of `handleCreate`: the parsed labels, or the alert when
      none remain. */
  function CreateLabels(input: string): (r: Result<seq<string>>)
    ensures r.Failure? <==> ParseLabels(input) == []
    ensures r.Failure? ==> r.error == LabelsMissing
    ensures r.Success? ==> r.value == ParseLabels(input)
  {
    var labels := ParseLabels(input);
    if labels == [] then Failure(LabelsMissing) else Success(labels)
  }

  /** Every parsed label is non-empty, trimmed and free of commas. */
  lemma LabelsClean(input: string)
    ensures forall l :: l in ParseLabels(input) ==> l != "" && Trimmed(l) && ',' !in l
  {
    var parts := Split(input, ',');
    forall l | l in ParseLabels(input) ensures l != "" && Trimmed(l) && ',' !in l {
      assert l in TrimAll(parts);
      var i :| 0 <= i < |parts| && l == TrimAll(parts)[i];
      TrimmedTrim(parts[i]);
      TrimIsInfix(parts[i]);
      var a, b :| 0 <= a <= b <= |parts[i]| && Trim(parts[i]) == parts[i][a..b];
      assert ',' !in parts[i];
      forall k | 0 <= k < |l| ensures l[k] != ',' {
        assert l[k] == parts[i][a + k];
      }
    }
  }

  /** Creation is refused exactly when every comma-separated part is blank. */
  lemma LabelsEmptyIff(input: string)
    ensures CreateLabels(input).Failure? <==> forall p :: p in Split(input, ',') ==> AllSpace(p)
  {
    var parts := Split(input, ',');
    forall i | 0 <= i < |parts| ensures (Trim(parts[i]) == "" <==> AllSpace(parts[i])) {
      TrimEmptyIffAllSpace(parts[i]);
    }
  }

  /** Writing the parsed labels back as "a,b,c" and parsing again gives the
      same labels. */
  lemma LabelsReparse(input: string)
    ensures ParseLabels(Join(ParseLabels(input), ",")) == ParseLabels(input)
  {
    var labels := ParseLabels(input);
    LabelsClean(input);
    if labels == [] {
      assert Split("", ',') == [""];
      assert TrimAll([""]) == [""];
    } else {
      assert forall i :: 0 <= i < |labels| ==> labels[i] in labels;
      SplitJoin(labels, ',');
      forall i | 0 <= i < |labels| ensures Trim(labels[i]) == labels[i] {
        TrimOfTrimmed(labels[i]);
      }
      assert TrimAll(labels) == labels;
    }
  }

  /** The index of the first of `keys` whose property is truthy. */
  function FirstTruthyKey(props: seq<(string, Json)>, keys: seq<string>): (r: Option<nat>)
    ensures r.Some? ==> r.value < |keys| && Truthy(Lookup(props, keys[r.value]))
    ensures r.Some? ==> forall j :: 0 <= j < r.value ==> !Truthy(Lookup(props, keys[j]))
    ensures r.None? <==> forall j :: 0 <= j < |keys| ==> !Truthy(Lookup(props, keys[j]))
  {
    if keys == [] then None
    else if Truthy(Lookup(props, keys[0])) then Some(0)
    else
      var rest := FirstTruthyKey(props, keys[1..]);
      assert forall j :: 1 <= j < |keys| ==> keys[j] == keys[1..][j - 1];
      if rest.Some? then Some(rest.value + 1) else None
  }

  /** What `getNodeDisplayName` shows: `String` of the first truthy name
      property, else "节点 " and the identity. */
  function DisplayName(node: Node): string {
    var k := FirstTruthyKey(node.properties, NameKeys);
    if k.Some? then ToJsString(Lookup(node.properties, NameKeys[k.value]))
    else "节点 " + node.identity
  }

  /** `getNodeDisplayName`: the loop over the name properties with its early
      return. */
  method GetNodeDisplayName(node: Node) returns (r: string)
    ensures r == DisplayName(node)
  {
    for i := 0 to |NameKeys|
      invariant forall j :: 0 <= j < i ==> !Truthy(Lookup(node.properties, NameKeys[j]))
    {
      var value := Lookup(node.properties, NameKeys[i]);
      if Truthy(value) {
        return ToJsString(value);
      }
    }
    return "节点 " + node.identity;
  }

  /** The name properties' precedence: a truthy `name` always wins; a later
      property is shown only when every earlier one is falsy; the identity
      is shown only when all five are falsy. */
  lemma DisplayNamePrecedence(node: Node, i: nat)
    requires i < |NameKeys|
    requires Truthy(Lookup(node.properties, NameKeys[i]))
    requires forall j :: 0 <= j < i ==> !Truthy(Lookup(node.properties, NameKeys[j]))
    ensures DisplayName(node) == ToJsString(Lookup(node.properties, NameKeys[i]))
  {
  }

  lemma DisplayNameFallback(node: Node)
    ensures (forall j :: 0 <= j < |NameKeys| ==> !Truthy(Lookup(node.properties, NameKeys[j])))
      <==> DisplayName(node) == "节点 " + node.identity && FirstTruthyKey(node.properties, NameKeys).None?
  {
  }
}

/** The pure helpers of components/admin/RelationshipManager.tsx: the create
    form's required fields and the display name of an end node. */
module RelationshipManager {
  import opened Wrappers
  import opened Text
  import opened Js
  import NodeManager

  const FormIncomplete: string := "请填写起始节点ID、结束节点ID和关系类型"
  const UnknownNode: string := "未知节点"

  /** The guard of `handleCreate`: the alert when the start id, the end id or
      the type is empty. */
  function CheckForm(startNodeId: string, endNodeId: string, relType: string): (r: Option<string>)
    ensures r.None? <==> startNodeId != "" && endNodeId != "" && relType != ""
    ensures r.Some? ==> r.value == FormIncomplete
  {
    if startNodeId == "" || endNodeId == "" || relType == "" then Some(FormIncomplete) else None
  }

  /** `nodeInfo.name || nodeInfo.title || nodeInfo.label || nodeInfo.doc_id`. */
  function InfoName(info: Value): Value {
    Or(Or(Or(Get(info, "name"), Get(info, "title")), Get(info, "label")), Get(info, "doc_id"))
  }

  /** `Array.prototype.join`'s view of each element: `null` is empty. */
  function ElementStrings(items: seq<Json>): (r: seq<string>)
    ensures |r| == |items|
    ensures forall i :: 0 <= i < |items| ==>
      && (items[i].JNull? ==> r[i] == "")
      && (items[i].JStr? ==> r[i] == items[i].s)
      && (items[i].JNum? ==> r[i] == IntToString(items[i].n))
      && (items[i].JBool? ==> r[i] == if items[i].b then "true" else "false")
      && (items[i].JObj? ==> r[i] == "[object Object]")
  {
    seq(|items|, i requires 0 <= i < |items| => if items[i].JNull? then "" else JsonToString(items[i]))
  }

  /** `nodeInfo.labels?.join(", ") || ""`: a missing or `null` list is "";
      any other non-array value has no `join` and throws. */
  function LabelsText(info: Value): Result<string> {
    var labels := Get(info, "labels");
    if IsNullish(labels) then Success("")
    else if labels.value.JArr? then Success(Join(ElementStrings(labels.value.items), ", "))
    else Failure(TypeError)
  }

  /** `getNodeDisplayName` of RelationshipManager: "未知节点" for missing
      info, else `name [labels]`, or `[labels]` when no name is truthy. */
  function NodeInfoName(info: Value): Result<string> {
    if !Truthy(info) then Success(UnknownNode)
    else
      var labels := LabelsText(info);
      if labels.Failure? then Failure(labels.error)
      else
        var name := InfoName(info);
        if Truthy(name) then Success(ToJsString(name) + " [" + labels.value + "]")
        else Success("[" + labels.value + "]")
  }

  /** The name chain tries the same four properties in the same order as
      NodeManager's loop, without its final `id`. */
  lemma InfoNameIsFirstTruthy(fields: seq<(string, Json)>)
    ensures var keys := NodeManager.NameKeys[..4];
      var name := InfoName(Some(JObj(fields)));
      var k := NodeManager.FirstTruthyKey(fields, keys);
      && (Truthy(name) <==> k.Some?)
      && (k.Some? ==> name == Lookup(fields, keys[k.value]))
  {
    var keys := NodeManager.NameKeys[..4];
    assert keys == ["name", "title", "label", "doc_id"];
    var k := NodeManager.FirstTruthyKey(fields, keys);
    var l := seq(4, j requires 0 <= j < 4 => Lookup(fields, keys[j]));
    assert InfoName(Some(JObj(fields))) == Or(Or(Or(l[0], l[1]), l[2]), l[3]);
    if Truthy(l[0]) {
      assert k == Some(0);
    } else if Truthy(l[1]) {
      assert k == Some(1);
    } else if Truthy(l[2]) {
      assert k == Some(2);
    } else if Truthy(l[3]) {
      assert k == Some(3);
    } else {
      assert k.None?;
    }
  }

  /** The display name's cases: missing info is "未知节点"; truthy info
      fails exactly when its `labels` is present, not `null` and not an
      array; a list of strings is shown joined by ", " inside brackets,
      after the name when one is truthy. */
  lemma NodeInfoNameFacts(info: Value)
    ensures !Truthy(info) ==> NodeInfoName(info) == Success(UnknownNode)
    ensures NodeInfoName(info).Failure? <==>
      Truthy(info) && !IsNullish(Get(info, "labels")) && !IsArray(Get(info, "labels"))
    ensures NodeInfoName(info).Failure? ==> NodeInfoName(info).error == TypeError
    ensures NodeInfoName(info).Success? && Truthy(info) ==>
      var r := NodeInfoName(info).value;
      |r| >= 2 && r[|r| - 1] == ']'
  {
  }

  /** With a list of plain strings, the brackets hold exactly those strings
      joined by ", ". */
  lemma NodeInfoNameOfStrings(info: Value, labels: seq<string>)
    requires Truthy(info)
    requires Get(info, "labels") == Some(JArr(seq(|labels|, i requires 0 <= i < |labels| => JStr(labels[i]))))
    ensures var name := InfoName(info);
      NodeInfoName(info) == Success(
        if Truthy(name) then ToJsString(name) + " [" + Join(labels, ", ") + "]" else "[" + Join(labels, ", ") + "]")
  {
    var items := Get(info, "labels").value.items;
    assert ElementStrings(items) == labels;
  }
}
