/**
 * The option lists the Intacct target configurator derives from a schema: its
 * label formatting, the per-node options, the editable filter, the sort by
 * value, and the two lists as functions of the schema with their properties.
 */
module SelectionOptions {
  import opened SchemaTree
  import opened StringOrder

  /** A choice in a picklist: the stored `value` and the `label` shown, here `text`. */
  datatype SelectionOption = SelectionOption(value: string, text: string)

  const NO_SELECTION: string := "--noSelection--"

  /** The pinned first writeback choice, meaning "write nothing back". */
  const NO_SELECTION_OPTION: SelectionOption := SelectionOption(NO_SELECTION, "-- None --")

  /**
   * The field name, followed by the label in parentheses when the label is
   * non-empty and differs from the name.
   */
  function PrettyFieldLabel(name: string, fieldLabel: string): (r: string)
    ensures |r| >= |name| && r[..|name|] == name
    ensures r == name <==> (fieldLabel == "" || fieldLabel == name)
    ensures r != name ==> r[|name|..] == " (" + fieldLabel + ")"
  {
    name + (if name != fieldLabel && fieldLabel != "" then " (" + fieldLabel + ")" else "")
  }

  lemma PrettyFieldLabelExamples()
    ensures PrettyFieldLabel("Name", "Name") == "Name"
    ensures PrettyFieldLabel("Name", "") == "Name"
    ensures PrettyFieldLabel("Name", "Full Name") == "Name (Full Name)"
  {
  }

  /** The option shown for one schema field. */
  function OptionFor(field: FieldInfo): SelectionOption {
    SelectionOption(field.fieldName, PrettyFieldLabel(field.fieldName, field.fieldLabel))
  }

  /** One option per node, in the nodes' order (the `forEach`/`push` loop). */
  function Options(nodes: seq<Node>): (r: seq<SelectionOption>)
    ensures |r| == |nodes|
    ensures forall i :: 0 <= i < |nodes| ==> r[i] == OptionFor(nodes[i].field)
  {
    if nodes == [] then []
    else Options(nodes[..|nodes| - 1]) + [OptionFor(nodes[|nodes| - 1].field)]
  }

  /** The nodes whose field is editable, in their order (the `isEditable` filter). */
  function EditableNodes(nodes: seq<Node>): seq<Node> {
    if nodes == [] then []
    else
      var last := nodes[|nodes| - 1];
      EditableNodes(nodes[..|nodes| - 1]) + (if last.field.isEditable then [last] else [])
  }

  /** The filter keeps every editable node as often as it occurs, and nothing else. */
  lemma {:induction false} EditableNodesCount(nodes: seq<Node>, n: Node)
    ensures multiset(EditableNodes(nodes))[n] == if n.field.isEditable then multiset(nodes)[n] else 0
  {
    if nodes != [] {
      var last := nodes[|nodes| - 1];
      assert nodes == nodes[..|nodes| - 1] + [last];
      EditableNodesCount(nodes[..|nodes| - 1], n);
    }
  }

  /** One more node of a prefix adds its option at the end. */
  lemma OptionsOfLongerPrefix(nodes: seq<Node>, i: nat)
    requires i < |nodes|
    ensures Options(nodes[..i + 1]) == Options(nodes[..i]) + [OptionFor(nodes[i].field)]
  {
    assert nodes[..i + 1][..i] == nodes[..i];
  }

  /** One more node of a prefix adds it to the editable nodes exactly when it is editable. */
  lemma EditableNodesOfLongerPrefix(nodes: seq<Node>, i: nat)
    requires i < |nodes|
    ensures EditableNodes(nodes[..i + 1])
         == EditableNodes(nodes[..i]) + (if nodes[i].field.isEditable then [nodes[i]] else [])
  {
    assert nodes[..i + 1][..i] == nodes[..i];
  }

  /** Options distribute over appending one node. */
  lemma OptionsAppend(nodes: seq<Node>, n: Node)
    ensures Options(nodes + [n]) == Options(nodes) + [OptionFor(n.field)]
  {
    assert (nodes + [n])[..|nodes|] == nodes;
  }

  predicate SortedByValue(s: seq<SelectionOption>) {
    forall i, j :: 0 <= i < j < |s| ==> Leq(s[i].value, s[j].value)
  }

  lemma PrependSorted(x: SelectionOption, s: seq<SelectionOption>)
    requires SortedByValue(s)
    requires forall y | y in s :: Leq(x.value, y.value)
    ensures SortedByValue([x] + s)
  {
    forall i, j | 0 <= i < j < |[x] + s|
      ensures Leq(([x] + s)[i].value, ([x] + s)[j].value)
    {
      if i > 0 {
        assert ([x] + s)[i] == s[i - 1] && ([x] + s)[j] == s[j - 1];
      } else {
        assert s[j - 1] in s;
      }
    }
  }

  lemma BelowHeadBelowAll(x: SelectionOption, s: seq<SelectionOption>)
    requires SortedByValue(s) && |s| > 0 && Leq(x.value, s[0].value)
    ensures forall y | y in s :: Leq(x.value, y.value)
  {
    forall y | y in s
      ensures Leq(x.value, y.value)
    {
      var k :| 0 <= k < |s| && s[k] == y;
      if k > 0 {
        LeqTransitive(x.value, s[0].value, y.value);
      }
    }
  }

  /** Inserts before the first option of larger-or-equal value. */
  function InsertByValue(x: SelectionOption, s: seq<SelectionOption>): (r: seq<SelectionOption>)
    requires SortedByValue(s)
    ensures SortedByValue(r)
    ensures multiset(r) == multiset(s) + multiset{x}
  {
    if s == [] then [x]
    else if Leq(x.value, s[0].value) then
      BelowHeadBelowAll(x, s);
      PrependSorted(x, s);
      [x] + s
    else
      LeqTotal(x.value, s[0].value);
      var rest := InsertByValue(x, s[1..]);
      assert s == [s[0]] + s[1..];
      assert forall y | y in rest :: y == x || y in s[1..] by {
        forall y | y in rest
          ensures y == x || y in s[1..]
        {
          assert y in multiset(rest);
        }
      }
      assert forall y | y in s[1..] :: Leq(s[0].value, y.value) by {
        forall y | y in s[1..]
          ensures Leq(s[0].value, y.value)
        {
          var k :| 0 <= k < |s[1..]| && s[1..][k] == y;
          assert s[k + 1] == y;
        }
      }
      PrependSorted(s[0], rest);
      [s[0]] + rest
  }

  /** `Array.prototype.sort` by value: an insertion sort by `Leq`. */
  function SortByValue(s: seq<SelectionOption>): (r: seq<SelectionOption>)
    ensures SortedByValue(r)
    ensures multiset(r) == multiset(s)
    ensures |r| == |s|
  {
    if s == [] then []
    else
      assert s == [s[0]] + s[1..];
      InsertByValue(s[0], SortByValue(s[1..]))
  }

  /** The writeback comparator's intended outcome: the head stays first, the rest is sorted. */
  function PinnedSort(s: seq<SelectionOption>): (r: seq<SelectionOption>)
    requires |s| > 0
    ensures |r| == |s| && r[0] == s[0]
    ensures SortedByValue(r[1..])
    ensures multiset(r) == multiset(s)
  {
    var r := [s[0]] + SortByValue(s[1..]);
    assert r[1..] == SortByValue(s[1..]);
    assert s == [s[0]] + s[1..];
    r
  }

  /** `a.localeCompare(b)` over the abstract order: negative, zero or positive. */
  function LocaleCompare(a: string, b: string): (r: int)
    ensures r == 0 <==> a == b
    ensures r < 0 ==> Leq(a, b)
    ensures r > 0 ==> Leq(b, a) && !Leq(a, b)
  {
    if a == b then 0
    else if Leq(a, b) then -1
    else
      LeqTotal(a, b);
      1
  }

  /** The comparator the writeback list is sorted with, as written. */
  function WritebackComparator(a: SelectionOption, b: SelectionOption): int {
    if a.value == NO_SELECTION then -1 else LocaleCompare(a.value, b.value)
  }

  /**
   * The writeback comparator is not a consistent comparator: an option whose
   * value orders before the sentinel's compares below the sentinel, and the
   * sentinel compares below it too. With such a comparator the order
   * `Array.prototype.sort` produces is implementation-defined, so the
   * sentinel is not guaranteed to stay first; `PinnedSort` is the intended
   * outcome.
   */
  lemma WritebackComparatorInconsistent(o: SelectionOption)
    requires o.value != NO_SELECTION && Leq(o.value, NO_SELECTION)
    ensures WritebackComparator(o, NO_SELECTION_OPTION) < 0
    ensures WritebackComparator(NO_SELECTION_OPTION, o) < 0
  {
  }

  /**
   * A concrete option that triggers the inconsistency: a field with an empty
   * name, which orders before the sentinel under any collation.
   */
  lemma WritebackComparatorCounterexample()
    ensures var o := SelectionOption("", "");
      WritebackComparator(o, NO_SELECTION_OPTION) < 0 && WritebackComparator(NO_SELECTION_OPTION, o) < 0
  {
    WritebackComparatorInconsistent(SelectionOption("", ""));
  }

  /** The key-field choices for a schema: one per top-level `Target` child, sorted by value. */
  function KeyFieldOptions(schema: Schema): seq<SelectionOption> {
    SortByValue(Options(schema.target.children))
  }

  /** The writeback choices: the sentinel, then the editable top-level `Source` children sorted by value. */
  function WritebackFieldOptions(schema: Schema): seq<SelectionOption> {
    PinnedSort([NO_SELECTION_OPTION] + Options(EditableNodes(schema.source.children)))
  }

  lemma {:induction false} KeyFieldOptionsCorrect(schema: Schema)
    ensures var r := KeyFieldOptions(schema); var nodes := schema.target.children;
      && |r| == |nodes|
      && SortedByValue(r)
      && multiset(r) == multiset(Options(nodes))
      && forall o :: o in r <==> exists i :: 0 <= i < |nodes| && o == OptionFor(nodes[i].field)
  {
    var r := KeyFieldOptions(schema);
    var nodes := schema.target.children;
    var opts := Options(nodes);
    forall o
      ensures o in r <==> exists i :: 0 <= i < |nodes| && o == OptionFor(nodes[i].field)
    {
      calc {
        o in r;
        o in multiset(r);
        o in multiset(opts);
        o in opts;
      }
      if o in opts {
        var i :| 0 <= i < |opts| && opts[i] == o;
        assert o == OptionFor(nodes[i].field);
      }
      if exists i :: 0 <= i < |nodes| && o == OptionFor(nodes[i].field) {
        var i :| 0 <= i < |nodes| && o == OptionFor(nodes[i].field);
        assert opts[i] == o;
      }
    }
  }

  lemma EditableNodeIsEditable(nodes: seq<Node>, k: nat)
    requires k < |EditableNodes(nodes)|
    ensures var n := EditableNodes(nodes)[k]; n.field.isEditable && n in nodes
  {
    var editable := EditableNodes(nodes);
    var n := editable[k];
    assert multiset(editable)[n] > 0;
    EditableNodesCount(nodes, n);
    assert multiset(nodes)[n] > 0;
  }

  lemma EditableNodeIncluded(nodes: seq<Node>, i: nat)
    requires i < |nodes| && nodes[i].field.isEditable
    ensures nodes[i] in EditableNodes(nodes)
  {
    var n := nodes[i];
    assert multiset(nodes)[n] > 0;
    EditableNodesCount(nodes, n);
    assert multiset(EditableNodes(nodes))[n] > 0;
  }

  lemma EditableOptionSource(nodes: seq<Node>, o: SelectionOption) returns (i: nat)
    requires o in Options(EditableNodes(nodes))
    ensures i < |nodes| && nodes[i].field.isEditable && o == OptionFor(nodes[i].field)
  {
    var editable := EditableNodes(nodes);
    var opts := Options(editable);
    var k :| 0 <= k < |opts| && opts[k] == o;
    EditableNodeIsEditable(nodes, k);
    i :| 0 <= i < |nodes| && nodes[i] == editable[k];
  }

  lemma EditableOptionPresent(nodes: seq<Node>, i: nat)
    requires i < |nodes| && nodes[i].field.isEditable
    ensures OptionFor(nodes[i].field) in Options(EditableNodes(nodes))
  {
    var editable := EditableNodes(nodes);
    EditableNodeIncluded(nodes, i);
    var k :| 0 <= k < |editable| && editable[k] == nodes[i];
    assert Options(editable)[k] == OptionFor(nodes[i].field);
  }

  /** An option is among the editable nodes' options exactly when an editable node yields it. */
  lemma EditableOptionsMembership(nodes: seq<Node>, o: SelectionOption)
    ensures o in Options(EditableNodes(nodes))
        <==> exists i :: 0 <= i < |nodes| && nodes[i].field.isEditable && o == OptionFor(nodes[i].field)
  {
    if o in Options(EditableNodes(nodes)) {
      var i := EditableOptionSource(nodes, o);
    }
    if exists i :: 0 <= i < |nodes| && nodes[i].field.isEditable && o == OptionFor(nodes[i].field) {
      var i :| 0 <= i < |nodes| && nodes[i].field.isEditable && o == OptionFor(nodes[i].field);
      EditableOptionPresent(nodes, i);
    }
  }

  lemma {:induction false} WritebackFieldOptionsCorrect(schema: Schema)
    ensures var r := WritebackFieldOptions(schema); var nodes := schema.source.children;
      && |r| == 1 + |EditableNodes(nodes)|
      && r[0] == NO_SELECTION_OPTION
      && SortedByValue(r[1..])
      && multiset(r[1..]) == multiset(Options(EditableNodes(nodes)))
      && forall o :: o in r[1..]
           <==> exists i :: 0 <= i < |nodes| && nodes[i].field.isEditable && o == OptionFor(nodes[i].field)
  {
    var nodes := schema.source.children;
    var opts := Options(EditableNodes(nodes));
    var s := [NO_SELECTION_OPTION] + opts;
    var r := WritebackFieldOptions(schema);
    assert r == PinnedSort(s);
    assert s[1..] == opts;
    assert r[1..] == SortByValue(opts);
    forall o
      ensures o in r[1..]
        <==> exists i :: 0 <= i < |nodes| && nodes[i].field.isEditable && o == OptionFor(nodes[i].field)
    {
      calc {
        o in r[1..];
        o in multiset(r[1..]);
        o in multiset(opts);
        o in opts;
      }
      EditableOptionsMembership(nodes, o);
    }
  }
}
