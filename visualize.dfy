/**
 * The deterministic string builders that label graphviz drawings of a machine
 * (automat/_visualize.py, the helpers ahead of makeDigraph).
 */
module Visualize {
  import opened Wrappers

  // ---------------------------------------------------------------------------
  // Quoting

  /** The character at k is not a bare '"': a quote there follows a backslash. */
  predicate EscapedAt(r: string, k: int)
    requires 0 <= k < |r|
  {
    r[k] == '"' ==> 0 < k && r[k - 1] == '\\'
  }

  /** Every '"' of s preceded by a backslash; nothing else changes. */
  function Escape(s: string): string
  {
    if s == [] then [] else (if s[0] == '"' then "\\\"" else [s[0]]) + Escape(s[1..])
  }

  /** Escaped text never starts with a quote, and every quote in it follows a backslash. */
  lemma {:induction false} EscapeWellFormed(s: string)
    ensures |Escape(s)| > 0 ==> Escape(s)[0] != '"'
    ensures forall k :: 0 <= k < |Escape(s)| ==> EscapedAt(Escape(s), k)
  {
    if s != [] {
      var head := if s[0] == '"' then "\\\"" else [s[0]];
      EscapeWellFormed(s[1..]);
      assert forall k :: 0 <= k < |head| ==> EscapedAt(head, k);
      EscapedConcat(head, Escape(s[1..]));
    }
  }

  lemma EscapedConcat(a: string, b: string)
    requires forall k :: 0 <= k < |a| ==> EscapedAt(a, k)
    requires forall k :: 0 <= k < |b| ==> EscapedAt(b, k)
    requires |b| > 0 ==> b[0] != '"'
    ensures forall k :: 0 <= k < |a + b| ==> EscapedAt(a + b, k)
  {
    forall k | 0 <= k < |a + b| ensures EscapedAt(a + b, k) {
      if k < |a| {
        assert EscapedAt(a, k);
      } else if k > |a| {
        assert EscapedAt(b, k - |a|);
      }
    }
  }

  /** Reads a backslash-quote pair back as a quote and every other character as itself. */
  function Unescape(t: string): string
  {
    if t == [] then []
    else if |t| >= 2 && t[0] == '\\' && t[1] == '"' then "\"" + Unescape(t[2..])
    else [t[0]] + Unescape(t[1..])
  }

  /** Escaping loses nothing: reading the escaped text back gives the original string. */
  lemma {:induction false} UnescapeEscape(s: string)
    ensures Unescape(Escape(s)) == s
  {
    if s != [] {
      UnescapeEscape(s[1..]);
      EscapeWellFormed(s[1..]);
      var rest := Escape(s[1..]);
      if s[0] == '"' {
        assert Escape(s) == "\\\"" + rest;
        assert (Escape(s))[2..] == rest;
      } else {
        assert Escape(s) == [s[0]] + rest;
        assert (Escape(s))[1..] == rest;
      }
    }
  }

  /** _gvquote: the string in double quotes, each embedded '"' backslash-escaped. */
  function GvQuote(s: string): string
  {
    "\"" + Escape(s) + "\""
  }

  /**
   * The quoted text starts and ends with '"', every '"' inside it follows a
   * backslash, and reading the inside back gives the original string.
   */
  lemma GvQuoteWellFormed(s: string)
    ensures var r := GvQuote(s);
            && |r| >= 2 && r[0] == '"' && r[|r| - 1] == '"'
            && (forall k :: 1 <= k < |r| - 1 ==> EscapedAt(r, k))
            && Unescape(r[1..|r| - 1]) == s
  {
    var body := Escape(s);
    UnescapeEscape(s);
    EscapeWellFormed(s);
    var r := GvQuote(s);
    assert r[1..|r| - 1] == body;
    assert forall k :: 1 <= k < |r| - 1 ==> r[k] == body[k - 1] && EscapedAt(body, k - 1);
  }

  /** Distinct strings are quoted differently. */
  lemma GvQuoteInjective(a: string, b: string)
    requires GvQuote(a) == GvQuote(b)
    ensures a == b
  {
    GvQuoteWellFormed(a);
    GvQuoteWellFormed(b);
  }

  /** _gvhtml: the string between angle brackets. */
  function GvHtml(s: string): (r: string)
    ensures |r| == |s| + 2 && r[0] == '<' && r[|r| - 1] == '>' && r[1..|r| - 1] == s
  {
    "<" + s + ">"
  }

  // ---------------------------------------------------------------------------
  // Ordering of attribute names (Python's comparison of str, code point by code point)

  predicate LexLess(a: string, b: string)
    decreases |a|
  {
    if a == [] then b != []
    else if b == [] then false
    else if a[0] != b[0] then a[0] < b[0]
    else LexLess(a[1..], b[1..])
  }

  lemma {:induction false} LexLessIrreflexive(a: string)
    ensures !LexLess(a, a)
    decreases |a|
  {
    if a != [] {
      LexLessIrreflexive(a[1..]);
    }
  }

  lemma {:induction false} LexLessTransitive(a: string, b: string, c: string)
    requires LexLess(a, b) && LexLess(b, c)
    ensures LexLess(a, c)
    decreases |a|
  {
    if a != [] && b != [] && c != [] && a[0] == b[0] && b[0] == c[0] {
      LexLessTransitive(a[1..], b[1..], c[1..]);
    }
  }

  lemma {:induction false} LexLessTotal(a: string, b: string)
    requires a != b
    ensures LexLess(a, b) || LexLess(b, a)
    decreases |a|
  {
    if a != [] && b != [] && a[0] == b[0] {
      assert a == [a[0]] + a[1..] && b == [b[0]] + b[1..];
      LexLessTotal(a[1..], b[1..]);
    }
  }

  // ---------------------------------------------------------------------------
  // elementMaker

  type Attr = (string, string)

  /** Keyword arguments: no name twice. */
  predicate DistinctKeys(attrs: seq<Attr>)
  {
    forall i, j :: 0 <= i < j < |attrs| ==> attrs[i].0 != attrs[j].0
  }

  predicate SortedByKey(attrs: seq<Attr>)
  {
    forall i, j :: 0 <= i < j < |attrs| ==> LexLess(attrs[i].0, attrs[j].0)
  }

  function Insert(x: Attr, s: seq<Attr>): (r: seq<Attr>)
    ensures multiset(r) == multiset(s) + multiset{x}
    ensures |r| == |s| + 1
  {
    if s == [] then [x]
    else if LexLess(s[0].0, x.0) then
      assert s == [s[0]] + s[1..];
      [s[0]] + Insert(x, s[1..])
    else [x] + s
  }

  /** An element of the result of Insert is the inserted one or an element of the list. */
  lemma InsertMembers(x: Attr, s: seq<Attr>, y: Attr)
    requires y in Insert(x, s)
    ensures y == x || y in s
  {
    assert y in multiset(Insert(x, s));
  }

  lemma {:induction false} InsertSorted(x: Attr, s: seq<Attr>)
    requires SortedByKey(s)
    requires forall k :: 0 <= k < |s| ==> s[k].0 != x.0
    ensures SortedByKey(Insert(x, s))
  {
    if s != [] {
      if LexLess(s[0].0, x.0) {
        SortedTail(s);
        InsertSorted(x, s[1..]);
        var r := Insert(x, s);
        var tail := Insert(x, s[1..]);
        assert r == [s[0]] + tail;
        forall k | 0 <= k < |tail| ensures LexLess(s[0].0, tail[k].0) {
          InsertMembers(x, s[1..], tail[k]);
          if tail[k] != x {
            var m :| 0 <= m < |s[1..]| && s[1..][m] == tail[k];
            assert s[m + 1] == tail[k];
          }
        }
        forall i, j | 0 <= i < j < |r| ensures LexLess(r[i].0, r[j].0) {
          assert r[j] == tail[j - 1];
          if i > 0 {
            assert r[i] == tail[i - 1];
          }
        }
      } else {
        forall k | 0 <= k < |s| ensures LexLess(x.0, s[k].0) {
          LexLessTotal(x.0, s[0].0);
          if k > 0 {
            LexLessTransitive(x.0, s[0].0, s[k].0);
          }
        }
      }
    }
  }

  /** Dropping the first attribute keeps a list sorted. */
  lemma SortedTail(a: seq<Attr>)
    requires a != [] && SortedByKey(a)
    ensures SortedByKey(a[1..])
  {
    forall i, j | 0 <= i < j < |a| - 1 ensures LexLess(a[1..][i].0, a[1..][j].0) {
      assert a[1..][i] == a[i + 1] && a[1..][j] == a[j + 1];
    }
  }

  /** sorted(attrs.items()): the attributes ordered by name. */
  function SortAttrs(attrs: seq<Attr>): (r: seq<Attr>)
    ensures multiset(r) == multiset(attrs)
  {
    if attrs == [] then []
    else
      assert attrs == [attrs[0]] + attrs[1..];
      Insert(attrs[0], SortAttrs(attrs[1..]))
  }

  /** Names passed as keyword arguments are distinct, so the sorted attributes are strictly ordered by name. */
  lemma {:induction false} SortAttrsSorted(attrs: seq<Attr>)
    requires DistinctKeys(attrs)
    ensures SortedByKey(SortAttrs(attrs))
  {
    if attrs != [] {
      var rest := SortAttrs(attrs[1..]);
      SortAttrsSorted(attrs[1..]);
      forall k | 0 <= k < |rest| ensures rest[k].0 != attrs[0].0 {
        assert rest[k] in multiset(attrs[1..]);
        var m :| 0 <= m < |attrs[1..]| && attrs[1..][m] == rest[k];
        assert attrs[m + 1] == rest[k];
      }
      InsertSorted(attrs[0], rest);
    }
  }

  /** Two strictly sorted arrangements of the same attributes are the same sequence. */
  lemma {:induction false} SortedUnique(a: seq<Attr>, b: seq<Attr>)
    requires SortedByKey(a) && SortedByKey(b)
    requires multiset(a) == multiset(b)
    ensures a == b
    decreases |a|
  {
    assert |a| == |multiset(a)| == |multiset(b)| == |b|;
    if a != [] {
      SortedHeads(a, b);
      SortedTails(a, b);
      SortedTail(a);
      SortedTail(b);
      SortedUnique(a[1..], b[1..]);
    }
  }

  lemma SortedHeads(a: seq<Attr>, b: seq<Attr>)
    requires SortedByKey(a) && SortedByKey(b)
    requires multiset(a) == multiset(b)
    requires a != [] && b != []
    ensures a[0] == b[0]
  {
    assert a[0] in multiset(b);
    assert b[0] in multiset(a);
    var i :| 0 <= i < |b| && b[i] == a[0];
    var j :| 0 <= j < |a| && a[j] == b[0];
    if a[0] != b[0] {
      assert i > 0 && j > 0;
      LexLessTransitive(a[0].0, a[j].0, a[0].0);
      LexLessIrreflexive(a[0].0);
    }
  }

  /** Two arrangements of the same attributes with the same head have tails that are arrangements of each other. */
  lemma SortedTails(a: seq<Attr>, b: seq<Attr>)
    requires multiset(a) == multiset(b)
    requires a != [] && b != [] && a[0] == b[0]
    ensures multiset(a[1..]) == multiset(b[1..])
  {
    assert a == [a[0]] + a[1..] && b == [b[0]] + b[1..];
    assert multiset(a[1..]) == multiset(a) - multiset{a[0]};
    assert multiset(b[1..]) == multiset(b) - multiset{b[0]};
  }

  function FormatAttr(a: Attr): string
  {
    a.0 + "=" + GvQuote(a.1)
  }

  /** The parts with sep between consecutive ones. */
  function Join(sep: string, parts: seq<string>): string
  {
    if parts == [] then ""
    else if |parts| == 1 then parts[0]
    else parts[0] + sep + Join(sep, parts[1..])
  }

  function Concat(parts: seq<string>): string
  {
    if parts == [] then "" else parts[0] + Concat(parts[1..])
  }

  function FormatAll(attrs: seq<Attr>): seq<string>
  {
    if attrs == [] then [] else [FormatAttr(attrs[0])] + FormatAll(attrs[1..])
  }

  function FormattedAttrs(attrs: seq<Attr>): string
  {
    Join(" ", FormatAll(SortAttrs(attrs)))
  }

  /**
   * elementMaker: the opening tag with the attributes name="value" sorted by
   * name and separated by single spaces, the children in order, the closing tag.
   */
  function ElementMaker(name: string, children: seq<string>, attrs: seq<Attr>): string
  {
    "<" + name + " " + FormattedAttrs(attrs) + ">" + Concat(children) + "</" + name + ">"
  }

  /** The order in which keyword arguments are passed does not matter. */
  lemma ElementMakerOrderIndependent(name: string, children: seq<string>, a1: seq<Attr>, a2: seq<Attr>)
    requires DistinctKeys(a1) && DistinctKeys(a2)
    requires multiset(a1) == multiset(a2)
    ensures ElementMaker(name, children, a1) == ElementMaker(name, children, a2)
  {
    SortAttrsSorted(a1);
    SortAttrsSorted(a2);
    SortedUnique(SortAttrs(a1), SortAttrs(a2));
  }

  /** With no attributes the space after the name stays: "<div ></div>". */
  lemma ElementMakerNoAttrs(name: string)
    ensures ElementMaker(name, [], []) == "<" + name + " ></" + name + ">"
  {
  }

  lemma {:induction false} EscapeConcat(a: string, b: string)
    ensures Escape(a + b) == Escape(a) + Escape(b)
  {
    if a != [] {
      assert (a + b)[1..] == a[1..] + b;
      EscapeConcat(a[1..], b);
    } else {
      assert a + b == b;
    }
  }

  lemma {:induction false} NoQuotesEscape(s: string)
    requires '"' !in s
    ensures Escape(s) == s
  {
    if s != [] {
      NoQuotesEscape(s[1..]);
    }
  }

  lemma QuoteNoQuotes(s: string)
    requires '"' !in s
    ensures GvQuote(s) == "\"" + s + "\""
  {
    NoQuotesEscape(s);
  }

  // ---------------------------------------------------------------------------
  // tableMaker

  /** An element tree, as tableMaker builds it through its element-maker parameter. */
  datatype Node = Text(text: string) | Element(name: string, children: seq<Node>, attrs: seq<Attr>)

  function Digit(d: nat): char
    requires d < 10
  {
    "0123456789"[d]
  }

  /** str(n) for a natural number. */
  function NatToString(n: nat): (r: string)
    ensures |r| > 0
    ensures forall k :: 0 <= k < |r| ==> '0' <= r[k] <= '9'
  {
    if n < 10 then [Digit(n)] else NatToString(n / 10) + [Digit(n % 10)]
  }

  function DecimalValue(s: string): int
  {
    if s == [] then 0 else DecimalValue(s[..|s| - 1]) * 10 + (s[|s| - 1] as int - '0' as int)
  }

  /** The decimal text of n denotes n. */
  lemma {:induction false} NatToStringValue(n: nat)
    ensures DecimalValue(NatToString(n)) == n
  {
    if n >= 10 {
      NatToStringValue(n / 10);
      var s := NatToString(n);
      assert s[..|s| - 1] == NatToString(n / 10);
    }
  }

  function InputLabelCell(inputLabel: string, nOutputs: nat, port: string): Node
  {
    var colspan := if nOutputs > 0 then [("colspan", NatToString(nOutputs))] else [];
    Element("td", [Element("font", [Text(inputLabel)], [("face", "menlo-italic")])],
            [("color", "purple"), ("port", port)] + colspan)
  }

  function OutputLabelCell(outputLabel: string): Node
  {
    Element("td", [Element("font", [Text(outputLabel)], [("point-size", "9")])], [("color", "pink")])
  }

  /** tableMaker: an input row, and an output row when there are output labels. */
  function TableMaker(inputLabel: string, outputLabels: seq<string>, port: string): (r: Node)
    ensures r.Element? && r.name == "table"
    ensures |r.children| == if outputLabels == [] then 1 else 2
  {
    var rows := [Element("tr", [InputLabelCell(inputLabel, |outputLabels|, port)], [])];
    var cells := seq(|outputLabels|, k requires 0 <= k < |outputLabels| => OutputLabelCell(outputLabels[k]));
    Element("table", if outputLabels != [] then rows + [Element("tr", cells, [])] else rows, [])
  }

  /** The value of the first attribute with that name, as attrs.get(key). */
  function AttrLookup(attrs: seq<Attr>, key: string): Option<string>
  {
    if attrs == [] then None else if attrs[0].0 == key then Some(attrs[0].1) else AttrLookup(attrs[1..], key)
  }

  /** The text leaves of a tree, left to right. */
  function Leaves(n: Node): seq<string>
    decreases n
  {
    match n
    case Text(s) => [s]
    case Element(_, ch, _) => LeavesOf(ch)
  }

  function LeavesOf(ns: seq<Node>): seq<string>
    decreases ns
  {
    if ns == [] then [] else Leaves(ns[0]) + LeavesOf(ns[1..])
  }

  /** The outermost elements whose "port" attribute equals port (the tests' findElements with hasPort). */
  function PortCells(n: Node, port: string): seq<Node>
    decreases n
  {
    match n
    case Text(_) => []
    case Element(_, ch, attrs) =>
      if AttrLookup(attrs, "port") == Some(port) then [n] else PortCellsOf(ch, port)
  }

  function PortCellsOf(ns: seq<Node>, port: string): seq<Node>
    decreases ns
  {
    if ns == [] then [] else PortCells(ns[0], port) + PortCellsOf(ns[1..], port)
  }

  /** The first row holds exactly the input label; it carries a colspan only when there are outputs. */
  lemma TableInputRow(inputLabel: string, outputLabels: seq<string>, port: string)
    ensures var row := TableMaker(inputLabel, outputLabels, port).children[0];
            row.Element? && row.name == "tr" && |row.children| == 1
            && row.children[0].Element? && row.children[0].name == "td"
    ensures Leaves(TableMaker(inputLabel, outputLabels, port).children[0]) == [inputLabel]
    ensures AttrLookup(TableMaker(inputLabel, outputLabels, port).children[0].children[0].attrs, "colspan")
            == (if outputLabels == [] then None else Some(NatToString(|outputLabels|)))
  {
    var cell := InputLabelCell(inputLabel, |outputLabels|, port);
    var font := cell.children[0];
    assert LeavesOf(font.children) == [inputLabel];
    assert LeavesOf(cell.children) == [inputLabel];
    assert LeavesOf([cell]) == [inputLabel];
    var colspan := if outputLabels == [] then [] else [("colspan", NatToString(|outputLabels|))];
    assert cell.attrs == [("color", "purple"), ("port", port)] + colspan;
    assert cell.attrs[1..][1..] == colspan;
    assert "color" != "colspan" && "port" != "colspan";
    assert AttrLookup(cell.attrs, "colspan") == AttrLookup(cell.attrs[1..], "colspan") == AttrLookup(colspan, "colspan");
  }

  /** With n > 0 output labels the second row has n cells holding the labels in order. */
  lemma TableOutputRow(inputLabel: string, outputLabels: seq<string>, port: string)
    requires outputLabels != []
    ensures var row := TableMaker(inputLabel, outputLabels, port).children[1];
            && row.Element? && row.name == "tr" && |row.children| == |outputLabels|
            && (forall k :: 0 <= k < |outputLabels| ==> row.children[k].Element? && row.children[k].name == "td")
            && Leaves(row) == outputLabels
  {
    var row := TableMaker(inputLabel, outputLabels, port).children[1];
    OutputCellsLeaves(outputLabels, row.children);
  }

  lemma {:induction false} OutputCellsLeaves(labels: seq<string>, cells: seq<Node>)
    requires |cells| == |labels|
    requires forall k :: 0 <= k < |cells| ==> cells[k] == OutputLabelCell(labels[k])
    ensures LeavesOf(cells) == labels
  {
    if cells != [] {
      OutputCellsLeaves(labels[1..], cells[1..]);
      var font := cells[0].children[0];
      assert LeavesOf(font.children) == [labels[0]];
      assert LeavesOf(cells[0].children) == [labels[0]];
    }
  }

  lemma {:induction false} OutputCellsNoPort(labels: seq<string>, cells: seq<Node>, port: string)
    requires |cells| == |labels|
    requires forall k :: 0 <= k < |cells| ==> cells[k] == OutputLabelCell(labels[k])
    ensures PortCellsOf(cells, port) == []
  {
    if cells != [] {
      OutputCellsNoPort(labels[1..], cells[1..], port);
      var font := cells[0].children[0];
      assert PortCellsOf(font.children, port) == [];
      assert PortCellsOf(cells[0].children, port) == [];
    }
  }

  /** Exactly one element of the table carries the port, and it is the td of the first row. */
  lemma TablePortCell(inputLabel: string, outputLabels: seq<string>, port: string)
    ensures var table := TableMaker(inputLabel, outputLabels, port);
            PortCells(table, port) == [table.children[0].children[0]]
            && table.children[0].children[0].Element? && table.children[0].children[0].name == "td"
  {
    var table := TableMaker(inputLabel, outputLabels, port);
    var cell := InputLabelCell(inputLabel, |outputLabels|, port);
    var inputRow := table.children[0];
    assert cell.attrs[1] == ("port", port) && "color" != "port";
    assert AttrLookup(cell.attrs, "port") == Some(port);
    assert PortCellsOf([cell], port) == [cell];
    assert PortCells(inputRow, port) == [cell];
    if outputLabels != [] {
      var outRow := table.children[1];
      OutputCellsNoPort(outputLabels, outRow.children, port);
      assert PortCells(outRow, port) == [];
      assert PortCellsOf(table.children[1..], port) == [];
    }
    assert PortCellsOf(table.children, port) == [cell];
  }

  /** The string tableMaker produces with its default element maker. */
  function Render(n: Node): string
    decreases n
  {
    match n
    case Text(s) => s
    case Element(name, ch, attrs) => ElementMaker(name, RenderAll(ch), attrs)
  }

  function RenderAll(ns: seq<Node>): seq<string>
    decreases ns
  {
    if ns == [] then [] else [Render(ns[0])] + RenderAll(ns[1..])
  }

  /** RenderAll renders each node in place. */
  lemma {:induction false} RenderAllPointwise(ns: seq<Node>)
    ensures |RenderAll(ns)| == |ns|
    ensures forall k :: 0 <= k < |ns| ==> RenderAll(ns)[k] == Render(ns[k])
  {
    if ns != [] {
      RenderAllPointwise(ns[1..]);
      assert forall k :: 1 <= k < |ns| ==> ns[k] == ns[1..][k - 1];
    }
  }

  /** The input label cell renders as elementMaker's td around the font element. */
  lemma RenderInputCell(inputLabel: string, nOutputs: nat, port: string)
    ensures Render(InputLabelCell(inputLabel, nOutputs, port))
            == ElementMaker("td", [ElementMaker("font", [inputLabel], [("face", "menlo-italic")])],
                            [("color", "purple"), ("port", port)]
                            + (if nOutputs > 0 then [("colspan", NatToString(nOutputs))] else []))
  {
    var font := Element("font", [Text(inputLabel)], [("face", "menlo-italic")]);
    assert RenderAll(font.children) == [inputLabel];
    assert RenderAll(InputLabelCell(inputLabel, nOutputs, port).children) == [Render(font)];
  }

  /** An output label cell renders as elementMaker's pink td around the font element. */
  lemma RenderOutputCell(outputLabel: string)
    ensures Render(OutputLabelCell(outputLabel))
            == ElementMaker("td", [ElementMaker("font", [outputLabel], [("point-size", "9")])], [("color", "pink")])
  {
    var font := Element("font", [Text(outputLabel)], [("point-size", "9")]);
    assert RenderAll(font.children) == [outputLabel];
    assert RenderAll(OutputLabelCell(outputLabel).children) == [Render(font)];
  }

  /** The output cells render one by one, in order. */
  lemma RenderOutputCells(labels: seq<string>, cells: seq<Node>)
    requires |cells| == |labels|
    requires forall k :: 0 <= k < |cells| ==> cells[k] == OutputLabelCell(labels[k])
    ensures RenderAll(cells) == seq(|labels|, k requires 0 <= k < |labels| => Render(OutputLabelCell(labels[k])))
  {
    RenderAllPointwise(cells);
  }

  /** tableMaker's rows: the input row around the input cell, then the output row when there are labels. */
  lemma RenderTableRows(inputLabel: string, outputLabels: seq<string>, port: string)
    ensures var n := |outputLabels|;
            var outputCells := seq(n, k requires 0 <= k < n => Render(OutputLabelCell(outputLabels[k])));
            RenderAll(TableMaker(inputLabel, outputLabels, port).children)
            == [ElementMaker("tr", [Render(InputLabelCell(inputLabel, n, port))], [])]
               + (if n > 0 then [ElementMaker("tr", outputCells, [])] else [])
  {
    var n := |outputLabels|;
    var table := TableMaker(inputLabel, outputLabels, port);
    var inputRow := table.children[0];
    assert RenderAll(inputRow.children) == [Render(InputLabelCell(inputLabel, n, port))];
    RenderAllPointwise(table.children);
    if n > 0 {
      var outputRow := table.children[1];
      RenderOutputCells(outputLabels, outputRow.children);
    }
  }

  /**
   * tableMaker with its default element maker: the table element around an
   * input row holding the rendered input cell and, when there are output
   * labels, an output row holding one rendered output cell per label, in order.
   */
  lemma TableMakerText(inputLabel: string, outputLabels: seq<string>, port: string)
    ensures var n := |outputLabels|;
            var outputCells := seq(n, k requires 0 <= k < n => Render(OutputLabelCell(outputLabels[k])));
            var inputRow := ElementMaker("tr", [Render(InputLabelCell(inputLabel, n, port))], []);
            Render(TableMaker(inputLabel, outputLabels, port))
            == ElementMaker("table", [inputRow] + (if n > 0 then [ElementMaker("tr", outputCells, [])] else []), [])
  {
    RenderTableRows(inputLabel, outputLabels, port);
  }

  // ---------------------------------------------------------------------------
  // _stateAsString

  datatype LabelError = ColonInStateName

  function StateRow(pair: (string, string)): string
  {
    pair.0 + " = " + pair.1
  }

  function StateRows(state: seq<(string, string)>): seq<string>
  {
    seq(|state|, k requires 0 <= k < |state| => StateRow(state[k]))
  }

  /** _stateAsString: one "name = value" row per pair, joined by newlines; a ':' anywhere is refused. */
  method StateAsString(state: seq<(string, string)>) returns (r: Result<string, LabelError>)
    ensures r.Success? ==> r.value == Join("\n", StateRows(state)) && ':' !in r.value
    ensures r.Failure? <==> ':' in Join("\n", StateRows(state))
  {
    var rows: seq<string> := [];
    var i := 0;
    while i < |state|
      invariant 0 <= i <= |state|
      invariant rows == StateRows(state[..i])
    {
      rows := rows + [StateRow(state[i])];
      i := i + 1;
    }
    assert state[..i] == state;
    var s := Join("\n", rows);
    if ':' in s {
      return Failure(ColonInStateName);
    }
    return Success(s);
  }

  lemma {:induction false} JoinContains(sep: string, parts: seq<string>, c: char)
    requires c !in sep
    ensures c in Join(sep, parts) <==> exists k :: 0 <= k < |parts| && c in parts[k]
  {
    if |parts| > 1 {
      JoinContains(sep, parts[1..], c);
      assert forall k :: 1 <= k < |parts| ==> parts[k] == parts[1..][k - 1];
      if c in Join(sep, parts[1..]) {
        var k :| 0 <= k < |parts[1..]| && c in parts[1..][k];
        assert c in parts[k + 1];
      }
    }
  }

  /** The label is refused exactly when some state name or value contains ':'. */
  lemma StateAsStringRefusesColon(state: seq<(string, string)>)
    ensures ':' in Join("\n", StateRows(state)) <==> exists k :: 0 <= k < |state| && (':' in state[k].0 || ':' in state[k].1)
  {
    JoinContains("\n", StateRows(state), ':');
    forall k | 0 <= k < |state|
      ensures ':' in StateRows(state)[k] <==> (':' in state[k].0 || ':' in state[k].1)
    {
      assert StateRows(state)[k] == state[k].0 + " = " + state[k].1;
    }
  }
}
