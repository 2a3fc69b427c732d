/** The schema printer: a visitor over a message descriptor that writes one
    line per field, indenting the fields of a group by a fixed step and
    closing the group with a brace at the column it was opened at. */
module SchemaPrinter {
  import opened Support

  /** The widths and signedness an integer field can have. */
  datatype IntegerKind = UInt8 | UInt16 | UInt32 | Int8 | Int16 | Int32

  /** The type token written after an integer field's name; its first
      character tells the signedness and its last the width, so distinct
      kinds print distinct tokens. */
  function TypeToken(kind: IntegerKind): (token: string)
    ensures |token| >= 4
    ensures token[0] == 'u' <==> kind in {UInt8, UInt16, UInt32}
    ensures token[|token| - 1] == '8' <==> kind in {UInt8, Int8}
    ensures token[|token| - 1] == '6' <==> kind in {UInt16, Int16}
    ensures token[|token| - 1] == '2' <==> kind in {UInt32, Int32}
  {
    match kind
    case UInt8 => "uint8"
    case UInt16 => "uint16"
    case UInt32 => "uint32"
    case Int8 => "int8"
    case Int16 => "int16"
    case Int32 => "int32"
  }

  /** `n` spaces. */
  function Spaces(n: nat): (s: string)
    ensures |s| == n
    ensures forall i :: 0 <= i < n ==> s[i] == ' '
  {
    if n == 0 then "" else Spaces(n - 1) + " "
  }

  /** One line of output: the indent, the text and a newline. */
  function Line(indent: nat, text: string): string {
    Spaces(indent) + text + "\n"
  }

  /** A line starts at column `indent`: it has exactly `indent` leading
      spaces before its text (whose first character is not a space). */
  lemma LineColumn(indent: nat, text: string)
    requires text != [] && text[0] != ' '
    ensures forall i :: 0 <= i < indent ==> Line(indent, text)[i] == ' '
    ensures Line(indent, text)[indent] == text[0]
    ensures Line(indent, text)[|Line(indent, text)| - 1] == '\n'
  {
    assert Line(indent, text) == Spaces(indent) + (text + "\n");
  }

  /** A field descriptor, as far as the printer sees it. */
  datatype Field =
    | BoolField(name: string)
    | StringField(name: string, minSize: nat, maxSize: nat)
    | IntegerField(name: string, kind: IntegerKind)
    | GroupField(name: string, fields: seq<Field>)

  /** The schema text of a field printed at `indent`, nested groups one
      `step` deeper. */
  function Printed(indent: nat, step: nat, f: Field): string
    decreases f, 1
  {
    match f
    case BoolField(name) => Line(indent, name + ": bool")
    case StringField(name, minSize, maxSize) =>
      Line(indent, name + ": string [" + NatToString(minSize) + ", " + NatToString(maxSize) + "]")
    case IntegerField(name, kind) => Line(indent, name + ": " + TypeToken(kind))
    case GroupField(name, fields) =>
      Line(indent, name + " {") + PrintedAll(indent + step, step, f, fields) + Line(indent, "}")
  }

  /** The fields of group `g` (a prefix of them), one after the other. */
  function PrintedAll(indent: nat, step: nat, g: Field, fs: seq<Field>): string
    requires forall i :: 0 <= i < |fs| ==> fs[i] < g
    decreases g, 0, |fs|
  {
    if fs == [] then ""
    else PrintedAll(indent, step, g, fs[..|fs| - 1]) + Printed(indent, step, fs[|fs| - 1])
  }

  /** One more field of a group adds that field's text: if `before` holds
      the first `i` fields after `head`, and `after` adds field `i`, then
      `after` holds the first `i + 1`. */
  lemma PrintedAllStep(indent: nat, step: nat, g: Field, fs: seq<Field>, i: nat,
                       head: string, before: string, after: string)
    requires forall k :: 0 <= k < |fs| ==> fs[k] < g
    requires i < |fs|
    requires before == head + PrintedAll(indent, step, g, fs[..i])
    requires after == before + Printed(indent, step, fs[i])
    ensures after == head + PrintedAll(indent, step, g, fs[..i + 1])
  {
    assert fs[..i + 1][..i] == fs[..i];
  }

  /** A group's text: its opening line, its fields one step deeper, its
      closing brace, written one after the other after `s0`. */
  lemma PrintedGroup(indent: nat, step: nat, name: string, fields: seq<Field>,
                     s0: string, header: string, body: string, after: string)
    requires header == s0 + Line(indent, name + " {")
    requires body == header + PrintedAll(indent + step, step, GroupField(name, fields), fields)
    requires after == body + Line(indent, "}")
    ensures after == s0 + Printed(indent, step, GroupField(name, fields))
  {
  }

  /** Every line of a printed field ends in a newline, and its first line
      starts at `indent`: the text has at least `indent` leading spaces. */
  lemma {:induction false} PrintedStartsAtIndent(indent: nat, step: nat, f: Field)
    ensures |Printed(indent, step, f)| > indent
    ensures forall i :: 0 <= i < indent ==> Printed(indent, step, f)[i] == ' '
    ensures Printed(indent, step, f)[|Printed(indent, step, f)| - 1] == '\n'
  {
    match f
    case BoolField(name) => LineThen(indent, name + ": bool", "");
    case StringField(name, minSize, maxSize) =>
      LineThen(indent, name + ": string [" + NatToString(minSize) + ", " + NatToString(maxSize) + "]", "");
    case IntegerField(name, kind) => LineThen(indent, name + ": " + TypeToken(kind), "");
    case GroupField(name, fields) =>
      var closing := Line(indent, "}");
      LineThen(indent, "}", "");
      var rest := PrintedAll(indent + step, step, f, fields) + closing;
      assert rest[|rest| - 1] == '\n';
      LineThen(indent, name + " {", rest);
  }

  /** A line followed by `rest`: `indent` spaces first, and the text ends
      where `rest` ends, or with the line's newline when `rest` is empty. */
  lemma LineThen(indent: nat, text: string, rest: string)
    ensures |Line(indent, text) + rest| > indent
    ensures forall i :: 0 <= i < indent ==> (Line(indent, text) + rest)[i] == ' '
    ensures rest == [] ==> (Line(indent, text) + rest)[|Line(indent, text) + rest| - 1] == '\n'
    ensures rest != [] ==> (Line(indent, text) + rest)[|Line(indent, text) + rest| - 1] == rest[|rest| - 1]
  {
    assert Line(indent, text) + rest == Spaces(indent) + (text + "\n" + rest);
  }

  class SchemaPrinterVisitor {
    var str: string
    var indent: nat
    const indentSize: nat
    /** The column of each group still open, outermost first. */
    ghost var openColumns: seq<nat>

    /** The indent is one step per open group: the outermost group was
        opened at column 0, each nested one a step to the right of its
        parent, and the indent is a step to the right of the innermost. */
    ghost predicate Valid()
      reads this
    {
      && (if openColumns == [] then indent == 0 else indent == openColumns[|openColumns| - 1] + indentSize)
      && (openColumns != [] ==> openColumns[0] == 0)
      && forall k :: 0 < k < |openColumns| ==> openColumns[k] == openColumns[k - 1] + indentSize
    }

    constructor (indentSize: nat)
      ensures Valid()
      ensures str == "" && indent == 0 && openColumns == [] && this.indentSize == indentSize
    {
      str := "";
      indent := 0;
      this.indentSize := indentSize;
      openColumns := [];
    }

    /** A bool field: one line, the indent unchanged. */
    method VisitBool(name: string)
      modifies this`str
      ensures str == old(str) + Line(indent, name + ": bool")
    {
      str := str + Line(indent, name + ": bool");
    }

    /** A string field, with its size bounds. */
    method VisitString(name: string, minSize: nat, maxSize: nat)
      modifies this`str
      ensures str == old(str) + Line(indent, name + ": string [" + NatToString(minSize) + ", " + NatToString(maxSize) + "]")
    {
      str := str + Line(indent, name + ": string [" + NatToString(minSize) + ", " + NatToString(maxSize) + "]");
    }

    /** An integer field of any of the six kinds. */
    method VisitInteger(name: string, kind: IntegerKind)
      modifies this`str
      ensures str == old(str) + Line(indent, name + ": " + TypeToken(kind))
    {
      str := str + Line(indent, name + ": " + TypeToken(kind));
    }

    /** Opens a group: its name and a brace at the current indent, then
        one step deeper. */
    method VisitGroup(name: string)
      requires Valid()
      modifies this
      ensures Valid()
      ensures str == old(str) + Line(old(indent), name + " {")
      ensures indent == old(indent) + indentSize
      ensures openColumns == old(openColumns) + [old(indent)]
    {
      str := str + Line(indent, name + " {");
      openColumns := openColumns + [indent];
      indent := indent + indentSize;
    }

    /** Visits a field the way the descriptor traversal does: a leaf with
        one visit, a group with its visit, its fields in order and its
        post-visit. The text written is the field's `Printed` schema, and
        the indent and the open groups are back as they were. */
    method Traverse(f: Field)
      requires Valid()
      modifies this
      ensures Valid()
      ensures indent == old(indent) && openColumns == old(openColumns)
      ensures str == old(str) + Printed(old(indent), indentSize, f)
      decreases f, 2
    {
      match f
      case BoolField(name) => VisitBool(name);
      case StringField(name, minSize, maxSize) => VisitString(name, minSize, maxSize);
      case IntegerField(name, kind) => VisitInteger(name, kind);
      case GroupField(name, fields) => TraverseGroup(name, fields);
    }

    /** A group: its visit, its fields one step deeper, its post-visit. */
    method TraverseGroup(name: string, fields: seq<Field>)
      requires Valid()
      modifies this
      ensures Valid()
      ensures indent == old(indent) && openColumns == old(openColumns)
      ensures str == old(str) + Printed(old(indent), indentSize, GroupField(name, fields))
      decreases GroupField(name, fields), 1
    {
      VisitGroup(name);
      ghost var header := str;
      TraverseFields(GroupField(name, fields), fields);
      ghost var body := str;
      PostVisitGroup();
      PrintedGroup(old(indent), indentSize, name, fields, old(str), header, body, str);
    }

    /** Visits the fields of group `g` in order, at the current indent. */
    method TraverseFields(g: Field, fields: seq<Field>)
      requires Valid()
      requires forall k :: 0 <= k < |fields| ==> fields[k] < g
      modifies this
      ensures Valid()
      ensures indent == old(indent) && openColumns == old(openColumns)
      ensures str == old(str) + PrintedAll(old(indent), indentSize, g, fields)
      decreases g, 0
    {
      ghost var head, column, cols := str, indent, openColumns;
      var i := 0;
      while i < |fields|
        invariant 0 <= i <= |fields|
        invariant Valid()
        invariant indent == column && openColumns == cols
        invariant str == head + PrintedAll(column, indentSize, g, fields[..i])
      {
        ghost var before := str;
        Traverse(fields[i]);
        PrintedAllStep(column, indentSize, g, fields, i, head, before, str);
        i := i + 1;
      }
      assert fields[..i] == fields;
    }

    /** Closes the innermost open group: one step back, then the closing
        brace, at the column the group was opened at. */
    method PostVisitGroup()
      requires Valid() && |openColumns| > 0
      modifies this
      ensures Valid()
      ensures indent == old(indent) - indentSize
      ensures openColumns == old(openColumns)[..|old(openColumns)| - 1]
      ensures str == old(str) + Line(old(openColumns)[|old(openColumns)| - 1], "}")
    {
      indent := indent - indentSize;
      openColumns := openColumns[..|openColumns| - 1];
      str := str + Line(indent, "}");
    }
  }
}
