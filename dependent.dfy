/**
 * PrintCreateDependentTypeAndFunctionAndTablesStatements: functions, types and tables that depend
 * on one another, printed in the dependency order an outside resolver has already chosen, each
 * followed by its metadata block. A domain carries its own CHECK constraints inline.
 */
module Dependent {
  import opened Text
  import opened Catalog
  import opened Identifiers
  import opened Metadata
  import opened Sink
  import opened Constraints
  import opened TableDefs

  datatype Function = Function(
    oid: Oid,
    schema: string,
    name: string,
    body: string,
    arguments: string,
    identArgs: string,
    resultType: string,
    language: string)

  datatype CompositeAttribute = CompositeAttribute(name: string, attType: string)

  /** The three kinds of type this renderer handles: base ('b'), composite ('c') and domain ('d'). */
  datatype TypeKind =
    | Base(input: string, output: string)
    | Composite(attributes: seq<CompositeAttribute>)
    | Domain(baseType: string)

  datatype Type = Type(oid: Oid, schema: string, name: string, kind: TypeKind)

  /** An object placed in the dependency order. */
  datatype Sortable =
    | FunctionObject(fn: Function)
    | TypeObject(typ: Type)
    | TableObject(relation: Relation)

  // Domain constraints.

  /** The constraints whose owning object is `domain`, in list order. */
  function DomainConstraints(cs: seq<Constraint>, domain: string): (r: seq<Constraint>)
    ensures forall c :: c in r <==> c in cs && c.owningObject == domain
    ensures IsSubsequence(r, cs)
  {
    if cs == [] then []
    else
      var rest := DomainConstraints(cs[1..], domain);
      if cs[0].owningObject == domain then
        assert ([cs[0]] + rest)[1..] == rest;
        [cs[0]] + rest
      else rest
  }

  lemma {:induction false} DomainConstraintsAppend(a: seq<Constraint>, b: seq<Constraint>, domain: string)
    ensures DomainConstraints(a + b, domain) == DomainConstraints(a, domain) + DomainConstraints(b, domain)
  {
    if a == [] {
      assert a + b == b;
    } else {
      assert (a + b)[1..] == a[1..] + b;
      DomainConstraintsAppend(a[1..], b, domain);
      if a[0].owningObject == domain {
        AppendAssoc([a[0]], DomainConstraints(a[1..], domain), DomainConstraints(b, domain));
      }
    }
  }

  /** One inline constraint clause, on a line of its own. */
  function ConstraintLine(c: Constraint): string
  {
    "\n\tCONSTRAINT " + c.name + " " + c.def
  }

  function ConstraintLines(cs: seq<Constraint>): string
  {
    if cs == [] then "" else ConstraintLines(cs[..|cs| - 1]) + ConstraintLine(cs[|cs| - 1])
  }

  lemma {:induction false} ConstraintLinesEmpty(cs: seq<Constraint>)
    ensures ConstraintLines(cs) == "" <==> cs == []
  {
    if cs != [] {
      assert |ConstraintLines(cs)| >= |ConstraintLine(cs[|cs| - 1])| > 0;
    }
  }

  /** The clauses a domain inlines: one per constraint it owns, in list order. */
  function DomainConstraintText(constraints: seq<Constraint>, domain: string): string
  {
    ConstraintLines(DomainConstraints(constraints, domain))
  }

  /** The domain statement ends right after its base type exactly when no constraint names the domain as owner. */
  lemma DomainConstraintTextEmpty(constraints: seq<Constraint>, domain: string)
    ensures DomainConstraintText(constraints, domain) == ""
            <==> forall c :: c in constraints ==> c.owningObject != domain
  {
    var r := DomainConstraints(constraints, domain);
    ConstraintLinesEmpty(r);
    if r != [] {
      assert r[0] in r;
    }
  }

  /**
   * A domain constraint is never printed as a standalone ALTER TABLE statement, and it is inlined in
   * the CREATE DOMAIN statement of the domain it names.
   */
  lemma DomainConstraintPlacement(constraints: seq<Constraint>, c: Constraint, t: Type)
    requires c in constraints && c.isDomainConstraint && t.kind.Domain? && c.owningObject == FQN(t.schema, t.name)
    ensures c !in EmissionOrder(constraints)
    ensures c in DomainConstraints(constraints, FQN(t.schema, t.name))
  {
  }

  /** Writes the clauses of the constraints owned by `domain`. */
  method PrintDomainConstraints(buf: Buffer, constraints: seq<Constraint>, domain: string)
    modifies buf
    ensures buf.text == old(buf.text) + DomainConstraintText(constraints, domain)
  {
    ghost var start := buf.text;
    for i := 0 to |constraints|
      invariant buf.text == start + ConstraintLines(DomainConstraints(constraints[..i], domain))
    {
      var c := constraints[i];
      assert constraints[..i + 1] == constraints[..i] + [c];
      DomainConstraintsAppend(constraints[..i], [c], domain);
      assert [c][1..] == [];
      ghost var done := DomainConstraints(constraints[..i], domain);
      if c.owningObject == domain {
        buf.Write(ConstraintLine(c));
        assert DomainConstraints([c], domain) == [c];
        assert (done + [c])[..|done|] == done;
        AppendAssoc(start, ConstraintLines(done), ConstraintLine(c));
      } else {
        assert DomainConstraints([c], domain) == [];
        assert done + [] == done;
      }
    }
    assert constraints[..|constraints|] == constraints;
  }

  // The statement of each kind of object.

  /** The name a function's metadata is written under: qualified name and identity arguments. */
  function FunctionSignature(f: Function): string
  {
    FQN(f.schema, f.name) + "(" + f.identArgs + ")"
  }

  function FunctionStatement(f: Function): string
  {
    "\n\nCREATE FUNCTION " + FQN(f.schema, f.name) + "(" + f.arguments + ") RETURNS " + f.resultType
    + " AS\n$_$" + f.body + "$_$\nLANGUAGE " + f.language + "\nCOST 0;\n"
  }

  function AttributeLines(atts: seq<CompositeAttribute>): (r: seq<string>)
    ensures |r| == |atts|
    ensures forall i :: 0 <= i < |atts| ==> r[i] == "\t" + atts[i].name + " " + atts[i].attType
  {
    seq(|atts|, i requires 0 <= i < |atts| => "\t" + atts[i].name + " " + atts[i].attType)
  }

  /** The statement of a type; a composite type's statement does not end its last line. */
  function TypeStatement(t: Type, constraints: seq<Constraint>): string
  {
    var fqn := FQN(t.schema, t.name);
    match t.kind
    case Base(input, output) =>
      "\n\nCREATE TYPE " + fqn + " (\n\tINPUT = " + input + ",\n\tOUTPUT = " + output + "\n);\n"
    case Composite(atts) =>
      "\n\nCREATE TYPE " + fqn + " AS (\n" + Join(AttributeLines(atts), ",\n") + "\n);"
    case Domain(baseType) =>
      "\nCREATE DOMAIN " + fqn + " AS " + baseType + DomainConstraintText(constraints, fqn) + ";\n"
  }

  function ColumnLines(cols: seq<ColumnDefinition>): (r: seq<string>)
    ensures |r| == |cols|
    ensures forall i :: 0 <= i < |cols| ==> r[i] == "\t" + cols[i].name + " " + cols[i].colType
  {
    seq(|cols|, i requires 0 <= i < |cols| => "\t" + cols[i].name + " " + cols[i].colType)
  }

  /** The column list of a table, one column per line; no line at all for a table without columns. */
  function ColumnsText(cols: seq<ColumnDefinition>): string
  {
    if cols == [] then "" else Join(ColumnLines(cols), ",\n") + "\n"
  }

  function TableStatement(r: Relation, def: TableDefinition): string
  {
    "\n\nCREATE TABLE " + FQN(r.schema, r.name) + " (\n" + ColumnsText(Items(def.columnDefs)) + ") "
    + def.distPolicy + ";\n"
  }

  // Dispatch over the kinds of object.

  /** A table can be printed only with its definition at hand. */
  predicate Resolvable(o: Sortable, tableDefs: map<Oid, TableDefinition>)
  {
    o.TableObject? ==> o.relation.oid in tableDefs
  }

  function ObjectOid(o: Sortable): Oid
  {
    match o
    case FunctionObject(f) => f.oid
    case TypeObject(t) => t.oid
    case TableObject(r) => r.oid
  }

  /** The name under which the metadata of `o` is written. */
  function ObjectName(o: Sortable): string
  {
    match o
    case FunctionObject(f) => FunctionSignature(f)
    case TypeObject(t) => FQN(t.schema, t.name)
    case TableObject(r) => FQN(r.schema, r.name)
  }

  /** The object type the metadata of `o` names; a domain is a DOMAIN, every other type a TYPE. */
  function ObjectType(o: Sortable): string
  {
    match o
    case FunctionObject(_) => "FUNCTION"
    case TypeObject(t) => if t.kind.Domain? then "DOMAIN" else "TYPE"
    case TableObject(_) => "TABLE"
  }

  function CreateStatement(o: Sortable, tableDefs: map<Oid, TableDefinition>, constraints: seq<Constraint>): string
    requires Resolvable(o, tableDefs)
  {
    match o
    case FunctionObject(f) => FunctionStatement(f)
    case TypeObject(t) => TypeStatement(t, constraints)
    case TableObject(r) => TableStatement(r, tableDefs[r.oid])
  }

  /** One object: its CREATE statement, then its metadata block. */
  function ObjectText(o: Sortable, objectMetadata: MetadataMap, tableDefs: map<Oid, TableDefinition>,
                      constraints: seq<Constraint>): string
    requires Resolvable(o, tableDefs)
  {
    CreateStatement(o, tableDefs, constraints)
    + MetadataText(MetadataFor(objectMetadata, ObjectOid(o)), ObjectName(o), ObjectType(o), "")
  }

  /** The objects of `objects`, in the order given. */
  function ObjectsText(objects: seq<Sortable>, objectMetadata: MetadataMap, tableDefs: map<Oid, TableDefinition>,
                       constraints: seq<Constraint>): string
    requires forall o :: o in objects ==> Resolvable(o, tableDefs)
  {
    if objects == [] then ""
    else
      ObjectsText(objects[..|objects| - 1], objectMetadata, tableDefs, constraints)
      + ObjectText(objects[|objects| - 1], objectMetadata, tableDefs, constraints)
  }

  /** Objects are printed in exactly the order given: the text of a concatenation is the concatenation of the texts. */
  lemma {:induction false} ObjectsTextAppend(a: seq<Sortable>, b: seq<Sortable>, objectMetadata: MetadataMap,
                                             tableDefs: map<Oid, TableDefinition>, constraints: seq<Constraint>)
    requires forall o :: o in a + b ==> Resolvable(o, tableDefs)
    ensures ObjectsText(a + b, objectMetadata, tableDefs, constraints)
            == ObjectsText(a, objectMetadata, tableDefs, constraints) + ObjectsText(b, objectMetadata, tableDefs, constraints)
    decreases |b|
  {
    if b == [] {
      assert a + b == a;
    } else {
      var init := b[..|b| - 1];
      var last := b[|b| - 1];
      assert (a + b)[..|a + b| - 1] == a + init;
      assert (a + b)[|a + b| - 1] == last;
      assert forall o :: o in a + init ==> o in a + b;
      assert ObjectsText(a + b, objectMetadata, tableDefs, constraints)
             == ObjectsText(a + init, objectMetadata, tableDefs, constraints) + ObjectText(last, objectMetadata, tableDefs, constraints);
      ObjectsTextAppend(a, init, objectMetadata, tableDefs, constraints);
      AppendAssoc(ObjectsText(a, objectMetadata, tableDefs, constraints),
                  ObjectsText(init, objectMetadata, tableDefs, constraints),
                  ObjectText(b[|b| - 1], objectMetadata, tableDefs, constraints));
    }
  }

  lemma ObjectsTextSnoc(objects: seq<Sortable>, i: nat, objectMetadata: MetadataMap,
                        tableDefs: map<Oid, TableDefinition>, constraints: seq<Constraint>)
    requires i < |objects| && forall o :: o in objects ==> Resolvable(o, tableDefs)
    ensures forall o :: o in objects[..i] ==> Resolvable(o, tableDefs)
    ensures ObjectsText(objects[..i + 1], objectMetadata, tableDefs, constraints)
            == ObjectsText(objects[..i], objectMetadata, tableDefs, constraints)
               + ObjectText(objects[i], objectMetadata, tableDefs, constraints)
  {
    assert objects[..i + 1][..i] == objects[..i];
  }

  // The printers.

  method PrintCreateFunctionStatement(buf: Buffer, f: Function, objectMetadata: MetadataMap)
    modifies buf
    ensures buf.text == old(buf.text) + ObjectText(FunctionObject(f), objectMetadata, map[], [])
  {
    ghost var start := buf.text;
    var stmt := FunctionStatement(f);
    buf.Write(stmt);
    var meta := MetadataFor(objectMetadata, f.oid);
    PrintObjectMetadata(buf, meta, FunctionSignature(f), "FUNCTION", "");
    AppendAssoc(start, stmt, MetadataText(meta, FunctionSignature(f), "FUNCTION", ""));
  }

  /** Writes the statement of a type alone. */
  method PrintTypeStatement(buf: Buffer, t: Type, constraints: seq<Constraint>)
    modifies buf
    ensures buf.text == old(buf.text) + TypeStatement(t, constraints)
  {
    var fqn := FQN(t.schema, t.name);
    match t.kind {
      case Base(input, output) =>
        buf.Write("\n\nCREATE TYPE " + fqn + " (\n\tINPUT = " + input + ",\n\tOUTPUT = " + output + "\n);\n");
      case Composite(atts) =>
        buf.Write("\n\nCREATE TYPE " + fqn + " AS (\n" + Join(AttributeLines(atts), ",\n") + "\n);");
      case Domain(baseType) =>
        ghost var before := buf.text;
        var head := "\nCREATE DOMAIN " + fqn + " AS " + baseType;
        buf.Write(head);
        PrintDomainConstraints(buf, constraints, fqn);
        buf.Write(";\n");
        AppendAssoc(before, head, DomainConstraintText(constraints, fqn));
        AppendAssoc(before, head + DomainConstraintText(constraints, fqn), ";\n");
    }
  }

  method PrintCreateTypeStatement(buf: Buffer, t: Type, objectMetadata: MetadataMap, constraints: seq<Constraint>)
    modifies buf
    ensures buf.text == old(buf.text) + ObjectText(TypeObject(t), objectMetadata, map[], constraints)
  {
    ghost var start := buf.text;
    var fqn := FQN(t.schema, t.name);
    var objectType := if t.kind.Domain? then "DOMAIN" else "TYPE";
    PrintTypeStatement(buf, t, constraints);
    var meta := MetadataFor(objectMetadata, t.oid);
    PrintObjectMetadata(buf, meta, fqn, objectType, "");
    AppendAssoc(start, TypeStatement(t, constraints), MetadataText(meta, fqn, objectType, ""));
  }

  method PrintCreateTableStatement(buf: Buffer, r: Relation, def: TableDefinition, objectMetadata: MetadataMap)
    modifies buf
    ensures buf.text == old(buf.text) + ObjectText(TableObject(r), objectMetadata, map[r.oid := def], [])
  {
    ghost var start := buf.text;
    var stmt := TableStatement(r, def);
    buf.Write(stmt);
    var meta := MetadataFor(objectMetadata, r.oid);
    PrintObjectMetadata(buf, meta, FQN(r.schema, r.name), "TABLE", "");
    AppendAssoc(start, stmt, MetadataText(meta, FQN(r.schema, r.name), "TABLE", ""));
  }

  /** Writes one object of any kind. */
  method PrintObject(buf: Buffer, o: Sortable, objectMetadata: MetadataMap, tableDefs: map<Oid, TableDefinition>,
                     constraints: seq<Constraint>)
    requires Resolvable(o, tableDefs)
    modifies buf
    ensures buf.text == old(buf.text) + ObjectText(o, objectMetadata, tableDefs, constraints)
  {
    match o {
      case FunctionObject(f) =>
        PrintCreateFunctionStatement(buf, f, objectMetadata);
      case TypeObject(t) =>
        PrintCreateTypeStatement(buf, t, objectMetadata, constraints);
      case TableObject(r) =>
        PrintCreateTableStatement(buf, r, tableDefs[r.oid], objectMetadata);
    }
  }

  /**
   * Prints every object in the order given. A table whose definition is missing is a broken
   * contract with the caller, so every table must have one.
   */
  method PrintCreateDependentTypeAndFunctionAndTablesStatements(buf: Buffer, objects: seq<Sortable>,
      objectMetadata: MetadataMap, tableDefs: map<Oid, TableDefinition>, constraints: seq<Constraint>)
    requires forall o :: o in objects ==> Resolvable(o, tableDefs)
    modifies buf
    ensures buf.text == old(buf.text) + ObjectsText(objects, objectMetadata, tableDefs, constraints)
  {
    ghost var start := buf.text;
    for i := 0 to |objects|
      invariant buf.text == start + ObjectsText(objects[..i], objectMetadata, tableDefs, constraints)
    {
      var o := objects[i];
      PrintObject(buf, o, objectMetadata, tableDefs, constraints);
      ObjectsTextSnoc(objects, i, objectMetadata, tableDefs, constraints);
      AppendAssoc(start, ObjectsText(objects[..i], objectMetadata, tableDefs, constraints),
                  ObjectText(o, objectMetadata, tableDefs, constraints));
    }
    assert objects[..|objects|] == objects;
  }

  // Layout.

  /**
   * Every statement opens a new line. Only a composite type leaves its last line open, so the metadata
   * block that follows (which opens with a blank line) sits one blank line below it instead of two.
   */
  lemma StatementLayout(o: Sortable, tableDefs: map<Oid, TableDefinition>, constraints: seq<Constraint>)
    requires Resolvable(o, tableDefs)
    ensures var s := CreateStatement(o, tableDefs, constraints);
      |s| > 1 && s[0] == '\n'
      && (s[|s| - 1] == '\n' <==> !(o.TypeObject? && o.typ.kind.Composite?))
  {
    var s := CreateStatement(o, tableDefs, constraints);
    match o {
      case FunctionObject(f) =>
        var head := "\n\nCREATE FUNCTION " + FQN(f.schema, f.name) + "(" + f.arguments + ") RETURNS " + f.resultType
                    + " AS\n$_$" + f.body + "$_$\nLANGUAGE " + f.language;
        assert s == head + "\nCOST 0;\n";
      case TypeObject(t) =>
        var fqn := FQN(t.schema, t.name);
        match t.kind {
          case Base(input, output) =>
            assert s == "\n\nCREATE TYPE " + fqn + " (\n\tINPUT = " + input + ",\n\tOUTPUT = " + output + "\n);\n";
          case Composite(atts) =>
            assert s == "\n\nCREATE TYPE " + fqn + " AS (\n" + Join(AttributeLines(atts), ",\n") + "\n);";
          case Domain(baseType) =>
            assert s == "\nCREATE DOMAIN " + fqn + " AS " + baseType + DomainConstraintText(constraints, fqn) + ";\n";
        }
      case TableObject(r) =>
        var def := tableDefs[r.oid];
        assert s == "\n\nCREATE TABLE " + FQN(r.schema, r.name) + " (\n" + ColumnsText(Items(def.columnDefs)) + ") "
                    + def.distPolicy + ";\n";
    }
  }

  /** An object that has only a comment: its statement, then the COMMENT statement under its metadata name and type. */
  lemma CommentedObject(o: Sortable, objectMetadata: MetadataMap, tableDefs: map<Oid, TableDefinition>,
                        constraints: seq<Constraint>, comment: string)
    requires Resolvable(o, tableDefs) && comment != "" && '\'' !in comment
    requires MetadataFor(objectMetadata, ObjectOid(o)) == ObjectMetadata([], "", comment)
    ensures ObjectText(o, objectMetadata, tableDefs, constraints)
            == CreateStatement(o, tableDefs, constraints)
               + ("\n\nCOMMENT ON " + ObjectType(o) + " " + ObjectName(o) + " IS '" + comment + "';\n")
  {
    CommentOnlyText(MetadataFor(objectMetadata, ObjectOid(o)), ObjectName(o), ObjectType(o));
  }

  /** A function's comment names it by its identity arguments, not by its full argument list. */
  lemma CommentedFunction(f: Function, objectMetadata: MetadataMap, comment: string)
    requires comment != "" && '\'' !in comment
    requires objectMetadata == map[f.oid := ObjectMetadata([], "", comment)]
    ensures ObjectText(FunctionObject(f), objectMetadata, map[], [])
            == FunctionStatement(f)
               + ("\n\nCOMMENT ON " + "FUNCTION" + " " + (f.schema + "." + f.name + "(" + f.identArgs + ")")
                  + " IS '" + comment + "';\n")
  {
    CommentedObject(FunctionObject(f), objectMetadata, map[], [], comment);
  }

  /** A domain's comment is a COMMENT ON DOMAIN; the other kinds of type get COMMENT ON TYPE. */
  lemma TypeCommentKind(t: Type)
    ensures ObjectType(TypeObject(t)) == (if t.kind.Domain? then "DOMAIN" else "TYPE")
    ensures ObjectName(TypeObject(t)) == t.schema + "." + t.name
  {
  }

  // The shapes the dependent-object tests pin.

  /** A composite type without attributes prints an empty body between its parentheses. */
  lemma EmptyCompositeType(t: Type)
    requires t.kind == Composite([])
    ensures TypeStatement(t, []) == "\n\nCREATE TYPE " + (t.schema + "." + t.name) + " AS (\n" + "\n);"
  {
    assert AttributeLines([]) == [];
  }

  /** A composite type lists one attribute per line, name then type, separated by commas. */
  lemma TwoAttributeCompositeType(t: Type, a: CompositeAttribute, b: CompositeAttribute)
    requires t.kind == Composite([a, b])
    ensures TypeStatement(t, [])
            == "\n\nCREATE TYPE " + (t.schema + "." + t.name) + " AS (\n"
               + (("\t" + a.name + " " + a.attType) + ",\n" + ("\t" + b.name + " " + b.attType)) + "\n);"
  {
    var lines := AttributeLines([a, b]);
    assert lines == [lines[0], lines[1]];
    assert lines[1..] == [lines[1]];
    assert Join(lines, ",\n") == lines[0] + ",\n" + lines[1];
  }

  /** A domain that owns no constraint ends right after its base type. */
  lemma DomainWithoutConstraint(t: Type, constraints: seq<Constraint>)
    requires t.kind.Domain? && forall c :: c in constraints ==> c.owningObject != FQN(t.schema, t.name)
    ensures TypeStatement(t, constraints) == "\nCREATE DOMAIN " + (t.schema + "." + t.name) + " AS " + t.kind.baseType + ";\n"
  {
    DomainConstraintTextEmpty(constraints, FQN(t.schema, t.name));
    var head := "\nCREATE DOMAIN " + (t.schema + "." + t.name) + " AS " + t.kind.baseType;
    assert head + "" == head;
  }

  /** A domain that owns one constraint inlines it on its own line before the closing semicolon. */
  lemma DomainWithConstraint(t: Type, c: Constraint)
    requires t.kind.Domain? && c.owningObject == FQN(t.schema, t.name)
    ensures TypeStatement(t, [c])
            == "\nCREATE DOMAIN " + (t.schema + "." + t.name) + " AS " + t.kind.baseType
               + ("\n\tCONSTRAINT " + c.name + " " + c.def) + ";\n"
  {
    assert [c][1..] == [];
    assert DomainConstraints([c], FQN(t.schema, t.name)) == [c];
    assert [c][..0] == [];
    assert ConstraintLines([c]) == "" + ConstraintLine(c);
  }

  /** A table without columns keeps its parentheses on two lines, then its distribution policy verbatim. */
  lemma TableWithoutColumns(r: Relation, def: TableDefinition)
    requires Items(def.columnDefs) == []
    ensures TableStatement(r, def) == "\n\nCREATE TABLE " + (r.schema + "." + r.name) + " (\n" + ") " + def.distPolicy + ";\n"
  {
    var head := "\n\nCREATE TABLE " + (r.schema + "." + r.name) + " (\n";
    assert head + "" == head;
  }
}
