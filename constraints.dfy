/**
 * The constraint renderer: one `ALTER TABLE [ONLY] <owner> ADD CONSTRAINT <name> <def>;` per
 * table constraint, every non-foreign-key constraint before every foreign-key constraint,
 * each followed by its metadata block. Domain constraints are left to CREATE DOMAIN.
 */
module Constraints {
  import opened Text
  import opened Catalog
  import opened Identifiers
  import opened Metadata
  import opened Sink

  /** A constraint as collected from the catalog; `conType` is one of "u", "p", "f", "c". */
  datatype Constraint = Constraint(
    oid: Oid,
    name: string,
    conType: string,
    def: string,
    owningObject: string,
    isDomainConstraint: bool,
    isPartitionParent: bool)

  predicate IsForeignKey(c: Constraint)
  {
    c.conType == "f"
  }

  /** Printed by this renderer, in the foreign-key group or in the other one. */
  predicate InGroup(c: Constraint, foreign: bool)
  {
    !c.isDomainConstraint && IsForeignKey(c) == foreign
  }

  /** The constraints of one group, in input order. */
  function Group(cs: seq<Constraint>, foreign: bool): (r: seq<Constraint>)
    ensures forall c :: c in r <==> c in cs && InGroup(c, foreign)
    ensures IsSubsequence(r, cs)
  {
    if cs == [] then []
    else
      var rest := Group(cs[1..], foreign);
      if InGroup(cs[0], foreign) then
        assert ([cs[0]] + rest)[1..] == rest;
        [cs[0]] + rest
      else rest
  }

  /** The constraints this renderer prints at all (every one but the domain constraints), in input order. */
  function Printable(cs: seq<Constraint>): (r: seq<Constraint>)
    ensures forall c :: c in r <==> c in cs && !c.isDomainConstraint
  {
    if cs == [] then []
    else if cs[0].isDomainConstraint then Printable(cs[1..])
    else [cs[0]] + Printable(cs[1..])
  }

  lemma {:induction false} GroupAppend(a: seq<Constraint>, b: seq<Constraint>, foreign: bool)
    ensures Group(a + b, foreign) == Group(a, foreign) + Group(b, foreign)
  {
    if a == [] {
      assert a + b == b;
    } else {
      assert (a + b)[1..] == a[1..] + b;
      GroupAppend(a[1..], b, foreign);
      if InGroup(a[0], foreign) {
        AppendAssoc([a[0]], Group(a[1..], foreign), Group(b, foreign));
      }
    }
  }

  /** The order in which the constraints are printed: the non-foreign-key group, then the foreign-key group. */
  function EmissionOrder(cs: seq<Constraint>): (r: seq<Constraint>)
    ensures forall c :: c in r <==> c in cs && !c.isDomainConstraint
    ensures forall i, j :: 0 <= i < j < |r| && IsForeignKey(r[i]) ==> IsForeignKey(r[j])
  {
    var r := Group(cs, false) + Group(cs, true);
    assert forall i :: 0 <= i < |r| ==> (IsForeignKey(r[i]) <==> i >= |Group(cs, false)|) by {
      forall i | 0 <= i < |r|
        ensures IsForeignKey(r[i]) <==> i >= |Group(cs, false)|
      {
        if i < |Group(cs, false)| {
          assert r[i] in Group(cs, false);
        } else {
          assert r[i] in Group(cs, true);
        }
      }
    }
    r
  }

  lemma {:induction false} GroupsPermute(cs: seq<Constraint>)
    ensures multiset(Group(cs, false)) + multiset(Group(cs, true)) == multiset(Printable(cs))
  {
    if cs != [] {
      var h, t := cs[0], cs[1..];
      GroupsPermute(t);
      assert cs == [h] + t;
      GroupAppend([h], t, false);
      GroupAppend([h], t, true);
      assert [h][1..] == [];
      if h.isDomainConstraint {
        assert Group([h], false) == [] && Group([h], true) == [];
        assert Printable(cs) == Printable(t);
      } else {
        assert Printable(cs) == [h] + Printable(t);
        if IsForeignKey(h) {
          assert Group([h], false) == [] && Group([h], true) == [h];
        } else {
          assert Group([h], false) == [h] && Group([h], true) == [];
        }
      }
    }
  }

  /** Every printable constraint is printed exactly as often as it occurs in the input. */
  lemma EmissionOrderPermutes(cs: seq<Constraint>)
    ensures multiset(EmissionOrder(cs)) == multiset(Printable(cs))
  {
    GroupsPermute(cs);
    assert EmissionOrder(cs) == Group(cs, false) + Group(cs, true);
  }



  /** Each group keeps the input's relative order. */
  lemma EmissionOrderKeepsGroupOrder(cs: seq<Constraint>)
    ensures EmissionOrder(cs) == Group(cs, false) + Group(cs, true)
    ensures IsSubsequence(Group(cs, false), cs) && IsSubsequence(Group(cs, true), cs)
  {
  }

  lemma {:induction false} GroupOfGroup(cs: seq<Constraint>, foreign: bool, other: bool)
    ensures Group(Group(cs, foreign), other) == if foreign == other then Group(cs, foreign) else []
  {
    if cs != [] {
      GroupOfGroup(cs[1..], foreign, other);
      var rest := Group(cs[1..], foreign);
      if InGroup(cs[0], foreign) {
        assert ([cs[0]] + rest)[1..] == rest;
      }
    }
  }

  /** Re-ordering an already ordered list changes nothing. */
  lemma EmissionOrderIdempotent(cs: seq<Constraint>)
    ensures EmissionOrder(EmissionOrder(cs)) == EmissionOrder(cs)
  {
    var nonFk, fk := Group(cs, false), Group(cs, true);
    GroupAppend(nonFk, fk, false);
    GroupAppend(nonFk, fk, true);
    GroupOfGroup(cs, false, false);
    GroupOfGroup(cs, false, true);
    GroupOfGroup(cs, true, false);
    GroupOfGroup(cs, true, true);
    assert nonFk + [] == nonFk;
    assert [] + fk == fk;
  }

  /**
   * Swapping two neighbouring constraints that are not in the same group (or of which one is a
   * domain constraint) does not change what is printed: only the order inside a group matters.
   */
  lemma SwapAcrossGroups(a: seq<Constraint>, x: Constraint, y: Constraint, b: seq<Constraint>)
    requires !(InGroup(x, false) && InGroup(y, false)) && !(InGroup(x, true) && InGroup(y, true))
    ensures EmissionOrder(a + [x, y] + b) == EmissionOrder(a + [y, x] + b)
  {
    forall foreign: bool
      ensures Group(a + [x, y] + b, foreign) == Group(a + [y, x] + b, foreign)
    {
      GroupAppend(a, [x, y], foreign);
      GroupAppend(a + [x, y], b, foreign);
      GroupAppend(a, [y, x], foreign);
      GroupAppend(a + [y, x], b, foreign);
      GroupAppend([x], [y], foreign);
      GroupAppend([y], [x], foreign);
      assert [x] + [y] == [x, y];
      assert [y] + [x] == [y, x];
    }
  }

  /** The ALTER TABLE statement of one constraint; a partition parent is altered without ONLY. */
  function AlterText(c: Constraint): string
  {
    "\n\nALTER TABLE " + (if c.isPartitionParent then "" else "ONLY ") + c.owningObject
    + " ADD CONSTRAINT " + c.name + " " + c.def + ";\n"
  }

  /** One constraint: its ALTER TABLE statement and then its metadata block, commented ON its table. */
  function ConstraintText(c: Constraint, conMetadata: MetadataMap): string
  {
    AlterText(c) + MetadataText(MetadataFor(conMetadata, c.oid), c.name, "CONSTRAINT", c.owningObject)
  }

  /** The texts of `cs`, in the order given. */
  function RenderAll(cs: seq<Constraint>, conMetadata: MetadataMap): string
  {
    if cs == [] then "" else RenderAll(cs[..|cs| - 1], conMetadata) + ConstraintText(cs[|cs| - 1], conMetadata)
  }

  /** Everything PrintConstraintStatements writes for `constraints`. */
  function ConstraintStatementsText(constraints: seq<Constraint>, conMetadata: MetadataMap): string
  {
    RenderAll(EmissionOrder(constraints), conMetadata)
  }

  lemma {:induction false} RenderAllEmpty(cs: seq<Constraint>, conMetadata: MetadataMap)
    ensures RenderAll(cs, conMetadata) == "" <==> cs == []
  {
    if cs != [] {
      var last := ConstraintText(cs[|cs| - 1], conMetadata);
      assert |AlterText(cs[|cs| - 1])| > 0;
      assert |RenderAll(cs, conMetadata)| >= |last| > 0;
    }
  }

  /** Nothing at all is written exactly when every constraint is a domain constraint (for one, the empty list). */
  lemma ConstraintStatementsEmpty(constraints: seq<Constraint>, conMetadata: MetadataMap)
    ensures ConstraintStatementsText(constraints, conMetadata) == ""
            <==> forall c :: c in constraints ==> c.isDomainConstraint
  {
    RenderAllEmpty(EmissionOrder(constraints), conMetadata);
    var r := EmissionOrder(constraints);
    if r != [] {
      assert r[0] in r;
    }
  }

  /** Writes one constraint's statement and metadata. */
  method PrintConstraint(buf: Buffer, c: Constraint, conMetadata: MetadataMap)
    modifies buf
    ensures buf.text == old(buf.text) + ConstraintText(c, conMetadata)
  {
    ghost var start := buf.text;
    buf.Write(AlterText(c));
    var meta := MetadataFor(conMetadata, c.oid);
    PrintObjectMetadata(buf, meta, c.name, "CONSTRAINT", c.owningObject);
    AppendAssoc(start, AlterText(c), MetadataText(meta, c.name, "CONSTRAINT", c.owningObject));
  }

  /** Splits the constraints into the two groups, keeping input order and dropping domain constraints. */
  lemma GroupSnoc(cs: seq<Constraint>, i: nat, foreign: bool)
    requires i < |cs|
    ensures Group(cs[..i + 1], foreign) == Group(cs[..i], foreign) + (if InGroup(cs[i], foreign) then [cs[i]] else [])
  {
    assert cs[..i + 1] == cs[..i] + [cs[i]];
    GroupAppend(cs[..i], [cs[i]], foreign);
    assert [cs[i]][1..] == [];
  }

  method SplitGroups(constraints: seq<Constraint>) returns (nonFk: seq<Constraint>, fk: seq<Constraint>)
    ensures nonFk == Group(constraints, false) && fk == Group(constraints, true)
  {
    nonFk, fk := [], [];
    for i := 0 to |constraints|
      invariant nonFk == Group(constraints[..i], false)
      invariant fk == Group(constraints[..i], true)
    {
      var c := constraints[i];
      GroupSnoc(constraints, i, false);
      GroupSnoc(constraints, i, true);
      if !c.isDomainConstraint {
        if c.conType == "f" {
          fk := fk + [c];
        } else {
          nonFk := nonFk + [c];
        }
      } else {
        assert fk + [] == fk && nonFk + [] == nonFk;
      }
    }
    assert constraints[..|constraints|] == constraints;
  }


  lemma RenderAllSnoc(cs: seq<Constraint>, j: nat, conMetadata: MetadataMap)
    requires j < |cs|
    ensures RenderAll(cs[..j + 1], conMetadata) == RenderAll(cs[..j], conMetadata) + ConstraintText(cs[j], conMetadata)
  {
    assert cs[..j + 1][..j] == cs[..j];
  }

  /** Writes the given constraints in the given order. */
  method PrintAll(buf: Buffer, cs: seq<Constraint>, conMetadata: MetadataMap)
    modifies buf
    ensures buf.text == old(buf.text) + RenderAll(cs, conMetadata)
  {
    ghost var start := buf.text;
    for j := 0 to |cs|
      invariant buf.text == start + RenderAll(cs[..j], conMetadata)
    {
      ghost var done := RenderAll(cs[..j], conMetadata);
      PrintConstraint(buf, cs[j], conMetadata);
      RenderAllSnoc(cs, j, conMetadata);
      AppendAssoc(start, done, ConstraintText(cs[j], conMetadata));
    }
    assert cs[..|cs|] == cs;
  }

  /**
   * PrintConstraintStatements: splits the constraints into the two groups, skipping domain
   * constraints, then writes the non-foreign-key group followed by the foreign-key group.
   */
  method PrintConstraintStatements(buf: Buffer, constraints: seq<Constraint>, conMetadata: MetadataMap)
    modifies buf
    ensures buf.text == old(buf.text) + ConstraintStatementsText(constraints, conMetadata)
  {
    var nonFk, fk := SplitGroups(constraints);
    PrintAll(buf, nonFk + fk, conMetadata);
  }

  // The renderer on the shapes of input it is exercised with.

  lemma RenderOne(c: Constraint, conMetadata: MetadataMap)
    ensures RenderAll([c], conMetadata) == ConstraintText(c, conMetadata)
  {
    assert [c][..0] == [];
  }

  /** A single printable constraint is printed alone, whatever its kind. */
  lemma SingleConstraint(c: Constraint, conMetadata: MetadataMap)
    requires !c.isDomainConstraint
    ensures ConstraintStatementsText([c], conMetadata) == ConstraintText(c, conMetadata)
  {
    assert [c][1..] == [];
    assert EmissionOrder([c]) == [c];
    RenderOne(c, conMetadata);
  }

  /** A foreign key listed before a unique or primary key is still printed after it. */
  lemma ForeignKeyPrintedLast(f: Constraint, u: Constraint, conMetadata: MetadataMap)
    requires InGroup(f, true) && InGroup(u, false)
    ensures ConstraintStatementsText([f, u], conMetadata) == ConstraintText(u, conMetadata) + ConstraintText(f, conMetadata)
  {
    assert [f, u][1..] == [u];
    assert [u][1..] == [];
    assert Group([u], false) == [u] && Group([u], true) == [];
    assert Group([f, u], false) == [u] && Group([f, u], true) == [f];
    assert EmissionOrder([f, u]) == [u, f];
    RenderAllSnoc([u, f], 1, conMetadata);
    assert [u, f][..1] == [u];
    RenderOne(u, conMetadata);
  }

  /** A domain constraint alone prints nothing. */
  lemma DomainConstraintSkipped(c: Constraint, conMetadata: MetadataMap)
    requires c.isDomainConstraint
    ensures ConstraintStatementsText([c], conMetadata) == ""
  {
    assert EmissionOrder([c]) == [];
  }

  /** A table constraint without metadata is one ALTER TABLE ONLY statement and nothing else. */
  lemma PlainConstraint(c: Constraint, conMetadata: MetadataMap)
    requires !c.isDomainConstraint && !c.isPartitionParent
    requires c.oid !in conMetadata
    ensures ConstraintStatementsText([c], conMetadata)
            == "\n\nALTER TABLE ONLY " + c.owningObject + " ADD CONSTRAINT " + c.name + " " + c.def + ";\n"
  {
    assert [c][1..] == [];
    assert EmissionOrder([c]) == [c];
    RenderOne(c, conMetadata);
    MetadataTextEmpty(MetadataFor(conMetadata, c.oid), c.name, "CONSTRAINT", c.owningObject);
    assert AlterText(c) + "" == AlterText(c);
    assert "\n\nALTER TABLE " + "ONLY " == "\n\nALTER TABLE ONLY ";
  }

  /** A constraint of a partition parent is altered on the whole hierarchy: no ONLY. */
  lemma PartitionParentConstraint(c: Constraint, conMetadata: MetadataMap)
    requires !c.isDomainConstraint && c.isPartitionParent
    requires c.oid !in conMetadata
    ensures ConstraintStatementsText([c], conMetadata)
            == "\n\nALTER TABLE " + c.owningObject + " ADD CONSTRAINT " + c.name + " " + c.def + ";\n"
  {
    assert [c][1..] == [];
    assert EmissionOrder([c]) == [c];
    RenderOne(c, conMetadata);
    MetadataTextEmpty(MetadataFor(conMetadata, c.oid), c.name, "CONSTRAINT", c.owningObject);
    assert AlterText(c) + "" == AlterText(c);
    assert "\n\nALTER TABLE " + "" == "\n\nALTER TABLE ";
  }

  /** A commented constraint: its statement, then COMMENT ON CONSTRAINT <name> ON <table>. */
  lemma CommentedConstraint(c: Constraint, conMetadata: MetadataMap, comment: string)
    requires !c.isDomainConstraint && !c.isPartitionParent && c.owningObject != ""
    requires comment != "" && '\'' !in comment
    requires conMetadata == map[c.oid := ObjectMetadata([], "", comment)]
    ensures ConstraintStatementsText([c], conMetadata) ==
      ("\n\nALTER TABLE ONLY " + c.owningObject + " ADD CONSTRAINT " + c.name + " " + c.def + ";\n")
      + ("\n\nCOMMENT ON CONSTRAINT " + c.name + " ON " + c.owningObject + " IS '" + comment + "';\n")
  {
    SingleConstraint(c, conMetadata);
    OnlyAlterText(c);
    ConstraintCommentText(c, conMetadata, comment);
  }

  lemma OnlyAlterText(c: Constraint)
    requires !c.isPartitionParent
    ensures AlterText(c) == "\n\nALTER TABLE ONLY " + c.owningObject + " ADD CONSTRAINT " + c.name + " " + c.def + ";\n"
  {
    assert "\n\nALTER TABLE " + "ONLY " == "\n\nALTER TABLE ONLY ";
  }

  lemma ConstraintCommentText(c: Constraint, conMetadata: MetadataMap, comment: string)
    requires c.owningObject != "" && comment != "" && '\'' !in comment
    requires conMetadata == map[c.oid := ObjectMetadata([], "", comment)]
    ensures MetadataText(MetadataFor(conMetadata, c.oid), c.name, "CONSTRAINT", c.owningObject)
            == "\n\nCOMMENT ON CONSTRAINT " + c.name + " ON " + c.owningObject + " IS '" + comment + "';\n"
  {
    var meta := MetadataFor(conMetadata, c.oid);
    assert meta == ObjectMetadata([], "", comment);
    CommentOnlyTextOn(meta, c.name, "CONSTRAINT", c.owningObject);
    assert "\n\nCOMMENT ON " + "CONSTRAINT" + " " == "\n\nCOMMENT ON CONSTRAINT ";
  }

  /** The unique constraint of the examples, with the comment the examples give it. */
  lemma UniqueConstraintWithComment(c: Constraint, conMetadata: MetadataMap, comment: string)
    requires c == Constraint(1, "tablename_i_key", "u", "UNIQUE (i)", "public.tablename", false, false)
    requires comment == "This is a constraint comment."
    requires conMetadata == map[1 := ObjectMetadata([], "", comment)]
    ensures ConstraintStatementsText([c], conMetadata) ==
      ("\n\nALTER TABLE ONLY " + "public.tablename" + " ADD CONSTRAINT " + "tablename_i_key" + " " + "UNIQUE (i)" + ";\n")
      + ("\n\nCOMMENT ON CONSTRAINT " + "tablename_i_key" + " ON " + "public.tablename" + " IS '" + comment + "';\n")
  {
    CommentedConstraint(c, conMetadata, comment);
  }
}
