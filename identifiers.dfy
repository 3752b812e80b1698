/**
 * Identifier model: quoting of names, Schema.ToString / SchemaFromString, and the
 * selection of the schemas that own a set of relations (GetUniqueSchemas).
 */
module Identifiers {
  import opened Wrappers
  import opened Text
  import opened Catalog

  predicate IsIdentChar(c: char)
  {
    'a' <= c <= 'z' || 'A' <= c <= 'Z' || '0' <= c <= '9' || c == '_'
  }

  /** A name that may be written without quotes: non-empty, letters, digits and '_' only. */
  predicate IsBareIdent(s: string)
  {
    |s| > 0 && forall i :: 0 <= i < |s| ==> IsIdentChar(s[i])
  }

  /** Is `s` enclosed in double quotes? */
  predicate IsQuoted(s: string)
  {
    |s| >= 2 && s[0] == '"' && s[|s| - 1] == '"'
  }

  /** Renders a name bare when it is safe and double-quoted (inner quotes doubled) otherwise. */
  function QuoteIdent(name: string): (r: string)
    ensures r == name <==> IsBareIdent(name)
    ensures !IsBareIdent(name) ==> IsQuoted(r)
    ensures IsQuoted(r) <==> !IsBareIdent(name)
  {
    if IsBareIdent(name) then name else "\"" + Doubled(name, '"') + "\""
  }

  /** Strips enclosing double quotes and reads doubled quotes as one; other text is unchanged. */
  function UnquoteIdent(s: string): string
  {
    if IsQuoted(s) then Undoubled(s[1..|s| - 1], '"') else s
  }

  /** Unquoting inverts quoting, for every name. */
  lemma UnquoteQuoteIdent(name: string)
    ensures UnquoteIdent(QuoteIdent(name)) == name
  {
    if !IsBareIdent(name) {
      var q := QuoteIdent(name);
      assert q[1..|q| - 1] == Doubled(name, '"');
      UndoubledDoubled(name, '"');
    }
  }

  /** Schema.ToString: the schema name as it must appear in SQL text. */
  function SchemaToString(schema: Schema): (r: string)
    ensures r == schema.name <==> IsBareIdent(schema.name)
    ensures !IsBareIdent(schema.name) ==> IsQuoted(r)
  {
    QuoteIdent(schema.name)
  }

  /** A quoted name whose inner text doubles every double quote it holds (it may be empty). */
  predicate IsWellQuoted(s: string)
  {
    IsQuoted(s) && Doubled(Undoubled(s[1..|s| - 1], '"'), '"') == s[1..|s| - 1]
  }

  /** Text accepted as a name without quotes: non-empty, with no double quote and no '.'. */
  predicate IsPlainName(s: string)
  {
    |s| > 0 && '"' !in s && '.' !in s
  }

  /**
   * SchemaFromString: a well-quoted name is unquoted; other text is taken as it is when it is a
   * plain name, and rejected with the message "<s> is not a valid identifier" otherwise.
   */
  function SchemaFromString(s: string): (r: Result<Schema, string>)
    ensures r.Success? ==> r.value.oid == 0
    ensures r.Success? <==> IsWellQuoted(s) || IsPlainName(s)
    ensures r.Failure? ==> r.error == s + " is not a valid identifier"
    ensures r.Success? && IsPlainName(s) ==> r.value.name == s
    ensures r.Success? && IsWellQuoted(s) ==> "\"" + Doubled(r.value.name, '"') + "\"" == s
  {
    if IsWellQuoted(s) then Success(Schema(0, UnquoteIdent(s)))
    else if IsPlainName(s) then Success(Schema(0, s))
    else Failure(s + " is not a valid identifier")
  }

  /** The separator of a qualified name, outside quotes, is rejected: `"a"."b"` is not a name. */
  lemma QualifiedNameRejected()
    ensures SchemaFromString("\"a\".\"b\"").Failure?
  {
    var s := "\"a\".\"b\"";
    var inner := s[1..|s| - 1];
    assert inner == "a\".\"b";
    NoLoneQuoteAfterFirst(Undoubled(inner, '"'), '"');
  }

  /** A doubled text never has a lone quote in second position. */
  lemma NoLoneQuoteAfterFirst(x: string, q: char)
    ensures var d := Doubled(x, q); !(|d| >= 3 && d[0] != q && d[1] == q && d[2] != q)
  {
    if x != [] && x[0] != q {
      var y := x[1..];
      assert Doubled(x, q) == [x[0]] + Doubled(y, q);
      if y != [] {
        if y[0] == q {
          assert Doubled(y, q) == [q, q] + Doubled(y[1..], q);
        } else {
          assert Doubled(y, q) == [y[0]] + Doubled(y[1..], q);
        }
      }
    }
  }

  /** Rendering a schema and parsing the text back gives the same name, with OID 0. */
  lemma SchemaRoundTrip(schema: Schema)
    ensures SchemaFromString(SchemaToString(schema)) == Success(Schema(0, schema.name))
  {
    var s := SchemaToString(schema);
    UnquoteQuoteIdent(schema.name);
    if IsBareIdent(schema.name) {
      BarePlain(s);
    } else {
      assert s[1..|s| - 1] == Doubled(schema.name, '"');
      UndoubledDoubled(schema.name, '"');
      assert IsWellQuoted(s);
    }
  }

  /** A bare identifier is a plain name and is not quoted. */
  lemma BarePlain(s: string)
    requires IsBareIdent(s)
    ensures IsPlainName(s) && !IsQuoted(s)
  {
    assert IsIdentChar(s[0]);
    assert '.' !in s && '"' !in s by {
      forall i | 0 <= i < |s| ensures s[i] != '.' && s[i] != '"' { assert IsIdentChar(s[i]); }
    }
  }

  /** A bare identifier is its own rendering: parse then render gives the text back. */
  lemma BareIdentRoundTrip(s: string)
    requires IsBareIdent(s)
    ensures SchemaFromString(s).Success?
    ensures SchemaToString(SchemaFromString(s).value) == s
  {
    BarePlain(s);
  }

  /** `a` is `b` with some elements deleted, the rest kept in order. */
  ghost predicate IsSubsequence<T>(a: seq<T>, b: seq<T>)
    decreases |b|
  {
    if a == [] then true
    else if b == [] then false
    else (a[0] == b[0] && IsSubsequence(a[1..], b[1..])) || IsSubsequence(a, b[1..])
  }

  ghost predicate NoDuplicates<T>(s: seq<T>)
  {
    forall i, j :: 0 <= i < j < |s| ==> s[i] != s[j]
  }

  /** Some relation in `relations` lives in the schema with OID `oid`. */
  predicate OwnsRelation(relations: seq<Relation>, oid: Oid)
  {
    exists i :: 0 <= i < |relations| && relations[i].schemaOid == oid
  }

  /**
   * GetUniqueSchemas: the schemas, in their listed order, whose OID is the schema OID of at
   * least one relation. Matching is by OID only; the relation's schema-name field is not read.
   */
  function GetUniqueSchemas(schemas: seq<Schema>, relations: seq<Relation>): (r: seq<Schema>)
    ensures forall s :: s in r <==> s in schemas && OwnsRelation(relations, s.oid)
    ensures IsSubsequence(r, schemas)
    ensures NoDuplicates(schemas) ==> NoDuplicates(r)
    ensures relations == [] ==> r == []
  {
    if schemas == [] then []
    else
      var rest := GetUniqueSchemas(schemas[1..], relations);
      if OwnsRelation(relations, schemas[0].oid) then
        assert ([schemas[0]] + rest)[1..] == rest;
        [schemas[0]] + rest
      else rest
  }
}
