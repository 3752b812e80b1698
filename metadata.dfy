/**
 * Object metadata: the comment, owner and privilege list recorded for one catalog object,
 * and the COMMENT / ALTER ... OWNER TO / REVOKE and GRANT block rendered for it.
 */
module Metadata {
  import opened Text
  import opened Catalog
  import opened Acl
  import opened Sink

  datatype ObjectMetadata = ObjectMetadata(privileges: seq<ACL>, owner: string, comment: string)

  /** Metadata of the objects of one kind, by OID. */
  type MetadataMap = map<Oid, ObjectMetadata>

  /** Indexing a map by an OID it lacks gives the zero value: no privileges, owner or comment. */
  function MetadataFor(m: MetadataMap, oid: Oid): ObjectMetadata
  {
    if oid in m then m[oid] else ObjectMetadata([], "", "")
  }

  /** The privileges GRANT ALL stands for on each kind of object (PostgreSQL's GRANT command). */
  function Kinds(objectType: string): set<Privilege>
  {
    match objectType
    case "TABLE" => {Select, Insert, Update, Delete, Truncate, References, Trigger}
    case "VIEW" => {Select, Insert, Update, Delete, Truncate, References, Trigger}
    case "FOREIGN TABLE" => {Select, Insert, Update, Delete, Truncate, References, Trigger}
    case "SEQUENCE" => {Select, Update, Usage}
    case "DATABASE" => {Create, Temporary, Connect}
    case "FUNCTION" => {Execute}
    case "AGGREGATE" => {Execute}
    case "SCHEMA" => {Usage, Create}
    case "LANGUAGE" => {Usage}
    case "TYPE" => {Usage}
    case "DOMAIN" => {Usage}
    case "FOREIGN DATA WRAPPER" => {Usage}
    case "FOREIGN SERVER" => {Usage}
    case "TABLESPACE" => {Create}
    case "PROTOCOL" => {Select, Insert}
    case _ => {}
  }

  /** Where a privilege stands in the order a GRANT lists keywords (SELECT first, CONNECT last). */
  function GrantPosition(p: Privilege): (k: nat)
    ensures k < 12
  {
    match p
    case Select => 0
    case Insert => 1
    case Update => 2
    case Delete => 3
    case Truncate => 4
    case References => 5
    case Trigger => 6
    case Execute => 7
    case Usage => 8
    case Create => 9
    case Temporary => 10
    case Connect => 11
  }

  /** The member of a non-empty set that comes first in GRANT order. */
  function First(s: set<Privilege>): (p: Privilege)
    requires s != {}
    ensures p in s && forall q :: q in s ==> GrantPosition(p) <= GrantPosition(q)
  {
    if Select in s then Select
    else if Insert in s then Insert
    else if Update in s then Update
    else if Delete in s then Delete
    else if Truncate in s then Truncate
    else if References in s then References
    else if Trigger in s then Trigger
    else if Execute in s then Execute
    else if Usage in s then Usage
    else if Create in s then Create
    else if Temporary in s then Temporary
    else LastLeft(s); Connect
  }

  lemma LastLeft(s: set<Privilege>)
    requires s != {}
    requires forall p :: p in s ==> p == Connect
    ensures Connect in s
  {
    var p :| p in s;
  }

  function Keyword(p: Privilege): string
  {
    match p
    case Select => "SELECT"
    case Insert => "INSERT"
    case Update => "UPDATE"
    case Delete => "DELETE"
    case Truncate => "TRUNCATE"
    case References => "REFERENCES"
    case Trigger => "TRIGGER"
    case Execute => "EXECUTE"
    case Usage => "USAGE"
    case Create => "CREATE"
    case Temporary => "TEMPORARY"
    case Connect => "CONNECT"
  }

  /** The members of `s`, each once, in GRANT order. */
  function InOrder(s: set<Privilege>): (r: seq<Privilege>)
    ensures forall p :: p in r <==> p in s
    ensures forall i, j :: 0 <= i < j < |r| ==> GrantPosition(r[i]) < GrantPosition(r[j])
    decreases |s|
  {
    if s == {} then []
    else
      var p := First(s);
      var rest := InOrder(s - {p});
      FirstBeforeRest(s, rest);
      ConsSorted(p, rest);
      [p] + rest
  }

  /** Distinct privileges have distinct GRANT positions. */
  lemma PositionsDistinct(p: Privilege, q: Privilege)
    requires p != q
    ensures GrantPosition(p) != GrantPosition(q)
  {
    match p
    case Select =>
    case Insert =>
    case Update =>
    case Delete =>
    case Truncate =>
    case References =>
    case Trigger =>
    case Execute =>
    case Usage =>
    case Create =>
    case Temporary =>
    case Connect =>
  }

  lemma FirstBeforeRest(s: set<Privilege>, rest: seq<Privilege>)
    requires s != {}
    requires forall q :: q in rest <==> q in s - {First(s)}
    ensures forall q :: q in rest ==> GrantPosition(First(s)) < GrantPosition(q)
  {
    forall q | q in rest ensures GrantPosition(First(s)) < GrantPosition(q) {
      PositionsDistinct(First(s), q);
    }
  }

  lemma ConsSorted(p: Privilege, rest: seq<Privilege>)
    requires forall q :: q in rest ==> GrantPosition(p) < GrantPosition(q)
    requires forall i, j :: 0 <= i < j < |rest| ==> GrantPosition(rest[i]) < GrantPosition(rest[j])
    ensures var r := [p] + rest; forall i, j :: 0 <= i < j < |r| ==> GrantPosition(r[i]) < GrantPosition(r[j])
  {
    var r := [p] + rest;
    forall i, j | 0 <= i < j < |r| ensures GrantPosition(r[i]) < GrantPosition(r[j]) {
      assert r[j] == rest[j - 1];
      if i > 0 { assert r[i] == rest[i - 1]; } else { assert rest[j - 1] in rest; }
    }
  }

  lemma HeadTail<T>(r: seq<T>)
    requires r != []
    ensures r == [r[0]] + r[1..]
  {
  }

  lemma InOrderFirst(s: set<Privilege>)
    requires s != {}
    ensures InOrder(s) == [First(s)] + InOrder(s - {First(s)})
  {
  }

  /** A list holding exactly the members of `s`, in strictly increasing GRANT order, is InOrder(s). */
  lemma {:induction false} InOrderUnique(s: set<Privilege>, r: seq<Privilege>)
    requires forall p :: p in r <==> p in s
    requires forall i, j :: 0 <= i < j < |r| ==> GrantPosition(r[i]) < GrantPosition(r[j])
    ensures r == InOrder(s)
    decreases |r|
  {
    if r == [] {
      assert s == {};
    } else {
      assert r[0] in s;
      var p := First(s);
      assert r[0] == p by {
        var k :| 0 <= k < |r| && r[k] == p;
      }
      var tail := r[1..];
      forall q ensures q in tail <==> q in s - {p} {
        if q in tail {
          var k :| 0 <= k < |tail| && tail[k] == q;
          assert GrantPosition(r[0]) < GrantPosition(r[k + 1]);
        }
        if q in s - {p} {
          var k :| 0 <= k < |r| && r[k] == q;
          assert tail[k - 1] == q;
        }
      }
      InOrderUnique(s - {p}, tail);
      InOrderFirst(s);
      HeadTail(r);
    }
  }

  datatype GrantTarget = All | Listed(privileges: seq<Privilege>)

  /** One GRANT statement: what is granted, to whom ("" is PUBLIC), and whether WITH GRANT OPTION. */
  datatype Grant = Grant(target: GrantTarget, grantee: string, withGrantOption: bool)

  /**
   * One GRANT line for the privileges `ps` of a grantee: none when `ps` is empty, ALL when `ps`
   * is every privilege of the object's kind, otherwise the privileges listed in GRANT order.
   */
  function GrantLine(ps: set<Privilege>, kinds: set<Privilege>, grantee: string, withGrantOption: bool): seq<Grant>
  {
    if ps == {} then []
    else [Grant(if ps == kinds then All else Listed(InOrder(ps)), grantee, withGrantOption)]
  }

  /**
   * The GRANT statements for one grantee: a line for its plain privileges, then a line for its
   * grant-option privileges. Every privilege held is listed, whatever the object's kind.
   */
  function GrantsFor(acl: ACL, kinds: set<Privilege>): seq<Grant>
  {
    GrantLine(acl.plain, kinds, acl.grantee, false) + GrantLine(acl.withGrant, kinds, acl.grantee, true)
  }

  /** The privileges a GRANT target stands for on an object whose kinds are `kinds`. */
  function Expand(target: GrantTarget, kinds: set<Privilege>): set<Privilege>
  {
    match target
    case All => kinds
    case Listed(ps) => set p | p in ps
  }

  /** The privileges the statements `gs` grant with (or without) grant option. */
  function Granted(gs: seq<Grant>, kinds: set<Privilege>, withGrantOption: bool): set<Privilege>
  {
    if gs == [] then {}
    else
      var last := gs[|gs| - 1];
      Granted(gs[..|gs| - 1], kinds, withGrantOption)
      + (if last.withGrantOption == withGrantOption then Expand(last.target, kinds) else {})
  }

  lemma GrantedOne(g: Grant, kinds: set<Privilege>, withGrantOption: bool)
    ensures Granted([g], kinds, withGrantOption) == if g.withGrantOption == withGrantOption then Expand(g.target, kinds) else {}
  {
    assert [g][..0] == [];
  }

  /** A GRANT line grants exactly its privileges, with the option it names. */
  lemma GrantLineGrants(ps: set<Privilege>, kinds: set<Privilege>, grantee: string, wgo: bool, withGrantOption: bool)
    ensures Granted(GrantLine(ps, kinds, grantee, wgo), kinds, withGrantOption) == if wgo == withGrantOption then ps else {}
  {
    if ps != {} {
      var g := GrantLine(ps, kinds, grantee, wgo)[0];
      assert GrantLine(ps, kinds, grantee, wgo) == [g];
      GrantedOne(g, kinds, withGrantOption);
      assert Expand(g.target, kinds) == ps;
    }
  }

  lemma {:induction false} GrantedAppend(a: seq<Grant>, b: seq<Grant>, kinds: set<Privilege>, withGrantOption: bool)
    ensures Granted(a + b, kinds, withGrantOption) == Granted(a, kinds, withGrantOption) + Granted(b, kinds, withGrantOption)
    decreases |b|
  {
    if b == [] {
      assert a + b == a;
    } else {
      var b' := b[..|b| - 1];
      assert (a + b)[..|a + b| - 1] == a + b';
      assert (a + b)[|a + b| - 1] == b[|b| - 1];
      GrantedAppend(a, b', kinds, withGrantOption);
    }
  }

  /**
   * The GRANT statements for a grantee restore exactly its privileges on the object: the
   * plainly granted ones plainly and the grant-option ones with grant option, all to that
   * grantee; ALL stands for a set of privileges exactly when that set is the object's kinds.
   */
  lemma GrantsMatchAcl(acl: ACL, kinds: set<Privilege>)
    ensures Granted(GrantsFor(acl, kinds), kinds, false) == acl.plain
    ensures Granted(GrantsFor(acl, kinds), kinds, true) == acl.withGrant
    ensures forall g :: g in GrantsFor(acl, kinds) ==> g.grantee == acl.grantee
    ensures forall g :: g in GrantsFor(acl, kinds) ==>
      (g.target == All <==> (if g.withGrantOption then acl.withGrant else acl.plain) == kinds)
    ensures |GrantsFor(acl, kinds)| <= 2
  {
    var pl := GrantLine(acl.plain, kinds, acl.grantee, false);
    var wl := GrantLine(acl.withGrant, kinds, acl.grantee, true);
    GrantedAppend(pl, wl, kinds, false);
    GrantedAppend(pl, wl, kinds, true);
    GrantLineGrants(acl.plain, kinds, acl.grantee, false, false);
    GrantLineGrants(acl.plain, kinds, acl.grantee, false, true);
    GrantLineGrants(acl.withGrant, kinds, acl.grantee, true, false);
    GrantLineGrants(acl.withGrant, kinds, acl.grantee, true, true);
  }

  /** A statement of the privilege block; the role "" is PUBLIC. */
  datatype Statement = RevokeAll(role: string) | GrantOn(grant: Grant)

  function GrantStatementsOf(gs: seq<Grant>): (r: seq<Statement>)
    ensures |r| == |gs| && forall i :: 0 <= i < |gs| ==> r[i] == GrantOn(gs[i])
  {
    seq(|gs|, i requires 0 <= i < |gs| => GrantOn(gs[i]))
  }

  /** The GRANT statements for a list of grantees, grantee by grantee in list order. */
  function GrantStatements(acls: seq<ACL>, kinds: set<Privilege>): seq<Statement>
  {
    if acls == [] then []
    else GrantStatements(acls[..|acls| - 1], kinds) + GrantStatementsOf(GrantsFor(acls[|acls| - 1], kinds))
  }

  /**
   * The privilege block: revoke everything from PUBLIC, then from the owner when there is one,
   * then grant each grantee its privileges.
   */
  function PrivilegeStatements(meta: ObjectMetadata, kinds: set<Privilege>): seq<Statement>
  {
    [RevokeAll("")] + (if meta.owner != "" then [RevokeAll(meta.owner)] else [])
    + GrantStatements(meta.privileges, kinds)
  }

  // What the statements do to the privileges roles hold on the object: a reference
  // semantics the rendered block is checked against.

  function Lookup(st: map<string, Grants>, role: string): Grants
  {
    if role in st then st[role] else Grants({}, {})
  }

  function Step(st: map<string, Grants>, s: Statement, kinds: set<Privilege>): map<string, Grants>
  {
    match s
    case RevokeAll(role) => st[role := Grants({}, {})]
    case GrantOn(Grant(target, grantee, withGrantOption)) =>
      var h := Lookup(st, grantee);
      var ps := Expand(target, kinds);
      st[grantee := if withGrantOption then Grants(h.plain, h.withGrant + ps) else Grants(h.plain + ps, h.withGrant)]
  }

  function Run(stmts: seq<Statement>, st: map<string, Grants>, kinds: set<Privilege>): map<string, Grants>
  {
    if stmts == [] then st
    else Step(Run(stmts[..|stmts| - 1], st, kinds), stmts[|stmts| - 1], kinds)
  }

  /** What the ACL list gives `role`: the union of its records' privileges. */
  function Holdings(acls: seq<ACL>, role: string): Grants
  {
    if acls == [] then Grants({}, {})
    else
      var h := Holdings(acls[..|acls| - 1], role);
      var last := acls[|acls| - 1];
      if last.grantee == role then Grants(h.plain + last.plain, h.withGrant + last.withGrant)
      else h
  }

  lemma {:induction false} RunAppend(a: seq<Statement>, b: seq<Statement>, st: map<string, Grants>, kinds: set<Privilege>)
    ensures Run(a + b, st, kinds) == Run(b, Run(a, st, kinds), kinds)
    decreases |b|
  {
    if b == [] {
      assert a + b == a;
    } else {
      var b' := b[..|b| - 1];
      assert (a + b)[..|a + b| - 1] == a + b';
      RunAppend(a, b', st, kinds);
    }
  }

  lemma RunOne(s: Statement, st: map<string, Grants>, kinds: set<Privilege>)
    ensures Run([s], st, kinds) == Step(st, s, kinds)
  {
    assert [s][..0] == [];
  }

  lemma RunTwo(s: Statement, t: Statement, st: map<string, Grants>, kinds: set<Privilege>)
    ensures Run([s, t], st, kinds) == Step(Step(st, s, kinds), t, kinds)
  {
    assert [s, t][..1] == [s];
    RunOne(s, st, kinds);
  }

  /** What one GRANT does to the privileges of `role`. */
  lemma StepGrant(g: Grant, st: map<string, Grants>, kinds: set<Privilege>, role: string)
    ensures var h := Lookup(st, role);
      var ps := Expand(g.target, kinds);
      Lookup(Step(st, GrantOn(g), kinds), role)
      == if role != g.grantee then h
         else if g.withGrantOption then Grants(h.plain, h.withGrant + ps)
         else Grants(h.plain + ps, h.withGrant)
  {
  }

  /** A single GRANT statement, run: what StepGrant says. */
  lemma RunOneGrant(g: Grant, st: map<string, Grants>, kinds: set<Privilege>, role: string)
    ensures var h := Lookup(st, role);
      var ps := Expand(g.target, kinds);
      Lookup(Run(GrantStatementsOf([g]), st, kinds), role)
      == if role != g.grantee then h
         else if g.withGrantOption then Grants(h.plain, h.withGrant + ps)
         else Grants(h.plain + ps, h.withGrant)
  {
    assert GrantStatementsOf([g]) == [GrantOn(g)];
    RunOne(GrantOn(g), st, kinds);
    StepGrant(g, st, kinds, role);
  }

  /** A plain GRANT followed by a grant-option GRANT to the same grantee, run. */
  lemma RunTwoGrants(gp: Grant, gw: Grant, st: map<string, Grants>, kinds: set<Privilege>, role: string)
    requires gp.grantee == gw.grantee && !gp.withGrantOption && gw.withGrantOption
    ensures var h := Lookup(st, role);
      Lookup(Run(GrantStatementsOf([gp, gw]), st, kinds), role)
      == if role != gp.grantee then h
         else Grants(h.plain + Expand(gp.target, kinds), h.withGrant + Expand(gw.target, kinds))
  {
    assert GrantStatementsOf([gp, gw]) == [GrantOn(gp), GrantOn(gw)];
    RunTwo(GrantOn(gp), GrantOn(gw), st, kinds);
    StepGrant(gp, st, kinds, role);
    StepGrant(gw, Step(st, GrantOn(gp), kinds), kinds, role);
  }

  /** The GRANT statements of one record add exactly its privileges to its grantee and touch no other role. */
  lemma RunGrantsFor(acl: ACL, kinds: set<Privilege>, st: map<string, Grants>, role: string)
    ensures var h := Lookup(st, role);
      Lookup(Run(GrantStatementsOf(GrantsFor(acl, kinds)), st, kinds), role)
      == if role == acl.grantee then Grants(h.plain + acl.plain, h.withGrant + acl.withGrant) else h
  {
    var plain := acl.plain;
    var withGrant := acl.withGrant;
    var h := Lookup(st, role);
    var gp := Grant(if plain == kinds then All else Listed(InOrder(plain)), acl.grantee, false);
    var gw := Grant(if withGrant == kinds then All else Listed(InOrder(withGrant)), acl.grantee, true);
    assert Expand(gp.target, kinds) == plain;
    assert Expand(gw.target, kinds) == withGrant;
    if plain == {} && withGrant == {} {
      assert GrantsFor(acl, kinds) == [];
      assert GrantStatementsOf([]) == [];
      assert h.plain + plain == h.plain && h.withGrant + withGrant == h.withGrant;
    } else if plain == {} {
      assert GrantsFor(acl, kinds) == [gw];
      assert h.plain + plain == h.plain;
      RunOneGrant(gw, st, kinds, role);
    } else if withGrant == {} {
      assert GrantsFor(acl, kinds) == [gp];
      assert h.withGrant + withGrant == h.withGrant;
      RunOneGrant(gp, st, kinds, role);
    } else {
      assert GrantsFor(acl, kinds) == [gp, gw];
      RunTwoGrants(gp, gw, st, kinds, role);
    }
  }

  /** One more record in the list adds its privileges to its own grantee's holdings only. */
  lemma HoldingsStep(acls: seq<ACL>, role: string, h: Grants)
    requires acls != []
    ensures var hi := Holdings(acls[..|acls| - 1], role);
      var last := acls[|acls| - 1];
      var hm := Grants(h.plain + hi.plain, h.withGrant + hi.withGrant);
      var held := Holdings(acls, role);
      Grants(h.plain + held.plain, h.withGrant + held.withGrant)
      == if last.grantee == role then Grants(hm.plain + last.plain, hm.withGrant + last.withGrant) else hm
  {
  }

  /** Running the GRANT statements of a list adds each role's holdings under that list. */
  lemma {:induction false} RunGrantStatements(acls: seq<ACL>, kinds: set<Privilege>, st: map<string, Grants>, role: string)
    ensures var h := Lookup(st, role);
      var held := Holdings(acls, role);
      Lookup(Run(GrantStatements(acls, kinds), st, kinds), role) == Grants(h.plain + held.plain, h.withGrant + held.withGrant)
  {
    if acls != [] {
      var init := acls[..|acls| - 1];
      var last := acls[|acls| - 1];
      var a := GrantStatements(init, kinds);
      var b := GrantStatementsOf(GrantsFor(last, kinds));
      var mid := Run(a, st, kinds);
      RunGrantStatements(init, kinds, st, role);
      assert GrantStatements(acls, kinds) == a + b;
      RunAppend(a, b, st, kinds);
      RunGrantsFor(last, kinds, mid, role);
      HoldingsStep(acls, role, Lookup(st, role));
    }
  }

  /**
   * The privilege block leaves every role holding exactly what the ACL list gives it, whatever
   * the object's kind and whatever defaults PUBLIC and the owner held before: the REVOKE lines
   * clear those defaults, and no other role holds anything on a new object.
   */
  lemma PrivilegeStatementsRestore(meta: ObjectMetadata, kinds: set<Privilege>, st: map<string, Grants>, role: string)
    requires forall r :: r in st ==> r == "" || r == meta.owner
    ensures Lookup(Run(PrivilegeStatements(meta, kinds), st, kinds), role) == Holdings(meta.privileges, role)
  {
    var revokes := [RevokeAll("")] + (if meta.owner != "" then [RevokeAll(meta.owner)] else []);
    var grants := GrantStatements(meta.privileges, kinds);
    assert PrivilegeStatements(meta, kinds) == revokes + grants;
    RevokesClear(meta, kinds, st, role);
    RunAppend(revokes, grants, st, kinds);
    RunGrantStatements(meta.privileges, kinds, Run(revokes, st, kinds), role);
  }

  /** After the REVOKE lines no role holds anything, when only PUBLIC and the owner held something before. */
  lemma RevokesClear(meta: ObjectMetadata, kinds: set<Privilege>, st: map<string, Grants>, role: string)
    requires forall r :: r in st ==> r == "" || r == meta.owner
    ensures var revokes := [RevokeAll("")] + (if meta.owner != "" then [RevokeAll(meta.owner)] else []);
      Lookup(Run(revokes, st, kinds), role) == Grants({}, {})
  {
    if meta.owner != "" {
      assert [RevokeAll("")] + [RevokeAll(meta.owner)] == [RevokeAll(""), RevokeAll(meta.owner)];
      RunTwo(RevokeAll(""), RevokeAll(meta.owner), st, kinds);
    } else {
      assert [RevokeAll("")] + [] == [RevokeAll("")];
      RunOne(RevokeAll(""), st, kinds);
    }
  }

  // The SQL text of the metadata block.

  function GranteeName(role: string): string
  {
    if role == "" then "PUBLIC" else role
  }

  function Keywords(ps: seq<Privilege>): seq<string>
  {
    seq(|ps|, i requires 0 <= i < |ps| => Keyword(ps[i]))
  }

  function TargetText(target: GrantTarget): string
  {
    match target
    case All => "ALL"
    case Listed(ps) => Join(Keywords(ps), ",")
  }

  function StatementText(s: Statement, objectType: string, name: string): string
  {
    match s
    case RevokeAll(role) => "REVOKE ALL ON " + objectType + " " + name + " FROM " + GranteeName(role) + ";"
    case GrantOn(g) =>
      "GRANT " + TargetText(g.target) + " ON " + objectType + " " + name + " TO " + GranteeName(g.grantee)
      + (if g.withGrantOption then " WITH GRANT OPTION" else "") + ";"
  }

  function StatementTexts(stmts: seq<Statement>, objectType: string, name: string): (r: seq<string>)
    ensures |r| == |stmts| && forall i :: 0 <= i < |stmts| ==> r[i] == StatementText(stmts[i], objectType, name)
  {
    seq(|stmts|, i requires 0 <= i < |stmts| => StatementText(stmts[i], objectType, name))
  }

  /** COMMENT ON <type> <name>[ ON <owning table>] IS '<comment>', quotes in the comment doubled. */
  function CommentBlock(meta: ObjectMetadata, name: string, objectType: string, owningTable: string): (r: string)
    ensures r == "" <==> meta.comment == ""
  {
    if meta.comment == "" then ""
    else
      "\n\nCOMMENT ON " + objectType + " " + name + (if owningTable == "" then "" else " ON " + owningTable)
      + " IS '" + Doubled(meta.comment, '\'') + "';\n"
  }

  function OwnerBlock(meta: ObjectMetadata, name: string, objectType: string): (r: string)
    ensures r == "" <==> meta.owner == ""
  {
    if meta.owner == "" then "" else "\n\nALTER " + objectType + " " + name + " OWNER TO " + meta.owner + ";\n"
  }

  function PrivilegesBlock(meta: ObjectMetadata, name: string, objectType: string): (r: string)
    ensures r == "" <==> meta.privileges == []
  {
    if meta.privileges == [] then ""
    else "\n\n" + Join(StatementTexts(PrivilegeStatements(meta, Kinds(objectType)), objectType, name), "\n") + "\n"
  }

  /** A statement block that opens with a blank line and ends its last line. */
  predicate IsBlock(s: string)
  {
    StartsWith(s, "\n\n") && s[|s| - 1] == '\n'
  }

  /** Each non-empty part opens with a blank line and ends its line, so consecutive parts are one blank line apart. */
  lemma BlocksAreSeparated(meta: ObjectMetadata, name: string, objectType: string, owningTable: string)
    ensures var c := CommentBlock(meta, name, objectType, owningTable); c == "" || IsBlock(c)
    ensures var o := OwnerBlock(meta, name, objectType); o == "" || IsBlock(o)
    ensures var p := PrivilegesBlock(meta, name, objectType); p == "" || IsBlock(p)
  {
  }

  /** The whole metadata block of an object: comment, then owner, then privileges. */
  function MetadataText(meta: ObjectMetadata, name: string, objectType: string, owningTable: string): string
  {
    CommentBlock(meta, name, objectType, owningTable) + OwnerBlock(meta, name, objectType)
    + PrivilegesBlock(meta, name, objectType)
  }

  /** An object without comment, owner or privileges renders no text at all, and only such an object. */
  lemma MetadataTextEmpty(meta: ObjectMetadata, name: string, objectType: string, owningTable: string)
    ensures MetadataText(meta, name, objectType, owningTable) == "" <==> meta == ObjectMetadata([], "", "")
  {
    var c := CommentBlock(meta, name, objectType, owningTable);
    var o := OwnerBlock(meta, name, objectType);
    var p := PrivilegesBlock(meta, name, objectType);
    assert |c + o + p| == |c| + |o| + |p|;
  }

  lemma StatementTextsAppend(a: seq<Statement>, b: seq<Statement>, objectType: string, name: string)
    ensures StatementTexts(a + b, objectType, name) == StatementTexts(a, objectType, name) + StatementTexts(b, objectType, name)
  {
  }

  /** The lines of the privilege block, collected grantee by grantee. */
  method PrivilegeLines(meta: ObjectMetadata, name: string, objectType: string) returns (lines: seq<string>)
    ensures lines == StatementTexts(PrivilegeStatements(meta, Kinds(objectType)), objectType, name)
  {
    var kinds := Kinds(objectType);
    var revokes := [RevokeAll("")] + (if meta.owner != "" then [RevokeAll(meta.owner)] else []);
    lines := StatementTexts(revokes, objectType, name);
    var i := 0;
    while i < |meta.privileges|
      invariant 0 <= i <= |meta.privileges|
      invariant lines == StatementTexts(revokes + GrantStatements(meta.privileges[..i], kinds), objectType, name)
    {
      var grants := GrantStatementsOf(GrantsFor(meta.privileges[i], kinds));
      var before := GrantStatements(meta.privileges[..i], kinds);
      assert meta.privileges[..i + 1][..i] == meta.privileges[..i];
      assert GrantStatements(meta.privileges[..i + 1], kinds) == before + grants;
      AppendAssoc(revokes, before, grants);
      StatementTextsAppend(revokes + before, grants, objectType, name);
      lines := lines + StatementTexts(grants, objectType, name);
      i := i + 1;
    }
    assert meta.privileges[..i] == meta.privileges;
  }

  /** Writes the privilege block of an object, or nothing when it has no privilege list. */
  method PrintPrivilegesBlock(buf: Buffer, meta: ObjectMetadata, name: string, objectType: string)
    modifies buf
    ensures buf.text == old(buf.text) + PrivilegesBlock(meta, name, objectType)
  {
    if meta.privileges != [] {
      var lines := PrivilegeLines(meta, name, objectType);
      buf.Write("\n\n" + Join(lines, "\n") + "\n");
    }
  }

  /** Writes the comment and owner statements of an object. */
  method PrintCommentAndOwner(buf: Buffer, meta: ObjectMetadata, name: string, objectType: string, owningTable: string)
    modifies buf
    ensures buf.text == old(buf.text) + CommentBlock(meta, name, objectType, owningTable) + OwnerBlock(meta, name, objectType)
  {
    if meta.comment != "" {
      buf.Write(CommentBlock(meta, name, objectType, owningTable));
    }
    if meta.owner != "" {
      buf.Write(OwnerBlock(meta, name, objectType));
    }
  }

  /** PrintObjectMetadata: writes the comment, owner and privilege statements of one object. */
  method PrintObjectMetadata(buf: Buffer, meta: ObjectMetadata, name: string, objectType: string, owningTable: string)
    modifies buf
    ensures buf.text == old(buf.text) + MetadataText(meta, name, objectType, owningTable)
  {
    ghost var start := buf.text;
    PrintCommentAndOwner(buf, meta, name, objectType, owningTable);
    PrintPrivilegesBlock(buf, meta, name, objectType);
    AppendAssoc(start, CommentBlock(meta, name, objectType, owningTable), OwnerBlock(meta, name, objectType));
    AppendAssoc(start, CommentBlock(meta, name, objectType, owningTable) + OwnerBlock(meta, name, objectType), PrivilegesBlock(meta, name, objectType));
  }

  // Properties of the privilege block, and the blocks of the table examples.

  lemma {:induction false} GrantStatementsAreGrants(acls: seq<ACL>, kinds: set<Privilege>)
    ensures forall s :: s in GrantStatements(acls, kinds) ==> s.GrantOn?
  {
    if acls != [] {
      GrantStatementsAreGrants(acls[..|acls| - 1], kinds);
    }
  }

  /**
   * The privilege block opens with REVOKE ALL FROM PUBLIC, followed by REVOKE ALL FROM the owner
   * exactly when there is one; every later statement is a GRANT.
   */
  lemma RevokesOpenPrivilegeBlock(meta: ObjectMetadata, kinds: set<Privilege>)
    ensures var ss := PrivilegeStatements(meta, kinds);
      var revokes := if meta.owner == "" then 1 else 2;
      |ss| >= revokes && ss[0] == RevokeAll("")
      && (meta.owner != "" ==> ss[1] == RevokeAll(meta.owner))
      && forall i :: revokes <= i < |ss| ==> ss[i].GrantOn?
  {
    var ss := PrivilegeStatements(meta, kinds);
    var revokes := if meta.owner == "" then 1 else 2;
    var grants := GrantStatements(meta.privileges, kinds);
    GrantStatementsAreGrants(meta.privileges, kinds);
    assert ss[revokes..] == grants;
    forall i | revokes <= i < |ss| ensures ss[i].GrantOn? {
      assert ss[i] == grants[i - revokes];
      assert ss[i] in grants;
    }
  }

  lemma GrantStatementsOfThree(a: ACL, b: ACL, c: ACL, kinds: set<Privilege>)
    ensures GrantStatements([a, b, c], kinds)
         == GrantStatementsOf(GrantsFor(a, kinds)) + GrantStatementsOf(GrantsFor(b, kinds)) + GrantStatementsOf(GrantsFor(c, kinds))
  {
    assert [a, b, c][..2] == [a, b];
    assert [a, b][..1] == [a];
    assert [a][..0] == [];
    assert GrantStatements([a], kinds) == [] + GrantStatementsOf(GrantsFor(a, kinds));
    assert GrantStatements([a, b], kinds) == GrantStatements([a], kinds) + GrantStatementsOf(GrantsFor(b, kinds));
    assert GrantStatements([a, b, c], kinds) == GrantStatements([a, b], kinds) + GrantStatementsOf(GrantsFor(c, kinds));
    assert [] + GrantStatementsOf(GrantsFor(a, kinds)) == GrantStatementsOf(GrantsFor(a, kinds));
  }

  /** SELECT through REFERENCES: every table privilege but TRIGGER, in GRANT order. */
  lemma InOrderAllButTrigger(s: set<Privilege>, r: seq<Privilege>)
    requires s == {Select, Insert, Update, Delete, Truncate, References}
    requires r == [Select, Insert, Update, Delete, Truncate, References]
    ensures InOrder(s) == r
  {
    assert forall i :: 0 <= i < |r| ==> GrantPosition(r[i]) == i;
    InOrderUnique(s, r);
  }

  /** A grantee holding all seven table privileges gets GRANT ALL, with grant option when it holds them so. */
  lemma AllTablePrivileges(acl: ACL, t: string, withGrantOption: bool)
    requires t == "TABLE"
    requires acl.grantee == "anothertestrole"
    requires var all := {Select, Insert, Update, Delete, Truncate, References, Trigger};
      if withGrantOption then acl.plain == {} && acl.withGrant == all else acl.plain == all && acl.withGrant == {}
    ensures GrantsFor(acl, Kinds(t)) == [Grant(All, "anothertestrole", withGrantOption)]
  {
  }

  /** A grantee holding every table privilege but TRIGGER gets them listed in the fixed order. */
  lemma MostTablePrivileges(acl: ACL, t: string, withGrantOption: bool)
    requires t == "TABLE"
    requires acl.grantee == "testrole"
    requires var most := {Select, Insert, Update, Delete, Truncate, References};
      if withGrantOption then acl.plain == {} && acl.withGrant == most else acl.plain == most && acl.withGrant == {}
    ensures GrantsFor(acl, Kinds(t))
            == [Grant(Listed([Select, Insert, Update, Delete, Truncate, References]), "testrole", withGrantOption)]
  {
    var kinds := Kinds(t);
    var held := if withGrantOption then acl.withGrant else acl.plain;
    assert held * kinds == held;
    assert (if withGrantOption then acl.plain else acl.withGrant) * kinds == {};
    assert Trigger in kinds && Trigger !in held;
    InOrderAllButTrigger(held, [Select, Insert, Update, Delete, Truncate, References]);
  }

  /** A single privilege is listed alone. */
  lemma InOrderSingleton(p: Privilege)
    ensures InOrder({p}) == [p]
  {
    assert {p} - {p} == {};
  }

  /** PUBLIC holding TRIGGER alone gets GRANT TRIGGER ... TO PUBLIC. */
  lemma SingleTablePrivilege(acl: ACL, t: string, withGrantOption: bool)
    requires t == "TABLE"
    requires acl.grantee == ""
    requires if withGrantOption then acl.plain == {} && acl.withGrant == {Trigger} else acl.plain == {Trigger} && acl.withGrant == {}
    ensures GrantsFor(acl, Kinds(t)) == [Grant(Listed([Trigger]), "", withGrantOption)]
  {
    var kinds := Kinds(t);
    assert Select in kinds && Trigger in kinds;
    InOrderSingleton(Trigger);
    if withGrantOption {
      assert acl.plain * kinds == {} && acl.withGrant * kinds == {Trigger};
    } else {
      assert acl.plain * kinds == {Trigger} && acl.withGrant * kinds == {};
    }
  }

  /**
   * The privilege block of the table examples: all privileges to anothertestrole, all but
   * TRIGGER to testrole, TRIGGER to PUBLIC, all either plainly or with grant option; with an
   * owner, REVOKE ALL FROM the owner comes second.
   */
  lemma TablePrivilegeStatements(all: ACL, most: ACL, single: ACL, meta: ObjectMetadata, t: string, withGrantOption: bool)
    requires t == "TABLE"
    requires all.grantee == "anothertestrole" && most.grantee == "testrole" && single.grantee == ""
    requires var a := {Select, Insert, Update, Delete, Truncate, References, Trigger};
      if withGrantOption then all.plain == {} && all.withGrant == a else all.plain == a && all.withGrant == {}
    requires var m := {Select, Insert, Update, Delete, Truncate, References};
      if withGrantOption then most.plain == {} && most.withGrant == m else most.plain == m && most.withGrant == {}
    requires if withGrantOption then single.plain == {} && single.withGrant == {Trigger} else single.plain == {Trigger} && single.withGrant == {}
    requires meta.privileges == [all, most, single]
    ensures PrivilegeStatements(meta, Kinds(t))
      == [RevokeAll("")] + (if meta.owner != "" then [RevokeAll(meta.owner)] else [])
         + [GrantOn(Grant(All, "anothertestrole", withGrantOption)),
            GrantOn(Grant(Listed([Select, Insert, Update, Delete, Truncate, References]), "testrole", withGrantOption)),
            GrantOn(Grant(Listed([Trigger]), "", withGrantOption))]
  {
    var kinds := Kinds(t);
    var ga := Grant(All, "anothertestrole", withGrantOption);
    var gm := Grant(Listed([Select, Insert, Update, Delete, Truncate, References]), "testrole", withGrantOption);
    var gs := Grant(Listed([Trigger]), "", withGrantOption);
    AllTablePrivileges(all, t, withGrantOption);
    MostTablePrivileges(most, t, withGrantOption);
    SingleTablePrivilege(single, t, withGrantOption);
    GrantStatementsOfThree(all, most, single, kinds);
    assert GrantStatementsOf([ga]) == [GrantOn(ga)];
    assert GrantStatementsOf([gm]) == [GrantOn(gm)];
    assert GrantStatementsOf([gs]) == [GrantOn(gs)];
    assert GrantStatements(meta.privileges, kinds) == [GrantOn(ga), GrantOn(gm), GrantOn(gs)];
  }

  /** Grant option is decided per grantee: GRANT ALL plainly to one, a listed grant WITH GRANT OPTION to the next. */
  lemma MixedTablePrivilegeStatements(all: ACL, most: ACL, meta: ObjectMetadata, t: string)
    requires t == "TABLE"
    requires all == ACL("anothertestrole", {Select, Insert, Update, Delete, Truncate, References, Trigger}, {})
    requires most == ACL("testrole", {}, {Select, Insert, Update, Delete, Truncate, References})
    requires meta == ObjectMetadata([all, most], "", "")
    ensures PrivilegeStatements(meta, Kinds(t))
      == [RevokeAll(""),
          GrantOn(Grant(All, "anothertestrole", false)),
          GrantOn(Grant(Listed([Select, Insert, Update, Delete, Truncate, References]), "testrole", true))]
  {
    var kinds := Kinds(t);
    AllTablePrivileges(all, t, false);
    MostTablePrivileges(most, t, true);
    assert [all, most][..1] == [all];
    assert [all][..0] == [];
    assert GrantStatements([all], kinds) == [] + GrantStatementsOf(GrantsFor(all, kinds));
  }

  // The text of the single-statement blocks.

  /** A comment alone renders as one COMMENT statement, preceded by a blank line. */
  lemma CommentOnlyText(meta: ObjectMetadata, name: string, objectType: string)
    requires meta.privileges == [] && meta.owner == "" && meta.comment != "" && '\'' !in meta.comment
    ensures MetadataText(meta, name, objectType, "")
            == "\n\nCOMMENT ON " + objectType + " " + name + " IS '" + meta.comment + "';\n"
  {
    var c := CommentBlock(meta, name, objectType, "");
    assert MetadataText(meta, name, objectType, "") == c + "" + "";
    assert c + "" + "" == c;
    var head := "\n\nCOMMENT ON " + objectType + " " + name;
    assert head + "" == head;
  }

  /** A comment alone on an object that belongs to a table names that table after ON. */
  lemma CommentOnlyTextOn(meta: ObjectMetadata, name: string, objectType: string, owningTable: string)
    requires meta.privileges == [] && meta.owner == "" && meta.comment != "" && '\'' !in meta.comment
    requires owningTable != ""
    ensures MetadataText(meta, name, objectType, owningTable)
            == "\n\nCOMMENT ON " + objectType + " " + name + " ON " + owningTable + " IS '" + meta.comment + "';\n"
  {
    var c := CommentBlock(meta, name, objectType, owningTable);
    assert MetadataText(meta, name, objectType, owningTable) == c + "" + "";
    assert c + "" + "" == c;
    var head := "\n\nCOMMENT ON " + objectType + " " + name;
    AppendAssoc(head, " ON ", owningTable);
  }

  /** An owner alone renders as one ALTER ... OWNER TO statement, preceded by a blank line. */
  lemma OwnerOnlyText(meta: ObjectMetadata, name: string, objectType: string, owningTable: string)
    requires meta.privileges == [] && meta.comment == "" && meta.owner != ""
    ensures MetadataText(meta, name, objectType, owningTable)
            == "\n\nALTER " + objectType + " " + name + " OWNER TO " + meta.owner + ";\n"
  {
    var o := OwnerBlock(meta, name, objectType);
    assert MetadataText(meta, name, objectType, owningTable) == "" + o + "";
    assert "" + o + "" == o;
  }

  lemma JoinThree(a: string, b: string, c: string, sep: string)
    ensures Join([a, b, c], sep) == a + sep + b + sep + c
  {
    assert [a, b, c][1..] == [b, c];
    assert [b, c][1..] == [c];
    assert Join([b, c], sep) == b + sep + c;
    AppendAssoc(a + sep, b + sep, c);
    AppendAssoc(a + sep, b, sep);
  }

  /** An owner holding every privilege kind: revoke from PUBLIC and from the owner, then GRANT ALL back to it. */
  lemma OwnerHoldsAllStatements(meta: ObjectMetadata, kinds: set<Privilege>)
    requires meta.owner != "" && kinds != {}
    requires meta.privileges == [ACL(meta.owner, kinds, {})]
    ensures PrivilegeStatements(meta, kinds) == [RevokeAll(""), RevokeAll(meta.owner), GrantOn(Grant(All, meta.owner, false))]
  {
    assert meta.privileges[..0] == [];
    assert GrantsFor(meta.privileges[0], kinds) == [Grant(All, meta.owner, false)];
    assert GrantStatements(meta.privileges, kinds) == [] + [GrantOn(Grant(All, meta.owner, false))];
  }

  /** The text of that block. */
  lemma OwnerHoldsAllText(meta: ObjectMetadata, name: string, objectType: string)
    requires meta.owner != "" && Kinds(objectType) != {}
    requires meta.privileges == [ACL(meta.owner, Kinds(objectType), {})]
    ensures PrivilegesBlock(meta, name, objectType)
      == "\n\n" + (("REVOKE ALL ON " + objectType + " " + name + " FROM PUBLIC;")
                    + "\n" + ("REVOKE ALL ON " + objectType + " " + name + " FROM " + meta.owner + ";")
                    + "\n" + ("GRANT ALL ON " + objectType + " " + name + " TO " + meta.owner + ";")) + "\n"
  {
    var ss := PrivilegeStatements(meta, Kinds(objectType));
    OwnerHoldsAllStatements(meta, Kinds(objectType));
    var lines := StatementTexts(ss, objectType, name);
    var a, b, c := lines[0], lines[1], lines[2];
    assert a == "REVOKE ALL ON " + objectType + " " + name + " FROM PUBLIC;";
    assert b == "REVOKE ALL ON " + objectType + " " + name + " FROM " + meta.owner + ";";
    assert c == "GRANT " + "ALL" + " ON " + objectType + " " + name + " TO " + meta.owner + "" + ";";
    assert "GRANT " + "ALL" + " ON " == "GRANT ALL ON ";
    var owner := "GRANT ALL ON " + objectType + " " + name + " TO " + meta.owner;
    assert owner + "" == owner;
    assert c == "GRANT ALL ON " + objectType + " " + name + " TO " + meta.owner + ";";
    assert lines == [a, b, c];
    JoinThree(a, b, c, "\n");
    assert PrivilegesBlock(meta, name, objectType) == "\n\n" + Join(lines, "\n") + "\n";
  }

  /** Comment, owner and the owner's full privileges together: the three blocks, in that order. */
  lemma FullMetadataText(meta: ObjectMetadata, name: string, objectType: string)
    requires meta.owner != "" && meta.comment != "" && '\'' !in meta.comment && Kinds(objectType) != {}
    requires meta.privileges == [ACL(meta.owner, Kinds(objectType), {})]
    ensures MetadataText(meta, name, objectType, "")
      == ("\n\nCOMMENT ON " + objectType + " " + name + " IS '" + meta.comment + "';\n")
         + ("\n\nALTER " + objectType + " " + name + " OWNER TO " + meta.owner + ";\n")
         + ("\n\n" + (("REVOKE ALL ON " + objectType + " " + name + " FROM PUBLIC;")
                      + "\n" + ("REVOKE ALL ON " + objectType + " " + name + " FROM " + meta.owner + ";")
                      + "\n" + ("GRANT ALL ON " + objectType + " " + name + " TO " + meta.owner + ";")) + "\n")
  {
    OwnerHoldsAllText(meta, name, objectType);
    var head := "\n\nCOMMENT ON " + objectType + " " + name;
    assert head + "" == head;
  }
}
