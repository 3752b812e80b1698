/**
 * Privilege model: the catalog's "grantee=privileges/grantor" items (aclitem text) and the
 * structured per-grantee records ParseACL decodes them into.
 */
module Acl {
  import opened Wrappers
  import opened Identifiers
  import Text

  datatype Privilege =
    | Select | Insert | Update | Delete | Truncate | References | Trigger
    | Execute | Usage | Create | Temporary | Connect

  /**
   * One grantee's privileges on one object. The source's ACL record holds a flag and a
   * "...WithGrant" flag per privilege; `plain` and `withGrant` are the sets of privileges whose
   * flag is set. An empty grantee stands for PUBLIC.
   */
  datatype ACL = ACL(grantee: string, plain: set<Privilege>, withGrant: set<Privilege>)

  /** The privilege letters of aclitem text. */
  function PrivilegeOfLetter(c: char): Option<Privilege>
  {
    match c
    case 'a' => Some(Insert)
    case 'r' => Some(Select)
    case 'w' => Some(Update)
    case 'd' => Some(Delete)
    case 'D' => Some(Truncate)
    case 'x' => Some(References)
    case 't' => Some(Trigger)
    case 'X' => Some(Execute)
    case 'U' => Some(Usage)
    case 'C' => Some(Create)
    case 'T' => Some(Temporary)
    case 'c' => Some(Connect)
    case _ => None
  }

  /** Characters the privilege part of an item may hold: letters and the grant-option mark. */
  predicate IsPrivChar(c: char)
  {
    'a' <= c <= 'z' || 'A' <= c <= 'Z' || c == '*'
  }

  /** The letter that stands for `p`; each letter stands for exactly one privilege. */
  function Letter(p: Privilege): (c: char)
    ensures PrivilegeOfLetter(c) == Some(p)
    ensures forall d :: PrivilegeOfLetter(d) == Some(p) ==> d == c
    ensures IsPrivChar(c) && c != '*'
  {
    match p
    case Insert => 'a'
    case Select => 'r'
    case Update => 'w'
    case Delete => 'd'
    case Truncate => 'D'
    case References => 'x'
    case Trigger => 't'
    case Execute => 'X'
    case Usage => 'U'
    case Create => 'C'
    case Temporary => 'T'
    case Connect => 'c'
  }

  /** Privileges in the order the catalog writes their letters (a r w d D x t X U C T c). */
  const ACL_ORDER: seq<Privilege> :=
    [Insert, Select, Update, Delete, Truncate, References, Trigger,
     Execute, Usage, Create, Temporary, Connect]

  lemma AclOrderComplete(p: Privilege)
    ensures p in ACL_ORDER
  {
  }

  datatype Grants = Grants(plain: set<Privilege>, withGrant: set<Privilege>)

  /** Is the character at `i` followed by the grant-option mark? */
  predicate MarkedAt(s: string, i: int)
  {
    0 <= i && i + 1 < |s| && s[i + 1] == '*'
  }

  /**
   * Decodes a privilege string left to right: a letter sets its privilege, or its with-grant
   * flag instead when the next character is '*'. Other characters set nothing.
   */
  function ScanPrivileges(s: string): Grants
  {
    if s == [] then Grants({}, {})
    else
      var rest := ScanPrivileges(s[1..]);
      match PrivilegeOfLetter(s[0])
      case None => rest
      case Some(p) =>
        if |s| > 1 && s[1] == '*' then Grants(rest.plain, rest.withGrant + {p})
        else Grants(rest.plain + {p}, rest.withGrant)
  }

  /** A privilege is granted with grant option iff its letter occurs followed by '*', and plainly iff it occurs without. */
  lemma {:induction false} ScanPrivilegesSpec(s: string, p: Privilege)
    ensures p in ScanPrivileges(s).withGrant <==> exists i :: 0 <= i < |s| && s[i] == Letter(p) && MarkedAt(s, i)
    ensures p in ScanPrivileges(s).plain <==> exists i :: 0 <= i < |s| && s[i] == Letter(p) && !MarkedAt(s, i)
  {
    if s != [] {
      var t := s[1..];
      ScanPrivilegesSpec(t, p);
      forall i | 0 <= i < |t|
        ensures t[i] == s[i + 1] && (MarkedAt(t, i) <==> MarkedAt(s, i + 1))
      {
      }
      if exists i :: 0 <= i < |s| && s[i] == Letter(p) && MarkedAt(s, i) {
        var i :| 0 <= i < |s| && s[i] == Letter(p) && MarkedAt(s, i);
        if i > 0 { assert t[i - 1] == Letter(p) && MarkedAt(t, i - 1); }
      }
      if exists i :: 0 <= i < |s| && s[i] == Letter(p) && !MarkedAt(s, i) {
        var i :| 0 <= i < |s| && s[i] == Letter(p) && !MarkedAt(s, i);
        if i > 0 { assert t[i - 1] == Letter(p) && !MarkedAt(t, i - 1); }
      }
      if exists i :: 0 <= i < |t| && t[i] == Letter(p) && MarkedAt(t, i) {
        var i :| 0 <= i < |t| && t[i] == Letter(p) && MarkedAt(t, i);
        assert s[i + 1] == Letter(p) && MarkedAt(s, i + 1);
      }
      if exists i :: 0 <= i < |t| && t[i] == Letter(p) && !MarkedAt(t, i) {
        var i :| 0 <= i < |t| && t[i] == Letter(p) && !MarkedAt(t, i);
        assert s[i + 1] == Letter(p) && !MarkedAt(s, i + 1);
      }
    }
  }

  /** End of the run of privilege characters that starts at `k`. */
  function RunEnd(s: string, k: nat): (r: nat)
    requires k <= |s|
    ensures k <= r <= |s|
    ensures forall j :: k <= j < r ==> IsPrivChar(s[j])
    ensures r == |s| || !IsPrivChar(s[r])
    decreases |s| - k
  {
    if k == |s| || !IsPrivChar(s[k]) then k else RunEnd(s, k + 1)
  }

  /** `s` splits at `i` as grantee "=" privileges "/" grantor. */
  predicate IsSplit(s: string, i: nat)
  {
    i < |s| && s[i] == '=' && RunEnd(s, i + 1) < |s| && s[RunEnd(s, i + 1)] == '/'
  }

  /** The last split position below `k`; the grantee part is matched greedily. */
  function LastSplit(s: string, k: nat): (r: Option<nat>)
    requires k <= |s|
    ensures r.Some? ==> r.value < k && IsSplit(s, r.value)
    ensures r.Some? ==> forall j :: r.value < j < k ==> !IsSplit(s, j)
    ensures r.None? ==> forall j :: 0 <= j < k ==> !IsSplit(s, j)
  {
    if k == 0 then None
    else if IsSplit(s, k - 1) then Some(k - 1)
    else LastSplit(s, k - 1)
  }

  /**
   * ParseACL: decodes one aclitem. Text that is not of the form grantee=privileges/grantor
   * (the empty string among it) yields no record (the source's nil). A quoted grantee is
   * unquoted; an empty grantee is PUBLIC.
   */
  function ParseACL(s: string): (r: Option<ACL>)
    ensures r.None? <==> forall j :: 0 <= j < |s| ==> !IsSplit(s, j)
    ensures r.Some? ==> exists i: nat :: i < |s| && IsSplit(s, i) && r.value.grantee == UnquoteIdent(s[..i])
  {
    match LastSplit(s, |s|)
    case None => None
    case Some(i) =>
      var g := ScanPrivileges(s[i + 1..RunEnd(s, i + 1)]);
      Some(ACL(UnquoteIdent(s[..i]), g.plain, g.withGrant))
  }

  /** The letters of one privilege in an aclitem: with '*' when held with grant option. */
  function Chunk(acl: ACL, p: Privilege): string
  {
    if p in acl.withGrant then [Letter(p), '*']
    else if p in acl.plain then [Letter(p)]
    else ""
  }

  /** The privilege part of an aclitem for the privileges in `order`. */
  function PrivilegeString(acl: ACL, order: seq<Privilege>): (r: string)
    ensures forall j :: 0 <= j < |r| ==> IsPrivChar(r[j])
    ensures r == [] || r[0] != '*'
  {
    if order == [] then "" else Chunk(acl, order[0]) + PrivilegeString(acl, order[1..])
  }

  /** The aclitem text the catalog writes for `acl`, granted by `grantor`. */
  function AclItem(acl: ACL, grantor: string): string
  {
    (if acl.grantee == "" then "" else QuoteIdent(acl.grantee))
    + "=" + PrivilegeString(acl, ACL_ORDER) + "/" + grantor
  }

  /** Decoding a concatenation whose second part does not start with '*' decodes each part. */
  lemma {:induction false} ScanPrivilegesAppend(a: string, b: string)
    requires b == [] || b[0] != '*'
    ensures ScanPrivileges(a + b).plain == ScanPrivileges(a).plain + ScanPrivileges(b).plain
    ensures ScanPrivileges(a + b).withGrant == ScanPrivileges(a).withGrant + ScanPrivileges(b).withGrant
  {
    if a == [] {
      assert a + b == b;
    } else {
      ScanPrivilegesAppend(a[1..], b);
      assert (a + b)[1..] == a[1..] + b;
    }
  }

  /** The letters of one privilege decode back to that privilege, in the set it came from. */
  lemma ChunkScan(acl: ACL, p: Privilege)
    ensures ScanPrivileges(Chunk(acl, p))
            == if p in acl.withGrant then Grants({}, {p}) else if p in acl.plain then Grants({p}, {}) else Grants({}, {})
  {
    if p in acl.withGrant {
      assert [Letter(p), '*'][1..] == ['*'];
      assert ['*'][1..] == [];
    } else if p in acl.plain {
      assert [Letter(p)][1..] == [];
    }
  }

  lemma {:induction false} ScanPrivilegeString(acl: ACL, order: seq<Privilege>, q: Privilege)
    ensures q in ScanPrivileges(PrivilegeString(acl, order)).plain
            <==> q in order && q in acl.plain && q !in acl.withGrant
    ensures q in ScanPrivileges(PrivilegeString(acl, order)).withGrant <==> q in order && q in acl.withGrant
  {
    if order != [] {
      var p, tail := order[0], order[1..];
      ScanPrivilegeString(acl, tail, q);
      ScanPrivilegesAppend(Chunk(acl, p), PrivilegeString(acl, tail));
      ChunkScan(acl, p);
      assert q in order <==> q == p || q in tail by {
        assert order == [p] + tail;
      }
    }
  }




  /** Where an item of the form g "=" ps "/" grantor splits, when ps is privilege text and the grantor holds no '='. */
  lemma {:induction false} SplitOfItem(g: string, ps: string, grantor: string)
    requires forall j :: 0 <= j < |ps| ==> IsPrivChar(ps[j])
    requires '=' !in grantor
    ensures var s := g + "=" + ps + "/" + grantor;
      RunEnd(s, |g| + 1) == |g| + 1 + |ps| && LastSplit(s, |s|) == Some(|g|)
  {
    var s := g + "=" + ps + "/" + grantor;
    var i := |g|;
    var m := i + 1 + |ps|;
    assert s[i] == '=' && s[m] == '/';
    forall j | i + 1 <= j < m ensures IsPrivChar(s[j]) && s[j] != '=' {
      assert s[j] == ps[j - i - 1];
    }
    assert IsSplit(s, i);
    forall j | i < j < |s| ensures !IsSplit(s, j) {
      if j > m { assert s[j] == grantor[j - m - 1]; }
    }
  }

  /** Decoding the privilege part of the catalog text of `acl` gives back its two sets. */
  lemma ScanAclItemPrivileges(acl: ACL)
    requires acl.plain !! acl.withGrant
    ensures ScanPrivileges(PrivilegeString(acl, ACL_ORDER)) == Grants(acl.plain, acl.withGrant)
  {
    var sc := ScanPrivileges(PrivilegeString(acl, ACL_ORDER));
    forall q
      ensures (q in sc.plain <==> q in acl.plain) && (q in sc.withGrant <==> q in acl.withGrant)
    {
      ScanPrivilegeString(acl, ACL_ORDER, q);
      AclOrderComplete(q);
    }
    assert sc.plain == acl.plain && sc.withGrant == acl.withGrant;
  }

  /**
   * Round trip: the record rendered as catalog text parses back to itself, when no privilege
   * is recorded both plainly and with grant option and the grantor's name holds no '='.
   */
  lemma ParseAclItem(acl: ACL, grantor: string)
    requires acl.plain !! acl.withGrant
    requires '=' !in grantor
    ensures ParseACL(AclItem(acl, grantor)) == Some(acl)
  {
    var g := if acl.grantee == "" then "" else QuoteIdent(acl.grantee);
    var ps := PrivilegeString(acl, ACL_ORDER);
    assert AclItem(acl, grantor) == g + "=" + ps + "/" + grantor;
    ParseItemText(g, ps, grantor);
    UnquoteQuoteIdent(acl.grantee);
    ScanAclItemPrivileges(acl);
  }


  /** A well-formed item decodes to its unquoted grantee and the decoded privilege part. */
  lemma ParseItemText(g: string, ps: string, grantor: string)
    requires forall j :: 0 <= j < |ps| ==> IsPrivChar(ps[j])
    requires '=' !in grantor
    ensures var sc := ScanPrivileges(ps);
      ParseACL(g + "=" + ps + "/" + grantor) == Some(ACL(UnquoteIdent(g), sc.plain, sc.withGrant))
  {
    var s := g + "=" + ps + "/" + grantor;
    SplitOfItem(g, ps, grantor);
    var e := |g| + 1 + |ps|;
    assert s[..|g|] == g;
    Text.AppendAssoc(g + "=" + ps, "/", grantor);
    Text.MiddleSlice(g + "=", ps, "/" + grantor);
    assert s[|g| + 1..e] == ps;
    var sc := ScanPrivileges(ps);
    assert ParseACL(s) == Some(ACL(UnquoteIdent(s[..|g|]), sc.plain, sc.withGrant));
  }


  // The expectations of the ParseACL tests. Each test item is written as its grantee, its
  // privilege part and its grantor joined by '=' and '/', every part a parameter equal to the
  // test's literal; longer privilege parts are decoded piece by piece and joined by
  // ScanPrivilegesAppend. This keeps the verifier from evaluating the parser on a long literal.

  lemma ParseDefaultPrivileges(item: string)
    requires item == ""
    ensures ParseACL(item) == None
  {
  }

  lemma ParseNoPrivileges(g: string, ps: string, grantor: string)
    requires g == "GRANTEE" && ps == "" && grantor == "GRANTOR"
    ensures ParseACL(g + "=" + ps + "/" + grantor) == Some(ACL("GRANTEE", {}, {}))
  {
    assert UnquoteIdent(g) == g;
    assert ScanPrivileges(ps) == Grants({}, {});
    ParseItemText(g, ps, grantor);
    var sc := ScanPrivileges(ps);
    assert sc == Grants({}, {});
    assert ParseACL(g + "=" + ps + "/" + grantor) == Some(ACL(UnquoteIdent(g), sc.plain, sc.withGrant));
  }

  /** The privilege part of the default table grant decodes to the seven table privileges. */
  lemma ScanTableText(ps: string)
    requires ps == "arwdDxt"
    ensures ScanPrivileges(ps) == Grants({Insert, Select, Update, Delete, Truncate, References, Trigger}, {})
  {
    var s6 := ps[6..];
    assert ScanPrivileges(s6) == Grants({Trigger}, {});
    var s5 := ps[5..];
    assert s5[1..] == s6;
    assert ScanPrivileges(s5) == Grants(ScanPrivileges(s6).plain + {References}, ScanPrivileges(s6).withGrant);
    var s4 := ps[4..];
    assert s4[1..] == s5;
    assert ScanPrivileges(s4) == Grants(ScanPrivileges(s5).plain + {Truncate}, ScanPrivileges(s5).withGrant);
    var s3 := ps[3..];
    assert s3[1..] == s4;
    assert ScanPrivileges(s3) == Grants(ScanPrivileges(s4).plain + {Delete}, ScanPrivileges(s4).withGrant);
    var s2 := ps[2..];
    assert s2[1..] == s3;
    assert ScanPrivileges(s2) == Grants(ScanPrivileges(s3).plain + {Update}, ScanPrivileges(s3).withGrant);
    var s1 := ps[1..];
    assert s1[1..] == s2;
    assert ScanPrivileges(s1) == Grants(ScanPrivileges(s2).plain + {Select}, ScanPrivileges(s2).withGrant);
    assert ps[1..] == s1;
    assert ScanPrivileges(ps) == Grants(ScanPrivileges(s1).plain + {Insert}, ScanPrivileges(s1).withGrant);
  }

  lemma ParseTablePrivileges(g: string, ps: string, grantor: string)
    requires g == "testrole" && ps == "arwdDxt" && grantor == "gpadmin"
    ensures ParseACL(g + "=" + ps + "/" + grantor) == Some(ACL("testrole", {Select, Insert, Update, Delete, Truncate, References, Trigger}, {}))
  {
    ScanTableText(ps);
    assert UnquoteIdent(g) == g;
    ParseItemText(g, ps, grantor);
    var sc := ScanPrivileges(ps);
    assert sc == Grants({Select, Insert, Update, Delete, Truncate, References, Trigger}, {});
    assert ParseACL(g + "=" + ps + "/" + grantor) == Some(ACL(UnquoteIdent(g), sc.plain, sc.withGrant));
  }

  lemma ParseOnePrivilege(g: string, ps: string, grantor: string)
    requires g == "testrole" && ps == "a" && grantor == "gpadmin"
    ensures ParseACL(g + "=" + ps + "/" + grantor) == Some(ACL("testrole", {Insert}, {}))
  {
    assert ScanPrivileges(ps) == Grants({Insert}, {});
    assert UnquoteIdent(g) == g;
    ParseItemText(g, ps, grantor);
    var sc := ScanPrivileges(ps);
    assert sc == Grants({Insert}, {});
    assert ParseACL(g + "=" + ps + "/" + grantor) == Some(ACL(UnquoteIdent(g), sc.plain, sc.withGrant));
  }

  /** A quoted grantee loses its quotes. */
  lemma UnquoteTestRole(g: string)
    requires g == "\"test|role\""
    ensures UnquoteIdent(g) == "test|role"
  {
    assert IsQuoted(g);
    assert g[1..|g| - 1] == "test|role";
    assert Text.Undoubled("test|role", '"') == "test|role";
  }

  lemma ParseQuotedGrantee(g: string, ps: string, grantor: string)
    requires g == "\"test|role\"" && ps == "a" && grantor == "gpadmin"
    ensures ParseACL(g + "=" + ps + "/" + grantor) == Some(ACL("test|role", {Insert}, {}))
  {
    UnquoteTestRole(g);
    assert ScanPrivileges(ps) == Grants({Insert}, {});
    ParseItemText(g, ps, grantor);
    var sc := ScanPrivileges(ps);
    assert sc == Grants({Insert}, {});
    assert ParseACL(g + "=" + ps + "/" + grantor) == Some(ACL(UnquoteIdent(g), sc.plain, sc.withGrant));
  }

  /** A plain letter followed by three letters marked '*'. */
  lemma ScanMarkedPrefix(ps: string)
    requires ps == "ar*w*d*"
    ensures ScanPrivileges(ps) == Grants({Insert}, {Select, Update, Delete})
  {
    var s6 := ps[6..];
    assert ScanPrivileges(s6) == Grants({}, {});
    var s5 := ps[5..];
    assert s5[1..] == s6;
    assert ScanPrivileges(s5) == Grants(ScanPrivileges(s6).plain, ScanPrivileges(s6).withGrant + {Delete});
    var s4 := ps[4..];
    assert s4[1..] == s5;
    assert ScanPrivileges(s4) == ScanPrivileges(s5);
    var s3 := ps[3..];
    assert s3[1..] == s4;
    assert ScanPrivileges(s3) == Grants(ScanPrivileges(s4).plain, ScanPrivileges(s4).withGrant + {Update});
    var s2 := ps[2..];
    assert s2[1..] == s3;
    assert ScanPrivileges(s2) == ScanPrivileges(s3);
    var s1 := ps[1..];
    assert s1[1..] == s2;
    assert ScanPrivileges(s1) == Grants(ScanPrivileges(s2).plain, ScanPrivileges(s2).withGrant + {Select});
    assert ps[1..] == s1;
    assert ScanPrivileges(ps) == Grants(ScanPrivileges(s1).plain + {Insert}, ScanPrivileges(s1).withGrant);
  }

  /** Six plain letters. */
  lemma ScanPlainSuffix(ps: string)
    requires ps == "tXUCTc"
    ensures ScanPrivileges(ps) == Grants({Trigger, Execute, Usage, Create, Temporary, Connect}, {})
  {
    var s5 := ps[5..];
    assert ScanPrivileges(s5) == Grants({Connect}, {});
    var s4 := ps[4..];
    assert s4[1..] == s5;
    assert ScanPrivileges(s4) == Grants(ScanPrivileges(s5).plain + {Temporary}, ScanPrivileges(s5).withGrant);
    var s3 := ps[3..];
    assert s3[1..] == s4;
    assert ScanPrivileges(s3) == Grants(ScanPrivileges(s4).plain + {Create}, ScanPrivileges(s4).withGrant);
    var s2 := ps[2..];
    assert s2[1..] == s3;
    assert ScanPrivileges(s2) == Grants(ScanPrivileges(s3).plain + {Usage}, ScanPrivileges(s3).withGrant);
    var s1 := ps[1..];
    assert s1[1..] == s2;
    assert ScanPrivileges(s1) == Grants(ScanPrivileges(s2).plain + {Execute}, ScanPrivileges(s2).withGrant);
    assert ps[1..] == s1;
    assert ScanPrivileges(ps) == Grants(ScanPrivileges(s1).plain + {Trigger}, ScanPrivileges(s1).withGrant);
  }

  /** The privilege part of the mixed test item, decoded as its two pieces. */
  lemma ScanSomeWithGrantText(a: string, b: string)
    requires a == "ar*w*d*" && b == "tXUCTc"
    ensures ScanPrivileges(a + b) == Grants({Insert, Trigger, Execute, Usage, Create, Temporary, Connect}, {Select, Update, Delete})
  {
    ScanMarkedPrefix(a);
    ScanPlainSuffix(b);
    ScanPrivilegesAppend(a, b);
  }


  lemma ParseSomeWithGrant(g: string, ps: string, grantor: string)
    requires g == "testrole" && ps == "ar*w*d*" + "tXUCTc" && grantor == "gpadmin"
    ensures ParseACL(g + "=" + ps + "/" + grantor) == Some(ACL("testrole", {Insert, Trigger, Execute, Usage, Create, Temporary, Connect}, {Select, Update, Delete}))
  {
    ScanSomeWithGrantText("ar*w*d*", "tXUCTc");
    assert UnquoteIdent(g) == g;
    ParseItemText(g, ps, grantor);
  }


  /** The first three letters of the all-grant item, each marked '*'. */
  lemma ScanMarkedFirst(ps: string)
    requires ps == "a*D*x*"
    ensures ScanPrivileges(ps) == Grants({}, {Insert, Truncate, References})
  {
    var s5 := ps[5..];
    assert ScanPrivileges(s5) == Grants({}, {});
    var s4 := ps[4..];
    assert s4[1..] == s5;
    assert ScanPrivileges(s4) == Grants(ScanPrivileges(s5).plain, ScanPrivileges(s5).withGrant + {References});
    var s3 := ps[3..];
    assert s3[1..] == s4;
    assert ScanPrivileges(s3) == ScanPrivileges(s4);
    var s2 := ps[2..];
    assert s2[1..] == s3;
    assert ScanPrivileges(s2) == Grants(ScanPrivileges(s3).plain, ScanPrivileges(s3).withGrant + {Truncate});
    var s1 := ps[1..];
    assert s1[1..] == s2;
    assert ScanPrivileges(s1) == ScanPrivileges(s2);
    assert ps[1..] == s1;
    assert ScanPrivileges(ps) == Grants(ScanPrivileges(s1).plain, ScanPrivileges(s1).withGrant + {Insert});
  }

  /** The next three letters, each marked '*'. */
  lemma ScanMarkedSecond(ps: string)
    requires ps == "t*X*U*"
    ensures ScanPrivileges(ps) == Grants({}, {Trigger, Execute, Usage})
  {
    var s5 := ps[5..];
    assert ScanPrivileges(s5) == Grants({}, {});
    var s4 := ps[4..];
    assert s4[1..] == s5;
    assert ScanPrivileges(s4) == Grants(ScanPrivileges(s5).plain, ScanPrivileges(s5).withGrant + {Usage});
    var s3 := ps[3..];
    assert s3[1..] == s4;
    assert ScanPrivileges(s3) == ScanPrivileges(s4);
    var s2 := ps[2..];
    assert s2[1..] == s3;
    assert ScanPrivileges(s2) == Grants(ScanPrivileges(s3).plain, ScanPrivileges(s3).withGrant + {Execute});
    var s1 := ps[1..];
    assert s1[1..] == s2;
    assert ScanPrivileges(s1) == ScanPrivileges(s2);
    assert ps[1..] == s1;
    assert ScanPrivileges(ps) == Grants(ScanPrivileges(s1).plain, ScanPrivileges(s1).withGrant + {Trigger});
  }

  /** The last three letters, each marked '*'. */
  lemma ScanMarkedThird(ps: string)
    requires ps == "C*T*c*"
    ensures ScanPrivileges(ps) == Grants({}, {Create, Temporary, Connect})
  {
    var s5 := ps[5..];
    assert ScanPrivileges(s5) == Grants({}, {});
    var s4 := ps[4..];
    assert s4[1..] == s5;
    assert ScanPrivileges(s4) == Grants(ScanPrivileges(s5).plain, ScanPrivileges(s5).withGrant + {Connect});
    var s3 := ps[3..];
    assert s3[1..] == s4;
    assert ScanPrivileges(s3) == ScanPrivileges(s4);
    var s2 := ps[2..];
    assert s2[1..] == s3;
    assert ScanPrivileges(s2) == Grants(ScanPrivileges(s3).plain, ScanPrivileges(s3).withGrant + {Temporary});
    var s1 := ps[1..];
    assert s1[1..] == s2;
    assert ScanPrivileges(s1) == ScanPrivileges(s2);
    assert ps[1..] == s1;
    assert ScanPrivileges(ps) == Grants(ScanPrivileges(s1).plain, ScanPrivileges(s1).withGrant + {Create});
  }

  /** The last six letters of the all-grant item, each marked '*'. */
  lemma ScanMarkedRest(b: string, c: string)
    requires b == "t*X*U*" && c == "C*T*c*"
    ensures ScanPrivileges(b + c) == Grants({}, {Trigger, Execute, Usage, Create, Temporary, Connect})
  {
    ScanMarkedSecond(b);
    ScanMarkedThird(c);
    ScanPrivilegesAppend(b, c);
  }


  /** The privilege part of the all-grant test item, decoded as its three pieces. */
  lemma ScanAllWithGrantText(a: string, b: string, c: string)
    requires a == "a*D*x*" && b == "t*X*U*" && c == "C*T*c*"
    ensures ScanPrivileges(a + (b + c)) == Grants({}, {Insert, Truncate, References, Trigger, Execute, Usage, Create, Temporary, Connect})
  {
    ScanMarkedFirst(a);
    ScanMarkedRest(b, c);
    ScanPrivilegesAppend(a, b + c);
  }


  lemma ParseAllWithGrant(g: string, ps: string, grantor: string)
    requires g == "testrole" && ps == "a*D*x*" + ("t*X*U*" + "C*T*c*") && grantor == "gpadmin"
    ensures ParseACL(g + "=" + ps + "/" + grantor) == Some(ACL("testrole", {}, {Insert, Truncate, References, Trigger, Execute, Usage, Create, Temporary, Connect}))
  {
    ScanAllWithGrantText("a*D*x*", "t*X*U*", "C*T*c*");
    assert UnquoteIdent(g) == g;
    ParseItemText(g, ps, grantor);
  }


  lemma ParsePublicGrantee(g: string, ps: string, grantor: string)
    requires g == "" && ps == "a" && grantor == "gpadmin"
    ensures ParseACL(g + "=" + ps + "/" + grantor) == Some(ACL("", {Insert}, {}))
  {
    assert ScanPrivileges(ps) == Grants({Insert}, {});
    assert UnquoteIdent(g) == g;
    ParseItemText(g, ps, grantor);
    var sc := ScanPrivileges(ps);
    assert sc == Grants({Insert}, {});
    assert ParseACL(g + "=" + ps + "/" + grantor) == Some(ACL(UnquoteIdent(g), sc.plain, sc.withGrant));
  }
}
