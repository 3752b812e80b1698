/** String helpers shared by the renderers: joining, quote doubling and decimal digits. */
module Text {

  /** Concatenates `parts` with `sep` between neighbours, as Go's strings.Join does. */
  function Join(parts: seq<string>, sep: string): string
  {
    if parts == [] then ""
    else if |parts| == 1 then parts[0]
    else parts[0] + sep + Join(parts[1..], sep)
  }

  /** Writes every occurrence of the quote character `q` twice. */
  function Doubled(s: string, q: char): (r: string)
    ensures |r| >= |s|
    ensures q !in s ==> r == s
  {
    if s == [] then ""
    else (if s[0] == q then [q, q] else [s[0]]) + Doubled(s[1..], q)
  }

  /** Reads a pair of quote characters `q` as one; everything else is copied. */
  function Undoubled(s: string, q: char): string
    decreases |s|
  {
    if |s| >= 2 && s[0] == q && s[1] == q then [q] + Undoubled(s[2..], q)
    else if s == [] then ""
    else [s[0]] + Undoubled(s[1..], q)
  }

  /** Undoubling inverts doubling, for every string and every quote character. */
  lemma {:induction false} UndoubledDoubled(s: string, q: char)
    ensures Undoubled(Doubled(s, q), q) == s
  {
    if s != [] {
      var t := Doubled(s[1..], q);
      UndoubledDoubled(s[1..], q);
      if s[0] == q {
        assert Doubled(s, q) == [q, q] + t;
        assert ([q, q] + t)[2..] == t;
      } else {
        assert Doubled(s, q) == [s[0]] + t;
        assert ([s[0]] + t)[1..] == t;
      }
      assert [s[0]] + s[1..] == s;
    }
  }

  function DigitChar(d: nat): (c: char)
    requires d < 10
    ensures '0' <= c <= '9'
  {
    ['0', '1', '2', '3', '4', '5', '6', '7', '8', '9'][d]
  }

  /** Decimal text of a natural number, as Go's %d verb prints it. */
  function NatToString(n: nat): (r: string)
    ensures |r| >= 1
    ensures forall i :: 0 <= i < |r| ==> '0' <= r[i] <= '9'
  {
    if n < 10 then [DigitChar(n)] else NatToString(n / 10) + [DigitChar(n % 10)]
  }

  /** Is `p` a prefix of `s`? */
  predicate StartsWith(s: string, p: string)
  {
    |p| <= |s| && s[..|p|] == p
  }

  /** Concatenation is associative; stated once so that long concatenations can be regrouped cheaply. */
  lemma AppendAssoc<T>(a: seq<T>, b: seq<T>, c: seq<T>)
    ensures a + (b + c) == (a + b) + c
  {
  }

  /** The middle part of a three-part concatenation is found where the first part ends. */
  lemma MiddleSlice<T>(a: seq<T>, b: seq<T>, c: seq<T>)
    ensures (a + b + c)[|a|..|a| + |b|] == b
  {
    var s := a + b + c;
    assert forall j :: 0 <= j < |b| ==> s[|a| + j] == b[j];
  }
}
