/** The few string operations the webhook headers and the keyring spec are parsed with, and decimal numbers. */
module Text {
  import opened Base

  predicate Space(c: char) {
    c == ' ' || c == '\t' || c == '\n' || c == '\r' || c == '\U{b}' || c == '\U{c}'
  }

  predicate NoSpace(s: string) {
    forall i :: 0 <= i < |s| ==> !Space(s[i])
  }

  function TrimLeft(s: string): string {
    if s != "" && Space(s[0]) then TrimLeft(s[1..]) else s
  }

  function TrimRight(s: string): string {
    if s != "" && Space(s[|s| - 1]) then TrimRight(s[..|s| - 1]) else s
  }

  function TrimSpace(s: string): string {
    TrimRight(TrimLeft(s))
  }

  predicate Trimmed(s: string) {
    s == "" || (!Space(s[0]) && !Space(s[|s| - 1]))
  }

  lemma TrimmedStays(s: string)
    requires Trimmed(s)
    ensures TrimSpace(s) == s
  {
  }

  predicate AllSpace(s: string) {
    forall i :: 0 <= i < |s| ==> Space(s[i])
  }

  /** `core` with nothing but space around it. */
  ghost predicate Padded(s: string, core: string) {
    Trimmed(core) && exists p, q :: AllSpace(p) && AllSpace(q) && s == p + core + q
  }

  lemma {:induction false} TrimLeftDrops(p: string, s: string)
    requires AllSpace(p)
    ensures TrimLeft(p + s) == TrimLeft(s)
  {
    if p == "" {
      assert p + s == s;
    } else {
      assert (p + s)[1..] == p[1..] + s;
      TrimLeftDrops(p[1..], s);
    }
  }

  lemma {:induction false} TrimRightDrops(s: string, q: string)
    requires AllSpace(q)
    ensures TrimRight(s + q) == TrimRight(s)
    decreases |q|
  {
    if q == "" {
      assert s + q == s;
    } else {
      assert (s + q)[..|s + q| - 1] == s + q[..|q| - 1];
      TrimRightDrops(s, q[..|q| - 1]);
    }
  }

  lemma {:induction false} TrimLeftSplits(s: string) returns (p: string)
    ensures AllSpace(p) && s == p + TrimLeft(s) && (TrimLeft(s) != "" ==> !Space(TrimLeft(s)[0]))
  {
    if s != "" && Space(s[0]) {
      var p' := TrimLeftSplits(s[1..]);
      p := [s[0]] + p';
    } else {
      p := "";
    }
  }

  lemma {:induction false} TrimRightSplits(s: string) returns (q: string)
    ensures AllSpace(q) && s == TrimRight(s) + q && (TrimRight(s) != "" ==> !Space(TrimRight(s)[|TrimRight(s)| - 1]))
    decreases |s|
  {
    if s != "" && Space(s[|s| - 1]) {
      var q' := TrimRightSplits(s[..|s| - 1]);
      q := q' + [s[|s| - 1]];
    } else {
      q := "";
    }
  }

  lemma PadsDrop(p: string, core: string, q: string)
    requires AllSpace(p) && AllSpace(q) && Trimmed(core)
    ensures TrimSpace(p + core + q) == core
  {
    assert p + core + q == p + (core + q);
    TrimLeftDrops(p, core + q);
    if core == "" {
      assert core + q == q + "";
      TrimLeftDrops(q, "");
    } else {
      assert TrimLeft(core + q) == core + q;
      TrimRightDrops(core, q);
    }
  }

  lemma TrimSpaceSplits(s: string) returns (p: string, q: string)
    ensures AllSpace(p) && AllSpace(q) && s == p + TrimSpace(s) + q && Trimmed(TrimSpace(s))
  {
    p := TrimLeftSplits(s);
    q := TrimRightSplits(TrimLeft(s));
    assert TrimSpace(s) != "" ==> TrimSpace(s)[0] == TrimLeft(s)[0];
  }

  /** Trimming takes away the space around, and all of it. */
  lemma TrimSpaceIs(s: string, core: string)
    ensures Padded(s, core) <==> TrimSpace(s) == core
  {
    if Padded(s, core) {
      var p, q :| AllSpace(p) && AllSpace(q) && s == p + core + q;
      PadsDrop(p, core, q);
    }
    var p, q := TrimSpaceSplits(s);
    assert Padded(s, TrimSpace(s));
  }

  /** Trimming a whole that is joined by something else than space trims its two sides from outside. */
  lemma TrimAround(left: string, sep: char, right: string)
    requires !Space(sep)
    ensures TrimSpace(left + [sep] + right) == TrimLeft(left) + [sep] + TrimRight(right)
  {
    var p := TrimLeftSplits(left);
    var q := TrimRightSplits(right);
    var l, r := TrimLeft(left), TrimRight(right);
    assert left + [sep] + right == p + (l + [sep] + r) + q;
    assert Trimmed(l + [sep] + r);
    assert Padded(left + [sep] + right, l + [sep] + r);
    TrimSpaceIs(left + [sep] + right, l + [sep] + r);
  }

  /** Trimming from one side first makes no difference. */
  lemma TrimTwice(s: string)
    ensures TrimSpace(TrimLeft(s)) == TrimSpace(s) && TrimSpace(TrimRight(s)) == TrimSpace(s)
  {
    assert TrimLeft(TrimLeft(s)) == TrimLeft(s) by {
      var p := TrimLeftSplits(s);
      TrimLeftDrops(p, TrimLeft(s));
    }
    var tail := TrimRightSplits(s);
    var t := TrimRight(s);
    var p, q := TrimSpaceSplits(t);
    SpacesJoin(q, tail);
    assert s == p + TrimSpace(t) + (q + tail);
    PadsDrop(p, TrimSpace(t), q + tail);
  }

  lemma SpacesJoin(a: string, b: string)
    requires AllSpace(a) && AllSpace(b)
    ensures AllSpace(a + b)
  {
  }

  /** Everything before and after the first separator. */
  function Cut(s: string, sep: char): (r: Option<(string, string)>)
    ensures r.Some? ==> s == r.value.0 + [sep] + r.value.1 && sep !in r.value.0
    ensures r.None? <==> sep !in s
  {
    if s == "" then None
    else if s[0] == sep then Some(("", s[1..]))
    else
      var r := Cut(s[1..], sep);
      if r.None? then None else Some(([s[0]] + r.value.0, r.value.1))
  }

  lemma {:induction false} CutJoins(a: string, sep: char, b: string)
    requires sep !in a
    ensures Cut(a + [sep] + b, sep) == Some((a, b))
  {
    if a == "" {
      assert a + [sep] + b == [sep] + b;
    } else {
      assert (a + [sep] + b)[1..] == a[1..] + [sep] + b;
      CutJoins(a[1..], sep, b);
      assert [a[0]] + a[1..] == a;
    }
  }

  function WordLength(s: string): (n: nat)
    ensures n <= |s|
    ensures NoSpace(s[..n])
    ensures n < |s| ==> Space(s[n])
  {
    if s == "" || Space(s[0]) then 0
    else
      var n := WordLength(s[1..]);
      assert s[..n + 1] == [s[0]] + s[1..][..n];
      1 + n
  }

  /** The maximal runs of non-space characters. */
  function Fields(s: string): seq<string>
    decreases |s|
  {
    if s == "" then []
    else if Space(s[0]) then Fields(s[1..])
    else [s[..WordLength(s)]] + Fields(s[WordLength(s)..])
  }

  lemma FieldsOfWord(w: string)
    requires w != "" && NoSpace(w)
    ensures Fields(w) == [w]
  {
    assert WordLength(w) == |w| && w[..|w|] == w && w[|w|..] == "";
  }

  lemma {:induction false} WordEnds(a: string, rest: string)
    requires NoSpace(a) && (rest == "" || Space(rest[0]))
    ensures WordLength(a + rest) == |a|
  {
    if a == "" {
      assert a + rest == rest;
    } else {
      assert (a + rest)[1..] == a[1..] + rest && (a + rest)[0] == a[0];
      WordEnds(a[1..], rest);
    }
  }

  lemma FieldsOfTwo(a: string, b: string)
    requires a != "" && NoSpace(a)
    ensures Fields(a + " " + b) == [a] + Fields(b)
  {
    var s := a + " " + b;
    assert s == a + ([' '] + b);
    WordEnds(a, [' '] + b);
    assert s[..|a|] == a && s[|a|..] == [' '] + b && ([' '] + b)[1..] == b;
  }

  /** strings.Split by a comma. */
  function Entries(s: string): (es: seq<string>)
    ensures |es| > 0
    decreases |s|
  {
    var c := Cut(s, ',');
    if c.None? then [s] else [c.value.0] + Entries(c.value.1)
  }

  // ---- decimal --------------------------------------------------------------------------

  predicate Digit(c: char) {
    '0' <= c <= '9'
  }

  function DigitOf(n: nat): char
    requires n < 10
  {
    ((n as char) + '0')
  }

  function Digits(n: nat): (s: string)
    ensures s != "" && forall i :: 0 <= i < |s| ==> Digit(s[i])
  {
    if n < 10 then [DigitOf(n)] else Digits(n / 10) + [DigitOf(n % 10)]
  }

  function FormatInt(n: int): string {
    if n < 0 then "-" + Digits(-n) else Digits(n)
  }

  function ParseDigits(s: string): Option<nat> {
    if s == "" || !Digit(s[|s| - 1]) then None
    else
      var d := (s[|s| - 1] - '0') as nat;
      if |s| == 1 then Some(d)
      else
        var r := ParseDigits(s[..|s| - 1]);
        if r.None? then None else Some(r.value * 10 + d)
  }

  /** strconv.ParseInt, base 10, 64 bits. */
  function ParseInt(s: string): Option<int> {
    var digits := if s != "" && (s[0] == '+' || s[0] == '-') then s[1..] else s;
    var r := ParseDigits(digits);
    if r.None? then None
    else
      var v: int := r.value;
      var n := if s[0] == '-' then -v else v;
      if MIN_INT64 <= n <= MAX_INT64 then Some(n) else None
  }

  lemma {:induction false} ParseDigitsInverts(n: nat)
    ensures ParseDigits(Digits(n)) == Some(n)
  {
    if n >= 10 {
      ParseDigitsInverts(n / 10);
      var s := Digits(n);
      assert s[..|s| - 1] == Digits(n / 10);
    }
  }

  lemma ParseInverts(n: int)
    requires MIN_INT64 <= n <= MAX_INT64
    ensures ParseInt(FormatInt(n)) == Some(n)
    ensures NoSpace(FormatInt(n)) && FormatInt(n) != "" && '.' !in FormatInt(n)
  {
    if n < 0 {
      ParseDigitsInverts(-n);
      assert FormatInt(n)[1..] == Digits(-n);
    } else {
      ParseDigitsInverts(n);
      assert Digit(FormatInt(n)[0]);
    }
  }

  lemma {:induction false} ParsedIsDigits(s: string)
    requires ParseDigits(s).Some?
    ensures forall i :: 0 <= i < |s| ==> Digit(s[i])
  {
    if |s| > 1 {
      ParsedIsDigits(s[..|s| - 1]);
      assert forall i :: 0 <= i < |s| - 1 ==> s[i] == s[..|s| - 1][i];
    }
  }

  lemma ParsedHasNoDot(s: string)
    requires ParseInt(s).Some?
    ensures '.' !in s
  {
    if s[0] == '+' || s[0] == '-' {
      ParsedIsDigits(s[1..]);
      assert forall i :: 1 <= i < |s| ==> s[i] == s[1..][i - 1];
    } else {
      ParsedIsDigits(s);
    }
  }
}
