/** Decimal numerals, keys joined with separators, and trimming. */
module Text {

  function Decimal(n: nat): string {
    if n < 10 then ["0123456789"[n]] else Decimal(n / 10) + ["0123456789"[n % 10]]
  }

  lemma {:induction false} DecimalHasNoColon(n: nat)
    ensures ':' !in Decimal(n) && Decimal(n) != "" && Decimal(n) != "status"
  {
    if n >= 10 {
      DecimalHasNoColon(n / 10);
    }
    var last := Decimal(n)[|Decimal(n)| - 1];
    assert last == "0123456789"[n % 10];
    assert "status"[5] == 's';
  }

  lemma {:induction false} DecimalIsInjective(a: nat, b: nat)
    requires Decimal(a) == Decimal(b)
    ensures a == b
  {
    var x, y := Decimal(a), Decimal(b);
    assert x[|x| - 1] == "0123456789"[a % 10] && y[|y| - 1] == "0123456789"[b % 10];
    if a >= 10 && b >= 10 {
      assert Decimal(a / 10) == x[..|x| - 1] && Decimal(b / 10) == y[..|y| - 1];
      DecimalIsInjective(a / 10, b / 10);
    } else {
      DecimalHasNoColon(a / 10);
      DecimalHasNoColon(b / 10);
    }
  }

  lemma LongerPrefix(p: string, a: string, q: string, b: string, separator: char)
    requires p + [separator] + a == q + [separator] + b && |p| < |q|
    ensures separator in a
  {
    assert (p + [separator] + a)[|q|] == separator;
    assert a[|q| - |p| - 1] == separator;
  }

  /** What follows the last separator, and what precedes it, can be read back. */
  lemma LastSeparator(p: string, a: string, q: string, b: string, separator: char)
    requires p + [separator] + a == q + [separator] + b && separator !in a && separator !in b
    ensures p == q && a == b
  {
    if |p| < |q| {
      LongerPrefix(p, a, q, b, separator);
    } else if |q| < |p| {
      LongerPrefix(q, b, p, a, separator);
    } else {
      var s := p + [separator] + a;
      assert p == s[..|p|] == (q + [separator] + b)[..|q|] == q;
      assert a == s[|p| + 1..] == (q + [separator] + b)[|q| + 1..] == b;
    }
  }

  // White space at the ends of a text

  /** Unicode's white space. */
  predicate Space(c: char) {
    var n := c as int;
    9 <= n <= 13 || n == 32 || n == 0x85 || n == 0xA0 || n == 0x1680 || 0x2000 <= n <= 0x200A ||
    n == 0x2028 || n == 0x2029 || n == 0x202F || n == 0x205F || n == 0x3000
  }

  function TrimLeft(s: string): string {
    if s != "" && Space(s[0]) then TrimLeft(s[1..]) else s
  }

  function TrimRight(s: string): string {
    if s != "" && Space(s[|s| - 1]) then TrimRight(s[..|s| - 1]) else s
  }

  function Trim(s: string): string {
    TrimRight(TrimLeft(s))
  }

  /** A text without outer white space is left as it is. */
  lemma TrimKeeps(s: string)
    requires s != "" && !Space(s[0]) && !Space(s[|s| - 1])
    ensures Trim(s) == s
  {
  }

  lemma {:induction false} TrimRightEnds(s: string)
    ensures TrimRight(s) <= s && (TrimRight(s) == "" || !Space(TrimRight(s)[|TrimRight(s)| - 1]))
  {
    if s != "" && Space(s[|s| - 1]) {
      TrimRightEnds(s[..|s| - 1]);
    }
  }

  lemma {:induction false} TrimLeftEnds(s: string)
    ensures TrimLeft(s) == "" || !Space(TrimLeft(s)[0])
  {
    if s != "" && Space(s[0]) {
      TrimLeftEnds(s[1..]);
    }
  }

  /** Trimming twice is trimming once. */
  lemma TrimIsStable(s: string)
    ensures Trim(Trim(s)) == Trim(s)
  {
    TrimLeftEnds(s);
    TrimRightEnds(TrimLeft(s));
    if Trim(s) != "" {
      TrimKeeps(Trim(s));
    }
  }

  ghost predicate AllSpace(s: string) {
    forall i :: 0 <= i < |s| ==> Space(s[i])
  }

  lemma {:induction false} TrimRightCuts(s: string) returns (right: string)
    ensures s == TrimRight(s) + right && AllSpace(right)
  {
    right := "";
    if s != "" && Space(s[|s| - 1]) {
      var further := TrimRightCuts(s[..|s| - 1]);
      right := further + [s[|s| - 1]];
      assert s == s[..|s| - 1] + [s[|s| - 1]];
    }
  }

  lemma {:induction false} TrimLeftCuts(s: string) returns (left: string)
    ensures s == left + TrimLeft(s) && AllSpace(left)
  {
    left := "";
    if s != "" && Space(s[0]) {
      var further := TrimLeftCuts(s[1..]);
      left := [s[0]] + further;
      assert s == [s[0]] + s[1..];
    }
  }

  /** ASCII letters in upper case. */
  function Upper(s: string): string {
    seq(|s|, i requires 0 <= i < |s| => if 'a' <= s[i] <= 'z' then (s[i] as int - 32) as char else s[i])
  }

  /** Trimming cuts off white space at both ends, and all of it. */
  lemma TrimCutsSpace(s: string) returns (left: string, right: string)
    ensures s == left + Trim(s) + right && AllSpace(left) && AllSpace(right)
    ensures Trim(s) != "" ==> !Space(Trim(s)[0]) && !Space(Trim(s)[|Trim(s)| - 1])
  {
    left := TrimLeftCuts(s);
    right := TrimRightCuts(TrimLeft(s));
    TrimLeftEnds(s);
    TrimRightEnds(TrimLeft(s));
    assert s == left + (Trim(s) + right) == left + Trim(s) + right;
  }
}
