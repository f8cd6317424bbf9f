/**
 * Query strings as sequences of '&'-separated fields. Every parameter string the
 * client builds is a `format!` concatenation; `Fields` reads one back the way a
 * server splits it, and the lemmas here let each builder's result be stated as
 * an exact list of `name=value` fields.
 */
module Query {

  /** A value that can be placed in a field without starting a new one. */
  predicate NoSeparator(s: string) {
    '&' !in s
  }

  /** Fields joined by '&' (Rust's `[String]::join("&")`; the empty list joins to ""). */
  function Join(xs: seq<string>): string {
    if |xs| == 0 then ""
    else if |xs| == 1 then xs[0]
    else xs[0] + "&" + Join(xs[1..])
  }

  /**
   * The '&'-separated fields of a query string, like Rust's `str::split('&')`:
   * "" has one empty field and "a&" has two. Joining them gives the string back.
   */
  function Fields(q: string): (r: seq<string>)
    ensures |r| >= 1
    ensures forall i | 0 <= i < |r| :: NoSeparator(r[i])
    ensures Join(r) == q
  {
    if q == [] then [""]
    else
      var rest := Fields(q[1..]);
      if q[0] == '&' then
        JoinCons("", rest);
        [""] + rest
      else
        JoinExtendHead(q[0], rest);
        rest[0 := [q[0]] + rest[0]]
  }

  lemma JoinCons(x: string, xs: seq<string>)
    requires |xs| >= 1
    ensures Join([x] + xs) == x + "&" + Join(xs)
  {
    assert ([x] + xs)[1..] == xs;
  }

  lemma JoinExtendHead(c: char, xs: seq<string>)
    requires |xs| >= 1
    ensures Join(xs[0 := [c] + xs[0]]) == [c] + Join(xs)
  {
    var ys := xs[0 := [c] + xs[0]];
    if |xs| > 1 {
      assert ys[1..] == xs[1..];
      assert Join(ys) == ([c] + xs[0]) + "&" + Join(xs[1..]);
    }
  }


  lemma JoinTwo(a: string, b: string)
    ensures Join([a, b]) == a + "&" + b
  {
    assert [a, b][1..] == [b];
  }

  lemma JoinThree(a: string, b: string, c: string)
    ensures Join([a, b, c]) == a + "&" + b + "&" + c
  {
    assert [a, b, c][1..] == [b, c];
    JoinTwo(b, c);
  }

  /** Splitting distributes over a separator: the fields of `a&b` are those of `a`, then those of `b`. */
  lemma {:induction false} FieldsAppend(a: string, b: string)
    ensures Fields(a + "&" + b) == Fields(a) + Fields(b)
  {
    var q := a + "&" + b;
    if a == [] {
      assert q[1..] == b;
    } else {
      assert q[1..] == a[1..] + "&" + b;
      FieldsAppend(a[1..], b);
    }
  }

  /** A string without a separator is one field. */
  lemma {:induction false} FieldsOfPlain(a: string)
    ensures NoSeparator(a) ==> Fields(a) == [a]
  {
    if a != [] && NoSeparator(a) {
      FieldsOfPlain(a[1..]);
      assert [a[0]] + a[1..] == a;
    }
  }

  /** The fields of each string of `xs`, in order. */
  function FlatFields(xs: seq<string>): seq<string> {
    if xs == [] then [] else Fields(xs[0]) + FlatFields(xs[1..])
  }

  /** Splitting a joined list gives the fields of each element, in order. */
  lemma {:induction false} FieldsJoin(xs: seq<string>)
    requires |xs| >= 1
    ensures Fields(Join(xs)) == FlatFields(xs)
  {
    if |xs| > 1 {
      FieldsJoin(xs[1..]);
      FieldsAppend(xs[0], Join(xs[1..]));
    }
  }

  /** Joining separator-free fields and splitting again is the identity. */
  lemma {:induction false} FieldsJoinPlain(xs: seq<string>)
    requires |xs| >= 1
    requires forall i | 0 <= i < |xs| :: NoSeparator(xs[i])
    ensures Fields(Join(xs)) == xs
  {
    FieldsJoin(xs);
    FlatFieldsPlain(xs);
  }

  lemma {:induction false} FlatFieldsPlain(xs: seq<string>)
    requires forall i | 0 <= i < |xs| :: NoSeparator(xs[i])
    ensures FlatFields(xs) == xs
  {
    if xs != [] {
      FieldsOfPlain(xs[0]);
      FlatFieldsPlain(xs[1..]);
    }
  }

  /**
   * When every element splits into three fields, field `3 * k + j` of the
   * flattened list is field `j` of element `k`.
   */
  lemma {:induction false} FlatFieldsOfTriples(xs: seq<string>, k: nat, j: nat)
    requires forall i | 0 <= i < |xs| :: |Fields(xs[i])| == 3
    requires k < |xs| && j < 3
    ensures |FlatFields(xs)| == 3 * |xs|
    ensures FlatFields(xs)[3 * k + j] == Fields(xs[k])[j]
  {
    FlatFieldsOfTriplesLength(xs);
    var head, tail := Fields(xs[0]), FlatFields(xs[1..]);
    assert FlatFields(xs) == head + tail;
    if k > 0 {
      FlatFieldsOfTriples(xs[1..], k - 1, j);
      assert xs[1..][k - 1] == xs[k];
      assert (head + tail)[3 * k + j] == tail[3 * (k - 1) + j];
    }
  }

  lemma {:induction false} FlatFieldsOfTriplesLength(xs: seq<string>)
    requires forall i | 0 <= i < |xs| :: |Fields(xs[i])| == 3
    ensures |FlatFields(xs)| == 3 * |xs|
  {
    if xs != [] {
      FlatFieldsOfTriplesLength(xs[1..]);
      assert FlatFields(xs) == Fields(xs[0]) + FlatFields(xs[1..]);
    }
  }

  /** A plain field in front of a query adds itself to the query's fields. */
  lemma ConsField(field: string, rest: string)
    ensures NoSeparator(field) ==> Fields(field + "&" + rest) == [field] + Fields(rest)
  {
    FieldsOfPlain(field);
    FieldsAppend(field, rest);
  }

  /** Two plain fields joined are exactly those fields. */
  lemma TwoPlainFields(a: string, b: string)
    ensures NoSeparator(a) && NoSeparator(b) ==> Fields(a + "&" + b) == [a, b]
  {
    FieldsOfPlain(b);
    ConsField(a, b);
  }

  /** Three plain fields joined are exactly those fields. */
  lemma ThreePlainFields(a: string, b: string, c: string)
    ensures NoSeparator(a) && NoSeparator(b) && NoSeparator(c) ==> Fields(a + "&" + b + "&" + c) == [a, b, c]
  {
    TwoPlainFields(b, c);
    ConsField(a, b + "&" + c);
    assert a + "&" + b + "&" + c == a + "&" + (b + "&" + c);
  }

  /** Four plain fields, the last three grouped, are exactly those fields. */
  lemma FourPlainFields(a: string, b: string, c: string, d: string)
    ensures NoSeparator(a) && NoSeparator(b) && NoSeparator(c) && NoSeparator(d) ==>
      Fields(a + "&" + (b + "&" + c + "&" + d)) == [a, b, c, d]
  {
    ThreePlainFields(b, c, d);
    ConsField(a, b + "&" + c + "&" + d);
  }

  /** Splitting a joined list of three-field strings: element `k`'s fields sit at 3k, 3k + 1 and 3k + 2. */
  lemma JoinTriplesAt(xs: seq<string>, k: nat, a: string, b: string, c: string)
    requires forall i | 0 <= i < |xs| :: |Fields(xs[i])| == 3
    requires k < |xs| && Fields(xs[k]) == [a, b, c]
    ensures |Fields(Join(xs))| == 3 * |xs|
    ensures Fields(Join(xs))[3 * k] == a
    ensures Fields(Join(xs))[3 * k + 1] == b
    ensures Fields(Join(xs))[3 * k + 2] == c
  {
    FlatTriplesAt(xs, k, a, b, c);
    FieldsJoin(xs);
  }

  lemma FlatTriplesAt(xs: seq<string>, k: nat, a: string, b: string, c: string)
    requires forall i | 0 <= i < |xs| :: |Fields(xs[i])| == 3
    requires k < |xs| && Fields(xs[k]) == [a, b, c]
    ensures |FlatFields(xs)| == 3 * |xs|
    ensures FlatFields(xs)[3 * k] == a && FlatFields(xs)[3 * k + 1] == b && FlatFields(xs)[3 * k + 2] == c
  {
    FlatFieldsOfTriples(xs, k, 0);
    FlatFieldsOfTriples(xs, k, 1);
    FlatFieldsOfTriples(xs, k, 2);
  }


}
