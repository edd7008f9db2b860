/** Option and the sequence helpers the rest of the model shares: JavaScript's
    insertion-ordered `Set` as a duplicate-free sequence, `Array.prototype.join`,
    and `Array.prototype.flat` on arrays of rows. */
module Collections {

  datatype Option<T> = None | Some(value: T)

  /** No element occurs twice: what a JavaScript `Set` guarantees of its contents. */
  predicate NoDup<T(==)>(s: seq<T>) {
    forall i, j :: 0 <= i < j < |s| ==> s[i] != s[j]
  }

  /** `set.add(x)` on a JavaScript `Set` kept in insertion order: a new element goes
      to the end, an element already present changes nothing. */
  function SetAdd<T(==)>(s: seq<T>, x: T): (r: seq<T>)
    ensures s <= r && x in r
    ensures forall i :: 0 <= i < |r| ==> r[i] in s || r[i] == x
    ensures x in s ==> r == s
    ensures NoDup(s) ==> NoDup(r)
  {
    if x in s then s else s + [x]
  }

  /** The position of the first occurrence of `x` in `s`. */
  function FirstIndex<T(==)>(s: seq<T>, x: T): (i: nat)
    requires x in s
    ensures i < |s| && s[i] == x && x !in s[..i]
  {
    if s[0] == x then 0 else 1 + FirstIndex(s[1..], x)
  }

  /** `rows.flat()`: the rows laid end to end. */
  function Flatten<T>(rows: seq<seq<T>>): seq<T> {
    if rows == [] then [] else rows[0] + Flatten(rows[1..])
  }

  /** `parts.join(sep)`: the parts with `sep` between neighbours, "" for no parts. */
  function Join(parts: seq<string>, sep: string): string {
    if |parts| == 0 then ""
    else if |parts| == 1 then parts[0]
    else Join(parts[..|parts| - 1], sep) + sep + parts[|parts| - 1]
  }

  lemma {:induction false} FlattenAppend<T>(a: seq<seq<T>>, b: seq<seq<T>>)
    ensures Flatten(a + b) == Flatten(a) + Flatten(b)
  {
    if a == [] {
      assert a + b == b;
    } else {
      assert (a + b)[1..] == a[1..] + b;
      FlattenAppend(a[1..], b);
    }
  }

  /** Rows of equal width `w` flatten to `w` entries per row. */
  lemma {:induction false} FlattenUniformLength<T>(rows: seq<seq<T>>, w: nat)
    requires forall i :: 0 <= i < |rows| ==> |rows[i]| == w
    ensures |Flatten(rows)| == w * |rows|
  {
    if rows != [] {
      FlattenUniformLength(rows[1..], w);
    }
  }

  /** Rows of equal width `w` flatten row-major: entry `j` of row `i` lands at `w * i + j`. */
  lemma {:induction false} FlattenUniformAt<T>(rows: seq<seq<T>>, w: nat, i: nat, j: nat)
    requires forall k :: 0 <= k < |rows| ==> |rows[k]| == w
    requires i < |rows| && j < w
    ensures w * i + j < |Flatten(rows)| && Flatten(rows)[w * i + j] == rows[i][j]
  {
    FlattenUniformLength(rows, w);
    FlattenUniformLength(rows[1..], w);
    if i > 0 {
      FlattenUniformAt(rows[1..], w, i - 1, j);
      assert w * i + j == w + (w * (i - 1) + j);
    }
  }

  /** Concatenation regroups freely. */
  lemma AppendAssociative<T>(a: seq<T>, b: seq<T>, c: seq<T>)
    ensures (a + b) + c == a + (b + c)
  {
  }

  /** The texts `f(x)` of the elements `x` of `xs`, concatenated in order. */
  function ConcatMap<T>(f: T -> string, xs: seq<T>): string {
    if xs == [] then "" else ConcatMap(f, xs[..|xs| - 1]) + f(xs[|xs| - 1])
  }

  /** Concatenating the texts distributes over appending the sequences. */
  lemma {:induction false} ConcatMapAppend<T>(f: T -> string, a: seq<T>, b: seq<T>)
    ensures ConcatMap(f, a + b) == ConcatMap(f, a) + ConcatMap(f, b)
  {
    if b == [] {
      assert a + b == a;
    } else {
      var init := b[..|b| - 1];
      ConcatMapAppend(f, a, init);
      assert (a + b)[..|a + b| - 1] == a + init;
      assert ConcatMap(f, a + b) == ConcatMap(f, a + init) + f(b[|b| - 1]);
      assert ConcatMap(f, a) + ConcatMap(f, init) + f(b[|b| - 1]) == ConcatMap(f, a) + (ConcatMap(f, init) + f(b[|b| - 1]));
    }
  }
}
