/** String helpers shared by every statement builder: Python's
    `sep.join(xs)` and the count of `?` placeholders in a statement. */
module SqlText {

  /** `sep.join(xs)`. */
  function Join(xs: seq<string>, sep: string): string
    decreases |xs|
  {
    if xs == [] then ""
    else if |xs| == 1 then xs[0]
    else xs[0] + sep + Join(xs[1..], sep)
  }

  /** The number of `?` placeholders in a statement's text. */
  function Placeholders(s: string): nat {
    multiset(s)['?']
  }

  /** The placeholders of two texts put together add up. */
  lemma PlaceholdersConcat(a: string, b: string)
    ensures Placeholders(a + b) == Placeholders(a) + Placeholders(b)
  {
    assert multiset(a + b) == multiset(a) + multiset(b);
  }

  /** A clause that ends in one placeholder, such as `"name LIKE ?"`, written
      as the text before the `?`. */
  function Slot(before: string): (clause: string)
    ensures |clause| == |before| + 1 && clause[..|before|] == before && clause[|before|] == '?'
  {
    before + "?"
  }

  lemma SlotPlaceholders(before: string)
    requires NoPlaceholder(before)
    ensures Placeholders(Slot(before)) == 1
  {
    PlaceholdersConcat(before, "?");
  }

  /** A fragment that contributes no placeholder (a column name, a keyword). */
  predicate NoPlaceholder(s: string) {
    '?' !in s
  }

  lemma NoPlaceholderCount(s: string)
    requires NoPlaceholder(s)
    ensures Placeholders(s) == 0
  {
  }

  /** The placeholders of a list of clauses, added up. */
  function SumPlaceholders(xs: seq<string>): nat
    decreases |xs|
  {
    if xs == [] then 0 else SumPlaceholders(xs[..|xs| - 1]) + Placeholders(xs[|xs| - 1])
  }

  lemma {:induction false} SumPlaceholdersAppend(xs: seq<string>, ys: seq<string>)
    ensures SumPlaceholders(xs + ys) == SumPlaceholders(xs) + SumPlaceholders(ys)
    decreases |ys|
  {
    if ys != [] {
      assert (xs + ys)[..|xs + ys| - 1] == xs + ys[..|ys| - 1];
      SumPlaceholdersAppend(xs, ys[..|ys| - 1]);
    } else {
      assert xs + ys == xs;
    }
  }

  lemma {:induction false} SumPlaceholdersFront(x: string, xs: seq<string>)
    ensures SumPlaceholders([x] + xs) == Placeholders(x) + SumPlaceholders(xs)
  {
    SumPlaceholdersAppend([x], xs);
    assert [x][..0] == [];
  }

  /** Joining with a separator that has no placeholder keeps exactly the
      placeholders of the parts. */
  lemma {:induction false} JoinPlaceholders(xs: seq<string>, sep: string)
    requires NoPlaceholder(sep)
    ensures Placeholders(Join(xs, sep)) == SumPlaceholders(xs)
    decreases |xs|
  {
    if xs == [] {
    } else if |xs| == 1 {
      assert xs[..0] == [];
    } else {
      JoinPlaceholders(xs[1..], sep);
      SumPlaceholdersFront(xs[0], xs[1..]);
      assert [xs[0]] + xs[1..] == xs;
    }
  }

  /** `[c] * n`, a list of `n` copies of one clause. */
  function Repeat(c: string, n: nat): (r: seq<string>)
    ensures |r| == n && forall i :: 0 <= i < n ==> r[i] == c
  {
    seq(n, _ => c)
  }

  /** `n` copies of a clause together have `n` times its placeholders. */
  lemma {:induction false} RepeatPlaceholders(c: string, n: nat)
    ensures SumPlaceholders(Repeat(c, n)) == n * Placeholders(c)
  {
    if n > 0 {
      assert Repeat(c, n)[..n - 1] == Repeat(c, n - 1);
      RepeatPlaceholders(c, n - 1);
    }
  }

  /** Every part of a list is free of placeholders. */
  predicate AllNoPlaceholder(xs: seq<string>) {
    forall i :: 0 <= i < |xs| ==> NoPlaceholder(xs[i])
  }

  lemma {:induction false} AllNoPlaceholderSum(xs: seq<string>)
    requires AllNoPlaceholder(xs)
    ensures SumPlaceholders(xs) == 0
    decreases |xs|
  {
    if xs != [] {
      AllNoPlaceholderSum(xs[..|xs| - 1]);
      NoPlaceholderCount(xs[|xs| - 1]);
    }
  }
}
