/**
 * Query strings as the request builders assemble them: repeated
 * "&key=value" parameters appended in list order, and the same query seen
 * as its '&'-separated fields.
 */
module Query {
  import opened Strings

  /** The parameters "&key=value" for each element of `xs`, in order;
      `prefix` is the "&key=" part. */
  function Params<T>(prefix: string, xs: seq<T>, show: T -> string): string
    decreases |xs|
  {
    if xs == [] then ""
    else Params(prefix, xs[..|xs| - 1], show) + prefix + show(xs[|xs| - 1])
  }

  /** Appending one element appends its parameter. */
  lemma ParamsSnoc<T>(prefix: string, xs: seq<T>, i: nat, show: T -> string)
    requires i < |xs|
    ensures Params(prefix, xs[..i + 1], show) == Params(prefix, xs[..i], show) + prefix + show(xs[i])
  {
    assert xs[..i + 1][..i] == xs[..i];
  }

  /** The loop `for x in xs { result += &format!("{prefix}{}", x) }` the
      serialisers run once per list. */
  method AppendParams<T>(result: string, prefix: string, xs: seq<T>, show: T -> string) returns (r: string)
    ensures r == result + Params(prefix, xs, show)
  {
    r := result;
    var i: nat := 0;
    while i < |xs|
      invariant i <= |xs|
      invariant r == result + Params(prefix, xs[..i], show)
    {
      ParamsSnoc(prefix, xs, i, show);
      r := r + prefix + show(xs[i]);
      i := i + 1;
    }
    assert xs[..i] == xs;
  }

  /** The fields "key=value" for each element of `xs`, in order. */
  function Fields<T>(key: string, xs: seq<T>, show: T -> string): (fs: seq<string>)
    ensures |fs| == |xs|
  {
    seq(|xs|, i requires 0 <= i < |xs| => key + show(xs[i]))
  }

  lemma {:induction false} JoinSnoc(fs: seq<string>, x: string, sep: char)
    requires |fs| >= 1
    ensures Join(fs + [x], sep) == Join(fs, sep) + [sep] + x
    decreases |fs|
  {
    if |fs| == 1 {
      assert (fs + [x])[1..] == [x];
    } else {
      assert (fs + [x])[1..] == fs[1..] + [x];
      JoinSnoc(fs[1..], x, sep);
    }
  }

  /** Joining more fields with '&' appends their parameters. */
  lemma {:induction false} JoinFields<T>(fs: seq<string>, key: string, xs: seq<T>, show: T -> string)
    requires |fs| >= 1
    ensures Join(fs + Fields(key, xs, show), '&') == Join(fs, '&') + Params("&" + key, xs, show)
    decreases |xs|
  {
    if xs == [] {
      assert fs + Fields(key, xs, show) == fs;
    } else {
      var n := |xs| - 1;
      JoinFields(fs, key, xs[..n], show);
      assert fs + Fields(key, xs, show) == (fs + Fields(key, xs[..n], show)) + [key + show(xs[n])];
      JoinSnoc(fs + Fields(key, xs[..n], show), key + show(xs[n]), '&');
    }
  }

  /** The number of fields that begin with `key`, that is, how many times
      the parameter `key` occurs in the query. */
  function CountKey(fs: seq<string>, key: string): nat
    decreases |fs|
  {
    if fs == [] then 0 else CountKey(fs[..|fs| - 1], key) + (if key <= fs[|fs| - 1] then 1 else 0)
  }

  lemma {:induction false} CountKeyAppend(a: seq<string>, b: seq<string>, key: string)
    ensures CountKey(a + b, key) == CountKey(a, key) + CountKey(b, key)
    decreases |b|
  {
    if b == [] {
      assert a + b == a;
    } else {
      var n := |b| - 1;
      assert (a + b)[..|a + b| - 1] == a + b[..n];
      CountKeyAppend(a, b[..n], key);
    }
  }

  /** Two keys neither of which is a prefix of the other. */
  predicate Clash(k1: string, k2: string) {
    exists i | 0 <= i < |k1| && i < |k2| :: k1[i] != k2[i]
  }

  /** Each element contributes one field with its own key, and none with a
      clashing key. */
  lemma {:induction false} CountKeyFields<T>(key: string, other: string, xs: seq<T>, show: T -> string)
    requires Clash(key, other)
    ensures CountKey(Fields(key, xs, show), key) == |xs|
    ensures CountKey(Fields(key, xs, show), other) == 0
    decreases |xs|
  {
    if xs != [] {
      var n := |xs| - 1;
      assert Fields(key, xs, show)[..n] == Fields(key, xs[..n], show);
      CountKeyFields(key, other, xs[..n], show);
      var f := key + show(xs[n]);
      assert f[..|key|] == key;
      var i :| 0 <= i < |key| && i < |other| && key[i] != other[i];
      assert f[i] == key[i];
    }
  }

  /** An id as its decimal text. */
  function IdText(id: U32): string {
    NatToString(id)
  }

  lemma NoDelimiterInNumber(n: nat)
    ensures '&' !in NatToString(n) && '=' !in NatToString(n)
  {
  }

  /** No field holds the delimiter '&'. */
  predicate DelimiterFree(fs: seq<string>) {
    forall i | 0 <= i < |fs| :: '&' !in fs[i]
  }

  lemma IdFieldsDelimiterFree(key: string, ids: seq<U32>)
    requires '&' !in key
    ensures DelimiterFree(Fields(key, ids, IdText))
  {
    forall i | 0 <= i < |ids| ensures '&' !in Fields(key, ids, IdText)[i] {
      assert Fields(key, ids, IdText)[i] == key + IdText(ids[i]);
      NoDelimiterInNumber(ids[i]);
    }
  }

  lemma DelimiterFreeAppend(a: seq<string>, b: seq<string>)
    requires DelimiterFree(a) && DelimiterFree(b)
    ensures DelimiterFree(a + b)
  {
    forall i | 0 <= i < |a + b| ensures '&' !in (a + b)[i] {
      if i >= |a| {
        assert (a + b)[i] == b[i - |a|];
      }
    }
  }

  /** A field that differs from `key` at index `i` does not begin with it. */
  lemma NotPrefix(key: string, f: string, i: nat)
    requires i < |key| && i < |f| && key[i] != f[i]
    ensures !(key <= f)
  {
  }
}
