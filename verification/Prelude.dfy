/** Small vocabulary shared by every module: optional values, error results
    and the Python idioms the source leans on (tail slices, prefix tests). */
module Prelude {

  datatype Option<+T> = None | Some(value: T)

  datatype Result<+T, +E> = Ok(value: T) | Err(error: E)

  /** Python's `s[-n:]`: the last n elements, and the whole of s when n is 0. */
  function TailSlice<T>(s: seq<T>, n: nat): seq<T> {
    if n == 0 || |s| <= n then s else s[|s| - n..]
  }

  /** The last min(n, |s|) elements. */
  function LastN<T>(s: seq<T>, n: nat): seq<T> {
    if |s| <= n then s else s[|s| - n..]
  }

  function Last<T>(s: seq<T>): T
    requires s != []
  {
    s[|s| - 1]
  }

  function DropLast<T>(s: seq<T>): seq<T>
    requires s != []
  {
    s[..|s| - 1]
  }

  function Repeat<T>(x: T, n: nat): seq<T> {
    seq(n, _ => x)
  }

  /** Peeling the last element off a concatenation with a singleton. */
  lemma SnocParts<T>(s: seq<T>, x: T)
    ensures DropLast(s + [x]) == s && Last(s + [x]) == x
  {
  }

  /** The sum of a weight over a sequence. */
  function Total<T>(weight: T -> int, s: seq<T>): int {
    if s == [] then 0 else weight(s[0]) + Total(weight, s[1..])
  }

  lemma {:induction false} TotalConcat<T>(weight: T -> int, a: seq<T>, b: seq<T>)
    ensures Total(weight, a + b) == Total(weight, a) + Total(weight, b)
  {
    if a == [] {
      assert a + b == b;
    } else {
      assert (a + b)[1..] == a[1..] + b;
      TotalConcat(weight, a[1..], b);
    }
  }

  /** Totals of short sequences. */
  lemma TotalShort<T>(weight: T -> int, s: seq<T>)
    ensures |s| == 1 ==> Total(weight, s) == weight(s[0])
    ensures |s| == 2 ==> Total(weight, s) == weight(s[0]) + weight(s[1])
  {
    if |s| == 1 {
      assert s[1..] == [];
    } else if |s| == 2 {
      assert s[1..] == [s[1]] && s[1..][1..] == [];
    }
  }

  lemma {:induction false} TotalConstant<T>(weight: T -> int, s: seq<T>, c: int)
    requires forall i | 0 <= i < |s| :: weight(s[i]) == c
    ensures Total(weight, s) == c * |s|
  {
    if s != [] {
      TotalConstant(weight, s[1..], c);
    }
  }
}
