/** Small vocabulary shared by the models: optional values and bounded windows over logs. */
module Prelude {
  datatype Option<+T> = None | Some(value: T)

  /** The newest `n` elements of a log: Python's `s[-n:]` guarded by `len(s) > n`. */
  function LastN<T>(n: nat, s: seq<T>): seq<T> {
    if |s| <= n then s else s[|s| - n..]
  }

  /** Truncating after every append keeps exactly the newest `n` elements of the whole log. */
  lemma {:induction false} LastNAppend<T>(n: nat, s: seq<T>, x: T)
    ensures LastN(n, LastN(n, s) + [x]) == LastN(n, s + [x])
  {
  }

  /** Clock readings are in microseconds. */
  const SECOND := 1_000_000

  /** A text is split by its first separator in one way only. */
  lemma SplitAtFirst(a: string, b: string, c: string, d: string, sep: char)
    requires sep !in a && sep !in c && a + [sep] + b == c + [sep] + d
    ensures a == c && b == d
  {
    var s := a + [sep] + b;
    assert s[|a|] == sep && s[|c|] == sep by { assert s == c + [sep] + d; }
    assert forall i :: 0 <= i < |a| ==> s[i] == a[i] && s[i] != sep;
    assert forall i :: 0 <= i < |c| ==> s[i] == c[i] && s[i] != sep by { assert s == c + [sep] + d; }
    assert |a| == |c|;
    assert b == s[|a| + 1..] && d == s[|a| + 1..];
  }

  /** And by its last one. */
  lemma SplitAtLast(a: string, b: string, c: string, d: string, sep: char)
    requires sep !in b && sep !in d && a + [sep] + b == c + [sep] + d
    ensures a == c && b == d
  {
    var s := a + [sep] + b;
    assert s[|a|] == sep && s[|c|] == sep by { assert s == c + [sep] + d; }
    assert forall i :: |a| < i < |s| ==> s[i] == b[i - |a| - 1] && s[i] != sep;
    assert forall i :: |c| < i < |s| ==> s[i] == d[i - |c| - 1] && s[i] != sep by { assert s == c + [sep] + d; }
    assert |a| == |c|;
    assert a == s[..|a|] && c == s[..|a|];
    assert b == s[|a| + 1..] && d == s[|a| + 1..];
  }
}
