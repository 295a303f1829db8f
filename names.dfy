/** Identifier normalization: `ltrim($id, "\\")`. */
module Names {

  /** True when every character of `p` is a backslash. */
  predicate AllBackslashes(p: string) {
    forall i :: 0 <= i < |p| ==> p[i] == '\\'
  }

  /** Strips every leading backslash. */
  function Normalize(id: string): (r: string)
    ensures r == [] || r[0] != '\\'
  {
    if |id| > 0 && id[0] == '\\' then Normalize(id[1..]) else id
  }

  /** The result is the suffix of `id` that follows its longest
      all-backslash prefix. */
  lemma {:induction false} NormalizeIsSuffix(id: string)
    ensures |Normalize(id)| <= |id|
    ensures Normalize(id) == id[|id| - |Normalize(id)|..]
    ensures AllBackslashes(id[..|id| - |Normalize(id)|])
  {
    if |id| > 0 && id[0] == '\\' {
      NormalizeIsSuffix(id[1..]);
      var r := Normalize(id);
      assert id[1..][|id| - 1 - |r|..] == id[|id| - |r|..];
      forall i | 0 <= i < |id| - |r| ensures id[i] == '\\' {
        if i > 0 { assert id[i] == id[1..][..|id| - 1 - |r|][i - 1]; }
      }
    }
  }

  /** A normalized id is its own normal form. */
  lemma NormalizeIdempotent(id: string)
    ensures Normalize(Normalize(id)) == Normalize(id)
  {
  }

  /** Any run of leading backslashes is ignored. */
  lemma {:induction false} NormalizeIgnoresBackslashPrefix(p: string, x: string)
    requires AllBackslashes(p)
    ensures Normalize(p + x) == Normalize(x)
  {
    if p != [] {
      assert (p + x)[0] == p[0] == '\\';
      assert (p + x)[1..] == p[1..] + x;
      assert AllBackslashes(p[1..]) by {
        forall i | 0 <= i < |p[1..]| ensures p[1..][i] == '\\' { assert p[1..][i] == p[i + 1]; }
      }
      NormalizeIgnoresBackslashPrefix(p[1..], x);
    } else {
      assert p + x == x;
    }
  }
}
