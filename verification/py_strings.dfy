/**
 * The few pieces of Python's `str`, `os.path` and `pathlib` behaviour that the
 * transcription service relies on, over strings as sequences of characters.
 */
module PyStrings {
  import opened Wrappers

  /** Python truthiness of an optional string: present and non-empty. */
  predicate Truthy(s: Option<string>) {
    s.Some? && s.value != ""
  }

  /** `a or b` on optional strings: `a` when it is truthy, otherwise `b`. */
  function Or(a: Option<string>, b: Option<string>): (r: Option<string>)
    ensures Truthy(r) <==> Truthy(a) || Truthy(b)
    ensures Truthy(a) ==> r == a
  {
    if Truthy(a) then a else b
  }

  /** The exception classes the modelled code raises or catches, with `str(e)` as the message. */
  datatype ErrorKind = FileNotFoundError | ValueError | RuntimeError | OSError | CloudError
  datatype PyError = PyError(kind: ErrorKind, message: string)

  /** `str.lower()` on one character; only the ASCII letters change. */
  function LowerChar(c: char): (r: char)
    ensures 'A' <= c <= 'Z' ==> 'a' <= r <= 'z'
    ensures !('A' <= c <= 'Z') ==> r == c
  {
    if 'A' <= c <= 'Z' then (c as int - 'A' as int + 'a' as int) as char else c
  }

  /** `str.lower()` (ASCII letters only). */
  function Lower(s: string): (r: string)
    ensures |r| == |s|
    ensures forall i :: 0 <= i < |s| ==> r[i] == LowerChar(s[i])
  {
    seq(|s|, i requires 0 <= i < |s| => LowerChar(s[i]))
  }

  /** `s.rfind(c)`: the index of the last occurrence of `c`, or -1. */
  function RFind(s: string, c: char): (i: int)
    ensures -1 <= i < |s|
    ensures 0 <= i ==> s[i] == c
    ensures forall j :: i < j < |s| ==> s[j] != c
  {
    if s == [] then -1
    else if s[|s| - 1] == c then |s| - 1
    else RFind(s[..|s| - 1], c)
  }

  function StartsWith(s: string, prefix: string): bool {
    |prefix| <= |s| && s[..|prefix|] == prefix
  }

  function EndsWith(s: string, suffix: string): bool {
    |suffix| <= |s| && s[|s| - |suffix|..] == suffix
  }

  /** `os.path.basename(p)` on POSIX: everything after the last '/'. */
  function Basename(p: string): (b: string)
    ensures '/' !in b
  {
    p[RFind(p, '/') + 1..]
  }

  /**
   * `PurePosixPath(p).name`: the last component once empty and "." components
   * are dropped (so trailing slashes are ignored), or "" when none is left.
   */
  function PathName(p: string): (name: string)
    ensures '/' !in name && name != "."
    decreases |p|
  {
    var i := RFind(p, '/');
    var last := p[i + 1..];
    if last != "" && last != "." then last
    else if i < 0 then ""
    else PathName(p[..i])
  }

  /**
   * `PurePosixPath(p).suffix`: from the last '.' of the final component, when that
   * dot is neither its first nor its last character; otherwise "".
   */
  function Suffix(p: string): (ext: string)
    ensures ext == "" || (ext[0] == '.' && '.' !in ext[1..] && |ext| >= 2)
    ensures '/' !in ext
  {
    var name := PathName(p);
    var i := RFind(name, '.');
    if 0 < i < |name| - 1 then name[i..] else ""
  }

  /** `s.rsplit('.', 1)[0]`: `s` up to its last '.', or all of `s` when it has none. */
  function RSplitHead(s: string): (head: string)
    ensures head <= s
  {
    var i := RFind(s, '.');
    if i < 0 then s else s[..i]
  }

  /** The head is the whole string, or it stops at a '.'. */
  lemma RSplitHeadCut(s: string)
    ensures var head := RSplitHead(s); head == s || (|head| < |s| && s[|head|] == '.')
  {
  }

  /** `s.replace(old, new)`: every non-overlapping occurrence, scanning left to right. */
  function ReplaceAll(s: string, pat: string, rep: string): string
    requires pat != ""
    decreases |s|
  {
    if |s| < |pat| then s
    else if s[..|pat|] == pat then rep + ReplaceAll(s[|pat|..], pat, rep)
    else [s[0]] + ReplaceAll(s[1..], pat, rep)
  }

  /** `' '.join(xs)`. */
  function JoinSpace(xs: seq<string>): string {
    if |xs| == 0 then ""
    else if |xs| == 1 then xs[0]
    else JoinSpace(xs[..|xs| - 1]) + " " + xs[|xs| - 1]
  }

  /** `c * n` for a one-character string `c`. */
  function Repeat(c: char, n: nat): (r: string)
    ensures |r| == n && forall i :: 0 <= i < n ==> r[i] == c
  {
    seq(n, _ => c)
  }

  function DigitChar(d: nat): char
    requires d < 10
  {
    "0123456789"[d]
  }

  /** `str(n)` for a non-negative integer: its decimal digits. */
  function NatToString(n: nat): (s: string)
    ensures |s| >= 1
    ensures forall i :: 0 <= i < |s| ==> '0' <= s[i] <= '9'
  {
    if n < 10 then [DigitChar(n)] else NatToString(n / 10) + [DigitChar(n % 10)]
  }

  /** `str(n)` for any integer. */
  function IntToString(n: int): (s: string)
    ensures '/' !in s
  {
    if n < 0 then "-" + NatToString(-n) else NatToString(n)
  }

  /** `pat` occurs in `s` starting at index `k`. */
  predicate OccursAt(s: string, pat: string, k: nat) {
    k + |pat| <= |s| && s[k..k + |pat|] == pat
  }

  /** No two consecutive '/' characters. */
  predicate NoDoubleSlash(s: string) {
    forall i :: 0 <= i < |s| - 1 ==> !(s[i] == '/' && s[i + 1] == '/')
  }

  /** Two slash-free parts joined by one '/' hold no "//". */
  lemma SlashJoin(dir: string, rest: string)
    requires '/' !in dir && '/' !in rest
    ensures NoDoubleSlash(dir + "/" + rest)
  {
    var s := dir + "/" + rest;
    forall i | 0 <= i < |s| - 1
      ensures !(s[i] == '/' && s[i + 1] == '/')
    {
      if i < |dir| {
        assert s[i] == dir[i];
      } else {
        assert s[i + 1] == rest[i - |dir|];
      }
    }
  }

  /** Joining two non-empty lists with a space joins their joins with a space. */
  lemma {:induction false} JoinSpaceAppend(xs: seq<string>, ys: seq<string>)
    requires xs != [] && ys != []
    ensures JoinSpace(xs + ys) == JoinSpace(xs) + " " + JoinSpace(ys)
    decreases |ys|
  {
    if |ys| == 1 {
      assert (xs + ys)[..|xs + ys| - 1] == xs;
    } else {
      var ys' := ys[..|ys| - 1];
      assert (xs + ys)[..|xs + ys| - 1] == xs + ys';
      JoinSpaceAppend(xs, ys');
    }
  }

  /** A string in which `pat` does not occur is left as it is by `replace`. */
  lemma {:induction false} ReplaceAbsent(s: string, pat: string, rep: string)
    requires pat != ""
    requires forall k: nat :: !OccursAt(s, pat, k)
    ensures ReplaceAll(s, pat, rep) == s
    decreases |s|
  {
    if |s| >= |pat| {
      assert !OccursAt(s, pat, 0);
      forall k: nat
        ensures !OccursAt(s[1..], pat, k)
      {
        assert !OccursAt(s, pat, k + 1);
        if k + |pat| <= |s[1..]| {
          assert s[1..][k..k + |pat|] == s[k + 1..k + 1 + |pat|];
        }
      }
      ReplaceAbsent(s[1..], pat, rep);
      assert [s[0]] + s[1..] == s;
    }
  }

  /**
   * Stripping `"gs://" + bucket + "/"` from a URI built by prefixing it to a
   * name with no doubled slash gives back exactly that name.
   */
  lemma StripBucketPrefix(bucket: string, name: string)
    requires NoDoubleSlash(name)
    ensures ReplaceAll("gs://" + bucket + "/" + name, "gs://" + bucket + "/", "") == name
  {
    var pattern := "gs://" + bucket + "/";
    var s := pattern + name;
    assert s[..|pattern|] == pattern;
    assert s[|pattern|..] == name;
    forall k: nat
      ensures !OccursAt(name, pattern, k)
    {
      if k + |pattern| <= |name| {
        assert !(name[k + 3] == '/' && name[k + 4] == '/');
        assert name[k..k + |pattern|][3] == name[k + 3];
        assert name[k..k + |pattern|][4] == name[k + 4];
      }
    }
    ReplaceAbsent(name, pattern, "");
  }

  /** `str.lower()` does not move '/' or '.'. */
  lemma RFindLower(s: string, c: char)
    requires c == '/' || c == '.'
    ensures RFind(Lower(s), c) == RFind(s, c)
  {
    var i, j := RFind(Lower(s), c), RFind(s, c);
    if j >= 0 { assert Lower(s)[j] == LowerChar(s[j]) == c; }
    if i >= 0 { assert LowerChar(s[i]) == c; }
  }

  lemma LowerSlice(s: string, a: nat, b: nat)
    requires a <= b <= |s|
    ensures Lower(s)[a..b] == Lower(s[a..b])
  {
  }

  lemma LowerIdempotent(s: string)
    ensures Lower(Lower(s)) == Lower(s)
  {
  }

  /** A final part after the last '/' that is neither empty nor "." is the final component. */
  lemma PathNameNamed(q: string, i: int)
    requires i == RFind(q, '/') && q[i + 1..] != "" && q[i + 1..] != "."
    ensures PathName(q) == q[i + 1..]
  {
  }

  /** Without a '/' and without a usable name there is no final component. */
  lemma PathNameNone(q: string)
    requires RFind(q, '/') < 0 && (q == "" || q == ".")
    ensures PathName(q) == []
  {
  }

  /** Lower-casing leaves "" and "." alone. */
  lemma LowerEmptyOrDot(s: string)
    requires s == "" || s == "."
    ensures Lower(s) == s
  {
  }

  /** Otherwise the final component is looked for before the last '/'. */
  lemma PathNameUp(q: string, i: int)
    requires i == RFind(q, '/') && 0 <= i && (q[i + 1..] == "" || q[i + 1..] == ".")
    ensures PathName(q) == PathName(q[..i])
  {
  }

  /** The final path component commutes with lower-casing. */
  lemma {:induction false} PathNameLower(p: string)
    ensures PathName(Lower(p)) == Lower(PathName(p))
    decreases |p|
  {
    var i := RFind(p, '/');
    var last := p[i + 1..];
    if last != "" && last != "." {
      NamedLower(p, i);
    } else if i < 0 {
      NoneLower(p);
    } else {
      PathNameLower(p[..i]);
      UpLower(p, i);
    }
  }

  lemma NamedLower(p: string, i: int)
    requires i == RFind(p, '/') && p[i + 1..] != "" && p[i + 1..] != "."
    ensures PathName(Lower(p)) == Lower(PathName(p))
  {
    var lp, last := Lower(p), p[i + 1..];
    RFindLower(p, '/');
    LowerSlice(p, i + 1, |p|);
    LowerNotEmptyOrDot(last);
    PathNameNamed(p, i);
    PathNameNamed(lp, i);
  }

  lemma NoneLower(p: string)
    requires RFind(p, '/') < 0 && (p == "" || p == ".")
    ensures PathName(Lower(p)) == Lower(PathName(p))
  {
    LowerEmptyOrDot(p);
    PathNameNone(p);
  }

  lemma UpLower(p: string, i: int)
    requires i == RFind(p, '/') && 0 <= i && (p[i + 1..] == "" || p[i + 1..] == ".")
    requires PathName(Lower(p[..i])) == Lower(PathName(p[..i]))
    ensures PathName(Lower(p)) == Lower(PathName(p))
  {
    var lp, last := Lower(p), p[i + 1..];
    RFindLower(p, '/');
    LowerSlice(p, i + 1, |p|);
    LowerEmptyOrDot(last);
    LowerSlice(p, 0, i);
    PathNameUp(p, i);
    PathNameUp(lp, i);
  }

  /** Lower-casing neither empties a string nor turns it into ".". */
  lemma LowerNotEmptyOrDot(s: string)
    requires s != "" && s != "."
    ensures Lower(s) != "" && Lower(s) != "."
  {
    if |s| == 1 {
      assert Lower(s)[0] == LowerChar(s[0]);
    }
  }

  /** A final component with a dot inside has the suffix from that dot. */
  lemma SuffixSome(p: string, name: string, i: int)
    requires name == PathName(p) && i == RFind(name, '.') && 0 < i < |name| - 1
    ensures Suffix(p) == name[i..]
  {
  }

  /** A final component without a dot inside has no suffix. */
  lemma SuffixNone(p: string, name: string, i: int)
    requires name == PathName(p) && i == RFind(name, '.') && !(0 < i < |name| - 1)
    ensures Suffix(p) == []
  {
  }

  /** The suffix commutes with lower-casing. */
  lemma SuffixLower(p: string)
    ensures Suffix(Lower(p)) == Lower(Suffix(p))
  {
    var name := PathName(p);
    var lname := Lower(name);
    var i := RFind(name, '.');
    PathNameLower(p);
    RFindLower(name, '.');
    if 0 < i < |name| - 1 {
      SuffixSome(p, name, i);
      SuffixSome(Lower(p), lname, i);
      LowerSlice(name, i, |name|);
    } else {
      SuffixNone(p, name, i);
      SuffixNone(Lower(p), lname, i);
      assert |Lower(Suffix(p))| == 0;
    }
  }
}
