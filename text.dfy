/** Whitespace trimming of one input line, as the scanner does before it
    compares the line with the section delimiters. */
module Text {

  /** The characters Go's unicode.IsSpace accepts: tab, newline, vertical
      tab, form feed, carriage return, space, NEL, NBSP and the Unicode
      space separators. */
  predicate IsSpace(c: char) {
    var n := c as int;
    (0x09 <= n <= 0x0D) || n == 0x20 || n == 0x85 || n == 0xA0 || n == 0x1680 ||
    (0x2000 <= n <= 0x200A) || n == 0x2028 || n == 0x2029 || n == 0x202F ||
    n == 0x205F || n == 0x3000
  }

  predicate AllSpace(s: string) {
    forall k :: 0 <= k < |s| ==> IsSpace(s[k])
  }

  /** True when s is empty or neither starts nor ends with whitespace. */
  predicate Tight(s: string) {
    s == [] || (!IsSpace(s[0]) && !IsSpace(s[|s| - 1]))
  }

  /** The length of the longest all-whitespace prefix of s. */
  function Lead(s: string): (n: nat)
    ensures n <= |s|
  {
    if s == [] || !IsSpace(s[0]) then 0 else 1 + Lead(s[1..])
  }

  /** The length of the longest all-whitespace suffix of s. */
  function Trail(s: string): (n: nat)
    ensures n <= |s|
  {
    if s == [] || !IsSpace(s[|s| - 1]) then 0 else 1 + Trail(s[..|s| - 1])
  }

  /** strings.TrimSpace: s with its leading and trailing whitespace removed. */
  function Trim(s: string): (t: string)
    ensures |t| <= |s|
  {
    var u := s[Lead(s)..];
    u[..|u| - Trail(u)]
  }

  /** Lead(s) counts exactly the whitespace characters that begin s. */
  lemma {:induction false} LeadSpec(s: string)
    ensures forall k :: 0 <= k < Lead(s) ==> IsSpace(s[k])
    ensures Lead(s) < |s| ==> !IsSpace(s[Lead(s)])
  {
    if s != [] && IsSpace(s[0]) {
      LeadSpec(s[1..]);
    }
  }

  /** Trail(s) counts exactly the whitespace characters that end s. */
  lemma {:induction false} TrailSpec(s: string)
    ensures forall k :: |s| - Trail(s) <= k < |s| ==> IsSpace(s[k])
    ensures Trail(s) < |s| ==> !IsSpace(s[|s| - 1 - Trail(s)])
  {
    if s != [] && IsSpace(s[|s| - 1]) {
      TrailSpec(s[..|s| - 1]);
    }
  }

  /** Trim(s) is the slice of s that starts right after its whitespace
      prefix, only whitespace follows it in s, and it neither starts nor
      ends with whitespace. */
  lemma TrimSpec(s: string)
    ensures Lead(s) + |Trim(s)| <= |s|
    ensures Trim(s) == s[Lead(s)..Lead(s) + |Trim(s)|]
    ensures AllSpace(s[Lead(s) + |Trim(s)|..])
    ensures Tight(Trim(s))
  {
    var n := Lead(s);
    var u := s[n..];
    var t := Trim(s);
    assert t == u[..|u| - Trail(u)];
    assert Tight(t) by {
      if t != [] {
        LeadSpec(s);
        TrailSpec(u);
        assert t[0] == s[n];
        assert t[|t| - 1] == u[|u| - 1 - Trail(u)];
      }
    }
    assert AllSpace(s[n + |t|..]) by {
      TrailSpec(u);
      var rest := s[n + |t|..];
      forall k | 0 <= k < |rest| ensures IsSpace(rest[k]) {
        assert rest[k] == u[|t| + k];
      }
    }
  }

  /** Surrounding whitespace is ignored: a tight text padded on both sides
      with whitespace trims back to itself. */
  lemma TrimPadded(a: string, t: string, b: string)
    requires AllSpace(a) && AllSpace(b) && Tight(t)
    ensures Trim(a + t + b) == t
  {
    var s := a + t + b;
    var n := Lead(s);
    var r := Trim(s);
    LeadSpec(s);
    TrimSpec(s);
    if t == [] {
      assert s == a + b;
      assert AllSpace(s) by {
        forall k | 0 <= k < |s| ensures IsSpace(s[k]) {
          if k < |a| { assert s[k] == a[k]; } else { assert s[k] == b[k - |a|]; }
        }
      }
      assert n == |s|;
      assert |r| == 0;
    } else {
      assert s[|a|] == t[0];
      assert s[|a| + |t| - 1] == t[|t| - 1];
      assert n == |a|;
      assert |r| == |t|;
      assert r == s[|a|..|a| + |t|];
      assert s[|a|..|a| + |t|] == t;
    }
  }
}
