/** White space trimming and joining, as Go's strings package does them. */
module Text {
  /** The white space characters of Unicode, as Go's unicode.IsSpace lists them. */
  predicate IsSpace(c: char) {
    || c in {' ', '\t', '\n', '\r', '\U{0B}', '\U{0C}', '\U{85}', '\U{A0}'}
    || c in {'\U{1680}', '\U{2028}', '\U{2029}', '\U{202F}', '\U{205F}', '\U{3000}'}
    || '\U{2000}' <= c <= '\U{200A}'
  }

  function TrimSpace(s: string): string
    decreases |s|
  {
    if s != "" && IsSpace(s[0]) then TrimSpace(s[1..])
    else if s != "" && IsSpace(s[|s| - 1]) then TrimSpace(s[..|s| - 1])
    else s
  }

  predicate AllSpace(s: string) {
    forall k :: 0 <= k < |s| ==> IsSpace(s[k])
  }

  /** Trimming takes white space off both ends, all of it, and changes nothing else. */
  lemma {:induction false} TrimSpaceMeans(s: string) returns (lead: string, trail: string)
    ensures s == lead + TrimSpace(s) + trail && AllSpace(lead) && AllSpace(trail)
    ensures var t := TrimSpace(s); t != "" ==> !IsSpace(t[0]) && !IsSpace(t[|t| - 1])
    decreases |s|
  {
    hide IsSpace;
    lead, trail := "", "";
    if s != "" && IsSpace(s[0]) {
      lead, trail := TrimSpaceMeans(s[1..]);
      Shift(s[0], lead, TrimSpace(s[1..]), trail);
      assert s == [s[0]] + s[1..];
      lead := [s[0]] + lead;
    } else if s != "" && IsSpace(s[|s| - 1]) {
      lead, trail := TrimSpaceMeans(s[..|s| - 1]);
      Append(lead, TrimSpace(s[..|s| - 1]), trail, s[|s| - 1]);
      assert s == s[..|s| - 1] + [s[|s| - 1]];
      trail := trail + [s[|s| - 1]];
    } else {
      assert s == "" + s + "";
    }
  }

  lemma Shift(c: char, lead: string, t: string, trail: string)
    ensures [c] + (lead + t + trail) == ([c] + lead) + t + trail
  {
  }

  lemma Append(lead: string, t: string, trail: string, c: char)
    ensures (lead + t + trail) + [c] == lead + t + (trail + [c])
  {
  }

  /** The parts with `sep` between them. */
  function Join(parts: seq<string>, sep: string): string {
    if parts == [] then ""
    else if |parts| == 1 then parts[0]
    else parts[0] + sep + Join(parts[1..], sep)
  }

  /** Joining two lists puts the separator between what they join to, and one part joins to itself. */
  lemma {:induction false} JoinConcat(a: seq<string>, b: seq<string>, sep: string)
    requires a != [] && b != []
    ensures Join(a + b, sep) == Join(a, sep) + sep + Join(b, sep)
    ensures Join([a[0]], sep) == a[0]
  {
    assert (a + b)[1..] == a[1..] + b;
    if |a| == 1 {
      assert a[1..] + b == b;
    } else {
      JoinConcat(a[1..], b, sep);
      var x, y := Join(a[1..], sep), Join(b, sep);
      assert a[0] + sep + (x + sep + y) == a[0] + sep + x + sep + y;
    }
  }

  const NUL := "\0"

  function FirstNul(s: string): (k: nat)
    ensures k <= |s|
  {
    if s == "" || s[0] == '\0' then 0 else 1 + FirstNul(s[1..])
  }

  lemma {:induction false} FirstNulAfter(x: string, s: string)
    requires '\0' !in x && (s == "" || s[0] == '\0')
    ensures FirstNul(x + s) == |x|
  {
    if x == "" {
      assert x + s == s;
    } else {
      assert (x + s)[1..] == x[1..] + s;
      FirstNulAfter(x[1..], s);
    }
  }

  /** What follows the first part in the joined form. */
  function RestOf(parts: seq<string>): string {
    if |parts| <= 1 then "" else NUL + Join(parts[1..], NUL)
  }

  lemma HeadOf(parts: seq<string>)
    requires parts != [] && '\0' !in parts[0]
    ensures Join(parts, NUL) == parts[0] + RestOf(parts)
    ensures FirstNul(Join(parts, NUL)) == |parts[0]|
  {
    FirstNulAfter(parts[0], RestOf(parts));
    assert |parts| == 1 ==> parts[0] + "" == parts[0];
  }

  predicate Part(s: string) {
    s != "" && '\0' !in s
  }

  /** A list of non-empty parts without NUL can be read back from its NUL-separated form. */
  lemma {:induction false} JoinInjective(a: seq<string>, b: seq<string>)
    requires forall k :: 0 <= k < |a| ==> Part(a[k])
    requires forall k :: 0 <= k < |b| ==> Part(b[k])
    requires Join(a, NUL) == Join(b, NUL)
    ensures a == b
  {
    if a != [] && b != [] {
      HeadOf(a);
      HeadOf(b);
      var n, joined := |a[0]|, Join(a, NUL);
      assert a[0] == joined[..n] == b[0];
      assert RestOf(a) == joined[n..] == RestOf(b);
      assert a == [a[0]] + a[1..] && b == [b[0]] + b[1..];
      if |a| > 1 && |b| > 1 {
        assert RestOf(a)[1..] == Join(a[1..], NUL) && RestOf(b)[1..] == Join(b[1..], NUL);
        hide Join;
        JoinInjective(a[1..], b[1..]);
      }
    } else if a != [] {
      HeadOf(a);
    } else if b != [] {
      HeadOf(b);
    }
  }
}
