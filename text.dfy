/** Text helpers with JavaScript's meaning: the `\s` whitespace class,
    `trim()`, the `/\s+/g` replacement, ASCII `toLowerCase()`, `join`,
    `split` and `substring`. */
module Text {

  /** The characters JavaScript's `\s` and `String.prototype.trim` treat as white space. */
  predicate IsSpace(c: char) {
    c == ' ' || c == '\t' || c == '\n' || c == '\r' || c == '\U{B}' || c == '\U{C}'
    || c == '\U{A0}' || c == '\U{1680}' || ('\U{2000}' <= c <= '\U{200A}')
    || c == '\U{2028}' || c == '\U{2029}' || c == '\U{202F}' || c == '\U{205F}'
    || c == '\U{3000}' || c == '\U{FEFF}'
  }

  predicate NoSpace(s: string) {
    forall i :: 0 <= i < |s| ==> !IsSpace(s[i])
  }

  predicate IsBlank(s: string) {
    forall i :: 0 <= i < |s| ==> IsSpace(s[i])
  }

  function TrimStart(s: string): (r: string)
    ensures |r| <= |s| && r == s[|s| - |r|..]
    ensures r == [] || !IsSpace(r[0])
    ensures IsBlank(s[..|s| - |r|])
    decreases |s|
  {
    if s != [] && IsSpace(s[0]) then
      var r := TrimStart(s[1..]);
      assert s[1..][|s| - 1 - |r|..] == s[|s| - |r|..];
      assert s[..|s| - |r|] == [s[0]] + s[1..][..|s| - 1 - |r|];
      r
    else s
  }

  function TrimEnd(s: string): (r: string)
    ensures |r| <= |s| && r == s[..|r|]
    ensures r == [] || !IsSpace(r[|r| - 1])
    ensures IsBlank(s[|r|..])
    decreases |s|
  {
    if s != [] && IsSpace(s[|s| - 1]) then
      var init := s[..|s| - 1];
      var r := TrimEnd(init);
      assert init[..|r|] == s[..|r|];
      assert s[|r|..] == init[|r|..] + [s[|s| - 1]];
      r
    else s
  }

  /** `s.trim()`. */
  function Trim(s: string): (r: string)
  {
    TrimEnd(TrimStart(s))
  }

  /** `s.trim()` is falsy (empty) exactly when `s` is white space only. */
  lemma TrimEmptyIffBlank(s: string)
    ensures Trim(s) == "" <==> IsBlank(s)
  {
    var t := TrimStart(s);
    if IsBlank(s) {
      TrimStartBlank(s);
    }
    if Trim(s) == "" {
      assert t[0..] == t;
      assert s[..|s|] == s;
    }
  }

  lemma {:induction false} TrimStartBlank(s: string)
    requires IsBlank(s)
    ensures TrimStart(s) == ""
    decreases |s|
  {
    if s != [] {
      TrimStartBlank(s[1..]);
    }
  }

  /** Drops a leading run of white space. */
  function DropSpaces(s: string): (r: string)
    ensures |r| <= |s|
    ensures r == [] || !IsSpace(r[0])
    decreases |s|
  {
    if s != [] && IsSpace(s[0]) then DropSpaces(s[1..]) else s
  }

  /** `s.replace(/\s+/g, '-')`: each maximal run of white space becomes one
      dash. The contract gives the shape of the result; the run rule itself
      is `DashRunsOfRun` (a run between two words) and `DashRunsGap` (a
      leading run), and text without white space is kept (`DashRunsNoSpace`). */
  function DashRuns(s: string): (r: string)
    ensures NoSpace(r)
    ensures |r| <= |s| && (r == [] <==> s == [])
    decreases |s|
  {
    if s == [] then []
    else if IsSpace(s[0]) then "-" + DashRuns(DropSpaces(s[1..]))
    else [s[0]] + DashRuns(s[1..])
  }

  /** Text without white space passes the replacement unchanged. */
  lemma {:induction false} DashRunsNoSpace(s: string)
    requires NoSpace(s)
    ensures DashRuns(s) == s
    decreases |s|
  {
    if s != [] {
      DashRunsNoSpace(s[1..]);
    }
  }

  /** One white-space run, however long, gives one dash. */
  lemma {:induction false} DashRunsOfRun(a: string, gap: string, b: string)
    requires NoSpace(a) && gap != [] && IsBlank(gap) && NoSpace(b)
    ensures DashRuns(a + gap + b) == a + "-" + b
    decreases |a|
  {
    if a == [] {
      assert a + gap + b == gap + b;
      DashRunsGap(gap, b);
    } else {
      var s := a + gap + b;
      assert s[0] == a[0];
      assert s[1..] == a[1..] + gap + b;
      DashRunsOfRun(a[1..], gap, b);
      assert a + "-" + b == [a[0]] + (a[1..] + "-" + b);
    }
  }

  lemma DashRunsGap(gap: string, b: string)
    requires gap != [] && IsBlank(gap) && NoSpace(b)
    ensures DashRuns(gap + b) == "-" + b
  {
    var s := gap + b;
    assert s[0] == gap[0];
    assert s[1..] == gap[1..] + b;
    DropBlank(gap[1..], b);
    DashRunsNoSpace(b);
  }

  lemma DropBlank(gap: string, b: string)
    requires IsBlank(gap) && (b == [] || !IsSpace(b[0]))
    ensures DropSpaces(gap + b) == b
    decreases |gap|
  {
    if gap != [] {
      assert (gap + b)[1..] == gap[1..] + b;
      DropBlank(gap[1..], b);
    } else {
      assert gap + b == b;
    }
  }

  function LowerChar(c: char): (d: char)
    ensures IsSpace(d) <==> IsSpace(c)
    ensures !('A' <= d <= 'Z')
  {
    if 'A' <= c <= 'Z' then (c as int - 'A' as int + 'a' as int) as char else c
  }

  /** `s.toLowerCase()` on the ASCII letters. */
  function ToLower(s: string): (r: string)
    ensures |r| == |s|
    ensures forall i :: 0 <= i < |s| ==> r[i] == LowerChar(s[i])
  {
    seq(|s|, i requires 0 <= i < |s| => LowerChar(s[i]))
  }

  /** Lower-casing is idempotent. */
  lemma ToLowerIdempotent(s: string)
    ensures ToLower(ToLower(s)) == ToLower(s)
  {
  }

  /** `parts.join(sep)`. */
  function Join(parts: seq<string>, sep: string): (r: string)
    ensures parts == [] ==> r == ""
    ensures |parts| == 1 ==> r == parts[0]
    decreases |parts|
  {
    if parts == [] then ""
    else if |parts| == 1 then parts[0]
    else parts[0] + sep + Join(parts[1..], sep)
  }

  /** `s.split(sep)`: the pieces between the separators; there is always one
      more piece than there are separators. */
  function Split(s: string, sep: char): (r: seq<string>)
    ensures |r| >= 1
    decreases |s|
  {
    if s == [] then [""]
    else
      var rest := Split(s[1..], sep);
      if s[0] == sep then [""] + rest else [[s[0]] + rest[0]] + rest[1..]
  }

  lemma {:induction false} SplitPlain(a: string, sep: char)
    requires sep !in a
    ensures Split(a, sep) == [a]
    decreases |a|
  {
    if a != [] {
      SplitPlain(a[1..], sep);
      assert [a[0]] + a[1..] == a;
    }
  }

  lemma {:induction false} SplitAfter(a: string, rest: string, sep: char)
    requires sep !in a
    ensures Split(a + [sep] + rest, sep) == [a] + Split(rest, sep)
    decreases |a|
  {
    var s := a + [sep] + rest;
    if a == [] {
      assert s[0] == sep && s[1..] == rest;
    } else {
      assert s[0] == a[0];
      assert s[1..] == a[1..] + [sep] + rest;
      SplitAfter(a[1..], rest, sep);
      assert [a[0]] + a[1..] == a;
    }
  }

  /** Splitting a join gives the parts back when no part holds the separator. */
  lemma {:induction false} SplitJoin(parts: seq<string>, sep: char)
    requires |parts| >= 1
    requires forall i :: 0 <= i < |parts| ==> sep !in parts[i]
    ensures Split(Join(parts, [sep]), sep) == parts
    decreases |parts|
  {
    if |parts| == 1 {
      SplitPlain(parts[0], sep);
    } else {
      SplitJoin(parts[1..], sep);
      SplitAfter(parts[0], Join(parts[1..], [sep]), sep);
      assert [parts[0]] + parts[1..] == parts;
    }
  }

  /** A character that is neither in the separator nor in any part is not in the join. */
  lemma {:induction false} JoinAvoids(parts: seq<string>, sep: string, c: char)
    requires c !in sep
    requires forall i :: 0 <= i < |parts| ==> c !in parts[i]
    ensures c !in Join(parts, sep)
    decreases |parts|
  {
    if |parts| > 1 {
      JoinAvoids(parts[1..], sep, c);
    }
  }

  /** A join splits at any inner index into the join of the two halves. */
  lemma {:induction false} JoinAt(parts: seq<string>, sep: string, i: nat)
    requires 0 < i < |parts|
    ensures Join(parts, sep) == Join(parts[..i], sep) + sep + Join(parts[i..], sep)
    decreases i
  {
    if i > 1 {
      JoinAt(parts[1..], sep, i - 1);
      assert parts[1..][..i - 1] == parts[..i][1..];
      assert parts[1..][i - 1..] == parts[i..];
    }
  }

  /** Where part `i` begins in the join of `parts`. */
  function PartStart(parts: seq<string>, sep: string, i: nat): nat
    requires i < |parts|
  {
    if i == 0 then 0 else |Join(parts[..i], sep)| + |sep|
  }

  /** A join begins with its first part. */
  lemma JoinStartsWithFirst(parts: seq<string>, sep: string)
    requires parts != []
    ensures |parts[0]| <= |Join(parts, sep)| && Join(parts, sep)[..|parts[0]|] == parts[0]
  {
    if |parts| > 1 {
      var r := Join(parts, sep);
      assert r == parts[0] + (sep + Join(parts[1..], sep));
    }
  }

  /** The parts of a join appear in it in order: part `i` at its start, and
      the next part one separator after its end. */
  lemma {:induction false} JoinPartPosition(parts: seq<string>, sep: string, i: nat)
    requires i < |parts|
    ensures var s := PartStart(parts, sep, i);
      && s + |parts[i]| <= |Join(parts, sep)|
      && Join(parts, sep)[s..s + |parts[i]|] == parts[i]
      && (i + 1 < |parts| ==> PartStart(parts, sep, i + 1) == s + |parts[i]| + |sep|)
  {
    var b := Join(parts, sep);
    var s := PartStart(parts, sep, i);
    var part := parts[i];
    JoinStartsWithFirst(parts[i..], sep);
    assert parts[i..][0] == part;
    var tail := Join(parts[i..], sep);
    if i == 0 {
      assert parts[i..] == parts;
    } else {
      JoinAt(parts, sep, i);
      assert b == Join(parts[..i], sep) + sep + tail;
      assert b[s..s + |part|] == tail[..|part|];
    }
    if i + 1 < |parts| {
      var pre := parts[..i + 1];
      if i == 0 {
        assert |pre| == 1;
      } else {
        JoinAt(pre, sep, i);
        assert pre[..i] == parts[..i];
        assert pre[i..] == [part];
      }
    }
  }

  /** `s.substring(0, n)`. */
  function Prefix(s: string, n: nat): (r: string)
    ensures |r| == if |s| <= n then |s| else n
    ensures s == r + s[|r|..]
  {
    if |s| <= n then s else s[..n]
  }
}
