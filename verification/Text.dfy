/** JavaScript string operations used by the composer and the Q&A sheet parser. */
module Text {
  import opened Sequences

  /** The white space and line terminators that `trim` and `\s` recognise. */
  predicate IsSpace(c: char) {
    || '\t' <= c <= '\r'
    || c == ' '
    || c == '\U{00A0}' || c == '\U{1680}'
    || '\U{2000}' <= c <= '\U{200A}'
    || c == '\U{2028}' || c == '\U{2029}' || c == '\U{202F}' || c == '\U{205F}'
    || c == '\U{3000}' || c == '\U{FEFF}'
  }

  /** The code points that count as white space. */
  lemma SpacesExactly(c: char)
    ensures IsSpace(c) <==>
      c as int in {9, 10, 11, 12, 13, 32, 160, 5760, 8232, 8233, 8239, 8287, 12288, 65279} || 8192 <= c as int <= 8202
  {
  }

  function TrimStart(s: string): string {
    if s != [] && IsSpace(s[0]) then TrimStart(s[1..]) else s
  }

  function TrimEnd(s: string): string {
    if s != [] && IsSpace(s[|s| - 1]) then TrimEnd(s[..|s| - 1]) else s
  }

  function Trim(s: string): string { TrimEnd(TrimStart(s)) }

  predicate Trimmed(s: string) {
    s == [] || (!IsSpace(s[0]) && !IsSpace(s[|s| - 1]))
  }

  /** Trimming leaves a string with no outer white space, and only removes white space. */
  lemma {:induction false} TrimEndResult(s: string)
    ensures TrimEnd(s) <= s
    ensures TrimEnd(s) != [] ==> !IsSpace(TrimEnd(s)[|TrimEnd(s)| - 1])
    ensures forall i :: |TrimEnd(s)| <= i < |s| ==> IsSpace(s[i])
  {
    if s != [] && IsSpace(s[|s| - 1]) {
      TrimEndResult(s[..|s| - 1]);
    }
  }

  ghost predicate AllSpace(s: string) { forall i :: 0 <= i < |s| ==> IsSpace(s[i]) }

  lemma {:induction false} TrimStartExact(s: string) returns (lead: string)
    ensures s == lead + TrimStart(s) && AllSpace(lead)
    ensures TrimStart(s) != [] ==> !IsSpace(TrimStart(s)[0])
  {
    lead := [];
    if s != [] && IsSpace(s[0]) {
      lead := TrimStartExact(s[1..]);
      lead := [s[0]] + lead;
    }
  }

  /** Trimming removes white space at both ends, all of it, and nothing else. */
  lemma TrimExact(s: string) returns (lead: string, trail: string)
    ensures s == lead + Trim(s) + trail && AllSpace(lead) && AllSpace(trail) && Trimmed(Trim(s))
  {
    lead := TrimStartExact(s);
    var rest := TrimStart(s);
    TrimEndResult(rest);
    hide TrimStart;
    hide TrimEnd;
    trail := rest[|Trim(s)|..];
  }

  lemma TrimFixed(s: string)
    requires Trimmed(s)
    ensures Trim(s) == s
  {
  }

  function Join(parts: seq<string>, sep: string): string {
    if parts == [] then ""
    else if |parts| == 1 then parts[0]
    else parts[0] + sep + Join(parts[1..], sep)
  }

  /** `includes`. */
  predicate Contains(s: string, part: string) {
    |part| <= |s| && (part <= s || (s != [] && Contains(s[1..], part)))
  }

  /** `part` occurs somewhere in `s`. */
  ghost predicate Occurs(s: string, part: string) { exists before: string, after: string :: s == before + part + after }

  lemma {:induction false} ContainsExactly(s: string, part: string)
    ensures Contains(s, part) <==> Occurs(s, part)
  {
    if part <= s {
      assert s == [] + part + s[|part|..];
    } else if s != [] {
      ContainsExactly(s[1..], part);
      if before: string, after: string :| s == before + part + after {
        OccursAt(s, part, before, after);
        assert s[1..] == before[1..] + part + after;
      }
      if before: string, after: string :| s[1..] == before + part + after {
        assert s == ([s[0]] + before) + part + after;
      }
    } else if before: string, after: string :| s == before + part + after {
      OccursAt(s, part, before, after);
    }
  }

  lemma OccursAt(s: string, part: string, before: string, after: string)
    requires s == before + part + after
    ensures s == [] ==> part == []
    ensures before == [] ==> part <= s
  {
  }

  /** `split` at a one-character separator. */
  function SplitOn(s: string, c: char): (r: seq<string>)
    ensures r != []
  {
    if s == [] then [""]
    else
      var rest := SplitOn(s[1..], c);
      if s[0] == c then [""] + rest else [[s[0]] + rest[0]] + rest[1..]
  }

  /** Splitting at a separator character reads one piece up to it. */
  lemma {:induction false} SplitFirst(piece: string, c: char, rest: string)
    requires c !in piece
    ensures SplitOn(piece, c) == [piece]
    ensures SplitOn(piece + [c] + rest, c) == [piece] + SplitOn(rest, c)
  {
    if piece == "" {
      assert (piece + [c] + rest)[1..] == rest;
    } else {
      assert (piece + [c] + rest)[1..] == piece[1..] + [c] + rest;
      SplitFirst(piece[1..], c, rest);
      assert [piece[0]] + piece[1..] == piece && piece[0] in piece;
    }
  }

  /** Splitting and joining undo each other, both ways. */
  lemma {:induction false} SplitPieces(s: string, c: char)
    ensures Join(SplitOn(s, c), [c]) == s
    ensures forall piece :: piece in SplitOn(s, c) ==> c !in piece
  {
    if s != "" {
      SplitPieces(s[1..], c);
      var rest := SplitOn(s[1..], c);
      assert s == [s[0]] + s[1..];
      if s[0] == c {
        JoinCons("", rest, c);
        assert "" + [c] + s[1..] == s;
      } else {
        JoinGrow(s[0], rest, c);
        assert rest[0] in rest;
        assert forall piece :: piece in rest[1..] ==> piece in rest;
      }
      hide Join;
    }
  }

  lemma JoinCons(first: string, rest: seq<string>, c: char)
    requires rest != []
    ensures Join([first] + rest, [c]) == first + [c] + Join(rest, [c])
  {
    assert ([first] + rest)[1..] == rest;
  }

  lemma JoinGrow(x: char, rest: seq<string>, c: char)
    requires rest != []
    ensures Join([[x] + rest[0]] + rest[1..], [c]) == [x] + Join(rest, [c])
  {
    var grown := [[x] + rest[0]] + rest[1..];
    assert grown[1..] == rest[1..];
    if |rest| > 1 {
      assert [x] + rest[0] + [c] + Join(rest[1..], [c]) == [x] + (rest[0] + [c] + Join(rest[1..], [c]));
    }
  }

  lemma {:induction false} SplitJoin(lines: seq<string>, c: char)
    requires lines != [] && forall line :: line in lines ==> c !in line
    ensures SplitOn(Join(lines, [c]), c) == lines
  {
    var first, rest := lines[0], lines[1..];
    assert first in lines && lines == [first] + rest;
    if rest == [] {
      SplitFirst(first, c, "");
    } else {
      SplitJoin(rest, c);
      SplitFirst(first, c, Join(rest, [c]));
    }
    hide SplitOn;
  }

  lemma {:induction false} JoinSnoc(parts: seq<string>, last: string, sep: string)
    requires parts != []
    ensures Join(parts + [last], sep) == Join(parts, sep) + sep + last
  {
    assert (parts + [last])[1..] == parts[1..] + [last];
    if |parts| > 1 {
      JoinSnoc(parts[1..], last, sep);
      assert parts[0] + sep + (Join(parts[1..], sep) + sep + last) == parts[0] + sep + Join(parts[1..], sep) + sep + last;
    } else {
      assert parts + [last] == [parts[0], last] && [parts[0], last][1..] == [last];
    }
  }

  lemma {:induction false} JoinConcat(a: seq<string>, b: seq<string>, sep: string)
    requires a != [] && b != []
    ensures Join(a + b, sep) == Join(a, sep) + sep + Join(b, sep)
  {
    assert (a + b)[1..] == a[1..] + b;
    if |a| > 1 {
      JoinConcat(a[1..], b, sep);
      assert a[0] + sep + (Join(a[1..], sep) + sep + Join(b, sep)) == a[0] + sep + Join(a[1..], sep) + sep + Join(b, sep);
    } else {
      assert a[1..] + b == b;
    }
  }

  /** `toLowerCase`, on ASCII letters. */
  function Lower(s: string): string { Map(s, (c: char) => if 'A' <= c <= 'Z' then c - 'A' + 'a' else c) }

  /** ASCII capitals become small letters, everything else stays. */
  lemma LowerExactly(s: string)
    ensures |Lower(s)| == |s|
    ensures forall i :: 0 <= i < |s| ==>
      Lower(s)[i] as int == s[i] as int + if 65 <= s[i] as int <= 90 then 32 else 0
  {
  }
}
