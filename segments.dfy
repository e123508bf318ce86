/** `splitIntoSegments` (main.js:1704-1710): a reply is cut at blank lines
    into the bubbles shown one after another. The cut is JavaScript's
    `String.prototype.split` with the regular expression `/\r?\n\s*\r?\n/`;
    each piece is then trimmed and empty pieces are dropped. */
module Segments {
  import opened Wrappers
  import opened Text

  /** A line feed, then only whitespace, then another line feed: the text
      the separator expression matches somewhere. */
  predicate HasBlankLine(t: string) {
    exists i, k :: 0 <= i < k < |t| && t[i] == '\n' && t[k] == '\n' && AllSpaceBetween(t, i, k)
  }

  predicate AllSpaceBetween(t: string, i: int, k: int)
    requires 0 <= i < k <= |t|
  {
    forall m :: i < m < k ==> IsSpace(t[m])
  }

  /** What one bubble may hold. */
  predicate IsParagraph(p: string) {
    p != [] && IsTrimmed(p) && !HasBlankLine(p)
  }

  /** Position of the last line feed of `s`. */
  function LastLineFeed(s: string): (r: Option<nat>)
    ensures r.Some? ==> r.value < |s| && s[r.value] == '\n'
    ensures r.None? ==> forall i :: 0 <= i < |s| ==> s[i] != '\n'
  {
    if s == [] then None
    else if s[|s| - 1] == '\n' then Some(|s| - 1)
    else LastLineFeed(s[..|s| - 1])
  }

  /** Length of the match of `\r?\n\s*\r?\n` anchored at the start of `s`.
      The optional `\r` is tried first; the greedy `\s*` takes the whole
      whitespace run and gives characters back until `\r?\n` matches, so the
      match ends just after the last line feed of that run. */
  function SeparatorAt(s: string): (r: Option<nat>)
    ensures r.Some? ==> 2 <= r.value <= |s| && s[r.value - 1] == '\n'
    ensures r.Some? ==> forall m :: 0 <= m < r.value ==> IsSpace(s[m])
    ensures r.Some? ==> s[0] == '\n' || (s[0] == '\r' && s[1] == '\n' && 3 <= r.value)
  {
    var a := if |s| >= 2 && s[0] == '\r' && s[1] == '\n' then 2
             else if |s| >= 1 && s[0] == '\n' then 1
             else 0;
    if a == 0 then None
    else
      var run := s[a..a + LeadLen(s[a..])];
      match LastLineFeed(run)
      case None => None
      case Some(k) => Some(a + k + 1)
  }

  /** The split loop of `String.prototype.split` over the remaining text `s`:
      `acc` holds the characters of the piece being built. */
  function Scan(s: string, acc: string): (pieces: seq<string>)
    ensures pieces != []
    decreases |s|
  {
    if s == [] then [acc]
    else
      match SeparatorAt(s)
      case None => Scan(s[1..], acc + [s[0]])
      case Some(n) => [acc] + Scan(s[n..], [])
  }

  /** `raw.split(/\r?\n\s*\r?\n/)` */
  function RawSplit(s: string): seq<string> {
    Scan(s, [])
  }

  /** `.map((p) => p.trim()).filter((p) => p)` */
  function TrimAndDropEmpty(pieces: seq<string>): (r: seq<string>)
    ensures |r| <= |pieces|
    ensures forall i :: 0 <= i < |r| ==> r[i] != [] && IsTrimmed(r[i])
  {
    if pieces == [] then []
    else
      var t := Trim(pieces[0]);
      (if t == [] then [] else [t]) + TrimAndDropEmpty(pieces[1..])
  }

  /** `splitIntoSegments(text)`: `[]` for the empty text, otherwise the
      trimmed, non-empty pieces between blank lines. */
  function SplitIntoSegments(text: string): (segs: seq<string>)
    ensures text == [] ==> segs == []
    ensures forall i :: 0 <= i < |segs| ==> segs[i] != [] && IsTrimmed(segs[i])
  {
    if text == [] then [] else TrimAndDropEmpty(RawSplit(text))
  }

  // ---------------------------------------------------------------------
  // No segment contains a blank line.

  /** A blank line at the start of `t` is a separator match there. */
  lemma BlankLineStartsSeparator(t: string, k: nat)
    requires 0 < k < |t| && t[0] == '\n' && t[k] == '\n' && AllSpaceBetween(t, 0, k)
    ensures SeparatorAt(t).Some?
  {
    var u := t[1..];
    assert forall m :: 0 <= m < k ==> IsSpace(u[m]) by {
      forall m | 0 <= m < k ensures IsSpace(u[m]) {
        assert u[m] == t[m + 1];
      }
    }
    var w := LeadLen(u);
    assert k <= w by {
      assert w < |u| ==> !IsSpace(u[w]);
    }
    var run := u[..w];
    assert run[k - 1] == '\n';
    assert t[1..1 + LeadLen(t[1..])] == run;
  }

  /** Every character taken into `acc` was taken because no separator
      started there. */
  ghost predicate Unmatched(acc: string, s: string) {
    forall i :: 0 <= i < |acc| ==> SeparatorAt(acc[i..] + s).None?
  }

  lemma BlankLineGivesSeparator(acc: string, s: string)
    ensures HasBlankLine(acc) ==> exists i :: 0 <= i < |acc| && SeparatorAt(acc[i..] + s).Some?
  {
    if HasBlankLine(acc) {
      var i, k :| 0 <= i < k < |acc| && acc[i] == '\n' && acc[k] == '\n' && AllSpaceBetween(acc, i, k);
      var t := acc[i..] + s;
      assert t[0] == acc[i] && t[k - i] == acc[k];
      assert AllSpaceBetween(t, 0, k - i) by {
        forall m | 0 < m < k - i ensures IsSpace(t[m]) {
          assert t[m] == acc[i + m];
        }
      }
      BlankLineStartsSeparator(t, k - i);
    }
  }

  lemma {:induction false} ScanHasNoBlankLine(s: string, acc: string)
    requires Unmatched(acc, s)
    ensures forall p :: p in Scan(s, acc) ==> !HasBlankLine(p)
    decreases |s|
  {
    BlankLineGivesSeparator(acc, s);
    if s != [] {
      match SeparatorAt(s)
      case None =>
        var acc' := acc + [s[0]];
        forall i | 0 <= i < |acc'| ensures SeparatorAt(acc'[i..] + s[1..]).None? {
          if i < |acc| {
            assert acc'[i..] + s[1..] == acc[i..] + s;
          } else {
            assert acc'[i..] + s[1..] == s;
          }
        }
        ScanHasNoBlankLine(s[1..], acc');
      case Some(n) =>
        ScanHasNoBlankLine(s[n..], []);
    }
  }

  lemma TrimKeepsNoBlankLine(p: string)
    ensures HasBlankLine(Trim(p)) ==> HasBlankLine(p)
  {
    var a := LeadLen(p);
    if HasBlankLine(Trim(p)) {
      SliceKeepsNoBlankLine(p, a, a + |Trim(p)|);
    }
  }

  /** A blank line inside a slice is a blank line of the whole text. */
  lemma SliceKeepsNoBlankLine(p: string, a: nat, b: nat)
    requires a <= b <= |p| && HasBlankLine(p[a..b])
    ensures HasBlankLine(p)
  {
    var t := p[a..b];
    var i, k :| 0 <= i < k < |t| && t[i] == '\n' && t[k] == '\n' && AllSpaceBetween(t, i, k);
    assert p[a + i] == '\n' && p[a + k] == '\n';
    assert AllSpaceBetween(p, a + i, a + k) by {
      forall m | a + i < m < a + k ensures IsSpace(p[m]) {
        assert p[m] == t[m - a];
      }
    }
  }

  lemma {:induction false} TrimAndDropEmptyHasNoBlankLine(pieces: seq<string>)
    requires forall p :: p in pieces ==> !HasBlankLine(p)
    ensures forall q :: q in TrimAndDropEmpty(pieces) ==> !HasBlankLine(q)
  {
    if pieces != [] {
      TrimKeepsNoBlankLine(pieces[0]);
      TrimAndDropEmptyHasNoBlankLine(pieces[1..]);
    }
  }

  /** No bubble contains a newline–whitespace–newline separator. */
  lemma SegmentsHaveNoBlankLine(text: string)
    ensures forall q :: q in SplitIntoSegments(text) ==> IsParagraph(q)
  {
    if text != [] {
      ScanHasNoBlankLine(text, []);
      TrimAndDropEmptyHasNoBlankLine(RawSplit(text));
    }
  }

  // ---------------------------------------------------------------------
  // Nothing but whitespace is lost, and the order is kept.

  /** The non-whitespace characters of `s`, in order. */
  function NonSpace(s: string): (r: string)
    ensures |r| <= |s|
  {
    if s == [] then [] else (if IsSpace(s[0]) then [] else [s[0]]) + NonSpace(s[1..])
  }

  function Concat(ps: seq<string>): string {
    if ps == [] then [] else ps[0] + Concat(ps[1..])
  }

  lemma {:induction false} NonSpaceAppend(a: string, b: string)
    ensures NonSpace(a + b) == NonSpace(a) + NonSpace(b)
  {
    if a != [] {
      assert (a + b)[0] == a[0];
      assert (a + b)[1..] == a[1..] + b;
      NonSpaceAppend(a[1..], b);
    } else {
      assert a + b == b;
    }
  }

  lemma {:induction false} NonSpaceEmpty(s: string)
    ensures NonSpace(s) == [] <==> AllSpace(s)
  {
    if s != [] {
      NonSpaceEmpty(s[1..]);
      assert forall i :: 1 <= i < |s| ==> s[i] == s[1..][i - 1];
    }
  }

  lemma NonSpaceTrim(s: string)
    ensures NonSpace(Trim(s)) == NonSpace(s)
  {
    var a, t := LeadLen(s), Trim(s);
    AllSpaceRange(s, 0, a);
    AllSpaceRange(s, a + |t|, |s|);
    assert s[0..a] == s[..a] && s[a + |t|..|s|] == s[a + |t|..];
    NonSpaceOfPaddedSlice(s, a, a + |t|);
  }

  lemma AllSpaceRange(s: string, a: nat, b: nat)
    requires a <= b <= |s|
    requires forall i :: a <= i < b ==> IsSpace(s[i])
    ensures AllSpace(s[a..b])
  {
    assert forall i :: 0 <= i < b - a ==> s[a..b][i] == s[a + i];
  }

  /** Whitespace around a slice adds no text. */
  lemma NonSpaceOfPaddedSlice(s: string, a: nat, b: nat)
    requires a <= b <= |s|
    requires AllSpace(s[..a]) && AllSpace(s[b..])
    ensures NonSpace(s[a..b]) == NonSpace(s)
  {
    var pre, mid, post := s[..a], s[a..b], s[b..];
    assert s == pre + mid + post;
    NonSpaceEmpty(pre);
    NonSpaceEmpty(post);
    NonSpaceAppend(pre + mid, post);
    NonSpaceAppend(pre, mid);
  }

  /** A separator match is all whitespace: skipping it loses no text. */
  lemma SeparatorKeepsText(s: string, n: nat)
    requires SeparatorAt(s) == Some(n)
    ensures NonSpace(s) == NonSpace(s[n..])
  {
    assert s == s[..n] + s[n..];
    NonSpaceAppend(s[..n], s[n..]);
    NonSpaceEmpty(s[..n]);
  }

  /** Moving one character from the text to the piece being built keeps
      the text. */
  lemma ShiftKeepsText(s: string, acc: string)
    requires s != []
    ensures NonSpace(acc + [s[0]]) + NonSpace(s[1..]) == NonSpace(acc) + NonSpace(s)
  {
    NonSpaceAppend(acc, [s[0]]);
    NonSpaceAppend([s[0]], s[1..]);
    assert [s[0]] + s[1..] == s;
  }

  /** The step of the scan that moves a character into the piece. */
  lemma ScanStepKeepsText(s: string, acc: string)
    requires s != [] && SeparatorAt(s).None?
    requires NonSpace(Concat(Scan(s[1..], acc + [s[0]]))) == NonSpace(acc + [s[0]]) + NonSpace(s[1..])
    ensures NonSpace(Concat(Scan(s, acc))) == NonSpace(acc) + NonSpace(s)
  {
    assert Scan(s, acc) == Scan(s[1..], acc + [s[0]]);
    ShiftKeepsText(s, acc);
  }

  /** The step of the scan that closes a piece at a separator. */
  lemma ScanCutKeepsText(s: string, acc: string, n: nat)
    requires s != [] && SeparatorAt(s) == Some(n)
    requires NonSpace(Concat(Scan(s[n..], []))) == NonSpace(s[n..])
    ensures NonSpace(Concat(Scan(s, acc))) == NonSpace(acc) + NonSpace(s)
  {
    var rest := Scan(s[n..], []);
    assert Scan(s, acc) == [acc] + rest;
    assert Concat([acc] + rest) == acc + Concat(rest);
    NonSpaceAppend(acc, Concat(rest));
    SeparatorKeepsText(s, n);
  }

  lemma {:induction false} ScanKeepsText(s: string, acc: string)
    ensures NonSpace(Concat(Scan(s, acc))) == NonSpace(acc) + NonSpace(s)
    decreases |s|
  {
    if s == [] {
      assert Concat([acc]) == acc;
    } else {
      var sep := SeparatorAt(s);
      if sep.None? {
        ScanKeepsText(s[1..], acc + [s[0]]);
        ScanStepKeepsText(s, acc);
      } else {
        ScanKeepsText(s[sep.value..], []);
        assert NonSpace([]) == [];
        ScanCutKeepsText(s, acc, sep.value);
      }
    }
  }

  lemma {:induction false} TrimAndDropEmptyKeepsText(pieces: seq<string>)
    ensures NonSpace(Concat(TrimAndDropEmpty(pieces))) == NonSpace(Concat(pieces))
  {
    if pieces != [] {
      var t := Trim(pieces[0]);
      var rest := TrimAndDropEmpty(pieces[1..]);
      TrimAndDropEmptyKeepsText(pieces[1..]);
      NonSpaceTrim(pieces[0]);
      NonSpaceAppend(pieces[0], Concat(pieces[1..]));
      NonSpaceAppend(t, Concat(rest));
      if t == [] {
        assert TrimAndDropEmpty(pieces) == rest;
      } else {
        assert Concat([t] + rest) == t + Concat(rest);
      }
    }
  }

  /** The bubbles, read in order, hold exactly the non-whitespace text of the
      reply in its original order. */
  lemma SegmentsKeepText(text: string)
    ensures NonSpace(Concat(SplitIntoSegments(text))) == NonSpace(text)
  {
    if text != [] {
      ScanKeepsText(text, []);
      TrimAndDropEmptyKeepsText(RawSplit(text));
    }
  }

  /** A reply yields no bubble exactly when it is blank. */
  lemma SegmentsEmptyIffBlank(text: string)
    ensures SplitIntoSegments(text) == [] <==> AllSpace(text)
  {
    var segs := SplitIntoSegments(text);
    SegmentsKeepText(text);
    NonSpaceEmpty(text);
    if segs != [] {
      assert Concat(segs) == segs[0] + Concat(segs[1..]);
      NonSpaceAppend(segs[0], Concat(segs[1..]));
      assert !IsSpace(segs[0][0]);
      assert NonSpace(segs[0]) != [];
    }
  }

  // ---------------------------------------------------------------------
  // Round trip: paragraphs joined by a blank line split back into themselves.

  /** `ps.join("\n\n")` */
  function Join(ps: seq<string>): string {
    if ps == [] then []
    else if |ps| == 1 then ps[0]
    else ps[0] + "\n\n" + Join(ps[1..])
  }

  /** A separator starting inside a paragraph would be a blank line in it. */
  lemma SeparatorInsideParagraph(p: string, x: string, i: nat)
    requires p != [] && IsTrimmed(p) && i < |p|
    ensures SeparatorAt(p[i..] + x).Some? ==> HasBlankLine(p)
  {
    var t := p[i..] + x;
    if SeparatorAt(t).Some? {
      var n := SeparatorAt(t).value;
      var last := |p| - 1 - i;
      assert t[last] == p[|p| - 1];
      assert n <= last;
      var f := if t[0] == '\n' then 0 else 1;
      assert p[i + f] == '\n' && p[i + n - 1] == '\n';
      assert AllSpaceBetween(p, i + f, i + n - 1) by {
        forall m | i + f < m < i + n - 1 ensures IsSpace(p[m]) {
          assert p[m] == t[m - i];
        }
      }
    }
  }

  /** Characters that start no separator are appended to the piece. */
  lemma {:induction false} ScanThrough(u: string, x: string, acc: string)
    requires forall i :: 0 <= i < |u| ==> SeparatorAt(u[i..] + x).None?
    ensures Scan(u + x, acc) == Scan(x, acc + u)
    decreases |u|
  {
    if u != [] {
      assert u[0..] == u;
      assert SeparatorAt(u + x).None?;
      assert (u + x)[0] == u[0];
      assert (u + x)[1..] == u[1..] + x;
      forall i | 0 <= i < |u[1..]| ensures SeparatorAt(u[1..][i..] + x).None? {
        assert u[1..][i..] == u[i + 1..];
      }
      ScanThrough(u[1..], x, acc + [u[0]]);
      assert acc + [u[0]] + u[1..] == acc + u;
    } else {
      assert u + x == x && acc + u == acc;
    }
  }

  lemma ParagraphScansThrough(p: string, x: string)
    requires IsParagraph(p)
    ensures forall i :: 0 <= i < |p| ==> SeparatorAt(p[i..] + x).None?
  {
    forall i | 0 <= i < |p| ensures SeparatorAt(p[i..] + x).None? {
      SeparatorInsideParagraph(p, x, i);
    }
  }

  /** A blank line followed by text that starts with a visible character is
      exactly one separator of length two. */
  lemma BlankLineThenText(rest: string)
    requires rest == [] || !IsSpace(rest[0])
    ensures SeparatorAt("\n\n" + rest) == Some(2)
  {
    var s := "\n\n" + rest;
    assert s[1..] == "\n" + rest;
    assert LeadLen(s[1..]) == 1;
    assert s[1..1 + LeadLen(s[1..])] == "\n";
  }

  /** A paragraph, a blank line and more text: the paragraph is the first
      piece and the split goes on with the text after the blank line. */
  lemma ScanParagraphThenBlankLine(p: string, rest: string)
    requires IsParagraph(p)
    requires rest == [] || !IsSpace(rest[0])
    ensures RawSplit(p + ("\n\n" + rest)) == [p] + RawSplit(rest)
  {
    var x := "\n\n" + rest;
    ParagraphScansThrough(p, x);
    ScanThrough(p, x, []);
    BlankLineThenText(rest);
    assert x[2..] == rest;
    assert [] + p == p;
  }

  lemma JoinStartsWithFirst(ps: seq<string>)
    requires |ps| > 0 && ps[0] != []
    ensures Join(ps) != [] && Join(ps)[0] == ps[0][0]
  {
  }

  lemma {:induction false} ScanJoin(ps: seq<string>)
    requires ps != []
    requires forall p :: p in ps ==> IsParagraph(p)
    ensures RawSplit(Join(ps)) == ps
  {
    var p := ps[0];
    assert p in ps;
    if |ps| == 1 {
      ParagraphScansThrough(p, []);
      ScanThrough(p, [], []);
      assert p + [] == p && [] + p == p;
      assert ps == [p];
    } else {
      assert ps[1] in ps;
      JoinStartsWithFirst(ps[1..]);
      assert Join(ps) == p + ("\n\n" + Join(ps[1..]));
      ScanParagraphThenBlankLine(p, Join(ps[1..]));
      ScanJoin(ps[1..]);
      assert ps == [p] + ps[1..];
    }
  }

  lemma {:induction false} TrimAndDropEmptyOfParagraphs(ps: seq<string>)
    requires forall p :: p in ps ==> IsParagraph(p)
    ensures TrimAndDropEmpty(ps) == ps
  {
    if ps != [] {
      assert ps[0] in ps;
      TrimOfTrimmed(ps[0]);
      TrimAndDropEmptyOfParagraphs(ps[1..]);
    }
  }

  /** Splitting paragraphs joined by a blank line gives back the paragraphs,
      in order. */
  lemma SplitJoinRoundTrip(ps: seq<string>)
    requires forall p :: p in ps ==> IsParagraph(p)
    ensures SplitIntoSegments(Join(ps)) == ps
  {
    if ps != [] {
      ScanJoin(ps);
      TrimAndDropEmptyOfParagraphs(ps);
    }
  }
}
