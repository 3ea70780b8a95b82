/** The temperature-wait rewrite shared by every start G-code preparation
    (src/lib/StartEndGcodePrep.ts, src/lib/StartGcodePrep.ts,
    my-svelte-ts-project/src/lib/StartGcodePrep.ts and js/ux.js): the
    expression `/(M109 .*S)(\d{2,3})(.*)/` locates the temperature of an
    `M109` line, `line.replace(expr, '$1' + temp + '$3')` puts the new
    temperature in its place, and a backward scan picks the last such line
    at index 1 or later. */
module TempCommand {
  import opened Wrappers
  import opened Text

  const M109 := "M109 "

  predicate IsDigit(c: char) {
    '0' <= c <= '9'
  }

  /** An `S` followed by two digits starts at `q`. */
  predicate SAt(line: string, q: nat) {
    q + 3 <= |line| && line[q] == 'S' && IsDigit(line[q + 1]) && IsDigit(line[q + 2])
  }

  /** The first line terminator at or after `from` (or the end): how far
      `.*` can reach. */
  function RunEnd(line: string, from: nat): (e: nat)
    requires from <= |line|
    ensures from <= e <= |line|
    ensures forall j :: from <= j < e ==> !IsLineTerminator(line[j])
    ensures e < |line| ==> IsLineTerminator(line[e])
    decreases |line| - from
  {
    if from == |line| || IsLineTerminator(line[from]) then from else RunEnd(line, from + 1)
  }

  /** The last `S`-and-two-digits position in `[lo, hi)`: what the greedy
      `.*S` settles on. */
  function LastS(line: string, lo: nat, hi: nat): (r: Option<nat>)
    ensures r.Some? ==> lo <= r.value < hi && SAt(line, r.value)
    ensures r.Some? ==> forall q :: r.value < q < hi ==> !SAt(line, q)
    ensures r.None? ==> forall q :: lo <= q < hi ==> !SAt(line, q)
    decreases hi
  {
    if hi <= lo then None
    else if SAt(line, hi - 1) then Some(hi - 1)
    else LastS(line, lo, hi - 1)
  }

  /** Where the expression matches: the `M109 ` at `start`, the `S` at
      `sPos`, and the number of temperature digits (2 or 3). */
  datatype M109Match = M109Match(start: nat, sPos: nat, digits: nat)

  /** The `S` position the expression would use when anchored at `p`. */
  function SFor(line: string, p: nat): (r: Option<nat>)
    requires OccursAt(line, M109, p)
  {
    LastS(line, p + 5, RunEnd(line, p + 5))
  }

  /** How many digits `\d{2,3}` takes after the `S` at `q`: a third one
      when there is one. */
  function DigitCount(line: string, q: nat): nat {
    if q + 3 < |line| && IsDigit(line[q + 3]) then 3 else 2
  }

  /** The leftmost anchor at or after `p` at which the expression matches. */
  function MatchFrom(line: string, p: nat): (r: Option<M109Match>)
    ensures r.Some? ==> p <= r.value.start && OccursAt(line, M109, r.value.start)
    ensures r.Some? ==> SFor(line, r.value.start) == Some(r.value.sPos)
    ensures r.Some? ==> r.value.digits == DigitCount(line, r.value.sPos)
    ensures r.Some? ==> forall p' :: p <= p' < r.value.start && OccursAt(line, M109, p') ==> SFor(line, p').None?
    ensures r.None? ==> forall p' :: p <= p' && OccursAt(line, M109, p') ==> SFor(line, p').None?
    decreases |line| - p
  {
    if p + 5 > |line| then None
    else if OccursAt(line, M109, p) && SFor(line, p).Some? then
      var q := SFor(line, p).value;
      Some(M109Match(p, q, DigitCount(line, q)))
    else
      assert !OccursAt(line, M109, p) || SFor(line, p).None?;
      MatchFrom(line, p + 1)
  }

  /** `line.match(tempRegex)`. */
  function Match(line: string): (r: Option<M109Match>)
    ensures r.Some? ==> var m := r.value;
      && OccursAt(line, M109, m.start)
      && m.start + 5 <= m.sPos && m.sPos + 1 + m.digits <= |line|
      && SAt(line, m.sPos) && (m.digits == 2 || m.digits == 3)
      && (forall j :: m.start + 5 <= j < m.sPos ==> !IsLineTerminator(line[j]))
      && (forall j :: m.sPos + 1 <= j < m.sPos + 1 + m.digits ==> IsDigit(line[j]))
  {
    MatchFrom(line, 0)
  }

  /** The line matches the temperature expression. */
  predicate Matches(line: string) {
    Match(line).Some?
  }

  /** `line.replace(tempRegex, '$1' + temp + '$3')`: the text up to and
      including the `S`, then `temp`, then everything after the digit
      group. (`$1` followed by a digit is still group 1: there is no group
      10 or higher.) */
  function Rewrite(line: string, temp: string): (r: string)
    requires Matches(line)
  {
    var m := Match(line).value;
    line[..m.sPos + 1] + temp + line[m.sPos + 1 + m.digits..]
  }

  /** The rewrite keeps everything around the digit group: `line` is a
      prefix ending in `S`, two or three digits, and a suffix; the result
      is the same prefix, `temp`, and the same suffix. */
  lemma RewriteReplacesDigits(line: string, temp: string)
    requires Matches(line)
    ensures exists pre, digits, suf ::
      && line == pre + digits + suf
      && Rewrite(line, temp) == pre + temp + suf
      && |pre| > 0 && pre[|pre| - 1] == 'S' && Contains(pre, M109)
      && 2 <= |digits| <= 3 && (forall i :: 0 <= i < |digits| ==> IsDigit(digits[i]))
  {
    var pre, digits, suf := DigitGroup(line, temp);
  }

  /** The three parts around the match's digit group. */
  lemma DigitGroup(line: string, temp: string) returns (pre: string, digits: string, suf: string)
    requires Matches(line)
    ensures line == pre + digits + suf
    ensures Rewrite(line, temp) == pre + temp + suf
    ensures |pre| > 0 && pre[|pre| - 1] == 'S' && Contains(pre, M109)
    ensures 2 <= |digits| <= 3 && (forall i :: 0 <= i < |digits| ==> IsDigit(digits[i]))
  {
    var m := Match(line).value;
    pre, digits, suf := PartsAround(line, m.start, m.sPos, m.digits);
  }

  /** Cutting a line before and after a digit group that follows an `S`
      found after an `M109 `. */
  lemma PartsAround(line: string, p: nat, q: nat, d: nat) returns (pre: string, digits: string, suf: string)
    requires OccursAt(line, M109, p) && p + 5 <= q && q + 1 + d <= |line| && line[q] == 'S' && 2 <= d <= 3
    requires forall j :: q + 1 <= j < q + 1 + d ==> IsDigit(line[j])
    ensures pre == line[..q + 1] && digits == line[q + 1..q + 1 + d] && suf == line[q + 1 + d..]
    ensures line == pre + digits + suf
    ensures |pre| > 0 && pre[|pre| - 1] == 'S' && Contains(pre, M109)
    ensures 2 <= |digits| <= 3 && (forall i :: 0 <= i < |digits| ==> IsDigit(digits[i]))
  {
    pre, digits, suf := line[..q + 1], line[q + 1..q + 1 + d], line[q + 1 + d..];
    assert line == pre + digits + suf;
    forall i | 0 <= i < |digits|
      ensures IsDigit(digits[i])
    {
      assert digits[i] == line[q + 1 + i];
    }
    assert pre[p..p + 5] == line[p..p + 5];
    IndexOfSome(pre, M109, p);
  }

  /** An occurrence makes `indexOf` succeed. */
  lemma IndexOfSome(s: string, pat: string, k: nat)
    requires OccursAt(s, pat, k)
    ensures Contains(s, pat)
  {
  }

  /** The last line at index 1 or later that the expression matches: the
      loop `for (i = length - 1; i > 0; i--)`. */
  function LastMatchingLine(lines: seq<string>): (r: Option<nat>)
    ensures r.Some? ==> 1 <= r.value < |lines| && Matches(lines[r.value])
    ensures r.Some? ==> forall j :: r.value < j < |lines| ==> !Matches(lines[j])
    ensures r.None? ==> forall j :: 1 <= j < |lines| ==> !Matches(lines[j])
  {
    LastIndexFrom1(lines, Matches)
  }

  /** A matching line appended after the first line is the last match. */
  lemma LastMatchIsAppended(lines: seq<string>, w: string)
    requires |lines| >= 1 && Matches(w)
    ensures LastMatchingLine(lines + [w]) == Some(|lines|)
  {
    assert (lines + [w])[|lines|] == w;
  }

  /** The temperature rewrite applied to the last matching line, or `None`
      when no line at index 1 or later matches. */
  function SetLastTemperature(lines: seq<string>, temp: string): (r: Option<seq<string>>)
    ensures r.None? <==> forall j :: 1 <= j < |lines| ==> !Matches(lines[j])
    ensures r.Some? ==> |r.value| == |lines|
    ensures r.Some? ==> var i := LastMatchingLine(lines).value;
      && r.value[i] == Rewrite(lines[i], temp)
      && (forall j :: 0 <= j < |lines| && j != i ==> r.value[j] == lines[j])
  {
    match LastMatchingLine(lines)
    case Some(i) => Some(lines[i := Rewrite(lines[i], temp)])
    case None => None
  }

  /** Without terminators `.*` reaches the end of the line. */
  lemma {:induction false} RunEndToEnd(line: string, from: nat)
    requires from <= |line|
    requires forall j :: from <= j < |line| ==> !IsLineTerminator(line[j])
    ensures RunEnd(line, from) == |line|
    decreases |line| - from
  {
    if from < |line| {
      RunEndToEnd(line, from + 1);
    }
  }

  /** Anchors without `M109 ` are passed over. */
  lemma {:induction false} MatchFromSkips(line: string, from: nat, p: nat)
    requires from <= p
    requires forall p' :: from <= p' < p ==> !OccursAt(line, M109, p')
    ensures MatchFrom(line, from) == MatchFrom(line, p)
    decreases p - from
  {
    if from < p {
      MatchFromSkips(line, from + 1, p);
    }
  }

  /** On a line free of terminators after the first `M109 `, the match is
      anchored there and uses the last `S` with two digits after it. */
  lemma MatchAt(line: string, p: nat, q: nat)
    requires OccursAt(line, M109, p) && p + 5 <= q && SAt(line, q)
    requires forall p' :: 0 <= p' < p ==> !OccursAt(line, M109, p')
    requires forall j :: p + 5 <= j < |line| ==> !IsLineTerminator(line[j])
    requires forall q' :: q < q' < |line| ==> !SAt(line, q')
    ensures Match(line).Some? && Match(line).value.start == p && Match(line).value.sPos == q
  {
    RunEndToEnd(line, p + 5);
    MatchFromSkips(line, 0, p);
  }

  /** The plain case: `M109 S215` becomes `M109 S230`. */
  lemma RewritePlain()
    ensures Matches("M109 S215") && Rewrite("M109 S215", "230") == "M109 S230"
  {
    MatchAt("M109 S215", 0, 5);
  }

  /** The greedy `.*S` settles on the last `S` with two digits in the
      line, even inside a trailing comment: `M109 S215 ;S200` keeps 215
      and becomes `M109 S215 ;S230`. */
  lemma RewriteTakesLastS()
    ensures Matches("M109 S215 ;S200") && Rewrite("M109 S215 ;S200", "230") == "M109 S215 ;S230"
  {
    MatchAt("M109 S215 ;S200", 0, 11);
  }

  /** `RunEnd` is the first terminator at or after `from`. */
  lemma RunEndIs(line: string, from: nat, e: nat)
    requires from <= e <= |line|
    requires forall j :: from <= j < e ==> !IsLineTerminator(line[j])
    requires e < |line| ==> IsLineTerminator(line[e])
    ensures RunEnd(line, from) == e
  {
  }

  /** `LastS` is the last `S` position in range. */
  lemma LastSIs(line: string, lo: nat, hi: nat, q: nat)
    requires lo <= q < hi && SAt(line, q)
    requires forall q' :: q < q' < hi ==> !SAt(line, q')
    ensures LastS(line, lo, hi) == Some(q)
  {
  }

  /** The scan stops at the first anchor that has an `S` position. */
  lemma {:induction false} MatchFromAt(line: string, from: nat, p: nat)
    requires from <= p && OccursAt(line, M109, p) && SFor(line, p).Some?
    requires forall p' :: from <= p' < p && OccursAt(line, M109, p') ==> SFor(line, p').None?
    ensures MatchFrom(line, from).Some? && MatchFrom(line, from).value.start == p
    decreases p - from
  {
    if from < p {
      MatchFromAt(line, from + 1, p);
    }
  }

  /** The text with the `d` characters after position `q` replaced by
      `temp`. */
  function Splice(line: string, q: nat, d: nat, temp: string): (r: string)
    requires q + 1 + d <= |line|
    ensures |r| == |line| - d + |temp|
    ensures forall j :: 0 <= j <= q ==> r[j] == line[j]
    ensures forall j :: q < j <= q + |temp| ==> r[j] == temp[j - q - 1]
    ensures forall j :: q + |temp| < j < |r| ==> r[j] == line[j - |temp| + d]
  {
    line[..q + 1] + temp + line[q + 1 + d..]
  }

  /** After the splice, the run from an anchor before `q` ends where it
      did, shifted when it reached past the splice. */
  lemma SpliceRunEnd(line: string, q: nat, d: nat, temp: string, from: nat)
    requires q + 1 + d <= |line| && from <= q
    requires forall i :: 0 <= i < |temp| ==> !IsLineTerminator(temp[i])
    requires forall j :: q < j <= q + d ==> !IsLineTerminator(line[j])
    requires !IsLineTerminator(line[q])
    ensures var e := RunEnd(line, from);
      RunEnd(Splice(line, q, d, temp), from) == if e < q then e else e - d + |temp|
  {
    var r := Splice(line, q, d, temp);
    var e := RunEnd(line, from);
    if e < q {
      RunEndIs(r, from, e);
    } else {
      assert e > q + d;
      var e' := e - d + |temp|;
      forall j | from <= j < e'
        ensures !IsLineTerminator(r[j])
      {
        if j > q + |temp| {
          assert r[j] == line[j - |temp| + d];
        } else if j > q {
          assert r[j] == temp[j - q - 1];
        }
      }
      if e' < |r| {
        assert r[e'] == line[e];
      }
      RunEndIs(r, from, e');
    }
  }

  /** The splice keeps `q` as the last `S` position of the anchor's run
      when the run covers it and the new text is digits. */
  lemma SpliceKeepsS(line: string, q: nat, d: nat, temp: string, lo: nat, e: nat)
    requires q + 1 + d <= e <= |line| && lo <= q
    requires SAt(line, q) && 2 <= |temp| && forall i :: 0 <= i < |temp| ==> IsDigit(temp[i])
    requires forall q' :: q < q' < e ==> !SAt(line, q')
    ensures LastS(Splice(line, q, d, temp), lo, e - d + |temp|) == Some(q)
  {
    var r := Splice(line, q, d, temp);
    var t := |temp|;
    forall q' | q < q' < e - d + t
      ensures !SAt(r, q')
    {
      if q' > q + t {
        if q' + 3 <= |r| {
          assert r[q'] == line[q' - t + d] && r[q' + 1] == line[q' + 1 - t + d] && r[q' + 2] == line[q' + 2 - t + d];
        }
        assert !SAt(line, q' - t + d);
      } else {
        assert r[q'] == temp[q' - q - 1];
      }
    }
    LastSIs(r, lo, e - d + t, q);
  }

  /** Splicing the old text back undoes a splice. */
  lemma SpliceBack(line: string, q: nat, d: nat, temp: string)
    requires q + 1 + d <= |line|
    ensures Splice(Splice(line, q, d, temp), q, |temp|, line[q + 1..q + 1 + d]) == line
  {
    var r := Splice(line, q, d, temp);
    assert r[..q + 1] == line[..q + 1];
    assert r[q + 1 + |temp|..] == line[q + 1 + d..];
    assert line == line[..q + 1] + line[q + 1..q + 1 + d] + line[q + 1 + d..];
  }

  /** The match's own anchor keeps its `S` position after digits replace
      the digit group. */
  lemma AnchorKeepsS(line: string, temp: string)
    requires Matches(line)
    requires 2 <= |temp| && forall i :: 0 <= i < |temp| ==> IsDigit(temp[i])
    ensures var m := Match(line).value;
      var r := Splice(line, m.sPos, m.digits, temp);
      OccursAt(r, M109, m.start) && SFor(r, m.start) == Some(m.sPos)
  {
    var m := Match(line).value;
    var p, q, d := m.start, m.sPos, m.digits;
    var r := Splice(line, q, d, temp);
    var e := RunEnd(line, p + 5);
    assert SFor(line, p) == Some(q) && LastS(line, p + 5, e) == Some(q);
    assert e >= q + 1 + d;
    assert RunEnd(r, p + 5) == e - d + |temp| by {
      SpliceRunEnd(line, q, d, temp, p + 5);
    }
    assert LastS(r, p + 5, e - d + |temp|) == Some(q) by {
      SpliceKeepsS(line, q, d, temp, p + 5, e);
    }
    assert OccursAt(r, M109, p) by {
      assert r[p..p + 5] == line[p..p + 5];
    }
  }

  /** Putting a two- or three-digit temperature in place of a complete
      digit group keeps the match where it was, so putting the old digits
      back restores the line: the rewrite has an inverse. */
  lemma RewriteRoundTrip(line: string, temp: string)
    requires Matches(line)
    requires 2 <= |temp| <= 3 && forall i :: 0 <= i < |temp| ==> IsDigit(temp[i])
    requires var m := Match(line).value;
      m.sPos + 1 + m.digits == |line| || !IsDigit(line[m.sPos + 1 + m.digits])
    ensures var m := Match(line).value;
      && Matches(Rewrite(line, temp))
      && Match(Rewrite(line, temp)).value == M109Match(m.start, m.sPos, |temp|)
      && Rewrite(Rewrite(line, temp), line[m.sPos + 1..m.sPos + 1 + m.digits]) == line
  {
    var m := Match(line).value;
    var q, d := m.sPos, m.digits;
    var back := line[q + 1..q + 1 + d];
    RewriteKeepsMatch(line, temp);
    var r := Splice(line, q, d, temp);
    RewriteIsSplice(r, back);
    SpliceBack(line, q, d, temp);
  }

  /** A rewrite puts `temp` in place of the match's digit group. */
  lemma RewriteIsSplice(line: string, temp: string)
    requires Matches(line)
    ensures var m := Match(line).value;
      Rewrite(line, temp) == Splice(line, m.sPos, m.digits, temp)
  {
  }

  /** The rewritten line matches at the same anchor and `S`, with the new
      temperature as its digit group. */
  lemma RewriteKeepsMatch(line: string, temp: string)
    requires Matches(line)
    requires 2 <= |temp| <= 3 && forall i :: 0 <= i < |temp| ==> IsDigit(temp[i])
    requires var m := Match(line).value;
      m.sPos + 1 + m.digits == |line| || !IsDigit(line[m.sPos + 1 + m.digits])
    ensures var m := Match(line).value;
      Rewrite(line, temp) == Splice(line, m.sPos, m.digits, temp) &&
      Matches(Rewrite(line, temp)) && Match(Rewrite(line, temp)).value == M109Match(m.start, m.sPos, |temp|)
  {
    var m := Match(line).value;
    var q, d := m.sPos, m.digits;
    var r := Splice(line, q, d, temp);
    assert Rewrite(line, temp) == r;
    SpliceMatch(line, temp);
    var m2 := Match(r).value;
    assert m2.digits == |temp| by {
      if |temp| == 3 {
        assert r[q + 3] == temp[2];
      } else if q + 3 < |r| {
        assert r[q + 3] == line[q + 1 + d];
      }
    }
  }

  /** After digits replace the digit group, the match starts at the same
      anchor and the same `S`. */
  lemma SpliceMatch(line: string, temp: string)
    requires Matches(line)
    requires 2 <= |temp| && forall i :: 0 <= i < |temp| ==> IsDigit(temp[i])
    ensures var m := Match(line).value;
      var r := Splice(line, m.sPos, m.digits, temp);
      Matches(r) && Match(r).value.start == m.start && Match(r).value.sPos == m.sPos
  {
    var m := Match(line).value;
    var r := Splice(line, m.sPos, m.digits, temp);
    AnchorKeepsS(line, temp);
    forall p' | 0 <= p' < m.start && OccursAt(r, M109, p')
      ensures SFor(r, p').None?
    {
      EarlierAnchorStaysEmpty(line, m.sPos, m.digits, temp, p');
    }
    MatchFromAt(r, 0, m.start);
  }

  /** An anchor before the match has no `S` position in the line, so its
      run ends before the match's `S`, where the splice changes nothing. */
  lemma EarlierAnchorStaysEmpty(line: string, q: nat, d: nat, temp: string, p': nat)
    requires Matches(line) && Match(line).value.sPos == q && Match(line).value.digits == d
    requires p' < Match(line).value.start
    requires OccursAt(Splice(line, q, d, temp), M109, p')
    ensures SFor(Splice(line, q, d, temp), p').None?
  {
    var r := Splice(line, q, d, temp);
    assert r[p'..p' + 5] == line[p'..p' + 5];
    assert OccursAt(line, M109, p');
    assert SFor(line, p').None?;
    var e1 := RunEnd(line, p' + 5);
    assert e1 < q;
    assert RunEnd(r, p' + 5) == e1 by {
      assert r[e1] == line[e1];
      RunEndIs(r, p' + 5, e1);
    }
    forall q' | p' + 5 <= q' < e1
      ensures !SAt(r, q')
    {
      assert !SAt(line, q');
    }
  }

  /** The wait line appended when no `M109` line can be rewritten:
      `M109 T${toolIndex} S${temp}`. */
  function WaitLine(tool: string, temp: string): (r: string)
    ensures |r| == 8 + |tool| + |temp|
    ensures OccursAt(r, M109, 0)
    ensures r[7 + |tool|] == 'S' && r[8 + |tool|..] == temp
  {
    M109 + "T" + tool + " S" + temp
  }

  /** A wait line with a two- or three-digit temperature matches the
      expression, anchored at its start, with the temperature as its
      digit group. */
  lemma WaitLineMatches(tool: string, temp: string)
    requires forall i :: 0 <= i < |tool| ==> !IsLineTerminator(tool[i])
    requires 2 <= |temp| <= 3 && forall i :: 0 <= i < |temp| ==> IsDigit(temp[i])
    ensures Matches(WaitLine(tool, temp))
    ensures Match(WaitLine(tool, temp)).value.sPos == 7 + |tool|
    ensures Match(WaitLine(tool, temp)).value.digits == |temp|
  {
    var line := WaitLine(tool, temp);
    var q := 7 + |tool|;
    forall j | 5 <= j < |line|
      ensures !IsLineTerminator(line[j])
    {
      if j == 5 || j == 6 + |tool| || j == q {
      } else if j < 6 + |tool| {
        assert line[j] == tool[j - 6];
      } else {
        assert line[j] == temp[j - q - 1];
      }
    }
    forall q' | q < q' < |line|
      ensures !SAt(line, q')
    {
      assert line[q'] == temp[q' - q - 1];
    }
    assert SAt(line, q) by {
      assert line[q + 1] == temp[0] && line[q + 2] == temp[1];
    }
    MatchAt(line, 0, q);
  }

  /** Rewriting a wait line gives the wait line of the new temperature. */
  lemma WaitLineRewrite(tool: string, temp: string, temp': string)
    requires forall i :: 0 <= i < |tool| ==> !IsLineTerminator(tool[i])
    requires 2 <= |temp| <= 3 && forall i :: 0 <= i < |temp| ==> IsDigit(temp[i])
    ensures Matches(WaitLine(tool, temp))
    ensures Rewrite(WaitLine(tool, temp), temp') == WaitLine(tool, temp')
  {
    WaitLineMatches(tool, temp);
    var line := WaitLine(tool, temp);
    assert line[..8 + |tool|] == M109 + "T" + tool + " S";
    assert line[8 + |tool| + |temp|..] == "";
  }
}
