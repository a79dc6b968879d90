/**
 * The channel-pattern resolver of the logger (logger/src/channel_pattern.rs): a comma-separated
 * list of `begin-end` ranges, resolved once against the physical-channel prefix and once against
 * the calculation prefix.
 *
 * The regular expressions the caller passes (`CH+([0-9]+)` and `EVAL+([0-9]+)` in the unit test)
 * are modelled by `IdRegex`, a stem followed by one or more of a repeated letter and a captured
 * run of digits, and `captures_iter` by a left-to-right scanner. Ids are unbounded naturals, so
 * the `usize` parse overflow and the `end_id + 1` overflow do not arise.
 */
module ChannelPatterns {
  import opened Common
  import opened Channels
  import opened LoggerChannels

  datatype ChannelPattern = ChannelPattern(pattern: string)

  /** `Default for ChannelPattern`. */
  function DefaultChannelPattern(): (p: ChannelPattern)
    ensures p.pattern == ""
  {
    ChannelPattern("")
  }

  // ---------------------------------------------------------------------------------------------
  // `str::split` and `str::replace(" ", "")`

  /** `s.split(sep)`: the pieces between separators, including empty ones; never no piece. */
  function Split(s: string, sep: char): (pieces: seq<string>)
    ensures |pieces| >= 1
    ensures forall k :: 0 <= k < |pieces| ==> sep !in pieces[k]
  {
    if s == [] then [[]]
    else
      var rest := Split(s[1..], sep);
      if s[0] == sep then [[]] + rest else [[s[0]] + rest[0]] + rest[1..]
  }

  /** The pieces glued back together with the separator. */
  function Join(pieces: seq<string>, sep: char): string
    requires |pieces| >= 1
  {
    if |pieces| == 1 then pieces[0] else pieces[0] + [sep] + Join(pieces[1..], sep)
  }

  function Occurrences(s: string, c: char): nat {
    if s == [] then 0 else (if s[0] == c then 1 else 0) + Occurrences(s[1..], c)
  }

  /** Splitting loses nothing: joining the pieces gives the string back. */
  lemma {:induction false} SplitJoin(s: string, sep: char)
    ensures Join(Split(s, sep), sep) == s
  {
    if s != [] {
      SplitJoin(s[1..], sep);
      var rest := Split(s[1..], sep);
      if s[0] != sep && |rest| > 1 {
        assert ([s[0]] + rest[0]) + [sep] + Join(rest[1..], sep) == [s[0]] + (rest[0] + [sep] + Join(rest[1..], sep));
      }
    }
  }

  /** There is one more piece than there are separators. */
  lemma {:induction false} SplitCount(s: string, sep: char)
    ensures |Split(s, sep)| == Occurrences(s, sep) + 1
  {
    if s != [] {
      SplitCount(s[1..], sep);
    }
  }

  /** A leading piece without separator, then a separator, then the rest. */
  lemma {:induction false} SplitAfterPiece(a: string, sep: char, b: string)
    requires sep !in a
    ensures Split(a + [sep] + b, sep) == [a] + Split(b, sep)
  {
    if a != [] {
      SplitAfterPiece(a[1..], sep, b);
      assert (a + [sep] + b)[1..] == a[1..] + [sep] + b;
      assert [a[0]] + a[1..] == a;
    } else {
      assert a + [sep] + b == [sep] + b;
      assert ([sep] + b)[1..] == b;
    }
  }

  lemma {:induction false} SplitNoSeparator(a: string, sep: char)
    requires sep !in a
    ensures Split(a, sep) == [a]
  {
    if a != [] {
      SplitNoSeparator(a[1..], sep);
      assert [a[0]] + a[1..] == a;
    }
  }

  /** `s.replace(" ", "")`. */
  function RemoveSpaces(s: string): (r: string)
    ensures ' ' !in r && |r| <= |s|
  {
    if s == [] then [] else (if s[0] == ' ' then [] else [s[0]]) + RemoveSpaces(s[1..])
  }

  /** A half is blank exactly when it holds nothing but spaces. */
  lemma {:induction false} RemoveSpacesEmptyIff(s: string)
    ensures RemoveSpaces(s) == [] <==> forall k :: 0 <= k < |s| ==> s[k] == ' '
  {
    if s != [] {
      RemoveSpacesEmptyIff(s[1..]);
      assert forall k :: 1 <= k < |s| ==> s[k] == s[1..][k - 1];
    }
  }

  // ---------------------------------------------------------------------------------------------
  // The id regular expressions

  predicate IsDigit(c: char) { '0' as int <= c as int <= '9' as int }

  /** The regex `<stem><repeated>+([0-9]+)`; `CH+([0-9]+)` is `IdRegex("C", 'H')`. */
  datatype RegexShape = IdRegex(stem: string, repeated: char)
  type IdRegex = r: RegexShape | !IsDigit(r.repeated) witness IdRegex("C", 'H')

  /** The first position at or after `i` that does not hold `c`. */
  function RunEnd(s: string, i: nat, c: char): (j: nat)
    requires i <= |s|
    ensures i <= j <= |s|
    decreases |s| - i
  {
    if i == |s| || s[i] != c then i else RunEnd(s, i + 1, c)
  }

  /** `RunEnd` is the end of the longest run of `c` starting at `i`. */
  lemma {:induction false} RunEndSpec(s: string, i: nat, c: char)
    requires i <= |s|
    ensures var j := RunEnd(s, i, c); (j < |s| ==> s[j] != c) && forall k :: i <= k < j ==> s[k] == c
    decreases |s| - i
  {
    if i < |s| && s[i] == c {
      RunEndSpec(s, i + 1, c);
    }
  }

  /** The first position at or after `i` that does not hold a digit. */
  function DigitsEnd(s: string, i: nat): (j: nat)
    requires i <= |s|
    ensures i <= j <= |s|
    decreases |s| - i
  {
    if i == |s| || !IsDigit(s[i]) then i else DigitsEnd(s, i + 1)
  }

  /** `DigitsEnd` is the end of the longest run of digits starting at `i`. */
  lemma {:induction false} DigitsEndSpec(s: string, i: nat)
    requires i <= |s|
    ensures var j := DigitsEnd(s, i); (j < |s| ==> !IsDigit(s[j])) && forall k :: i <= k < j ==> IsDigit(s[k])
    decreases |s| - i
  {
    if i < |s| && IsDigit(s[i]) {
      DigitsEndSpec(s, i + 1);
    }
  }

  /** The value of one decimal digit. */
  function DigitValue(c: char): (v: nat)
    ensures v < 10 && (IsDigit(c) ==> v == c as int - '0' as int)
  {
    if IsDigit(c) then c as int - '0' as int else 0
  }

  /**
   * `str::parse::<usize>` on a run of decimal digits, the only strings it is applied to (a match
   * always ends in such a run).
   */
  function DigitsValue(ds: string): (v: nat)
    ensures v < Pow10(|ds|)
  {
    if ds == [] then 0 else DigitsValue(ds[..|ds| - 1]) * 10 + DigitValue(ds[|ds| - 1])
  }

  function Pow10(n: nat): (p: nat)
    ensures p >= 1
  {
    if n == 0 then 1 else 10 * Pow10(n - 1)
  }

  datatype Match = Match(end: nat, id: nat)

  /**
   * The match starting exactly at `i`, if any: the stem, the longest run (at least one) of the
   * repeated letter, the longest run (at least one) of digits. Since the repeated letter is not a
   * digit, greedy matching never has to give a letter back.
   */
  function MatchAt(re: IdRegex, s: string, i: nat): (m: Option<Match>)
    requires i <= |s|
    ensures m.Some? ==> i < m.value.end <= |s|
  {
    var j := i + |re.stem|;
    if j < |s| && s[i..j] == re.stem && s[j] == re.repeated then
      var k := RunEnd(s, j, re.repeated);
      var e := DigitsEnd(s, k);
      if e > k then Some(Match(e, DigitsValue(s[k..e]))) else None
    else None
  }

  /** `captures_iter` from position `i`: leftmost matches, each search resuming after the last. */
  function Captures(re: IdRegex, s: string, i: nat): (caps: seq<nat>)
    requires i <= |s|
    ensures |caps| <= |s| - i
    decreases |s| - i
  {
    if i == |s| then []
    else match MatchAt(re, s, i)
      case Some(m) => [m.id] + Captures(re, s, m.end)
      case None => Captures(re, s, i + 1)
  }

  /** The id a half resolves to: the last capture, since each one overwrites the previous. */
  function HalfId(re: IdRegex, half: string): (id: Option<nat>)
    ensures id.None? <==> Captures(re, half, 0) == []
    ensures id.Some? ==> id.value in Captures(re, half, 0)
  {
    var caps := Captures(re, half, 0);
    if caps == [] then None else Some(caps[|caps| - 1])
  }

  /** The loop over the captures of one half, keeping the last id that parses. */
  method LastCapture(re: IdRegex, half: string) returns (id: Option<nat>)
    ensures id == HalfId(re, half)
  {
    var caps := Captures(re, half, 0);
    id := None;
    for c := 0 to |caps|
      invariant c == 0 ==> id.None?
      invariant c > 0 ==> id == Some(caps[c - 1])
    {
      id := Some(caps[c]);
    }
  }

  // ---------------------------------------------------------------------------------------------
  // Resolution

  /** The ids one piece contributes in one namespace. */
  function PieceIds(re: IdRegex, piece: string): (ids: seq<nat>)
    ensures |Split(piece, '-')| != 2 ==> ids == []
    ensures forall k :: 0 <= k < |ids| ==> ids[k] == ids[0] + k
  {
    var range := Split(piece, '-');
    if |range| != 2 || RemoveSpaces(range[0]) == [] || RemoveSpaces(range[1]) == [] then []
    else match (HalfId(re, range[0]), HalfId(re, range[1]))
      case (Some(b), Some(e)) => if b > e then [] else Range(b, e)
      case _ => []
  }

  /** The ids of all pieces in one namespace, in piece order, duplicates kept. */
  function NamespaceIds(re: IdRegex, pieces: seq<string>): (ids: seq<nat>)
    ensures forall x {:trigger x in ids} :: x in ids ==> exists k {:trigger PieceIds(re, pieces[k])} :: 0 <= k < |pieces| && x in PieceIds(re, pieces[k])
  {
    if pieces == [] then [] else NamespaceIds(re, pieces[..|pieces| - 1]) + PieceIds(re, pieces[|pieces| - 1])
  }

  function ChannelEntries(ids: seq<nat>): (es: seq<LoggerChannel>)
    ensures |es| == |ids| && forall k :: 0 <= k < |ids| ==> es[k] == ChannelEntry(DefaultChannel().(id := ids[k]))
    ensures EntryIds(es) == ids
  {
    seq(|ids|, k requires 0 <= k < |ids| => ChannelEntry(DefaultChannel().(id := ids[k])))
  }

  function CalculationEntries(ids: seq<nat>): (es: seq<LoggerChannel>)
    ensures |es| == |ids| && forall k :: 0 <= k < |ids| ==> es[k] == CalculationEntry(DefaultCalculation().(id := ids[k]))
    ensures EntryIds(es) == ids
  {
    seq(|ids|, k requires 0 <= k < |ids| => CalculationEntry(DefaultCalculation().(id := ids[k])))
  }

  const EMPTY_PATTERN_MESSAGE := "Pattern string is empty!"

  /**
   * What `parse_pattern` returns: the empty pattern is the only error; otherwise every channel
   * entry, in piece order, followed by every calculation entry.
   */
  function Resolve(cp: ChannelPattern, reChannel: IdRegex, reCalc: IdRegex): (r: Result<seq<LoggerChannel>>)
    ensures r.Err? <==> cp.pattern == ""
    ensures r.Err? ==> r.message == EMPTY_PATTERN_MESSAGE
    ensures r.Ok? ==>
              var pieces := Split(cp.pattern, ',');
              var chIds := NamespaceIds(reChannel, pieces);
              var calcIds := NamespaceIds(reCalc, pieces);
              && EntryIds(r.value) == chIds + calcIds
              && (forall k :: 0 <= k < |chIds| ==> r.value[k].ChannelEntry? && r.value[k].channel == DefaultChannel().(id := chIds[k]))
              && (forall k :: |chIds| <= k < |r.value| ==>
                    r.value[k].CalculationEntry? && r.value[k].calculation == DefaultCalculation().(id := calcIds[k - |chIds|]))
  {
    if cp.pattern == "" then Err(EMPTY_PATTERN_MESSAGE)
    else
      var pieces := Split(cp.pattern, ',');
      var chs := ChannelEntries(NamespaceIds(reChannel, pieces));
      var calcs := CalculationEntries(NamespaceIds(reCalc, pieces));
      EntryIdsAppend(chs, calcs);
      Ok(chs + calcs)
  }

  /** `for id in begin..(end + 1) { v.push(id) }`. */
  method PushRange(v: seq<nat>, b: nat, e: nat) returns (v': seq<nat>)
    requires b <= e
    ensures v' == v + Range(b, e)
  {
    v' := v;
    for id := b to e + 1
      invariant v' == v + Range(b, id - 1)
    {
      RangeSnoc(b, id);
      assert v + Range(b, id - 1) + [id] == v + Range(b, id);
      v' := v' + [id];
    }
  }

  /** One of the two loops of `parse_pattern`: resolve every piece against one regex. */
  method CollectIds(pieces: seq<string>, re: IdRegex) returns (ids: seq<nat>)
    ensures ids == NamespaceIds(re, pieces)
  {
    ids := [];
    for p := 0 to |pieces|
      invariant ids == NamespaceIds(re, pieces[..p])
    {
      assert pieces[..p + 1][..p] == pieces[..p];
      assert NamespaceIds(re, pieces[..p + 1]) == ids + PieceIds(re, pieces[p]);
      var range := Split(pieces[p], '-');
      if |range| != 2 {
        continue;
      }
      if RemoveSpaces(range[0]) == [] || RemoveSpaces(range[1]) == [] {
        assert PieceIds(re, pieces[p]) == [];
        continue;
      }
      var beginId := LastCapture(re, range[0]);
      var endId := LastCapture(re, range[1]);
      if beginId.Some? && endId.Some? {
        var b, e := beginId.value, endId.value;
        if b > e {
          assert PieceIds(re, pieces[p]) == [];
          continue;
        }
        assert PieceIds(re, pieces[p]) == Range(b, e);
        ids := PushRange(ids, b, e);
      } else {
        assert PieceIds(re, pieces[p]) == [];
      }
    }
    assert pieces[..|pieces|] == pieces;
  }

  /** `construct_channel_vec`: one default channel per id, carrying that id. */
  method ConstructChannelVec(ids: seq<nat>) returns (v: seq<LoggerChannel>)
    ensures |v| == |ids| && forall k :: 0 <= k < |ids| ==> v[k] == ChannelEntry(DefaultChannel().(id := ids[k]))
  {
    v := [];
    for k := 0 to |ids|
      invariant |v| == k && forall j :: 0 <= j < k ==> v[j] == ChannelEntry(DefaultChannel().(id := ids[j]))
    {
      v := v + [ChannelEntry(DefaultChannel().(id := ids[k]))];
    }
  }

  /** `construct_calc_vec`: one default calculation per id, carrying that id. */
  method ConstructCalcVec(ids: seq<nat>) returns (v: seq<LoggerChannel>)
    ensures |v| == |ids| && forall k :: 0 <= k < |ids| ==> v[k] == CalculationEntry(DefaultCalculation().(id := ids[k]))
  {
    v := [];
    for k := 0 to |ids|
      invariant |v| == k && forall j :: 0 <= j < k ==> v[j] == CalculationEntry(DefaultCalculation().(id := ids[j]))
    {
      v := v + [CalculationEntry(DefaultCalculation().(id := ids[k]))];
    }
  }

  /** `parse_pattern`. */
  method ParsePattern(cp: ChannelPattern, re: (IdRegex, IdRegex)) returns (r: Result<seq<LoggerChannel>>)
    ensures r == Resolve(cp, re.0, re.1)
  {
    if cp.pattern == "" {
      return Err(EMPTY_PATTERN_MESSAGE);
    }
    var patternList := Split(cp.pattern, ',');
    if |patternList| == 0 {
      // the "no channel pattern found" error: splitting always yields at least one piece
      assert false;
    }
    var channelIndexVec := CollectIds(patternList, re.0);
    var calcIndexVec := CollectIds(patternList, re.1);
    var channelVec := ConstructChannelVec(channelIndexVec);
    var calcVec := ConstructCalcVec(calcIndexVec);
    assert channelVec == ChannelEntries(channelIndexVec);
    assert calcVec == CalculationEntries(calcIndexVec);
    r := Ok(channelVec + calcVec);
  }

  // ---------------------------------------------------------------------------------------------
  // Properties of one piece

  /** A piece without exactly one `-` contributes nothing. */
  lemma PieceNeedsOneDash(re: IdRegex, piece: string)
    requires Occurrences(piece, '-') != 1
    ensures PieceIds(re, piece) == []
  {
    SplitCount(piece, '-');
  }

  /** A range whose begin half is blank contributes nothing, whatever the end half says. */
  lemma BlankBeginSkipped(re: IdRegex, h0: string, h1: string)
    requires '-' !in h0 && '-' !in h1
    requires forall k :: 0 <= k < |h0| ==> h0[k] == ' '
    ensures PieceIds(re, h0 + "-" + h1) == []
  {
    SplitAfterPiece(h0, '-', h1);
    SplitNoSeparator(h1, '-');
    RemoveSpacesEmptyIff(h0);
  }

  /** A range whose end half is blank contributes nothing, whatever the begin half says. */
  lemma BlankEndSkipped(re: IdRegex, h0: string, h1: string)
    requires '-' !in h0 && '-' !in h1
    requires forall k :: 0 <= k < |h1| ==> h1[k] == ' '
    ensures PieceIds(re, h0 + "-" + h1) == []
  {
    SplitAfterPiece(h0, '-', h1);
    SplitNoSeparator(h1, '-');
    RemoveSpacesEmptyIff(h1);
  }

  /** A range with a half in which the regex finds nothing contributes nothing. */
  lemma UnmatchedHalfSkipped(re: IdRegex, h0: string, h1: string)
    requires '-' !in h0 && '-' !in h1
    requires HalfId(re, h0).None? || HalfId(re, h1).None?
    ensures PieceIds(re, h0 + "-" + h1) == []
  {
    SplitAfterPiece(h0, '-', h1);
    SplitNoSeparator(h1, '-');
  }

  /**
   * A well-formed range `begin-end` contributes every id from begin to end inclusive, ascending,
   * and nothing when it is reversed.
   */
  lemma {:induction false} PieceRange(re: IdRegex, h0: string, h1: string, b: nat, e: nat)
    requires '-' !in h0 && '-' !in h1
    requires HalfId(re, h0) == Some(b) && HalfId(re, h1) == Some(e)
    ensures b <= e ==> PieceIds(re, h0 + "-" + h1) == Range(b, e)
    ensures b > e ==> PieceIds(re, h0 + "-" + h1) == []
  {
    SplitAfterPiece(h0, '-', h1);
    SplitNoSeparator(h1, '-');
    HalfIdNotBlank(re, h0);
    HalfIdNotBlank(re, h1);
    assert Split(h0 + "-" + h1, '-') == [h0, h1];
  }

  /** A match needs at least one digit, so a half the regex matches is never blank. */
  lemma HalfIdNotBlank(re: IdRegex, half: string)
    requires HalfId(re, half).Some?
    ensures RemoveSpaces(half) != []
  {
    var i := FirstMatch(re, half, 0);
    var m := MatchAt(re, half, i).value;
    var k := RunEnd(half, i + |re.stem|, re.repeated);
    DigitsEndSpec(half, k);
    assert IsDigit(half[k]);
    RemoveSpacesEmptyIff(half);
  }

  /** Where the first match at or after `i` starts, when there is one. */
  lemma {:induction false} FirstMatch(re: IdRegex, s: string, i: nat) returns (j: nat)
    requires i <= |s| && Captures(re, s, i) != []
    ensures i <= j < |s| && MatchAt(re, s, j).Some?
    decreases |s| - i
  {
    if MatchAt(re, s, i).Some? {
      j := i;
    } else {
      j := FirstMatch(re, s, i + 1);
    }
  }

  // ---------------------------------------------------------------------------------------------
  // Evaluating the scanner on concrete halves

  function Spaces(n: nat): (s: string)
    ensures |s| == n && forall k :: 0 <= k < n ==> s[k] == ' '
  {
    seq(n, _ => ' ')
  }

  /** Positions that cannot start a match are passed over. */
  lemma {:induction false} SkipNonStems(re: IdRegex, s: string, i: nat, t: nat)
    requires |re.stem| > 0 && i <= t <= |s|
    requires forall k :: i <= k < t ==> s[k] != re.stem[0]
    ensures Captures(re, s, i) == Captures(re, s, t)
    decreases t - i
  {
    if i < t {
      var j := i + |re.stem|;
      if j < |s| {
        assert s[i..j][0] == s[i];
      }
      SkipNonStems(re, s, i + 1, t);
    }
  }

  /** A half in which the stem's first letter never occurs resolves to no id. */
  lemma NoStemNoId(re: IdRegex, s: string)
    requires |re.stem| > 0 && re.stem[0] !in s
    ensures HalfId(re, s).None?
  {
    SkipNonStems(re, s, 0, |s|);
  }

  /** The stem, one repeated letter and digits, at position `i`, match up to the digits' end. */
  lemma TokenAt(re: IdRegex, s: string, i: nat, ds: string)
    requires |ds| > 0 && forall k :: 0 <= k < |ds| ==> IsDigit(ds[k])
    requires i + |re.stem| + 1 + |ds| <= |s|
    requires s[i..i + |re.stem|] == re.stem && s[i + |re.stem|] == re.repeated
    requires s[i + |re.stem| + 1..i + |re.stem| + 1 + |ds|] == ds
    requires i + |re.stem| + 1 + |ds| < |s| ==> !IsDigit(s[i + |re.stem| + 1 + |ds|])
    ensures MatchAt(re, s, i) == Some(Match(i + |re.stem| + 1 + |ds|, DigitsValue(ds)))
  {
    TokenRuns(re, s, i, ds);
    MatchAtIs(re, s, i, ds);
  }

  /** The runs of a token: one repeated letter, then exactly the digits `ds`. */
  lemma TokenRuns(re: IdRegex, s: string, i: nat, ds: string)
    requires |ds| > 0 && forall k :: 0 <= k < |ds| ==> IsDigit(ds[k])
    requires i + |re.stem| + 1 + |ds| <= |s|
    requires s[i..i + |re.stem|] == re.stem && s[i + |re.stem|] == re.repeated
    requires s[i + |re.stem| + 1..i + |re.stem| + 1 + |ds|] == ds
    requires i + |re.stem| + 1 + |ds| < |s| ==> !IsDigit(s[i + |re.stem| + 1 + |ds|])
    ensures RunEnd(s, i + |re.stem|, re.repeated) == i + |re.stem| + 1
    ensures DigitsEnd(s, i + |re.stem| + 1) == i + |re.stem| + 1 + |ds|
  {
    var j := i + |re.stem|;
    DigitsAt(s, j + 1, ds);
    RunEndOne(s, j, re.repeated);
  }

  /** Digits `ds` found at `d` in `s`, and not followed by a digit, are the run of digits at `d`. */
  lemma DigitsAt(s: string, d: nat, ds: string)
    requires |ds| > 0 && forall k :: 0 <= k < |ds| ==> IsDigit(ds[k])
    requires d + |ds| <= |s| && s[d..d + |ds|] == ds
    requires d + |ds| < |s| ==> !IsDigit(s[d + |ds|])
    ensures IsDigit(s[d]) && DigitsEnd(s, d) == d + |ds|
  {
    assert s[d] == ds[0];
    forall k | d <= k < d + |ds| ensures IsDigit(s[k]) {
      assert s[k] == s[d..d + |ds|][k - d];
    }
    DigitsEndIs(s, d, d + |ds|);
  }

  /** `MatchAt` once the runs of the repeated letter and of digits are known. */
  lemma MatchAtIs(re: IdRegex, s: string, i: nat, ds: string)
    requires |ds| > 0 && forall k :: 0 <= k < |ds| ==> IsDigit(ds[k])
    requires i + |re.stem| + 1 + |ds| <= |s|
    requires s[i..i + |re.stem|] == re.stem && s[i + |re.stem|] == re.repeated
    requires s[i + |re.stem| + 1..i + |re.stem| + 1 + |ds|] == ds
    requires RunEnd(s, i + |re.stem|, re.repeated) == i + |re.stem| + 1
    requires DigitsEnd(s, i + |re.stem| + 1) == i + |re.stem| + 1 + |ds|
    ensures MatchAt(re, s, i) == Some(Match(i + |re.stem| + 1 + |ds|, DigitsValue(ds)))
  {
  }

  lemma RunEndOne(s: string, j: nat, c: char)
    requires j + 1 < |s| && s[j] == c && s[j + 1] != c
    ensures RunEnd(s, j, c) == j + 1
  {
  }

  lemma DigitsEndIs(s: string, d: nat, e: nat)
    requires d <= e <= |s|
    requires forall k :: d <= k < e ==> IsDigit(s[k])
    requires e < |s| ==> !IsDigit(s[e])
    ensures DigitsEnd(s, d) == e
  {
    DigitsEndSpec(s, d);
  }

  /**
   * A half made of spaces, the stem, one repeated letter, digits and spaces resolves to the
   * digits' value.
   */
  lemma SpacedToken(re: IdRegex, s: string, a: nat, ds: string)
    requires |re.stem| > 0 && re.stem[0] != ' '
    requires |ds| > 0 && forall k :: 0 <= k < |ds| ==> IsDigit(ds[k])
    requires a + |re.stem| + 1 + |ds| <= |s|
    requires forall k :: 0 <= k < a ==> s[k] == ' '
    requires s[a..a + |re.stem|] == re.stem && s[a + |re.stem|] == re.repeated
    requires s[a + |re.stem| + 1..a + |re.stem| + 1 + |ds|] == ds
    requires forall k :: a + |re.stem| + 1 + |ds| <= k < |s| ==> s[k] == ' '
    ensures HalfId(re, s) == Some(DigitsValue(ds))
  {
    SpacesSkipped(re, s, 0, a);
    TokenThenSpaces(re, s, a, ds);
  }

  /** A token followed by nothing but spaces is the only capture from its start. */
  lemma TokenThenSpaces(re: IdRegex, s: string, a: nat, ds: string)
    requires |re.stem| > 0 && re.stem[0] != ' '
    requires |ds| > 0 && forall k :: 0 <= k < |ds| ==> IsDigit(ds[k])
    requires a + |re.stem| + 1 + |ds| <= |s|
    requires s[a..a + |re.stem|] == re.stem && s[a + |re.stem|] == re.repeated
    requires s[a + |re.stem| + 1..a + |re.stem| + 1 + |ds|] == ds
    requires forall k :: a + |re.stem| + 1 + |ds| <= k < |s| ==> s[k] == ' '
    ensures Captures(re, s, a) == [DigitsValue(ds)]
  {
    var e := a + |re.stem| + 1 + |ds|;
    TokenCaptured(re, s, a, ds);
    TrailingSpaces(re, s, e);
  }

  /** Nothing is captured from a tail of spaces. */
  lemma TrailingSpaces(re: IdRegex, s: string, i: nat)
    requires |re.stem| > 0 && re.stem[0] != ' ' && i <= |s|
    requires forall k :: i <= k < |s| ==> s[k] == ' '
    ensures Captures(re, s, i) == []
  {
    SpacesSkipped(re, s, i, |s|);
  }

  /** The token at `i` is the next capture, and the scan resumes after its digits. */
  lemma TokenCaptured(re: IdRegex, s: string, i: nat, ds: string)
    requires |ds| > 0 && forall k :: 0 <= k < |ds| ==> IsDigit(ds[k])
    requires i + |re.stem| + 1 + |ds| <= |s|
    requires s[i..i + |re.stem|] == re.stem && s[i + |re.stem|] == re.repeated
    requires s[i + |re.stem| + 1..i + |re.stem| + 1 + |ds|] == ds
    requires i + |re.stem| + 1 + |ds| < |s| ==> !IsDigit(s[i + |re.stem| + 1 + |ds|])
    ensures Captures(re, s, i) == [DigitsValue(ds)] + Captures(re, s, i + |re.stem| + 1 + |ds|)
  {
    TokenAt(re, s, i, ds);
  }

  /** A run of spaces never starts a match, since the stem does not start with a space. */
  lemma SpacesSkipped(re: IdRegex, s: string, i: nat, t: nat)
    requires |re.stem| > 0 && re.stem[0] != ' ' && i <= t <= |s|
    requires forall k :: i <= k < t ==> s[k] == ' '
    ensures Captures(re, s, i) == Captures(re, s, t)
  {
    SkipNonStems(re, s, i, t);
  }


  /**
   * Every match is reported and each overwrites the previous id: a half made of two tokens, such
   * as `CH1CH2`, resolves to the second.
   */
  lemma LastCaptureWins(re: IdRegex, ds0: string, ds1: string)
    requires |re.stem| > 0 && re.stem[0] != ' ' && !IsDigit(re.stem[0])
    requires |ds0| > 0 && forall k :: 0 <= k < |ds0| ==> IsDigit(ds0[k])
    requires |ds1| > 0 && forall k :: 0 <= k < |ds1| ==> IsDigit(ds1[k])
    ensures var s := re.stem + [re.repeated] + ds0 + (re.stem + [re.repeated] + ds1);
            && Captures(re, s, 0) == [DigitsValue(ds0), DigitsValue(ds1)]
            && HalfId(re, s) == Some(DigitsValue(ds1))
  {
    var t0 := re.stem + [re.repeated] + ds0;
    var t1 := re.stem + [re.repeated] + ds1;
    var s := t0 + t1;
    TokenLayout(re, ds0, t1);
    TokenLayout(re, ds1, []);
    assert t1 + [] == t1;
    TokenShifted(re, t0, t1, ds1);
    TwoTokens(re, s, |t0|, ds0, ds1);
  }

  /** Two tokens back to back, the second at `a` and ending the string. */
  lemma TwoTokens(re: IdRegex, s: string, a: nat, ds0: string, ds1: string)
    requires |ds0| > 0 && forall k :: 0 <= k < |ds0| ==> IsDigit(ds0[k])
    requires |ds1| > 0 && forall k :: 0 <= k < |ds1| ==> IsDigit(ds1[k])
    requires |re.stem| > 0 && re.stem[0] != ' ' && !IsDigit(re.stem[0])
    requires a == |re.stem| + 1 + |ds0| && a + |re.stem| + 1 + |ds1| == |s|
    requires s[..|re.stem|] == re.stem && s[|re.stem|] == re.repeated
    requires s[|re.stem| + 1..|re.stem| + 1 + |ds0|] == ds0
    requires s[a..a + |re.stem|] == re.stem && s[a + |re.stem|] == re.repeated
    requires s[a + |re.stem| + 1..a + |re.stem| + 1 + |ds1|] == ds1
    ensures Captures(re, s, 0) == [DigitsValue(ds0), DigitsValue(ds1)]
    ensures HalfId(re, s) == Some(DigitsValue(ds1))
  {
    var z: nat := 0;
    assert s[z..z + |re.stem|] == s[..|re.stem|];
    assert s[a] == re.stem[0];
    TokenCaptured(re, s, z, ds0);
    TokenThenSpaces(re, s, a, ds1);
    assert [DigitsValue(ds0)] + [DigitsValue(ds1)] == [DigitsValue(ds0), DigitsValue(ds1)];
  }

  /** Where the parts of a token followed by `rest` sit. */
  lemma TokenLayout(re: IdRegex, ds: string, rest: string)
    ensures var t := re.stem + [re.repeated] + ds + rest;
            && |re.stem| + 1 + |ds| <= |t|
            && t[..|re.stem|] == re.stem && t[|re.stem|] == re.repeated
            && t[|re.stem| + 1..|re.stem| + 1 + |ds|] == ds
            && t[|re.stem| + 1 + |ds|..] == rest
  {
  }

  /** The token layout of `t1` carries over to `t0 + t1`, shifted by `|t0|`. */
  lemma TokenShifted(re: IdRegex, t0: string, t1: string, ds: string)
    requires |re.stem| + 1 + |ds| == |t1|
    requires t1[..|re.stem|] == re.stem && t1[|re.stem|] == re.repeated && t1[|re.stem| + 1..] == ds
    ensures var s := t0 + t1; var a := |t0|;
            && s[a..a + |re.stem|] == re.stem && s[a + |re.stem|] == re.repeated
            && s[a + |re.stem| + 1..a + |re.stem| + 1 + |ds|] == ds
  {
    var s := t0 + t1;
    var a := |t0|;
    assert s[a..] == t1;
    assert s[a..a + |re.stem|] == t1[..|re.stem|];
    assert s[a + |re.stem| + 1..a + |re.stem| + 1 + |ds|] == t1[|re.stem| + 1..];
  }

  // ---------------------------------------------------------------------------------------------
  // Properties of a namespace

  /** Resolving a list of pieces is resolving each part and concatenating. */
  lemma {:induction false} NamespaceIdsAppend(re: IdRegex, p: seq<string>, q: seq<string>)
    ensures NamespaceIds(re, p + q) == NamespaceIds(re, p) + NamespaceIds(re, q)
    decreases |q|
  {
    if q != [] {
      NamespaceIdsLastPiece(re, p, q);
      NamespaceIdsAppend(re, p, q[..|q| - 1]);
    } else {
      assert p + q == p;
    }
  }

  /** The last piece of `p + q` is the last piece of `q`, after the rest of `p + q`. */
  lemma NamespaceIdsLastPiece(re: IdRegex, p: seq<string>, q: seq<string>)
    requires q != []
    ensures NamespaceIds(re, p + q) == NamespaceIds(re, p + q[..|q| - 1]) + PieceIds(re, q[|q| - 1])
  {
    assert (p + q)[..|p + q| - 1] == p + q[..|q| - 1];
  }

  lemma NamespaceIdsCons(re: IdRegex, piece: string, rest: seq<string>)
    ensures NamespaceIds(re, [piece] + rest) == PieceIds(re, piece) + NamespaceIds(re, rest)
  {
    assert NamespaceIds(re, [piece]) == PieceIds(re, piece) by {
      assert [piece][..0] == [];
    }
    NamespaceIdsAppend(re, [piece], rest);
  }

  // ---------------------------------------------------------------------------------------------
  // The module's unit test

  /** The pieces of the unit test's pattern, in order, each written as its two halves. */
  const TEST_PIECES: seq<string> :=
    [ "CH4" + "-" + "CH7", " CH1  " + "-" + "CH2", " CH4" + "-" + "CH2", " CH1" + "-" + "CH1", " CH1" + "-" + "CH2",
      " EVAL1" + "-" + "     CH4 ", " EVAL1" + "-" + "EVAL3" ]

  /** The unit test's pattern string, written piece by piece. */
  const TEST_PATTERN: string :=
    ("CH4" + "-" + "CH7") + "," + (" CH1  " + "-" + "CH2") + "," + (" CH4" + "-" + "CH2") + "," + (" CH1" + "-" + "CH1") + ","
    + (" CH1" + "-" + "CH2") + "," + (" EVAL1" + "-" + "     CH4 ") + "," + (" EVAL1" + "-" + "EVAL3")

  /** The concatenation of per-piece id lists, in order. */
  function Flatten(outs: seq<seq<nat>>): seq<nat> {
    if outs == [] then [] else Flatten(outs[..|outs| - 1]) + outs[|outs| - 1]
  }

  /** A namespace is the concatenation of what its pieces contribute. */
  lemma {:induction false} NamespaceIdsFlatten(re: IdRegex, ps: seq<string>, outs: seq<seq<nat>>)
    requires |ps| == |outs| && forall k :: 0 <= k < |ps| ==> PieceIds(re, ps[k]) == outs[k]
    ensures NamespaceIds(re, ps) == Flatten(outs)
  {
    if ps != [] {
      NamespaceIdsFlatten(re, ps[..|ps| - 1], outs[..|outs| - 1]);
    }
  }

  /** A string without separator, after a separator, becomes the last piece. */
  lemma {:induction false} SplitBeforePiece(a: string, sep: char, b: string)
    requires sep !in b
    ensures Split(a + [sep] + b, sep) == Split(a, sep) + [b]
  {
    if a == [] {
      assert a + [sep] + b == [sep] + b;
      assert ([sep] + b)[1..] == b;
      SplitNoSeparator(b, sep);
    } else {
      SplitBeforePiece(a[1..], sep, b);
      assert (a + [sep] + b)[1..] == a[1..] + [sep] + b;
    }
  }

  lemma SplitSeven(a: string, b: string, c: string, d: string, e: string, f: string, g: string)
    requires ',' !in a && ',' !in b && ',' !in c && ',' !in d && ',' !in e && ',' !in f && ',' !in g
    ensures Split(a + "," + b + "," + c + "," + d + "," + e + "," + f + "," + g, ',') == [a, b, c, d, e, f, g]
  {
    SplitNoSeparator(a, ',');
    SplitBeforePiece(a, ',', b);
    SplitBeforePiece(a + "," + b, ',', c);
    SplitBeforePiece(a + "," + b + "," + c, ',', d);
    SplitBeforePiece(a + "," + b + "," + c + "," + d, ',', e);
    SplitBeforePiece(a + "," + b + "," + c + "," + d + "," + e, ',', f);
    SplitBeforePiece(a + "," + b + "," + c + "," + d + "," + e + "," + f, ',', g);
  }

  lemma TestPatternPieces()
    ensures Split(TEST_PATTERN, ',') == TEST_PIECES
  {
    SplitSeven("CH4" + "-" + "CH7", " CH1  " + "-" + "CH2", " CH4" + "-" + "CH2", " CH1" + "-" + "CH1", " CH1" + "-" + "CH2",
               " EVAL1" + "-" + "     CH4 ", " EVAL1" + "-" + "EVAL3");
  }

  const TEST_CHANNEL_OUTS: seq<seq<nat>> := [Range(4, 7), Range(1, 2), [], Range(1, 1), Range(1, 2), [], []]
  const TEST_CALCULATION_OUTS: seq<seq<nat>> := [[], [], [], [], [], [], Range(1, 3)]

  /** A range piece `h0-h1` whose halves are each one token, resolved. */
  lemma TokenRangePiece(re: IdRegex, h0: string, a0: nat, d0: string, h1: string, a1: nat, d1: string)
    requires |re.stem| > 0 && re.stem[0] != ' ' && '-' !in h0 && '-' !in h1
    requires |d0| > 0 && forall k :: 0 <= k < |d0| ==> IsDigit(d0[k])
    requires a0 + |re.stem| + 1 + |d0| <= |h0|
    requires forall k :: 0 <= k < a0 ==> h0[k] == ' '
    requires h0[a0..a0 + |re.stem|] == re.stem && h0[a0 + |re.stem|] == re.repeated
    requires h0[a0 + |re.stem| + 1..a0 + |re.stem| + 1 + |d0|] == d0
    requires forall k :: a0 + |re.stem| + 1 + |d0| <= k < |h0| ==> h0[k] == ' '
    requires |d1| > 0 && forall k :: 0 <= k < |d1| ==> IsDigit(d1[k])
    requires a1 + |re.stem| + 1 + |d1| <= |h1|
    requires forall k :: 0 <= k < a1 ==> h1[k] == ' '
    requires h1[a1..a1 + |re.stem|] == re.stem && h1[a1 + |re.stem|] == re.repeated
    requires h1[a1 + |re.stem| + 1..a1 + |re.stem| + 1 + |d1|] == d1
    requires forall k :: a1 + |re.stem| + 1 + |d1| <= k < |h1| ==> h1[k] == ' '
    ensures DigitsValue(d0) <= DigitsValue(d1) ==> PieceIds(re, h0 + "-" + h1) == Range(DigitsValue(d0), DigitsValue(d1))
    ensures DigitsValue(d0) > DigitsValue(d1) ==> PieceIds(re, h0 + "-" + h1) == []
  {
    SpacedToken(re, h0, a0, d0);
    SpacedToken(re, h1, a1, d1);
    PieceRange(re, h0, h1, DigitsValue(d0), DigitsValue(d1));
  }

  /** The regexes of the unit test, `CH+([0-9]+)` and `EVAL+([0-9]+)`, by their fields. */
  predicate TestRegexes(rc: IdRegex, rv: IdRegex) {
    rc.stem == "C" && rc.repeated == 'H' && rv.stem == "EVA" && rv.repeated == 'L'
  }

  /** The digit strings of the unit test's pattern and their values. */
  lemma TestDigits()
    ensures DigitsValue("1") == 1 && DigitsValue("2") == 2 && DigitsValue("3") == 3
    ensures DigitsValue("4") == 4 && DigitsValue("7") == 7
  {
  }

  lemma TestPiece0(rc: IdRegex, rv: IdRegex)
    requires TestRegexes(rc, rv)
    ensures PieceIds(rc, "CH4" + "-" + "CH7") == Range(4, 7)
    ensures PieceIds(rv, "CH4" + "-" + "CH7") == []
  {
    TestDigits();
    TokenRangePiece(rc, "CH4", 0, "4", "CH7", 0, "7");
    NoStemNoId(rv, "CH7");
    UnmatchedHalfSkipped(rv, "CH4", "CH7");
  }

  lemma TestPiece1(rc: IdRegex, rv: IdRegex)
    requires TestRegexes(rc, rv)
    ensures PieceIds(rc, " CH1  " + "-" + "CH2") == Range(1, 2)
    ensures PieceIds(rv, " CH1  " + "-" + "CH2") == []
  {
    TestDigits();
    TokenRangePiece(rc, " CH1  ", 1, "1", "CH2", 0, "2");
    NoStemNoId(rv, "CH2");
    UnmatchedHalfSkipped(rv, " CH1  ", "CH2");
  }

  lemma TestPiece2(rc: IdRegex, rv: IdRegex)
    requires TestRegexes(rc, rv)
    ensures PieceIds(rc, " CH4" + "-" + "CH2") == []
    ensures PieceIds(rv, " CH4" + "-" + "CH2") == []
  {
    TestDigits();
    TokenRangePiece(rc, " CH4", 1, "4", "CH2", 0, "2");
    NoStemNoId(rv, "CH2");
    UnmatchedHalfSkipped(rv, " CH4", "CH2");
  }

  lemma TestPiece3(rc: IdRegex, rv: IdRegex)
    requires TestRegexes(rc, rv)
    ensures PieceIds(rc, " CH1" + "-" + "CH1") == Range(1, 1)
    ensures PieceIds(rv, " CH1" + "-" + "CH1") == []
  {
    TestDigits();
    TokenRangePiece(rc, " CH1", 1, "1", "CH1", 0, "1");
    NoStemNoId(rv, "CH1");
    UnmatchedHalfSkipped(rv, " CH1", "CH1");
  }

  lemma TestPiece4(rc: IdRegex, rv: IdRegex)
    requires TestRegexes(rc, rv)
    ensures PieceIds(rc, " CH1" + "-" + "CH2") == Range(1, 2)
    ensures PieceIds(rv, " CH1" + "-" + "CH2") == []
  {
    TestDigits();
    TokenRangePiece(rc, " CH1", 1, "1", "CH2", 0, "2");
    NoStemNoId(rv, "CH2");
    UnmatchedHalfSkipped(rv, " CH1", "CH2");
  }

  lemma TestPiece5(rc: IdRegex, rv: IdRegex)
    requires TestRegexes(rc, rv)
    ensures PieceIds(rc, " EVAL1" + "-" + "     CH4 ") == []
    ensures PieceIds(rv, " EVAL1" + "-" + "     CH4 ") == []
  {
    NoStemNoId(rc, " EVAL1");
    UnmatchedHalfSkipped(rc, " EVAL1", "     CH4 ");
    NoStemNoId(rv, "     CH4 ");
    UnmatchedHalfSkipped(rv, " EVAL1", "     CH4 ");
  }

  lemma TestPiece6(rc: IdRegex, rv: IdRegex)
    requires TestRegexes(rc, rv)
    ensures PieceIds(rc, " EVAL1" + "-" + "EVAL3") == []
    ensures PieceIds(rv, " EVAL1" + "-" + "EVAL3") == Range(1, 3)
  {
    NoStemNoId(rc, " EVAL1");
    UnmatchedHalfSkipped(rc, " EVAL1", "EVAL3");
    TestDigits();
    TokenRangePiece(rv, " EVAL1", 1, "1", "EVAL3", 0, "3");
  }

  /** What piece `j` of the test pattern contributes to each namespace. */
  lemma TestPiece(rc: IdRegex, rv: IdRegex, j: nat)
    requires TestRegexes(rc, rv) && j < |TEST_PIECES|
    ensures PieceIds(rc, TEST_PIECES[j]) == TEST_CHANNEL_OUTS[j]
    ensures PieceIds(rv, TEST_PIECES[j]) == TEST_CALCULATION_OUTS[j]
  {
    if j == 0 {
      TestPiece0(rc, rv);
    } else if j == 1 {
      TestPiece1(rc, rv);
    } else if j == 2 {
      TestPiece2(rc, rv);
    } else if j == 3 {
      TestPiece3(rc, rv);
    } else if j == 4 {
      TestPiece4(rc, rv);
    } else if j == 5 {
      TestPiece5(rc, rv);
    } else {
      TestPiece6(rc, rv);
    }
  }

  lemma FlattenSeven(a: seq<nat>, b: seq<nat>, c: seq<nat>, d: seq<nat>, e: seq<nat>, f: seq<nat>, g: seq<nat>)
    ensures Flatten([a, b, c, d, e, f, g]) == a + b + c + d + e + f + g
  {
    assert [a][..0] == [];
    assert Flatten([a]) == a;
    assert [a, b][..1] == [a];
    assert Flatten([a, b]) == a + b;
    assert [a, b, c][..2] == [a, b];
    assert Flatten([a, b, c]) == a + b + c;
    assert [a, b, c, d][..3] == [a, b, c];
    assert Flatten([a, b, c, d]) == a + b + c + d;
    assert [a, b, c, d, e][..4] == [a, b, c, d];
    assert Flatten([a, b, c, d, e]) == a + b + c + d + e;
    assert [a, b, c, d, e, f][..5] == [a, b, c, d, e];
    assert Flatten([a, b, c, d, e, f]) == a + b + c + d + e + f;
    assert [a, b, c, d, e, f, g][..6] == [a, b, c, d, e, f];
  }

  lemma TestRanges()
    ensures Range(4, 7) == [4, 5, 6, 7] && Range(1, 2) == [1, 2] && Range(1, 1) == [1] && Range(1, 3) == [1, 2, 3]
  {
  }

  lemma TestChannelOuts()
    ensures Flatten(TEST_CHANNEL_OUTS) == [4, 5, 6, 7, 1, 2, 1, 1, 2]
  {
    TestRanges();
    FlattenSeven(Range(4, 7), Range(1, 2), [], Range(1, 1), Range(1, 2), [], []);
  }

  lemma TestCalculationOuts()
    ensures Flatten(TEST_CALCULATION_OUTS) == [1, 2, 3]
  {
    TestRanges();
    FlattenSeven([], [], [], [], [], [], Range(1, 3));
  }

  /** The physical channels the unit test expects: 4 to 7, 1 to 2, nothing, 1, 1 to 2. */
  lemma TestChannelIds(rc: IdRegex, rv: IdRegex)
    requires TestRegexes(rc, rv)
    ensures NamespaceIds(rc, TEST_PIECES) == [4, 5, 6, 7, 1, 2, 1, 1, 2]
  {
    forall j | 0 <= j < |TEST_PIECES| ensures PieceIds(rc, TEST_PIECES[j]) == TEST_CHANNEL_OUTS[j] {
      TestPiece(rc, rv, j);
    }
    NamespaceIdsFlatten(rc, TEST_PIECES, TEST_CHANNEL_OUTS);
    TestChannelOuts();
  }

  /** The calculations the unit test expects: 1 to 3, from the last piece only. */
  lemma TestCalculationIds(rc: IdRegex, rv: IdRegex)
    requires TestRegexes(rc, rv)
    ensures NamespaceIds(rv, TEST_PIECES) == [1, 2, 3]
  {
    forall j | 0 <= j < |TEST_PIECES| ensures PieceIds(rv, TEST_PIECES[j]) == TEST_CALCULATION_OUTS[j] {
      TestPiece(rc, rv, j);
    }
    NamespaceIdsFlatten(rv, TEST_PIECES, TEST_CALCULATION_OUTS);
    TestCalculationOuts();
  }

  /**
   * The unit test: the pattern resolves, channels first and then calculations, to the ids
   * 4, 5, 6, 7, 1, 2, 1, 1, 2, 1, 2, 3.
   */
  lemma ParsePatternTest(rc: IdRegex, rv: IdRegex)
    requires TestRegexes(rc, rv)
    ensures Resolve(ChannelPattern(TEST_PATTERN), rc, rv).Ok?
    ensures EntryIds(Resolve(ChannelPattern(TEST_PATTERN), rc, rv).value) == [4, 5, 6, 7, 1, 2, 1, 1, 2, 1, 2, 3]
  {
    TestPatternPieces();
    TestChannelIds(rc, rv);
    TestCalculationIds(rc, rv);
    ResolvedIds(ChannelPattern(TEST_PATTERN), rc, rv, TEST_PIECES, [4, 5, 6, 7, 1, 2, 1, 1, 2], [1, 2, 3]);
    TestIdsConcat();
  }

  lemma TestIdsConcat()
    ensures [4, 5, 6, 7, 1, 2, 1, 1, 2] + [1, 2, 3] == [4, 5, 6, 7, 1, 2, 1, 1, 2, 1, 2, 3]
  {
  }

  /** A non-empty pattern resolves to the ids of its pieces, channels first. */
  lemma ResolvedIds(cp: ChannelPattern, rc: IdRegex, rv: IdRegex, pieces: seq<string>, chIds: seq<nat>, calcIds: seq<nat>)
    requires cp.pattern != [] && Split(cp.pattern, ',') == pieces
    requires NamespaceIds(rc, pieces) == chIds && NamespaceIds(rv, pieces) == calcIds
    ensures Resolve(cp, rc, rv).Ok? && EntryIds(Resolve(cp, rc, rv).value) == chIds + calcIds
  {
  }
}
