/** Recovering an instance id from a net id or an execution id (`app/src/lib/utils.ts`). */
module NetIds {
  import opened Wrappers
  import opened Text

  const PREFIX := "mekhan-"

  /** `instanceIdFromNet`: the last five hyphen-delimited groups. */
  function InstanceIdFromNet(net: Option<string>): Option<string> {
    if net.None? || !StartsWith(net.value, PREFIX) then None
    else
      var segs := Split(net.value[|PREFIX|..], '-');
      if |segs| < 5 then None else Some(Join(segs[|segs| - 5..], '-'))
  }

  /** `instanceIdFromExecution`: groups 5 to 10. */
  function InstanceIdFromExecution(execution: Option<string>): Option<string> {
    if execution.None? || !StartsWith(execution.value, PREFIX) then None
    else
      var segs := Split(execution.value[|PREFIX|..], '-');
      if |segs| < 10 then None else Some(Join(segs[5..10], '-'))
  }

  // ---------------------------------------------------------------------
  // The UUID text form: section 4 of RFC 9562
  // ---------------------------------------------------------------------

  predicate IsHex(c: char) {
    '0' <= c <= '9' || 'a' <= c <= 'f' || 'A' <= c <= 'F'
  }

  predicate AllHex(s: string) {
    forall i :: 0 <= i < |s| ==> IsHex(s[i])
  }

  /** Groups of 8, 4, 4, 4 and 12 hexadecimal digits, separated by hyphens. */
  predicate IsUuid(s: string) {
    && |s| == 36 && s[8] == '-' && s[13] == '-' && s[18] == '-' && s[23] == '-'
    && AllHex(s[..8]) && AllHex(s[9..13]) && AllHex(s[14..18]) && AllHex(s[19..23]) && AllHex(s[24..])
  }

  lemma HexAtom(s: string)
    requires AllHex(s)
    ensures Split(s, '-') == [s]
  {
    SplitAtom(s, '-');
  }

  lemma UuidGroups(s: string)
    requires IsUuid(s)
    ensures |Split(s, '-')| == 5
  {
    var a, b, c, d, e := s[..8], s[9..13], s[14..18], s[19..23], s[24..];
    HexAtom(a);
    HexAtom(b);
    HexAtom(c);
    HexAtom(d);
    HexAtom(e);
    assert s[19..] == d + ['-'] + e;
    SplitConcat(d, e, '-');
    assert s[14..] == c + ['-'] + s[19..];
    SplitConcat(c, s[19..], '-');
    assert s[9..] == b + ['-'] + s[14..];
    SplitConcat(b, s[14..], '-');
    assert s == a + ['-'] + s[9..];
    SplitConcat(a, s[9..], '-');
  }

  // ---------------------------------------------------------------------
  // Parsing undoes printing
  // ---------------------------------------------------------------------

  function NetId(ws: string, inst: string): string {
    "mekhan-" + ws + "-" + inst
  }

  function ExecutionId(ws: string, inst: string, run: string): string {
    "mekhan-" + ws + "-" + inst + "-" + run
  }

  lemma NetRoundTrip(ws: string, inst: string)
    requires IsUuid(ws) && IsUuid(inst)
    ensures InstanceIdFromNet(Some(NetId(ws, inst))) == Some(inst)
  {
    UuidGroups(inst);
    NetResultAfter(ws, inst);
  }

  lemma LegacyNetRoundTrip(inst: string)
    requires IsUuid(inst)
    ensures InstanceIdFromNet(Some(PREFIX + inst)) == Some(inst)
  {
    UuidGroups(inst);
    NetResultWhole(inst);
  }

  /** Whatever the run part is, hyphens included. */
  lemma ExecutionRoundTrip(ws: string, inst: string, run: string)
    requires IsUuid(ws) && IsUuid(inst)
    ensures InstanceIdFromExecution(Some(ExecutionId(ws, inst, run))) == Some(inst)
  {
    UuidGroups(ws);
    UuidGroups(inst);
    var id := ExecutionId(ws, inst, run);
    assert id[..|PREFIX|] == PREFIX && id[|PREFIX|..] == ws + ['-'] + (inst + ['-'] + run);
    SplitConcat(ws, inst + ['-'] + run, '-');
    SplitConcat(inst, run, '-');
    var segs := Split(id[|PREFIX|..], '-');
    assert segs[5..10] == Split(inst, '-');
    JoinSplit(inst, '-');
  }

  /** What the net parser returns, without parsing: the end of the net id, cut so that it
      has exactly five groups; nothing when there are fewer. */
  lemma NetResultIs(net: string, r: string)
    ensures InstanceIdFromNet(Some(net)) == Some(r) <==>
            && StartsWith(net, PREFIX) && |Split(r, '-')| == 5
            && (net == PREFIX + r || exists front :: net == PREFIX + front + "-" + r)
  {
    if InstanceIdFromNet(Some(net)) == Some(r) {
      NetResultSound(net, r);
    }
    if |Split(r, '-')| == 5 {
      if net == PREFIX + r {
        NetResultWhole(r);
      }
      if front :| net == PREFIX + front + "-" + r {
        NetResultAfter(front, r);
      }
    }
  }

  lemma NetResultWhole(r: string)
    requires |Split(r, '-')| == 5
    ensures InstanceIdFromNet(Some(PREFIX + r)) == Some(r)
  {
    JoinSplit(r, '-');
    assert (PREFIX + r)[|PREFIX|..] == r && (PREFIX + r)[..|PREFIX|] == PREFIX;
    assert Split(r, '-')[0..] == Split(r, '-');
  }

  lemma NetResultAfter(front: string, r: string)
    requires |Split(r, '-')| == 5
    ensures InstanceIdFromNet(Some(PREFIX + front + "-" + r)) == Some(r)
  {
    var net := PREFIX + front + "-" + r;
    JoinSplit(r, '-');
    assert net[|PREFIX|..] == front + ['-'] + r && net[..|PREFIX|] == PREFIX;
    SplitConcat(front, r, '-');
    var segs := Split(net[|PREFIX|..], '-');
    assert segs[|segs| - 5..] == Split(r, '-');
  }

  lemma NetResultSound(net: string, r: string)
    requires InstanceIdFromNet(Some(net)) == Some(r)
    ensures StartsWith(net, PREFIX) && |Split(r, '-')| == 5
    ensures net == PREFIX + r || exists front :: net == PREFIX + front + "-" + r
  {
    var rest := net[|PREFIX|..];
    var segs := Split(rest, '-');
    var n := |segs| - 5;
    JoinSplit(rest, '-');
    SplitParts(rest, '-');
    SplitJoin(segs[n..], '-');
    assert net == PREFIX + rest;
    if n == 0 {
      assert segs[0..] == segs;
    } else {
      assert segs == segs[..n] + segs[n..];
      JoinConcat(segs[..n], segs[n..], '-');
      var front := Join(segs[..n], '-');
      assert net == PREFIX + front + "-" + r;
    }
  }
}
