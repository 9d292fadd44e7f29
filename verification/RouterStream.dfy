/** The body loop of a streaming response (`router/src/proxy.rs`). */
module RouterStream {
  import opened Wrappers
  import opened RouterMetrics

  /** What one turn of the biased select yields. */
  datatype Turn = CancelSeen | ChunkOk(usage: Option<Usage>) | ChunkError | EndOfStream

  /** Usage of the last chunk that carried any. */
  function LastUsage(turns: seq<Turn>): Option<Usage> {
    if turns == [] then None
    else
      var last := turns[|turns| - 1];
      if last.ChunkOk? && last.usage.Some? then last.usage else LastUsage(turns[..|turns| - 1])
  }

  /** Forwards chunks up to the first turn that is not one. `status` is absent
      when the turns run out first (the client went away). A stream that breaks
      counts an upstream error and then still ends as completed. */
  method StreamBody(turns: seq<Turn>)
    returns (forwarded: nat, usage: Option<Usage>, status: Option<MeterStatus>, broke: bool)
    ensures forwarded <= |turns|
    ensures forall i :: 0 <= i < forwarded ==> turns[i].ChunkOk?
    ensures usage == LastUsage(turns[..forwarded])
    ensures status.None? <==> forwarded == |turns|
    ensures status.Some? ==> !turns[forwarded].ChunkOk?
    ensures status.Some? ==> status.value == if turns[forwarded].CancelSeen? then Cancelled else Completed
    ensures broke <==> forwarded < |turns| && turns[forwarded].ChunkError?
  {
    forwarded, usage, broke := 0, None, false;
    var cancelled, ended := false, false;
    while forwarded < |turns| && !ended
      invariant forwarded <= |turns|
      invariant forall i :: 0 <= i < forwarded ==> turns[i].ChunkOk?
      invariant usage == LastUsage(turns[..forwarded])
      invariant ended ==> forwarded < |turns| && !turns[forwarded].ChunkOk?
      invariant cancelled <==> ended && turns[forwarded].CancelSeen?
      invariant broke <==> ended && turns[forwarded].ChunkError?
      decreases |turns| - forwarded, !ended
    {
      match turns[forwarded] {
        case CancelSeen => cancelled, ended := true, true;
        case ChunkOk(u) =>
          assert turns[..forwarded + 1][..forwarded] == turns[..forwarded];
          if u.Some? {
            usage := u;
          }
          forwarded := forwarded + 1;
        case ChunkError => broke, ended := true, true;
        case EndOfStream => ended := true;
      }
    }
    status := if !ended then None else if cancelled then Some(Cancelled) else Some(Completed);
  }
}
