/** The pure decisions both hosts call into. */
module SessionPolicy {
  import opened Wrappers
  import opened Utf8
  import opened Decimal
  import opened ScrollbackSpec

  datatype Command = Shell | Claude | Custom(command: string)

  datatype EndReason =
    | Exit(code: int)
    | Signal(signal: int)
    | ServerGraceful
    | ServerCrash
    | DaemonGraceful
    | DaemonCrash

  /** Absent and zero both mean "not gated". */
  predicate ShouldDropStaleInput(generation: Option<nat>, currentGeneration: nat) {
    generation.Some? && generation.value != 0 && generation.value != currentGeneration
  }

  predicate ShouldPauseOutputForClients(flowPausedFlags: seq<bool>) {
    |flowPausedFlags| == 1 && flowPausedFlags[0]
  }

  predicate IsAutoResumable(command: Command, endReason: Option<EndReason>) {
    && !command.Custom?
    && endReason.Some?
    && (endReason.value.Exit? || endReason.value.Signal? || endReason.value.ServerGraceful? ||
        endReason.value.DaemonGraceful?)
  }

  function DeriveEndReason(signal: Option<int>, exitCode: int): EndReason {
    if signal.Some? && signal.value != 0 then Signal(signal.value) else Exit(exitCode)
  }

  function DeriveLoadFallbackEndReason(isDaemon: bool, wasGracefulShutdown: bool): EndReason {
    if isDaemon then (if wasGracefulShutdown then DaemonGraceful else DaemonCrash)
    else (if wasGracefulShutdown then ServerGraceful else ServerCrash)
  }

  /** The reconnect cursor as it travels: the sequence number is a decimal string. */
  datatype WireLastSeen = WireLastSeen(generation: nat, seqNo: string)

  function ParseLastSeen(lastSeen: Option<WireLastSeen>): Option<LastSeen> {
    if lastSeen.None? || !IsNumeral(lastSeen.value.seqNo) then None
    else Some(LastSeen(lastSeen.value.generation, NumeralValue(lastSeen.value.seqNo)))
  }

  /** Every cursor survives the trip through its wire form, and only numerals parse. */
  lemma CursorRoundTrip(c: LastSeen, malformed: WireLastSeen)
    ensures ParseLastSeen(Some(WireLastSeen(c.generation, Numeral(c.seqNo)))) == Some(c)
    ensures ParseLastSeen(Some(malformed)).Some? <==> IsNumeral(malformed.seqNo)
  {
    NumeralRoundTrip(c.seqNo);
  }
}
