/** The error numbers and fixed lines that at_host.c and main.c share. */
module Protocol {

  datatype Errno = Success | NoMem | Again | Busy | Access | Already | Invalid | NoEntry | Range | NotSup | NotConn |
                   MsgSize | Other

  const OK_LINE := "+OK"
  const INVALID_COMMAND := "+ERR=Invalid Command"
  const INVALID_PARAMETERS := "+ERR=Invalid Parameters"
  const FUNCTION_ERROR := "+ERR=Function Error"
  const ENTERED := "+IND=DATAMODE,1"
  const EXITED := "+IND=DATAMODE,0"

  /** What at_host.c says of the result of an operation. */
  function AnswerLine(e: Errno): string {
    if e == Success then OK_LINE
    else if e == Invalid || e == NoEntry || e == Range || e == MsgSize then INVALID_PARAMETERS
    else FUNCTION_ERROR
  }

  /** A response line tells the result of an operation: accepted, refused for its parameters, or failed. */
  predicate Tells(line: string, e: Errno) {
    && (line == "+OK" <==> e == Success)
    && (line == "+ERR=Invalid Parameters" <==> e == Invalid || e == NoEntry || e == Range || e == MsgSize)
    && (line == "+ERR=Function Error" <==>
          e == NoMem || e == Again || e == Busy || e == Access || e == Already || e == NotSup || e == NotConn || e == Other)
  }

  lemma AnswerTells(e: Errno)
    ensures Tells(AnswerLine(e), e)
  {
    assert |OK_LINE| == 3 && |INVALID_PARAMETERS| == 23 && |FUNCTION_ERROR| == 19;
  }

  /** struct ble_stream_stats. */
  datatype Stats = Stats(
    hostToBle: nat, bleToHost: nat, writeOps: nat, notifyOps: nat, backpressure: nat,
    maxHostToBle: nat, maxBleToHost: nat, entries: nat, unexpectedDisconnects: nat)
}
