/** Error responses, as everything above the bearer reads them. */
module Pdus {
  const ERROR_RSP := 0x01

  /** process_error. */
  function ProcessError(pdu: seq<int>): int { if |pdu| == 4 then pdu[3] else 0 }
}
