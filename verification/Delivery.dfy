/** Delivery state shown as a reaction. */
module Delivery {
  import opened Mattermost

  const EMOJI_PENDING: Emoji := "hourglass_flowing_sand"
  const EMOJI_SENT: Emoji := "envelope"
  const EMOJI_DELIVERED: Emoji := "white_check_mark"
  const EMOJI_READ: Emoji := "eyes"
  const EMOJI_FAILED: Emoji := "warning"

  // Which numbers of the protocol's status enumeration mean what; the protocol package itself is not modelled.
  datatype StatusCodes = StatusCodes(failed: set<int>, displayed: int, delivered: int, pending: set<int>)

  predicate Outgoing(status: int) { 0 < status < 100 }

  /** The reaction standing for a delivery state, "" for states not worth showing. */
  function StatusEmoji(codes: StatusCodes, status: int): (e: Emoji)
    ensures status <= 0 || status >= 100 ==> e == ""
    ensures 0 < status < 100 && status in codes.failed ==> e == "warning"
    ensures 0 < status < 100 && status !in codes.failed && status == codes.displayed ==> e == "eyes"
    ensures 0 < status < 100 && status !in codes.failed && status != codes.displayed && status == codes.delivered ==>
      e == "white_check_mark"
    ensures
      0 < status < 100 && status !in codes.failed + {codes.displayed, codes.delivered} && status in codes.pending ==>
      e == "hourglass_flowing_sand"
    ensures 0 < status < 100 && status !in codes.failed + {codes.displayed, codes.delivered} + codes.pending ==>
      e == "envelope"
  {
    if status == 0 then ""
    else if !Outgoing(status) then ""
    else if status in codes.failed then EMOJI_FAILED
    else if status == codes.displayed then EMOJI_READ
    else if status == codes.delivered then EMOJI_DELIVERED
    else if status in codes.pending then EMOJI_PENDING
    else EMOJI_SENT
  }
}
