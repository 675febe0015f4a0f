/**
 * The display helpers of frontend/src/utils.ts: shortening an address and
 * naming and colouring a circle's status code.
 */
module Utils {
  import opened JsText

  function Min(a: int, b: int): int { if a < b then a else b }
  function Max(a: int, b: int): int { if a < b then b else a }

  /**
   * `formatAddress`: the empty string stays empty; otherwise the first six
   * characters, `...`, and the last four, each clamped to the string as
   * `slice` clamps (a short string contributes all of itself to both ends).
   */
  function FormatAddress(address: string): (r: string)
    ensures address == "" ==> r == ""
    ensures address != "" ==>
      r == address[..Min(6, |address|)] + "..." + address[Max(|address| - 4, 0)..]
  {
    if address == "" then "" else Slice(address, 0, 6) + "..." + SliceFrom(address, -4)
  }

  /** A string of ten or more characters (an account address has 42) shortens to 13: a 6-character prefix, `...`, a 4-character suffix. */
  lemma FormatAddressShape(address: string)
    requires |address| >= 10
    ensures var r := FormatAddress(address);
      && |r| == 13
      && r[..6] == address[..6]
      && r[6..9] == "..."
      && r[9..] == address[|address| - 4..]
  {
  }

  /** The shortened form never loses the ends it shows: its length is 3 + min(6, n) + min(4, n). */
  lemma FormatAddressLength(address: string)
    requires address != ""
    ensures |FormatAddress(address)| == 3 + Min(6, |address|) + Min(4, |address|)
  {
  }

  const Statuses: seq<string> := ["PENDING", "ACTIVE", "COMPLETED"]

  /** `getCircleStatus`: `statuses[status] || "UNKNOWN"`. */
  function GetCircleStatus(status: int): (r: string)
    ensures r == "PENDING" <==> status == 0
    ensures r == "ACTIVE" <==> status == 1
    ensures r == "COMPLETED" <==> status == 2
    ensures r == "UNKNOWN" <==> status < 0 || status > 2
  {
    if 0 <= status < |Statuses| && Statuses[status] != "" then Statuses[status] else "UNKNOWN"
  }

  const Yellow := "bg-yellow-100 text-yellow-800"
  const Green := "bg-green-100 text-green-800"
  const Gray := "bg-gray-100 text-gray-800"

  /** The `colors` object: keys 0, 1 and 2 only. */
  const Colors: map<int, string> := map[0 := Yellow, 1 := Green, 2 := Gray]

  /** `getStatusColor`: `colors[status] || gray`. */
  function GetStatusColor(status: int): (r: string)
    ensures r == Yellow <==> status == 0
    ensures r == Green <==> status == 1
    ensures r == Gray <==> status != 0 && status != 1
  {
    if status in Colors && Colors[status] != "" then Colors[status] else Gray
  }

  /**
   * Status 3 (a cancelled circle) has no name of its own and shows as UNKNOWN,
   * coloured like a completed circle.
   */
  lemma CancelledIsUnknown()
    ensures GetCircleStatus(3) == "UNKNOWN"
    ensures GetStatusColor(3) == GetStatusColor(2) == Gray
  {
  }

  /** Whenever the name is UNKNOWN the colour is the gray default, the same as COMPLETED's. */
  lemma UnknownStatusIsGray(status: int)
    requires GetCircleStatus(status) == "UNKNOWN"
    ensures GetStatusColor(status) == GetStatusColor(2)
  {
  }
}
