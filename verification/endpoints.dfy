/** Endpoint selection (`ChallanSender.update_url`): the two-item selector
    chooses the target URL and the offence id sent with it. */
module Endpoints {

  datatype Endpoint = Endpoint(url: string, offenceId: string)

  const LiveUrl := "https://itmschallan.parivahan.gov.in/pushws/api/echallan/pushdata"
  const StagingUrl := "https://staging.parivahan.gov.in/pushws/api/echallan/pushdata"

  const Live := Endpoint(LiveUrl, "4391")
  const Staging := Endpoint(StagingUrl, "9759")

  /** The selector's entries, in order: "Live Challan URL", then
      "Testing Challan URL". */
  datatype Target = LiveTarget | TestingTarget

  function IndexOf(t: Target): int {
    match t
    case LiveTarget => 0
    case TestingTarget => 1
  }

  /** What each entry is meant to reach. */
  function EndpointFor(t: Target): Endpoint {
    match t
    case LiveTarget => Live
    case TestingTarget => Staging
  }

  /** `update_url` applied to the selector's current index. Only index 0 is
      the live service; any other index, including the -1 of an empty
      selector, goes to staging. */
  function SelectEndpoint(index: int): (e: Endpoint)
    ensures e == Live || e == Staging
    ensures e.url == LiveUrl <==> index == 0
    ensures e.offenceId == "4391" <==> index == 0
    ensures e.offenceId == "9759" <==> index != 0
  {
    if index == 0 then Live else Staging
  }

  /** Picking an entry from the selector reaches the endpoint that entry
      names, and the URL and offence id always travel together. */
  lemma SelectionAgreesWithTargets(t: Target, index: int)
    ensures SelectEndpoint(IndexOf(t)) == EndpointFor(t)
    ensures SelectEndpoint(index) == EndpointFor(if index == 0 then LiveTarget else TestingTarget)
    ensures SelectEndpoint(index).url == LiveUrl <==> SelectEndpoint(index).offenceId == "4391"
  {
  }
}
