/** The status-code categorisation in `ChallanSender.on_response_received`.
    A non-2xx answer is not an error of the request: it is only labelled. */
module Status {
  import Decimal

  datatype Category = Success | Redirection | ClientError | ServerError

  /** The word shown after the code for each category. */
  function Label(c: Category): (r: string)
    ensures r == "Success" <==> c == Success
    ensures r == "Redirection" <==> c == Redirection
    ensures r == "Client Error" <==> c == ClientError
    ensures r == "Server Error" <==> c == ServerError
  {
    match c
    case Success => "Success"
    case Redirection => "Redirection"
    case ClientError => "Client Error"
    case ServerError => "Server Error"
  }

  /** The if/elif chain over the status code. Everything that is not 2xx,
      3xx or 4xx is reported as a server error, including codes below 200. */
  function Classify(code: int): (c: Category)
    ensures c == Success <==> 200 <= code < 300
    ensures c == Redirection <==> 300 <= code < 400
    ensures c == ClientError <==> 400 <= code < 500
    ensures c == ServerError <==> code < 200 || code >= 500
  {
    if 200 <= code < 300 then Success
    else if 300 <= code < 400 then Redirection
    else if 400 <= code < 500 then ClientError
    else ServerError
  }

  /** The hundreds band each category names; ServerError is the remainder. */
  ghost predicate InBand(code: int, c: Category) {
    match c
    case Success => code / 100 == 2
    case Redirection => code / 100 == 3
    case ClientError => code / 100 == 4
    case ServerError => code / 100 !in {2, 3, 4}
  }

  /** Every code is in exactly one band, and that band is the one the
      classifier reports. */
  lemma ClassifyPartition(code: int)
    ensures forall c :: InBand(code, c) <==> c == Classify(code)
  {
  }

  /** Different categories are shown with different words. */
  lemma LabelInjective(a: Category, b: Category)
    ensures Label(a) == Label(b) <==> a == b
  {
    if a != b {
      assert Label(a)[0] != Label(b)[0] || |Label(a)| != |Label(b)|;
    }
  }

  /** `f"{response.status_code} - {label}"`. */
  function StatusText(code: int): (r: string)
    ensures var n := |r| - |Label(Classify(code))|;
      n >= 3 && r[n - 3..n] == " - " && r[n..] == Label(Classify(code))
      && r[..n - 3] == Decimal.Show(code)
  {
    var r := Decimal.Show(code) + " - " + Label(Classify(code));
    var n := |r| - |Label(Classify(code))|;
    assert r[n - 3..n] == " - " && r[n..] == Label(Classify(code));
    assert r[..n - 3] == Decimal.Show(code);
    r
  }
}
