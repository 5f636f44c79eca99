/** The `ChallanSender` widget as a state machine over the events Qt
    delivers to it: edits of the five fields, choices in the endpoint
    selector, clicks of the send button and the three signals of the
    background `Worker`. The send button's lifecycle (enabled, disabled
    while a request is out, enabled again) is the property that matters. */
module Sender {
  import opened Options
  import opened Capitalization
  import opened Identifiers
  import opened Timestamps
  import opened Endpoints
  import opened Status
  import opened Payload

  /** Formatted bodies longer than this open in a separate dialog. */
  const InlineLimit := 50

  const ErrorPrefix := "An error occurred: "

  /** One POST handed to the worker. */
  datatype Request = Request(url: string, body: Json)

  /** A response as the widget reads it. `pretty` is the indented rendering
      of the body when it parses as JSON, and None when parsing fails. */
  datatype Response = Response(status: int, text: string, pretty: Option<string>)

  /** What the one network attempt came to: a response, a
      `RequestException` (a timeout among them), or any other exception,
      which the worker does not catch. */
  datatype NetResult =
    | Answered(response: Response)
    | TransportError(description: string)
    | Escaped

  datatype Field = UserIdField | DistrictIdField | LocationField | DistrictField | OffCodeField

  datatype Event =
    | Typed(field: Field, text: string)
    | Selected(index: int)
    | Clicked(draw: Draw)
    | ResponseReceived(response: Response)
    | ErrorRaised(message: string)
    | Finished

  datatype Widget = Widget(
    form: FormFields,
    index: int,
    clock: Clock,
    image: string,
    ids: Ids,
    endpoint: Option<Endpoint>,
    enabled: bool,
    statusText: Option<string>,
    responseBody: string,
    dialog: Option<string>,
    posts: seq<Request>)

  /** Events whose random part came from `random.choices` over digits. */
  predicate ValidEvent(e: Event) {
    e.Clicked? ==> ValidDraw(e.draw)
  }

  predicate ValidEvents(es: seq<Event>) {
    forall i :: 0 <= i < |es| ==> ValidEvent(es[i])
  }

  /** `ChallanSender.__init__`: empty fields, the first selector entry, the
      button enabled, the dates fixed from the shifted start-up date and a
      first set of identifiers. `update_url` has not run yet. */
  function Init(base: Date, draw: Draw, image: string): (w: Widget)
    requires ValidDate(base) && ValidDraw(draw)
    ensures w.enabled && w.posts == [] && w.endpoint == None
    ensures w.index == 0 && w.form == FormFields("", "", "", "", "")
    ensures w.clock == AutoDates(base)
  {
    Widget(FormFields("", "", "", "", ""), 0, AutoDates(base), image, NewIds(draw),
           None, true, None, "", None, [])
  }

  /** The text shown for a response: the indented JSON when the body
      parses, the raw body text otherwise. */
  function Formatted(r: Response): (t: string)
    ensures r.pretty.Some? ==> t == r.pretty.value
    ensures r.pretty.None? ==> t == r.text
  {
    r.pretty.GetOr(r.text)
  }

  /** A user edit of one field. Location and District feed the re-entrant
      capitalisation handler; the numeric fields are stored as typed. */
  function Edit(f: FormFields, field: Field, text: string): (r: FormFields)
    ensures field == LocationField ==>
      r == f.(location := Capitalize(text), district := Capitalize(f.district))
    ensures field == DistrictField ==>
      r == f.(location := Capitalize(f.location), district := Capitalize(text))
    ensures field == UserIdField ==> r == f.(userId := text)
    ensures field == DistrictIdField ==> r == f.(districtId := text)
    ensures field == OffCodeField ==> r == f.(offCd := text)
  {
    match field
    case UserIdField => f.(userId := text)
    case DistrictIdField => f.(districtId := text)
    case OffCodeField => f.(offCd := text)
    case LocationField =>
      var out := OnTextChanged([text, f.district], 0);
      f.(location := out.fields[0], district := out.fields[1])
    case DistrictField =>
      var out := OnTextChanged([f.location, text], 0);
      f.(location := out.fields[0], district := out.fields[1])
  }

  /** The request `send_challan` hands to the worker. */
  function Outgoing(w: Widget, ids: Ids): (q: Request)
    ensures q.url == SelectEndpoint(w.index).url
    ensures PayloadFromJson(q.body) == Some(BuildNotice(w.form, SelectEndpoint(w.index), ids, w.clock, w.image))
  {
    var e := SelectEndpoint(w.index);
    var n := BuildNotice(w.form, e, ids, w.clock, w.image);
    PayloadRoundTrip(n);
    Request(e.url, PayloadToJson(n))
  }

  /** How the widget reacts to one event. */
  function Step(w: Widget, e: Event): (r: Widget)
    requires ValidEvent(e)
    ensures r.enabled <==> (e.ErrorRaised? || e.Finished? || (w.enabled && !e.Clicked?))
    ensures |r.posts| == |w.posts| + (if e.Clicked? && w.enabled then 1 else 0)
    ensures r.posts[..|w.posts|] == w.posts
    ensures r.clock == w.clock && r.image == w.image
    ensures e.Selected? ==> r.index == e.index
    ensures !e.Selected? ==> r.index == w.index
    ensures e.Typed? ==> r.form == Edit(w.form, e.field, e.text)
    ensures !e.Typed? ==> r.form == w.form
  {
    match e
    case Typed(field, text) => w.(form := Edit(w.form, field, text))
    case Selected(i) =>
      // `currentIndexChanged` fires only on an actual change.
      if i == w.index then w else w.(index := i, endpoint := Some(SelectEndpoint(i)))
    case Clicked(draw) =>
      // A disabled button emits no `clicked` signal.
      if !w.enabled then w
      else
        var ids := NewIds(draw);
        var r := w.(enabled := false, ids := ids, endpoint := Some(SelectEndpoint(w.index)),
                    posts := w.posts + [Outgoing(w, ids)]);
        assert r.posts[..|w.posts|] == w.posts;
        r
    case ResponseReceived(resp) =>
      var text := Formatted(resp);
      var shown := if |text| > InlineLimit then w.(dialog := Some(text)) else w.(responseBody := text);
      shown.(statusText := Some(StatusText(resp.status)))
    case ErrorRaised(message) => w.(enabled := true, responseBody := message)
    case Finished => w.(enabled := true)
  }

  function Run(w: Widget, es: seq<Event>): Widget
    requires ValidEvents(es)
    decreases |es|
  {
    if |es| == 0 then w else Run(Step(w, es[0]), es[1..])
  }

  /** The signals `Worker.run` emits for one network attempt: the outcome
      when it is a response or a caught `RequestException`, then `finished`
      from the `finally` clause. An exception the worker does not catch
      leaves `run` after `finished` alone. */
  function WorkerSignals(n: NetResult): (es: seq<Event>)
    ensures |es| >= 1 && es[|es| - 1] == Finished
    ensures |es| == 1 <==> n.Escaped?
    ensures !n.Escaped? ==> |es| == 2
    ensures n.Answered? ==> es[0] == ResponseReceived(n.response)
    ensures |es| == 2 ==> (es[0].ResponseReceived? <==> n.Answered?)
    ensures |es| == 2 ==> (es[0].ErrorRaised? <==> n.TransportError?)
    ensures n.TransportError? ==> es[0] == ErrorRaised(ErrorPrefix + n.description)
    ensures ValidEvents(es)
  {
    match n
    case Answered(resp) => [ResponseReceived(resp), Finished]
    case TransportError(d) => [ErrorRaised(ErrorPrefix + d), Finished]
    case Escaped => [Finished]
  }

  lemma RunPair(w: Widget, es: seq<Event>)
    requires |es| == 2 && ValidEvents(es)
    ensures Run(w, es) == Step(Step(w, es[0]), es[1])
  {
    var mid := Step(w, es[0]);
    assert Run(w, es) == Run(mid, es[1..]);
    assert es[1..][0] == es[1] && es[1..][1..] == [];
    assert Run(mid, es[1..]) == Run(Step(mid, es[1]), []);
  }

  lemma RunSingle(w: Widget, es: seq<Event>)
    requires |es| == 1 && ValidEvents(es)
    ensures Run(w, es) == Step(w, es[0])
  {
    assert es[1..] == [];
  }

  /** A disabled button ignores clicks: no request is posted and nothing
      changes. */
  lemma ClickWhileSendingIgnored(w: Widget, d: Draw)
    requires !w.enabled && ValidDraw(d)
    ensures Step(w, Clicked(d)) == w
  {
  }

  /** The button does not guard the whole attempt: `on_request_error`
      re-enables it before the worker's `finished` arrives, so a click in
      between posts a second request while the first worker has not yet
      signalled its end. */
  lemma SecondPostBeforeFinished(w: Widget, d1: Draw, d2: Draw, description: string)
    requires w.enabled && ValidDraw(d1) && ValidDraw(d2)
    ensures var afterError := Step(Step(w, Clicked(d1)), ErrorRaised(ErrorPrefix + description));
      && afterError.enabled
      && |Step(afterError, Clicked(d2)).posts| == |w.posts| + 2
  {
    ClickSends(w, d1);
  }

  /** A click on the enabled button disables it and posts exactly one
      request, built from the form as it stands and a fresh set of
      identifiers, to the endpoint the selector names. */
  lemma ClickSends(w: Widget, d: Draw)
    requires w.enabled && ValidDraw(d)
    ensures !Step(w, Clicked(d)).enabled
    ensures Step(w, Clicked(d)).posts == w.posts + [Outgoing(w, NewIds(d))]
    ensures Step(w, Clicked(d)).endpoint == Some(SelectEndpoint(w.index))
    ensures Step(w, Clicked(d)).endpoint.value.url == Outgoing(w, NewIds(d)).url
  {
  }

  /** The first click of a new window posts to the live service: the
      selector starts on its first entry and `update_url` runs inside
      `send_challan` even though no selection was ever made. */
  lemma FreshWindowPostsLive(base: Date, draw: Draw, image: string, d: Draw)
    requires ValidDate(base) && ValidDraw(draw) && ValidDraw(d)
    ensures var w := Init(base, draw, image);
      var q := Step(w, Clicked(d)).posts[0];
      && q.url == LiveUrl
      && PayloadFromJson(q.body).Some? && PayloadFromJson(q.body).value.offenceId == "4391"
  {
    ClickSends(Init(base, draw, image), d);
  }

  /** Choosing a selector entry decides where the next click posts: the
      URL and offence id of the entry chosen. */
  lemma SelectThenClick(w: Widget, t: Target, d: Draw)
    requires w.enabled && ValidDraw(d)
    ensures var q := Step(Step(w, Selected(IndexOf(t))), Clicked(d)).posts[|w.posts|];
      && q.url == EndpointFor(t).url
      && PayloadFromJson(q.body).Some?
      && PayloadFromJson(q.body).value.offenceId == EndpointFor(t).offenceId
  {
    var chosen := Step(w, Selected(IndexOf(t)));
    ClickSends(chosen, d);
    SelectionAgreesWithTargets(t, IndexOf(t));
  }

  /** Whichever of the three ways the attempt ends, the worker's signals leave the button
      enabled and post nothing further; a response alone does not re-enable
      it, only the `finished` that follows does. */
  lemma SignalsReEnable(sending: Widget, n: NetResult)
    requires !sending.enabled
    ensures n.Answered? ==> !Step(sending, WorkerSignals(n)[0]).enabled
    ensures Run(sending, WorkerSignals(n)).enabled
    ensures Run(sending, WorkerSignals(n)).posts == sending.posts
  {
    var es := WorkerSignals(n);
    if n.Escaped? {
      RunSingle(sending, es);
      var r := Step(sending, es[0]);
      assert |r.posts| == |sending.posts| && r.posts == r.posts[..|sending.posts|];
    } else {
      RunPair(sending, es);
      var mid := Step(sending, es[0]);
      var r := Step(mid, es[1]);
      assert |mid.posts| == |sending.posts| && mid.posts == mid.posts[..|sending.posts|];
      assert |r.posts| == |mid.posts| && r.posts == r.posts[..|mid.posts|];
    }
  }

  /** A transport failure is shown with its description and leaves the
      button enabled. */
  lemma TransportFailureReported(w: Widget, d: Draw, description: string)
    requires w.enabled && ValidDraw(d)
    ensures var after := Run(Step(w, Clicked(d)), WorkerSignals(TransportError(description)));
      after.enabled && after.responseBody == ErrorPrefix + description
  {
    ClickSends(w, d);
    RunPair(Step(w, Clicked(d)), WorkerSignals(TransportError(description)));
  }

  /** A response is labelled by its status category and its formatted body
      is shown: inline when short, in a dialog otherwise. */
  lemma ResponseReported(w: Widget, d: Draw, resp: Response)
    requires w.enabled && ValidDraw(d)
    ensures var after := Run(Step(w, Clicked(d)), WorkerSignals(Answered(resp)));
      && after.enabled
      && after.statusText == Some(StatusText(resp.status))
      && (|Formatted(resp)| <= InlineLimit ==> after.responseBody == Formatted(resp))
      && (|Formatted(resp)| > InlineLimit ==> after.dialog == Some(Formatted(resp)))
  {
    ClickSends(w, d);
    RunPair(Step(w, Clicked(d)), WorkerSignals(Answered(resp)));
  }

  /** The events of submissions made one after another, each round a click
      followed by the worker's signals for that attempt. */
  function Rounds(rounds: seq<(Draw, NetResult)>): (es: seq<Event>)
    requires forall i :: 0 <= i < |rounds| ==> ValidDraw(rounds[i].0)
    ensures ValidEvents(es)
    ensures |es| >= 2 * |rounds|
  {
    if |rounds| == 0 then []
    else [Clicked(rounds[0].0)] + WorkerSignals(rounds[0].1) + Rounds(rounds[1..])
  }

  lemma {:induction false} RunAppend(w: Widget, a: seq<Event>, b: seq<Event>)
    requires ValidEvents(a) && ValidEvents(b)
    ensures ValidEvents(a + b)
    ensures Run(w, a + b) == Run(Run(w, a), b)
    decreases |a|
  {
    if |a| == 0 {
      assert a + b == b;
    } else {
      assert (a + b)[0] == a[0] && (a + b)[1..] == a[1..] + b;
      RunAppend(Step(w, a[0]), a[1..], b);
    }
  }

  /** Any number of submissions in a row, whatever their outcomes: every
      click is honoured, each posts exactly one request, and the button ends
      enabled. */
  lemma {:induction false} SessionReEnables(w: Widget, rounds: seq<(Draw, NetResult)>)
    requires w.enabled
    requires forall i :: 0 <= i < |rounds| ==> ValidDraw(rounds[i].0)
    ensures Run(w, Rounds(rounds)).enabled
    ensures |Run(w, Rounds(rounds)).posts| == |w.posts| + |rounds|
    decreases |rounds|
  {
    if |rounds| > 0 {
      var d := rounds[0].0;
      var n := rounds[0].1;
      var first := [Clicked(d)] + WorkerSignals(n);
      assert ValidEvents(first);
      assert Rounds(rounds) == first + Rounds(rounds[1..]);
      RunAppend(w, first, Rounds(rounds[1..]));
      RunAppend(w, [Clicked(d)], WorkerSignals(n));
      assert Run(w, [Clicked(d)]) == Step(w, Clicked(d));
      ClickSends(w, d);
      SignalsReEnable(Step(w, Clicked(d)), n);
      SessionReEnables(Run(w, first), rounds[1..]);
    }
  }
}
